/** What the objects do is what the system does: a worker's round and a squasher's pass are runs of their own events. */
module SystemRounds {
  import L = Limiter
  import R = LimiterRuns
  import Q = SlotQueue
  import opened LimiterNames
  import opened System
  import opened SystemInvariant
  import D = SystemDrains
  import opened MemoryQueues
  import S = Squashing
  import W = Rounds

  type Handle = MemoryQueuedMessage

  ghost function IdOf(m: Handle): Id {
    m.id
  }

  ghost function NamedLimit(l: L.Limit<Handle>): L.Limit<Id> {
    LimitNamed(l, IdOf)
  }

  /** The system's queue, limiter and squasher are those of the objects, with messages by their names. */
  ghost predicate Matches(p: Setup, s: State, w: W.Work) {
    && s.q == w.q
    && (w.limit.Some? <==> Limited(p))
    && (w.limit.Some? ==>
          && s.lim == NamedLimit(w.limit.value) && s.lim.clock <= w.clock
          && s.stopRequested == w.stopping
          && (s.sq.Asleep? <==> w.waiter.Asleep?) && (s.sq.Awake? <==> w.waiter.Awake?))
  }

  /** Fresh objects match the system's initial states. */
  lemma StartMatches(p: Setup, s: State, l: L.Limit<Handle>)
    requires Init(p, s) && L.Init(l) && l.clock == s.lim.clock
    ensures Matches(p, s, W.Work(Q.EMPTY, if Limited(p) then Q.Some(l) else Q.None, l.clock, S.Running, false))
  {
    assert NamedLimit(l).core.batches == map[] && NamedLimit(l).popped == [];
    assert NamedLimit(l).squashed == map[] && NamedLimit(l).sent == map[];
  }

  ghost predicate Named(all: seq<Handle>) {
    forall h | 0 <= h < |all| :: all[h].id == h
  }

  datatype Actor = Client | Worker(w: nat) | TheSquasher

  /** Whose step an event is; a signal's delivery is the runtime's, and counted to the clients here. */
  function ActorOf(e: Event): Actor {
    match e
    case Get(w) => Worker(w)
    case Reject(w) => Worker(w)
    case PrepareToPush(w, _, _) => Worker(w)
    case PushUnlimited(w) => Worker(w)
    case Answer(w, _) => Worker(w)
    case Resume(w) => Worker(w)
    case RequestStop(w) => Worker(w)
    case Poll(_, _) => TheSquasher
    case RecordBatch(_) => TheSquasher
    case RemoveNext => TheSquasher
    case _ => Client
  }

  /** A run of one actor's events leads from s to t. */
  ghost predicate Leads(p: Setup, a: Actor, s: State, t: State) {
    exists es :: Run(p, s, es) && Final(p, s, es) == t && forall i | 0 <= i < |es| :: ActorOf(es[i]) == a
  }

  lemma LeadsSelf(p: Setup, a: Actor, s: State)
    ensures Leads(p, a, s, s)
  {
    assert Run(p, s, []) && Final(p, s, []) == s;
  }

  lemma LeadsFirst(p: Setup, a: Actor, s: State, e: Event, t: State)
    requires Enabled(p, s, e) && ActorOf(e) == a && Leads(p, a, Next(p, s, e), t)
    ensures Leads(p, a, s, t)
  {
    hide Next, Enabled;
    var es :| Run(p, Next(p, s, e), es) && Final(p, Next(p, s, e), es) == t && forall i | 0 <= i < |es| :: ActorOf(es[i]) == a;
    assert ([e] + es)[1..] == es;
    assert Run(p, s, [e] + es) && Final(p, s, [e] + es) == t;
  }

  lemma LeadsOne(p: Setup, a: Actor, s: State, e: Event)
    requires Enabled(p, s, e) && ActorOf(e) == a
    ensures Leads(p, a, s, Next(p, s, e))
  {
    LeadsSelf(p, a, Next(p, s, e));
    hide Leads, Next, Enabled;
    LeadsFirst(p, a, s, e, Next(p, s, e));
  }

  lemma MatchedFields(p: Setup, s: State, w: W.Work)
    requires Matches(p, s, w) && Limited(p)
    ensures s.q == w.q && w.limit.Some? && s.stopRequested == w.stopping
  {
    hide NamedLimit;
  }

  // ---------- a worker's round ----------

  /** From s, the worker v gets to a state that matches w with its own place being pc. */
  ghost predicate EndsAs(p: Setup, s: State, v: nat, w: W.Work, pc: System.Worker) {
    exists t :: Leads(p, Worker(v), s, t) && Matches(p, t, w) && Is(t, v, pc)
  }

  lemma EndsNow(p: Setup, s: State, v: nat, e: Event, w: W.Work, pc: System.Worker)
    requires Enabled(p, s, e) && ActorOf(e) == Worker(v) && Matches(p, Next(p, s, e), w) && Is(Next(p, s, e), v, pc)
    ensures EndsAs(p, s, v, w, pc)
  {
    hide Next, Enabled, Matches, Leads;
    LeadsOne(p, Worker(v), s, e);
  }

  lemma EndsAfter(p: Setup, s: State, v: nat, e: Event, w: W.Work, pc: System.Worker)
    requires Enabled(p, s, e) && ActorOf(e) == Worker(v) && EndsAs(p, Next(p, s, e), v, w, pc)
    ensures EndsAs(p, s, v, w, pc)
  {
    hide Next, Enabled, Matches, Leads;
    var t :| Leads(p, Worker(v), Next(p, s, e), t) && Matches(p, t, w) && Is(t, v, pc);
    LeadsFirst(p, Worker(v), s, e, t);
  }

  lemma RejectEnds(p: Setup, s: State, v: nat, w: W.Work)
    requires Inv(p, s) && IsHolding(s, v) && Converted(p, s, s.workers[v].id).None? && Matches(p, s, w)
    ensures EndsAs(p, s, v, w.(q := Q.Remove(w.q, s.workers[v].id)), Idle)
  {
    CarriedIsOwned(s, v);
    hide Inv, NamedLimit, EndsAs;
    EndsNow(p, s, v, Reject(v), w.(q := Q.Remove(w.q, s.workers[v].id)), Idle);
  }

  lemma RetryEnds(p: Setup, s: State, v: nat, w: W.Work)
    requires Inv(p, s) && IsPushing(s, v) && Matches(p, s, w)
    ensures EndsAs(p, s, v, w.(q := Q.SetPending(w.q, s.workers[v].id, false)), Idle)
  {
    hide Inv, NamedLimit, EndsAs;
    var e, w' := Answer(v, L.TempFail), w.(q := Q.SetPending(w.q, s.workers[v].id, false));
    EndsNow(p, Next(p, s, e), v, Resume(v), w', Idle);
    hide Next, Enabled, Matches;
    EndsAfter(p, s, v, e, w', Idle);
  }

  lemma DoneEnds(p: Setup, s: State, v: nat, w: W.Work, status: L.PushStatus)
    requires Inv(p, s) && IsPushing(s, v) && Matches(p, s, w) && !status.TempFail?
    ensures EndsAs(p, s, v, w.(q := Q.Remove(w.q, s.workers[v].id)), Idle)
  {
    CarriedIsOwned(s, v);
    hide Inv, NamedLimit, EndsAs;
    EndsNow(p, s, v, Answer(v, status), w.(q := Q.Remove(w.q, s.workers[v].id)), Idle);
  }

  /** A push is answered, and the worker that must try again backs off. */
  lemma AnswerEnds(p: Setup, s: State, v: nat, w: W.Work, status: L.PushStatus)
    requires Inv(p, s) && IsPushing(s, v) && Matches(p, s, w)
    ensures var h := s.workers[v].id;
            EndsAs(p, s, v, w.(q := if status.TempFail? then Q.SetPending(w.q, h, false) else Q.Remove(w.q, h)), Idle)
  {
    hide Inv, Matches, EndsAs;
    if status.TempFail? {
      RetryEnds(p, s, v, w);
    } else {
      DoneEnds(p, s, v, w, status);
    }
  }

  /** The system's arrival of a held message is the object's, by name. */
  lemma ArrivalIsNamed(p: Setup, s: State, v: nat, w: W.Work, all: seq<Handle>, smsg: L.ServiceMessage, turn: W.Turn)
    requires Inv(p, s) && Limited(p) && IsHolding(s, v) && Converted(p, s, s.workers[v].id) == Q.Some(smsg) && Matches(p, s, w)
    requires Named(all) && s.workers[v].id < |all|
    ensures var l, qm := w.limit.value, all[s.workers[v].id];
            var e := W.ArrivalOf(l, w.clock, qm, v, smsg, turn);
            var prepare := PrepareToPush(v, e.readings, e.now);
            && L.Enabled(p.limit, l, e)
            && Enabled(p, s, prepare) && Arrival(p, s, v, e.readings, e.now) == EventNamed(e, IdOf)
            && L.OutcomeOf(p.limit, s.lim, EventNamed(e, IdOf)) == L.OutcomeOf(p.limit, l, e) != L.Panicked
            && L.Next(p.limit, s.lim, EventNamed(e, IdOf)) == NamedLimit(L.Next(p.limit, l, e))
  {
    var l, qm := w.limit.value, all[s.workers[v].id];
    var e := W.ArrivalOf(l, w.clock, qm, v, smsg, turn);
    hide Inv, L.Next, L.OutcomeOf;
    assert L.Enabled(p.limit, l, e);
    ArriveNamed(p.limit, l, e, IdOf);
    D.LimiterNeverPanics(p, s, PrepareToPush(v, e.readings, e.now));
  }

  lemma ClockAfter(cfg: L.Config, l: L.Limit<Handle>, e: L.Event<Handle>)
    requires L.Enabled(cfg, l, e)
    ensures NamedLimit(L.Next(cfg, l, e)).clock == e.now
  {}

  lemma PreparedMatches(p: Setup, s: State, v: nat, w: W.Work, all: seq<Handle>, smsg: L.ServiceMessage, turn: W.Turn)
    requires Inv(p, s) && Limited(p) && IsHolding(s, v) && Converted(p, s, s.workers[v].id) == Q.Some(smsg) && Matches(p, s, w)
    requires Named(all) && s.workers[v].id < |all| && w.limit.value.clock <= w.clock
    ensures var h := s.workers[v].id;
            var e := W.ArrivalOf(w.limit.value, w.clock, all[h], v, smsg, turn);
            var prepare := PrepareToPush(v, e.readings, e.now);
            var (w', squashed) := W.Prepared(p.limit, w, all[h], v, smsg, turn);
            && Enabled(p, s, prepare)
            && var t := Next(p, s, prepare);
            Matches(p, t, w') && Is(t, v, if squashed then Idle else Pushing(h))
  {
    hide Inv, L.Next, L.OutcomeOf, L.Enabled, LimitNamed, EventNamed, W.ArrivalOf, Converted;
    ArrivalIsNamed(p, s, v, w, all, smsg, turn);
    ClockAfter(p.limit, w.limit.value, W.ArrivalOf(w.limit.value, w.clock, all[s.workers[v].id], v, smsg, turn));
  }

  lemma UnlimitedMatches(p: Setup, s: State, v: nat, w: W.Work, qm: Handle, turn: W.Turn)
    requires Inv(p, s) && !Limited(p) && IsHolding(s, v) && Matches(p, s, w) && turn.smsg.Some?
    requires turn.smsg == Converted(p, s, s.workers[v].id)
    ensures Enabled(p, s, PushUnlimited(v))
    ensures var t := Next(p, s, PushUnlimited(v));
            && Inv(p, t) && IsPushing(t, v) && t.workers[v].id == s.workers[v].id
            && Matches(p, t, W.Prepared(p.limit, w, qm, v, turn.smsg.value, turn).0)
            && !W.Prepared(p.limit, w, qm, v, turn.smsg.value, turn).1
  {
    StepKeepsInv(p, s, PushUnlimited(v));
    hide Inv;
  }

  lemma GoesOn(p: Setup, s: State, v: nat, w: W.Work, all: seq<Handle>, turn: W.Turn, e: Event)
    requires IsHolding(s, v) && W.Fits(all, w) && s.workers[v].id < |all| && turn.smsg.Some?
    requires Enabled(p, s, e) && ActorOf(e) == Worker(v) && Inv(p, Next(p, s, e))
    requires |Next(p, s, e).q.records| > s.workers[v].id
    requires var (w', squashed) := W.Prepared(p.limit, w, all[s.workers[v].id], v, turn.smsg.value, turn);
             Matches(p, Next(p, s, e), w') && Is(Next(p, s, e), v, if squashed then Idle else Pushing(s.workers[v].id))
    ensures EndsAs(p, s, v, W.Disposed(p.limit, all, w, s.workers[v].id, v, turn).0, Idle)
  {
    var h := s.workers[v].id;
    var (w', squashed) := W.Prepared(p.limit, w, all[h], v, turn.smsg.value, turn);
    hide Inv, Matches, Enabled, Next, W.Fits, W.Prepared, EndsAs;
    if squashed {
      EndsNow(p, s, v, e, w', Idle);
    } else {
      AnswerEnds(p, Next(p, s, e), v, w', turn.status);
      EndsAfter(p, s, v, e, W.Disposed(p.limit, all, w, h, v, turn).0, Idle);
    }
  }

  /** A message in hand is disposed of as the object disposes of it. */
  lemma DisposeEnds(p: Setup, s: State, v: nat, w: W.Work, all: seq<Handle>, turn: W.Turn)
    requires Inv(p, s) && IsHolding(s, v) && Matches(p, s, w)
    requires W.Fits(all, w) && Named(all) && turn.smsg == Converted(p, s, s.workers[v].id)
    ensures EndsAs(p, s, v, W.Disposed(p.limit, all, w, s.workers[v].id, v, turn).0, Idle)
  {
    var h := s.workers[v].id;
    hide EndsAs, W.Prepared;
    if turn.smsg.None? {
      RejectEnds(p, s, v, w);
    } else if !Limited(p) {
      var t := Next(p, s, PushUnlimited(v));
      UnlimitedMatches(p, s, v, w, all[h], turn);
      AnswerEnds(p, t, v, W.Prepared(p.limit, w, all[h], v, turn.smsg.value, turn).0, turn.status);
      EndsAfter(p, s, v, PushUnlimited(v), W.Disposed(p.limit, all, w, h, v, turn).0, Idle);
    } else {
      var e := W.ArrivalOf(w.limit.value, w.clock, all[h], v, turn.smsg.value, turn);
      var prepare := PrepareToPush(v, e.readings, e.now);
      PreparedMatches(p, s, v, w, all, turn.smsg.value, turn);
      StepKeepsInv(p, s, prepare);
      hide Inv, Matches, Enabled, Next, W.Fits;
      GoesOn(p, s, v, w, all, turn, prepare);
    }
  }

  /** Where a round leaves its worker: out, blocked, or looking for the next message. */
  function PlaceAfter(q: Q.QueueState, turn: W.Turn): System.Worker {
    if turn.cancelled || turn.cancelledInGet || q.shuttingDown then Exited
    else if Q.FirstReady(q, 0) == |q.buf| then Blocked
    else Idle
  }

  /** The round and the system agree on whether the worker is cancelled and on what the first message converts to. */
  ghost predicate Agrees(p: Setup, s: State, turn: W.Turn) {
    && (s.cancelled <==> turn.cancelled || turn.cancelledInGet)
    && (!W.NothingToGet(s.q, turn) ==>
          var h := s.q.buf[Q.FirstReady(s.q, 0)].value; h < |s.q.records| && turn.smsg == Converted(p, s, h))
  }

  /**
   * A round of a worker's loop, as the objects perform it, is a run of that worker's events in the
   * system: getting, and then rejecting, or preparing and, unless squashed, pushing, answering and
   * backing off.
   */
  lemma TurnIsRun(p: Setup, s: State, v: nat, w: W.Work, all: seq<Handle>, turn: W.Turn)
    requires Inv(p, s) && Matches(p, s, w) && (Is(s, v, Idle) || Is(s, v, Woken)) && Agrees(p, s, turn)
    requires W.Fits(all, w) && Named(all)
    ensures EndsAs(p, s, v, W.TurnOn(p.limit, all, w, v, turn).0, PlaceAfter(s.q, turn))
  {
    var t := Next(p, s, Get(v));
    StepKeepsInv(p, s, Get(v));
    if W.NothingToGet(s.q, turn) {
      hide Inv, NamedLimit;
      EndsNow(p, s, v, Get(v), w, PlaceAfter(s.q, turn));
    } else {
      var h := s.q.buf[Q.FirstReady(s.q, 0)].value;
      hide Inv, NamedLimit, EndsAs;
      DisposeEnds(p, t, v, w.(q := Q.SetPending(w.q, h, true)), all, turn);
      EndsAfter(p, s, v, Get(v), W.TurnOn(p.limit, all, w, v, turn).0, Idle);
    }
  }

  // ---------- a squasher's pass ----------

  /** Where a pass leaves the squasher. */
  function SquasherAfter(w: W.Work): System.Squasher
    requires w.limit.Some?
  {
    if w.waiter.Running? && w.limit.value.core.batches == map[] then Asleep
    else if w.stopping then Stopped
    else Polling
  }

  ghost predicate PassEnds(p: Setup, s: State, w: W.Work, sq: System.Squasher) {
    exists t :: Leads(p, TheSquasher, s, t) && Matches(p, t, w) && t.sq == sq
  }

  lemma PassEndsNow(p: Setup, s: State, e: Event, w: W.Work, sq: System.Squasher)
    requires Enabled(p, s, e) && ActorOf(e) == TheSquasher && Matches(p, Next(p, s, e), w) && Next(p, s, e).sq == sq
    ensures PassEnds(p, s, w, sq)
  {
    hide Next, Enabled, Matches, Leads;
    LeadsOne(p, TheSquasher, s, e);
  }

  lemma PassEndsAfter(p: Setup, s: State, e: Event, w: W.Work, sq: System.Squasher)
    requires Enabled(p, s, e) && ActorOf(e) == TheSquasher && PassEnds(p, Next(p, s, e), w, sq)
    ensures PassEnds(p, s, w, sq)
  {
    hide Next, Enabled, Matches, Leads;
    var t :| Leads(p, TheSquasher, Next(p, s, e), t) && Matches(p, t, w) && t.sq == sq;
    LeadsFirst(p, TheSquasher, s, e, t);
  }

  lemma FirstIsInSlot(p: Setup, s: State)
    requires Inv(p, s) && s.sq.Removing? && s.sq.left != []
    ensures var h := s.sq.left[0]; h < |s.q.records| && s.q.records[h].idx < |s.q.buf|
  {
    var h := s.sq.left[0];
    assert h in InHand(s);
    assert s.owner[h] == WithSquasher;
  }

  /** The squasher has removed the first i of the messages ms. */
  ghost predicate Midway(p: Setup, s: State, w: W.Work, ms: seq<Handle>, i: nat) {
    && i <= |ms| && s.sq == Removing(Each(ms, IdOf)[i..])
    && w.waiter.Running? && Matches(p, s, w.(q := W.RemoveEach(w.q, ms[..i])))
  }

  lemma MidwayStep(p: Setup, s: State, t: State, w: W.Work, ms: seq<Handle>, i: nat)
    requires Inv(p, s) && Midway(p, s, w, ms, i) && i < |ms| && Enabled(p, s, RemoveNext) && t == Next(p, s, RemoveNext)
    ensures Midway(p, t, w, ms, i + 1)
  {
    hide Inv, NamedLimit, W.RemoveEach, Q.Remove;
    FirstIsInSlot(p, s);
    assert s.sq.left[0] == ms[i].id && s.sq.left[1..] == Each(ms, IdOf)[i + 1..];
    W.RemoveEachStep(w.q, ms, i);
  }

  lemma LastRemoval(p: Setup, s: State, t: State)
    requires Enabled(p, s, RemoveNext) && s.sq.left == [] && t == Next(p, s, RemoveNext)
    ensures t == s.(sq := Polling)
  {
    hide AfterPrepare, AfterPoll, AfterRecord, AfterGet;
  }

  lemma MidwayEnd(p: Setup, s: State, t: State, w: W.Work, ms: seq<Handle>)
    requires Midway(p, s, w, ms, |ms|) && Enabled(p, s, RemoveNext) && t == Next(p, s, RemoveNext)
    ensures t.sq == Polling && Matches(p, t, w.(q := W.RemoveEach(w.q, ms)))
  {
    hide NamedLimit, W.RemoveEach, Next, Each;
    assert ms[..|ms|] == ms && s.sq.left == [];
    LastRemoval(p, s, t);
  }

  lemma MidwayRemoves(p: Setup, s: State, w: W.Work, ms: seq<Handle>, i: nat)
    requires Midway(p, s, w, ms, i)
    ensures Enabled(p, s, RemoveNext)
  {}

  /** The squasher removes the messages of ms from the i-th on. */
  lemma {:induction false} RemovingEnds(p: Setup, s: State, w: W.Work, ms: seq<Handle>, i: nat)
    requires Inv(p, s) && i <= |ms| && Midway(p, s, w, ms, i)
    ensures PassEnds(p, s, w.(q := W.RemoveEach(w.q, ms)), Polling)
    decreases |ms| - i
  {
    MidwayRemoves(p, s, w, ms, i);
    hide Inv, Midway, Matches, Next, Enabled, PassEnds, W.RemoveEach;
    var t := Next(p, s, RemoveNext);
    if i == |ms| {
      MidwayEnd(p, s, t, w, ms);
      PassEndsNow(p, s, RemoveNext, w.(q := W.RemoveEach(w.q, ms)), Polling);
    } else {
      MidwayStep(p, s, t, w, ms, i);
      StepKeepsInv(p, s, RemoveNext);
      RemovingEnds(p, t, w, ms, i + 1);
      PassEndsAfter(p, s, RemoveNext, w.(q := W.RemoveEach(w.q, ms)), Polling);
    }
  }

  /** A poll that finds the batch of k due takes it, by name as by message. */
  lemma PollMatches(p: Setup, s: State, w: W.Work, k: L.Key, now: int)
    requires Inv(p, s) && Limited(p) && Matches(p, s, w) && (s.sq.Polling? || s.sq.Awake?)
    requires var l := w.limit.value; L.IsMinDue(l.core, k) && l.core.batches[k].due < now && w.clock <= now && !w.stopping
    ensures var l, e := w.limit.value, Poll(k, now);
            && L.Enabled(p.limit, l, L.Pop(k, now)) && Enabled(p, s, e)
            && var m, t := L.Next(p.limit, l, L.Pop(k, now)), Next(p, s, e);
            && t == s.(sq := Popped, lim := NamedLimit(m), owner := t.owner)
            && m.popped == [l.core.batches[k]] && NamedLimit(m).clock == now == m.clock
            && NamedLimit(m).popped[0].queuedMsgs == Each(l.core.batches[k].queuedMsgs, IdOf)
  {
    var l := w.limit.value;
    assert s.lim.popped == [] && |l.popped| == |s.lim.popped| && l.popped == [];
    hide Inv, Reassign;
    PopNamed(p.limit, l, k, now, IdOf);
  }

  lemma RecordMatches(p: Setup, s: State, w: W.Work, m: L.Limit<Handle>, now: int)
    requires Limited(p) && s.sq.Popped? && s.lim == NamedLimit(m) && |m.popped| == 1 && m.clock <= now && w.limit.Some?
    requires s.q == w.q && s.stopRequested == w.stopping
    ensures L.Enabled(p.limit, m, L.Record(now)) && Enabled(p, s, RecordBatch(now))
    ensures var t, w' := Next(p, s, RecordBatch(now)), w.(limit := Q.Some(L.Next(p.limit, m, L.Record(now))), clock := now, waiter := S.Running);
            && Matches(p, t, w') && t.sq == Removing(s.lim.popped[0].queuedMsgs) && t.q == s.q
  {
    RecordNamed(p.limit, m, now, IdOf);
  }

  lemma InvAgrees(p: Setup, s: State)
    requires Inv(p, s)
    ensures SquasherAgrees(p, s)
  {}

  lemma NamedBatches(p: Setup, l: L.Limit<Handle>, k: L.Key)
    ensures l.core.batches == map[] <==> NamedLimit(l).core.batches == map[]
    ensures L.IsMinDue(l.core, k) ==> L.IsMinDue(NamedLimit(l).core, k) && NamedLimit(l).core.batches[k].due == l.core.batches[k].due
  {
    assert NamedLimit(l).core.batches.Keys == l.core.batches.Keys;
  }

  /** A poll that hands out nothing. */
  lemma IdlePollEnds(p: Setup, s: State, w: W.Work, k: L.Key, now: int)
    requires Inv(p, s) && Limited(p) && Matches(p, s, w) && (s.sq.Polling? || s.sq.Awake?) && w.clock <= now
    requires var batches := w.limit.value.core.batches;
             && (batches != map[] ==> L.IsMinDue(w.limit.value.core, k))
             && (w.stopping || batches == map[] || now <= batches[k].due)
    ensures PassEnds(p, s, w.(clock := now, waiter := if SquasherAfter(w).Asleep? then S.Asleep else S.Running), SquasherAfter(w))
  {
    NamedBatches(p, w.limit.value, k);
    hide Inv, NamedLimit, PassEnds;
    assert SquasherAgrees(p, s) by { InvAgrees(p, s); }
    hide R.LimitInv;
    PassEndsNow(p, s, Poll(k, now), w.(clock := now, waiter := if SquasherAfter(w).Asleep? then S.Asleep else S.Running),
                SquasherAfter(w));
  }

  /** The work after the batch b, popped from m's limiter, is recorded and removed. */
  ghost function AfterSending(p: Setup, w: W.Work, ms: seq<Handle>, m: L.Limit<Handle>, now: int): W.Work
    requires L.Enabled(p.limit, m, L.Record(now))
  {
    W.Work(W.RemoveEach(w.q, ms), Q.Some(L.Next(p.limit, m, L.Record(now))), now, S.Running, w.stopping)
  }

  lemma RecordIsMidway(p: Setup, s: State, t: State, w: W.Work, ms: seq<Handle>, m: L.Limit<Handle>, now: int)
    requires Limited(p) && s.sq.Popped? && s.lim == NamedLimit(m) && |m.popped| == 1 && m.clock <= now && w.limit.Some?
    requires s.q == w.q && s.stopRequested == w.stopping && s.lim.popped[0].queuedMsgs == Each(ms, IdOf)
    requires L.Enabled(p.limit, m, L.Record(now)) && Enabled(p, s, RecordBatch(now)) && t == Next(p, s, RecordBatch(now))
    ensures Midway(p, t, AfterSending(p, w, ms, m, now).(q := w.q), ms, 0)
  {
    RecordMatches(p, s, w, m, now);
    hide NamedLimit, L.Next, L.Enabled, Next, Enabled;
    assert W.RemoveEach(w.q, ms[..0]) == w.q;
    assert Each(ms, IdOf)[0..] == Each(ms, IdOf);
  }

  lemma SendingEnds(p: Setup, s: State, w: W.Work, ms: seq<Handle>, m: L.Limit<Handle>, now: int)
    requires Inv(p, s) && Limited(p) && s.sq.Popped? && s.lim == NamedLimit(m) && |m.popped| == 1 && m.clock <= now && w.limit.Some?
    requires s.q == w.q && s.stopRequested == w.stopping && s.lim.popped[0].queuedMsgs == Each(ms, IdOf)
    ensures L.Enabled(p.limit, m, L.Record(now)) && PassEnds(p, s, AfterSending(p, w, ms, m, now), Polling)
  {
    hide Inv, Matches, Midway, Next, Enabled, PassEnds, NamedLimit, L.Next, L.Enabled, W.RemoveEach;
    var e := RecordBatch(now);
    RecordMatches(p, s, w, m, now);
    StepKeepsInv(p, s, e);
    RecordIsMidway(p, s, Next(p, s, e), w, ms, m, now);
    RemovingEnds(p, Next(p, s, e), AfterSending(p, w, ms, m, now).(q := w.q), ms, 0);
    PassEndsAfter(p, s, e, AfterSending(p, w, ms, m, now), Polling);
  }

  /** Whether a pass at that time hands out the batch of k, which is due first. */
  predicate Hands(w: W.Work, k: L.Key, polled: int)
    requires w.limit.Some?
  {
    !w.stopping && k in w.limit.value.core.batches && w.limit.value.core.batches[k].due < polled
  }

  lemma NothingPopped(p: Setup, s: State, w: W.Work)
    requires Inv(p, s) && Limited(p) && Matches(p, s, w) && !s.sq.Popped?
    ensures w.limit.value.clock <= w.clock && w.limit.value.popped == []
  {
    assert |s.lim.popped| == |w.limit.value.popped| && SquasherAgrees(p, s);
  }

  lemma HandingEnds(p: Setup, s: State, w: W.Work, k: L.Key, polled: int, now: int)
    requires Inv(p, s) && Limited(p) && Matches(p, s, w) && (s.sq.Polling? || s.sq.Awake?)
    requires Hands(w, k, polled) && L.IsMinDue(w.limit.value.core, k) && w.clock <= polled <= now
    ensures var l := w.limit.value;
            && L.Enabled(p.limit, l, L.Pop(k, polled))
            && var m := L.Next(p.limit, l, L.Pop(k, polled));
            && L.Enabled(p.limit, m, L.Record(now))
            && PassEnds(p, s, AfterSending(p, w, l.core.batches[k].queuedMsgs, m, now), Polling)
  {
    hide Inv, Matches, Next, Enabled, PassEnds, NamedLimit, L.Next, L.Enabled, L.IsMinDue, AfterSending, Each;
    MatchedFields(p, s, w);
    var l, e := w.limit.value, Poll(k, polled);
    PollMatches(p, s, w, k, polled);
    StepKeepsInv(p, s, e);
    var m := L.Next(p.limit, l, L.Pop(k, polled));
    SendingEnds(p, Next(p, s, e), w, l.core.batches[k].queuedMsgs, m, now);
    PassEndsAfter(p, s, e, AfterSending(p, w, l.core.batches[k].queuedMsgs, m, now), Polling);
  }

  lemma HandingIs(p: Setup, w: W.Work, k: L.Key, elapsed: nat, sending: nat)
    requires w.limit.Some? && w.limit.value.clock <= w.clock && w.limit.value.popped == []
    requires L.IsMinDue(w.limit.value.core, k) && Hands(w, k, w.clock + elapsed)
    ensures var l, polled := w.limit.value, w.clock + elapsed;
            && L.Enabled(p.limit, l, L.Pop(k, polled))
            && var m := L.Next(p.limit, l, L.Pop(k, polled));
            && L.Enabled(p.limit, m, L.Record(polled + sending))
            && W.PassOn(p.limit, w, k, elapsed, sending) == AfterSending(p, w, l.core.batches[k].queuedMsgs, m, polled + sending)
            && SquasherAfter(w).Polling?
  {
    hide W.RemoveEach;
  }

  lemma IdlingIs(p: Setup, w: W.Work, k: L.Key, elapsed: nat, sending: nat)
    requires w.limit.Some? && w.limit.value.clock <= w.clock && w.limit.value.popped == []
    requires w.limit.value.core.batches != map[] ==> L.IsMinDue(w.limit.value.core, k)
    requires !Hands(w, k, w.clock + elapsed)
    ensures W.PassOn(p.limit, w, k, elapsed, sending)
            == w.(clock := w.clock + elapsed, waiter := if SquasherAfter(w).Asleep? then S.Asleep else S.Running)
    ensures var batches := w.limit.value.core.batches;
            w.stopping || batches == map[] || (k in batches && w.clock + elapsed <= batches[k].due)
  {
    hide W.RemoveEach, L.Next;
  }

  /**
   * A pass of the squasher's loop, as the objects perform it, is a run of the squasher's events in the
   * system: a poll and, if it takes a batch, recording it and removing its messages one by one.
   */
  lemma PassIsRun(p: Setup, s: State, w: W.Work, k: L.Key, elapsed: nat, sending: nat)
    requires Inv(p, s) && Limited(p) && Matches(p, s, w) && (s.sq.Polling? || s.sq.Awake?)
    requires w.limit.value.core.batches != map[] ==> L.IsMinDue(w.limit.value.core, k)
    ensures w.limit.value.clock <= w.clock && w.limit.value.popped == []
    ensures PassEnds(p, s, W.PassOn(p.limit, w, k, elapsed, sending), SquasherAfter(w))
  {
    hide Inv, Matches, PassEnds, L.Next, L.Enabled, L.IsMinDue, AfterSending, SquasherAfter, W.PassOn;
    MatchedFields(p, s, w);
    NothingPopped(p, s, w);
    var polled := w.clock + elapsed;
    if Hands(w, k, polled) {
      HandingIs(p, w, k, elapsed, sending);
      HandingEnds(p, s, w, k, polled, polled + sending);
    } else {
      IdlingIs(p, w, k, elapsed, sending);
      IdlePollEnds(p, s, w, k, polled);
    }
  }
}
