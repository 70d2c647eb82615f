/** The pump's guarantees, for every run: ownership, removal, rate, shutdown. */
module SystemTheorems {
  import W = Window
  import L = Limiter
  import R = LimiterRuns
  import X = LimiterExact
  import C = LimiterClients
  import Q = SlotQueue
  import opened System
  import opened SystemInvariant
  import opened SystemWakeups

  // ---------- ownership ----------

  /** Where a message is, read off the queue, the workers, the batches and the squasher's hand alone. */
  ghost predicate At(s: State, h: Id, place: Place) {
    match place
    case Waiting => Q.InSlot(s.q, h) && !s.q.records[h].pending
    case WithWorker(w) => Holds(s, w, h)
    case InBatch(k) => h in MsgsOf(s.lim.core.batches, k)
    case WithSquasher => h in InHand(s)
    case Removed => h < |s.q.records| && !Q.InSlot(s.q, h)
  }

  /** Place by place, the history variable tells the truth. */
  lemma OwnerIsPlace(s: State, h: Id, place: Place)
    requires Ownership(s) && h < |s.q.records|
    ensures At(s, h, place) <==> s.owner[h] == place
  {
    match place
    case InBatch(k) => assert ListAgrees(MsgsOf(s.lim.core.batches, k), s.owner, InBatch(k));
    case _ =>
  }

  lemma RemovedMeansNoSlot(t: State, h: Id)
    requires h < |t.q.records|
    ensures At(t, h, Removed) <==> !Q.InSlot(t.q, h)
  {}

  lemma PlaceIsUnique(t: State, h: Id)
    requires Ownership(t) && h < |t.q.records|
    ensures exists place :: At(t, h, place)
    ensures forall a, b | At(t, h, a) && At(t, h, b) :: a == b
    ensures Q.InSlot(t.q, h) && t.q.records[h].pending <==>
              exists place :: At(t, h, place) && !place.Waiting? && !place.Removed?
  {
    assert !t.owner[h].Removed? ==> (t.q.records[h].pending <==> !t.owner[h].Waiting?);
    hide Ownership, At;
    forall a ensures At(t, h, a) <==> t.owner[h] == a {
      OwnerIsPlace(t, h, a);
    }
    assert At(t, h, t.owner[h]);
    OwnerIsPlace(t, h, Removed);
    RemovedMeansNoSlot(t, h);
  }

  /**
   * In every run each message ever queued is in exactly one place: waiting, with one worker, in one
   * batch, in the squasher's hand, or removed. It is pending in its slot just when it is with a
   * worker, in a batch or in the squasher's hand, and no batch lists it twice.
   */
  lemma OnePlace(p: Setup, s: State, es: seq<Event>, h: Id)
    requires Init(p, s) && Run(p, s, es) && h < |Final(p, s, es).q.records|
    ensures var t := Final(p, s, es);
            && (exists place :: At(t, h, place))
            && (forall a, b | At(t, h, a) && At(t, h, b) :: a == b)
            && (Q.InSlot(t.q, h) && t.q.records[h].pending <==>
                  exists place :: At(t, h, place) && !place.Waiting? && !place.Removed?)
            && Distinct(InHand(t)) && forall k :: Distinct(MsgsOf(t.lim.core.batches, k))
  {
    InitInv(p, s);
    RunKeepsInv(p, s, es);
    var t := Final(p, s, es);
    assert Ownership(t);
    forall k ensures Distinct(MsgsOf(t.lim.core.batches, k)) {
      assert ListAgrees(MsgsOf(t.lim.core.batches, k), t.owner, InBatch(k));
    }
    hide Inv;
    PlaceIsUnique(t, h);
  }

  // ---------- removal ----------

  /** The message a step takes out of the queue, if it takes one. */
  function RemovedBy(s: State, e: Event): Q.Option<Id> {
    match e
    case Reject(w) => if IsHolding(s, w) then Q.Some(s.workers[w].id) else Q.None
    case Answer(w, status) => if IsPushing(s, w) && !status.TempFail? then Q.Some(s.workers[w].id) else Q.None
    case RemoveNext => if s.sq.Removing? && s.sq.left != [] then Q.Some(s.sq.left[0]) else Q.None
    case _ => Q.None
  }

  /** What a step may do to the history of owners. */
  ghost predicate OwnerStep(s: State, t: State, e: Event) {
    && |s.owner| <= |t.owner|
    && (forall h | 0 <= h < |s.owner| && t.owner[h] != s.owner[h] ::
          match t.owner[h]
          case Waiting => e.Answer? && e.status.TempFail? && s.owner[h] == WithWorker(e.w)
          case WithWorker(w) => e == Get(w) && s.owner[h].Waiting? && !s.q.shuttingDown && !s.cancelled
          case InBatch(k) => e.PrepareToPush? && s.owner[h] == WithWorker(e.w)
          case WithSquasher => e.Poll? && s.owner[h] == InBatch(e.key)
          case Removed => RemovedBy(s, e) == Q.Some(h))
    && (RemovedBy(s, e).Some? ==>
          var h := RemovedBy(s, e).value;
          && h < |s.owner| && t.owner[h].Removed?
          && s.owner[h] == if e.RemoveNext? then WithSquasher else WithWorker(e.w))
  }

  lemma OwnerAfterShutdown(s: State)
    ensures AfterShutdown(s).owner == s.owner
  {}

  lemma OwnerAfterGet(p: Setup, s: State, w: nat)
    requires Inv(p, s) && Enabled(p, s, Get(w))
    ensures OwnerStep(s, AfterGet(s, w), Get(w))
  {
    var i := Q.FirstReady(s.q, 0);
    if !s.cancelled && !s.q.shuttingDown && i < |s.q.buf| {
      assert Q.InSlot(s.q, s.q.buf[i].value);
    }
  }

  lemma OwnerAfterDrop(p: Setup, s: State, w: nat, e: Event)
    requires Inv(p, s) && (IsHolding(s, w) || IsPushing(s, w))
    requires e == Reject(w) || (e.Answer? && e.w == w)
    requires RemovedBy(s, e) == Q.Some(s.workers[w].id)
    ensures OwnerStep(s, RemoveFromQueue(SetWorker(s, w, Idle), s.workers[w].id), e)
  {
    CarriedIsOwned(s, w);
    hide Inv;
  }

  lemma OwnerAfterPrepare(p: Setup, s: State, w: nat, readings: seq<int>, now: int)
    requires Inv(p, s) && Enabled(p, s, PrepareToPush(w, readings, now))
    ensures OwnerStep(s, AfterPrepare(p, s, w, readings, now), PrepareToPush(w, readings, now))
  {
    CarriedIsOwned(s, w);
    hide Inv, L.Next, L.Enabled, L.OutcomeOf;
  }

  lemma OwnerAfterPoll(p: Setup, s: State, key: L.Key, now: int)
    requires Inv(p, s) && Enabled(p, s, Poll(key, now))
    ensures OwnerStep(s, AfterPoll(p, s, key, now), Poll(key, now))
  {
    assert ListAgrees(MsgsOf(s.lim.core.batches, key), s.owner, InBatch(key));
    hide Inv, L.Next;
  }

  lemma OwnerAfterRemoveNext(p: Setup, s: State)
    requires Inv(p, s) && s.sq.Removing?
    ensures OwnerStep(s, AfterRemoveNext(s), RemoveNext)
  {
    if s.sq.left != [] {
      assert s.sq.left[0] in InHand(s);
      SlotsAfterRemove(s.q, s.owner, s.sq.left[0]);
      hide Inv, Ownership, SlotsAgree;
    }
  }

  lemma OwnerAfter(p: Setup, s: State, e: Event)
    requires Inv(p, s) && Enabled(p, s, e)
    ensures OwnerStep(s, Next(p, s, e), e)
  {
    hide AfterShutdown, AfterGet, AfterPrepare, AfterPoll, AfterRemoveNext, RemoveFromQueue, L.Enabled, L.Next, R.LimitInv;
    match e
    case Get(w) => OwnerAfterGet(p, s, w);
    case Reject(w) => OwnerAfterDrop(p, s, w, e);
    case PrepareToPush(w, readings, now) => OwnerAfterPrepare(p, s, w, readings, now);
    case Answer(w, status) =>
      CarriedIsOwned(s, w);
      if !status.TempFail? {
        OwnerAfterDrop(p, s, w, e);
      }
    case Poll(key, now) => OwnerAfterPoll(p, s, key, now);
    case RemoveNext => OwnerAfterRemoveNext(p, s);
    case Shutdown => OwnerAfterShutdown(s);
    case _ =>
  }

  lemma SlotsOfInv(p: Setup, s: State)
    requires Inv(p, s)
    ensures SlotsAgree(s.q, s.owner)
  {
    hide SlotsAgree;
  }

  lemma StepRemovesExactly(p: Setup, s: State, e: Event)
    requires Inv(p, s) && Enabled(p, s, e)
    ensures RemovedBy(s, e).Some? ==>
              var h := RemovedBy(s, e).value;
              Q.InSlot(s.q, h) && s.q.records[h].pending && !Q.InSlot(Next(p, s, e).q, h)
    ensures forall g | 0 <= g < |s.q.records| && RemovedBy(s, e) != Q.Some(g) ::
              Q.InSlot(Next(p, s, e).q, g) <==> Q.InSlot(s.q, g)
  {
    hide Inv, Next, Enabled, RemovedBy;
    StepKeepsInv(p, s, e);
    OwnerAfter(p, s, e);
    var t := Next(p, s, e);
    SlotsOfInv(p, s);
    SlotsOfInv(p, t);
    forall g | 0 <= g < |s.q.records| && RemovedBy(s, e) != Q.Some(g)
      ensures Q.InSlot(t.q, g) <==> Q.InSlot(s.q, g)
    {
      assert t.owner[g].Removed? <==> s.owner[g].Removed?;
    }
  }

  /**
   * In every run, a removal clears the slot of the very message it is for, which is still there and
   * still pending, and no step changes whether any other message is in its slot.
   */
  lemma RemovalIsExact(p: Setup, s: State, es: seq<Event>, e: Event)
    requires Init(p, s) && Run(p, s, es) && Enabled(p, Final(p, s, es), e)
    ensures var t, u := Final(p, s, es), Next(p, Final(p, s, es), e);
            && (RemovedBy(t, e).Some? ==>
                  var h := RemovedBy(t, e).value;
                  Q.InSlot(t.q, h) && t.q.records[h].pending && !Q.InSlot(u.q, h))
            && forall g | 0 <= g < |t.q.records| && RemovedBy(t, e) != Q.Some(g) ::
                 Q.InSlot(u.q, g) <==> Q.InSlot(t.q, g)
  {
    InitInv(p, s);
    RunKeepsInv(p, s, es);
    hide Inv, Next, Enabled;
    StepRemovesExactly(p, Final(p, s, es), e);
  }

  /** No run indexes a slot that does not exist, meets a batch of another queue, or sends a batch that does not exist. */
  lemma NeverCrashes(p: Setup, s: State, es: seq<Event>)
    requires Init(p, s) && Run(p, s, es)
    ensures !Final(p, s, es).crashed
  {
    InitInv(p, s);
    RunKeepsInv(p, s, es);
  }

  /** In every run, a stored or popped batch pairs each queued message with its own conversion, under that message's key. */
  lemma BatchesAreConversions(p: Setup, s: State, es: seq<Event>, b: L.Batch<Id>, k: L.Key)
    requires Init(p, s) && Run(p, s, es)
    requires var l := Final(p, s, es).lim;
             (k in l.core.batches && b == l.core.batches[k]) || (l.popped == [b] && b.key == k)
    ensures var t := Final(p, s, es);
            && b.key == k && b.queue == p.limit.queue
            && 0 < |b.queuedMsgs| == |b.serviceMsgs|
            && forall i | 0 <= i < |b.queuedMsgs| ::
                 && b.queuedMsgs[i] < |t.q.records|
                 && p.convert(t.q.records[b.queuedMsgs[i]].body) == Q.Some(b.serviceMsgs[i])
                 && b.serviceMsgs[i].squashKey == k
  {
    InitInv(p, s);
    RunKeepsInv(p, s, es);
    var t := Final(p, s, es);
    assert R.SafeKey(p.limit, t.lim, k);
    assert Conversions(p, t.q.records, b);
  }

  /** The conditions that only make a step well defined always hold: they exclude no run of the source. */
  lemma GuardsExcludeNothing(p: Setup, s: State, es: seq<Event>)
    requires Init(p, s) && Run(p, s, es)
    ensures var t := Final(p, s, es);
            && (forall w | 0 <= w < |t.workers| && t.workers[w].Holding? :: IsHolding(t, w))
            && (forall w | 0 <= w < |t.workers| && t.workers[w].Pushing? :: IsPushing(t, w))
            && (t.sq.Polling? || t.sq.Awake? ==> t.lim.popped == [])
            && (t.sq.Popped? ==> |t.lim.popped| == 1)
            && (forall h | h in InHand(t) :: Q.InSlot(t.q, h))
  {
    InitInv(p, s);
    RunKeepsInv(p, s, es);
    hide R.LimitInv, BatchesAgree, Converts;
  }

  // ---------- the queue inside the pump ----------

  function Dropped(s: State, e: Event): seq<Q.Op> {
    if RemovedBy(s, e).Some? then [Q.Drop(RemovedBy(s, e).value)] else []
  }

  /** The queue operation, if any, that a pump event performs. */
  function QueueOp(s: State, e: Event): seq<Q.Op> {
    match e
    case Enqueue(body) => [Q.Add(body)]
    case Get(w) =>
      var i := Q.FirstReady(s.q, 0);
      if s.cancelled || s.q.shuttingDown || i == |s.q.buf| then [] else [Q.Take(i)]
    case Answer(w, status) => if IsPushing(s, w) && status.TempFail? then [Q.Put(s.workers[w].id)] else Dropped(s, e)
    case Shutdown => [Q.Close]
    case _ => Dropped(s, e)
  }

  ghost function QueueOps(p: Setup, s: State, es: seq<Event>): seq<Q.Op>
    requires Run(p, s, es)
    decreases es
  {
    if es == [] then [] else QueueOp(s, es[0]) + QueueOps(p, Next(p, s, es[0]), es[1..])
  }

  /** A message about to be removed or requeued is in its slot, and pending. */
  lemma OpIsPossible(p: Setup, s: State, e: Event)
    requires Inv(p, s) && Enabled(p, s, e)
    ensures |QueueOp(s, e)| <= 1 && (QueueOp(s, e) != [] ==> Q.Possible(s.q, QueueOp(s, e)[0]))
  {
    StepRemovesExactly(p, s, e);
    if e.Answer? {
      CarriedIsOwned(s, e.w);
    }
    hide Inv, Next, Enabled;
  }

  /** Only enqueueing, getting, disposing and shutting down touch the queue. */
  lemma QueueStands(p: Setup, s: State, e: Event)
    requires Enabled(p, s, e)
    requires !e.Enqueue? && !e.Get? && !e.Reject? && !e.Answer? && !e.RemoveNext? && !e.Shutdown?
    ensures Next(p, s, e).q == s.q && QueueOp(s, e) == []
  {
    hide L.Enabled, L.Next, L.OutcomeOf, Reassign;
  }

  lemma QueueDrops(p: Setup, s: State, e: Event)
    requires Inv(p, s) && Enabled(p, s, e) && (e.Reject? || (e.Answer? && !e.status.TempFail?) || e.RemoveNext?)
    ensures RemovedBy(s, e).Some? ==> Q.InSlot(s.q, RemovedBy(s, e).value)
    ensures Next(p, s, e).q == if RemovedBy(s, e).Some? then Q.Remove(s.q, RemovedBy(s, e).value) else s.q
  {
    StepRemovesExactly(p, s, e);
    hide Inv;
  }

  lemma QueueDropsAre(s: State, e: Event)
    requires e.Reject? || (e.Answer? && !e.status.TempFail?) || e.RemoveNext?
    ensures QueueOp(s, e) == if RemovedBy(s, e).Some? then [Q.Drop(RemovedBy(s, e).value)] else []
  {}

  lemma QueueMoves(p: Setup, s: State, e: Event)
    requires Enabled(p, s, e) && (e.Enqueue? || e.Get? || (e.Answer? && e.status.TempFail?) || e.Shutdown?)
    requires QueueOp(s, e) != [] ==> Q.Possible(s.q, QueueOp(s, e)[0])
    ensures var ops := QueueOp(s, e); Next(p, s, e).q == if ops == [] then s.q else Q.Apply(s.q, ops[0])
  {
    hide Q.FirstReady, Q.Enqueue, Q.SetPending, AfterPrepare, AfterPoll, AfterRecord, L.Enabled;
  }

  lemma QueueStep(p: Setup, s: State, e: Event)
    requires Inv(p, s) && Enabled(p, s, e)
    ensures var ops, q' := QueueOp(s, e), Next(p, s, e).q;
            |ops| <= 1 && if ops == [] then q' == s.q else Q.Possible(s.q, ops[0]) && q' == Q.Apply(s.q, ops[0])
  {
    hide Inv, Next, Enabled, RemovedBy, Q.Possible, Q.InSlot;
    OpIsPossible(p, s, e);
    if e.Reject? || (e.Answer? && !e.status.TempFail?) || e.RemoveNext? {
      QueueDrops(p, s, e);
      QueueDropsAre(s, e);
    } else if e.Enqueue? || e.Get? || e.Answer? || e.Shutdown? {
      QueueMoves(p, s, e);
    } else {
      QueueStands(p, s, e);
    }
  }

  lemma QueueRunsOn(q: Q.QueueState, ops: seq<Q.Op>, q': Q.QueueState, rest: seq<Q.Op>)
    requires |ops| <= 1 && if ops == [] then q' == q else Q.Possible(q, ops[0]) && q' == Q.Apply(q, ops[0])
    requires Q.Runs(q', rest)
    ensures Q.Runs(q, ops + rest) && Q.After(q, ops + rest) == Q.After(q', rest)
  {
    hide Q.Possible, Q.Apply;
    if ops == [] {
      assert ops + rest == rest;
    } else {
      assert (ops + rest)[0] == ops[0] && (ops + rest)[1..] == rest;
    }
  }

  /** Every run of the pump is, for the queue, a run of the queue. */
  lemma {:induction false} RunProjectsToQueue(p: Setup, s: State, es: seq<Event>)
    requires Inv(p, s) && Run(p, s, es)
    ensures Q.Runs(s.q, QueueOps(p, s, es)) && Q.After(s.q, QueueOps(p, s, es)) == Final(p, s, es).q
    decreases es
  {
    hide Inv, Enabled, Next, QueueOp;
    if es != [] {
      var t := Next(p, s, es[0]);
      QueueStep(p, s, es[0]);
      StepKeepsInv(p, s, es[0]);
      RunProjectsToQueue(p, t, es[1..]);
      QueueRunsOn(s.q, QueueOp(s, es[0]), t.q, QueueOps(p, t, es[1..]));
    }
  }

  /** In every run of the pump the queue has exactly as many slots as messages were ever live at once. */
  lemma PumpSlotEconomy(p: Setup, s: State, es: seq<Event>)
    requires Init(p, s) && Run(p, s, es)
    ensures Q.Runs(Q.EMPTY, QueueOps(p, s, es))
    ensures |Final(p, s, es).q.buf| == Q.Peak(Q.EMPTY, QueueOps(p, s, es))
  {
    InitInv(p, s);
    RunProjectsToQueue(p, s, es);
    Q.SlotEconomy(QueueOps(p, s, es));
  }

  // ---------- the limiter inside the pump ----------

  /** The limiter event, if any, that a pump event performs. */
  ghost function LimitEvent(p: Setup, s: State, e: Event): seq<L.Event<Id>>
    requires Enabled(p, s, e)
  {
    match e
    case PrepareToPush(w, readings, now) => [Arrival(p, s, w, readings, now)]
    case Poll(key, now) => if AfterPoll(p, s, key, now).sq.Popped? then [L.Pop(key, now)] else []
    case RecordBatch(now) => [L.Record(now)]
    case _ => []
  }

  ghost function LimitEvents(p: Setup, s: State, es: seq<Event>): seq<L.Event<Id>>
    requires Run(p, s, es)
    decreases es
  {
    if es == [] then [] else LimitEvent(p, s, es[0]) + LimitEvents(p, Next(p, s, es[0]), es[1..])
  }

  /** The limiter moves only when the squasher's lock is taken to decide, to pop or to record. */
  lemma LimitStands(p: Setup, s: State, e: Event)
    requires Enabled(p, s, e) && !e.PrepareToPush? && !e.Poll? && !e.RecordBatch?
    ensures Next(p, s, e).lim == s.lim
  {
    hide L.Enabled, Q.Enqueue, Q.Remove, Q.FirstReady, Q.SetPending;
  }

  lemma LimitPolls(p: Setup, s: State, key: L.Key, now: int)
    requires Enabled(p, s, Poll(key, now))
    ensures var t := AfterPoll(p, s, key, now);
            if t.sq.Popped? then L.Enabled(p.limit, s.lim, L.Pop(key, now)) && t.lim == L.Next(p.limit, s.lim, L.Pop(key, now))
            else t.lim == s.lim
  {
    hide L.Next, Reassign;
  }

  lemma LimitStep(p: Setup, s: State, e: Event)
    requires Enabled(p, s, e)
    ensures var les, l' := LimitEvent(p, s, e), Next(p, s, e).lim;
            if les == [] then l' == s.lim
            else |les| == 1 && L.Enabled(p.limit, s.lim, les[0]) && l' == L.Next(p.limit, s.lim, les[0])
  {
    match e
    case PrepareToPush(w, readings, now) =>
      hide L.Next, L.OutcomeOf;
    case Poll(key, now) =>
      LimitPolls(p, s, key, now);
      hide AfterPoll, L.Next;
    case RecordBatch(now) =>
      hide L.Next;
    case _ =>
      LimitStands(p, s, e);
      hide Next, L.Next;
  }

  /** Every run of the pump is, for the limiter, a run of the limiter. */
  lemma {:induction false} RunProjects(p: Setup, s: State, es: seq<Event>)
    requires Run(p, s, es)
    ensures R.Run(p.limit, s.lim, LimitEvents(p, s, es))
    ensures R.Final(p.limit, s.lim, LimitEvents(p, s, es)) == Final(p, s, es).lim
    decreases es
  {
    if es != [] {
      LimitStep(p, s, es[0]);
      RunProjects(p, Next(p, s, es[0]), es[1..]);
      hide Enabled, Next, LimitEvent, L.Enabled, L.Next;
      var les, rest := LimitEvent(p, s, es[0]), LimitEvents(p, Next(p, s, es[0]), es[1..]);
      if les == [] {
        assert les + rest == rest;
      } else {
        assert (les + rest)[0] == les[0] && (les + rest)[1..] == rest;
      }
    }
  }

  /** In every run of the pump, any window of length ratePer holds at most rateMax + 2 recorded pushes of a key. */
  lemma PumpWindowBound(p: Setup, s: State, es: seq<Event>, k: L.Key, a: int)
    requires Limited(p) && Init(p, s) && Run(p, s, es)
    ensures W.InWindow(L.Lookup(Final(p, s, es).lim.hist, k), a, p.limit.ratePer) <= p.limit.rateMax + 2
  {
    RunProjects(p, s, es);
    R.WindowBound(p.limit, s.lim, LimitEvents(p, s, es), k, a);
  }

  /** The bound is rateMax + 1 if no worker pushes for a key between the popping and the recording of that key's batch. */
  lemma PumpPromptWindowBound(p: Setup, s: State, es: seq<Event>, k: L.Key, a: int)
    requires Limited(p) && Init(p, s) && Run(p, s, es)
    requires R.Run(p.limit, s.lim, LimitEvents(p, s, es)) ==> R.NeverOvertakes(p.limit, s.lim, LimitEvents(p, s, es), k)
    ensures W.InWindow(L.Lookup(Final(p, s, es).lim.hist, k), a, p.limit.ratePer) <= p.limit.rateMax + 1
  {
    RunProjects(p, s, es);
    R.PromptWindowBound(p.limit, s.lim, LimitEvents(p, s, es), k, a);
  }

  /**
   * For every bound b from rateMax on: in a run of the pump no window of length ratePer holds more
   * than b recorded pushes of k if and only if the squasher never records a batch of k while the
   * window then ending already holds b.
   */
  lemma PumpBoundHoldsExactly(p: Setup, s: State, es: seq<Event>, k: L.Key, b: int)
    requires 0 < p.limit.rateMax <= b && Init(p, s) && Run(p, s, es)
    ensures R.Run(p.limit, s.lim, LimitEvents(p, s, es))
    ensures L.Windows(L.Lookup(Final(p, s, es).lim.hist, k), p.limit.ratePer, b)
            <==> X.NeverCrowded(p.limit, s.lim, LimitEvents(p, s, es), k, b)
  {
    RunProjects(p, s, es);
    X.BoundHoldsExactly(p.limit, s.lim, LimitEvents(p, s, es), k, b);
  }

  /**
   * From any reachable state with a batch stored for k, until the clock passes its due time, the batch
   * only grows, and k records nothing but a batch popped before: no message for k is pushed directly.
   */
  lemma PumpGatedUntilDue(p: Setup, s: State, es: seq<Event>, fs: seq<Event>, k: L.Key)
    requires Limited(p) && Init(p, s) && Run(p, s, es) && Run(p, Final(p, s, es), fs)
    requires var t := Final(p, s, es); k in t.lim.core.batches && Final(p, t, fs).lim.clock <= t.lim.core.batches[k].due
    ensures var t, u := Final(p, s, es), Final(p, Final(p, s, es), fs);
            && R.Extends(t.lim.core.batches[k], u.lim, k)
            && L.Lookup(t.lim.hist, k) <= L.Lookup(u.lim.hist, k)
            && |L.Lookup(u.lim.hist, k)| + R.InFlight(u.lim, k) == |L.Lookup(t.lim.hist, k)| + R.InFlight(t.lim, k)
  {
    InitInv(p, s);
    RunKeepsInv(p, s, es);
    RunProjects(p, Final(p, s, es), fs);
    R.GatedUntilDue(p.limit, Final(p, s, es).lim, LimitEvents(p, Final(p, s, es), fs), k);
  }

  // ---------- whose client sends a batch ----------

  /** In state s the worker that b's client belongs to puts b's first message into a batch that was not there before. */
  ghost predicate OpenedBy(p: Setup, s: State, e: Event, b: L.Batch<Id>) {
    && Enabled(p, s, e) && e.PrepareToPush? && e.w == b.client
    && b.queuedMsgs != [] && Is(s, e.w, Holding(b.queuedMsgs[0]))
    && b.key !in s.lim.core.batches && b.queuedMsgs[0] in MsgsOf(Next(p, s, e).lim.core.batches, b.key)
  }

  /** Some event of the run opened b. */
  ghost predicate OpenedIn(p: Setup, s: State, es: seq<Event>, b: L.Batch<Id>) {
    exists i :: 0 <= i < |es| && Run(p, s, es[..i]) && OpenedBy(p, Final(p, s, es[..i]), es[i], b)
  }

  lemma OpenedNow(p: Setup, s: State, es: seq<Event>, b: L.Batch<Id>)
    requires es != [] && OpenedBy(p, s, es[0], b)
    ensures OpenedIn(p, s, es, b)
  {
    assert es[..0] == [] && Run(p, s, es[..0]) && Final(p, s, es[..0]) == s;
  }

  lemma OpenedLater(p: Setup, s: State, es: seq<Event>, b: L.Batch<Id>)
    requires es != [] && Enabled(p, s, es[0]) && OpenedIn(p, Next(p, s, es[0]), es[1..], b)
    ensures OpenedIn(p, s, es, b)
  {
    hide Enabled, Next, OpenedBy;
    var t, rest := Next(p, s, es[0]), es[1..];
    var i :| 0 <= i < |rest| && Run(p, t, rest[..i]) && OpenedBy(p, Final(p, t, rest[..i]), rest[i], b);
    assert es[..i + 1][1..] == rest[..i] && es[..i + 1][0] == es[0] && es[i + 1] == rest[i];
    assert Run(p, s, es[..i + 1]) && Final(p, s, es[..i + 1]) == Final(p, t, rest[..i]);
  }

  /** A limiter event that opens a batch is a worker's, with the worker's own client. */
  lemma OpensIsOpenedBy(p: Setup, s: State, e: Event, b: L.Batch<Id>)
    requires Enabled(p, s, e) && LimitEvent(p, s, e) != []
    requires L.Enabled(p.limit, s.lim, LimitEvent(p, s, e)[0]) && C.Opens(p.limit, s.lim, LimitEvent(p, s, e)[0], b)
    ensures OpenedBy(p, s, e, b)
  {
    hide L.Next, L.OutcomeOf;
    var a := LimitEvent(p, s, e)[0];
    assert e.PrepareToPush? && a == Arrival(p, s, e.w, e.readings, e.now);
    C.SquashedBatch(p.limit, s.lim, a);
  }

  lemma HasGrown(p: Setup, s: State, b: L.Batch<Id>)
    requires Limited(p) && Inv(p, s) && C.Has(s.lim, b)
    ensures C.Grew(b, b)
  {
    hide R.LimitInv;
    C.BatchIsWellFormed(p.limit, s.lim, b);
  }

  /** An opened batch stays opened while it grows. */
  lemma OpenedGrew(p: Setup, s: State, e: Event, c: L.Batch<Id>, b: L.Batch<Id>)
    requires OpenedBy(p, s, e, c) && C.Grew(c, b)
    ensures OpenedBy(p, s, e, b)
  {
    hide Enabled, Next;
    assert b.queuedMsgs[0] == c.queuedMsgs[0];
  }

  lemma GrewFurther(d: L.Batch<Id>, c: L.Batch<Id>, b: L.Batch<Id>)
    requires C.Grew(d, c) && C.Grew(c, b)
    ensures C.Grew(d, b)
  {}

  lemma LimitHolds(p: Setup, s: State)
    requires Limited(p) && Inv(p, s)
    ensures R.LimitInv(p.limit, s.lim)
  {
    hide R.LimitInv;
  }

  lemma BatchComesFrom(p: Setup, s: State, es: seq<Event>, c: L.Batch<Id>, b: L.Batch<Id>)
    requires Limited(p) && Inv(p, s) && es != [] && Enabled(p, s, es[0]) && C.Has(Next(p, s, es[0]).lim, c) && C.Grew(c, b)
    ensures OpenedIn(p, s, es, b) || exists d :: C.Has(s.lim, d) && C.Grew(d, b)
  {
    hide Inv, Enabled, Next, LimitEvent, OpenedIn, OpenedBy, L.Next, L.Enabled, C.Has, C.Opens, C.Grew, R.LimitInv;
    var e := es[0];
    LimitStep(p, s, e);
    LimitHolds(p, s);
    if LimitEvent(p, s, e) == [] {
      assert C.Has(s.lim, c) && C.Grew(c, b);
    } else {
      var a := LimitEvent(p, s, e)[0];
      C.StepOpens(p.limit, s.lim, a, c);
      if C.Opens(p.limit, s.lim, a, c) {
        OpensIsOpenedBy(p, s, e, c);
        OpenedGrew(p, s, e, c, b);
        OpenedNow(p, s, es, b);
      } else {
        var d :| C.Has(s.lim, d) && C.Grew(d, c);
        GrewFurther(d, c, b);
      }
    }
  }

  lemma {:induction false} BatchesComeFrom(p: Setup, s: State, es: seq<Event>, b: L.Batch<Id>)
    requires Limited(p) && Inv(p, s) && Run(p, s, es) && C.Has(Final(p, s, es).lim, b)
    ensures OpenedIn(p, s, es, b) || exists c :: C.Has(s.lim, c) && C.Grew(c, b)
    decreases es
  {
    if es == [] {
      hide Enabled, Next;
      HasGrown(p, s, b);
    } else {
      hide Inv, Enabled, Next, LimitEvent, OpenedIn, OpenedBy, C.Has, C.Grew;
      var t := Next(p, s, es[0]);
      StepKeepsInv(p, s, es[0]);
      BatchesComeFrom(p, t, es[1..], b);
      if OpenedIn(p, t, es[1..], b) {
        OpenedLater(p, s, es, b);
      } else {
        var c :| C.Has(t.lim, c) && C.Grew(c, b);
        BatchComesFrom(p, s, es, c, b);
      }
    }
  }

  /** In every run every stored or popped batch carries the client of the worker whose message opened it. */
  lemma BatchesHaveOpenersClient(p: Setup, s: State, es: seq<Event>, b: L.Batch<Id>)
    requires Limited(p) && Init(p, s) && Run(p, s, es)
    requires var l := Final(p, s, es).lim; (b.key in l.core.batches && l.core.batches[b.key] == b) || b in l.popped
    ensures exists i :: 0 <= i < |es| && Run(p, s, es[..i]) && OpenedBy(p, Final(p, s, es[..i]), es[i], b)
  {
    InitInv(p, s);
    hide Inv, Run, Final, OpenedBy;
    BatchesComeFrom(p, s, es, b);
  }

  // ---------- shutting down ----------

  function Disposals(s: State, e: Event, t: State, w: nat): nat {
    if w < |s.workers| == |t.workers| && Carries(s.workers[w]) && !Carries(t.workers[w]) then 1 else 0
  }

  ghost function DisposalCount(p: Setup, s: State, es: seq<Event>, w: nat): nat
    requires Run(p, s, es)
    decreases es
  {
    if es == [] then 0
    else Disposals(s, es[0], Next(p, s, es[0]), w) + DisposalCount(p, Next(p, s, es[0]), es[1..], w)
  }

  function Load(s: State, w: nat): nat {
    if w < |s.workers| && Carries(s.workers[w]) then 1 else 0
  }

  /** A step of a shut-down pump changes one worker at most, and never to one that carries something new. */
  ghost predicate NoNewLoad(s: State, t: State) {
    && t.q.shuttingDown
    && |t.workers| == |s.workers|
    && forall w | 0 <= w < |s.workers| && Carries(t.workers[w]) :: Carries(s.workers[w])
  }

  lemma ShutGet(s: State, w: nat)
    requires w < |s.workers| && s.q.shuttingDown
    ensures NoNewLoad(s, AfterGet(s, w))
  {}

  lemma ShutPrepare(p: Setup, s: State, w: nat, readings: seq<int>, now: int)
    requires Enabled(p, s, PrepareToPush(w, readings, now)) && s.q.shuttingDown
    ensures NoNewLoad(s, AfterPrepare(p, s, w, readings, now))
  {
    hide L.Next, L.Enabled, L.OutcomeOf;
  }

  lemma ShutSquasher(p: Setup, s: State, e: Event)
    requires Enabled(p, s, e) && s.q.shuttingDown && (e.Poll? || e.RecordBatch? || e.RemoveNext? || e.Shutdown?)
    ensures NoNewLoad(s, Next(p, s, e))
  {
    hide L.Next, L.Enabled, Reassign, L.IsMinDue;
  }

  lemma ShutLoad(p: Setup, s: State, e: Event, w: nat)
    requires Enabled(p, s, e) && s.q.shuttingDown
    ensures Next(p, s, e).q.shuttingDown && Disposals(s, e, Next(p, s, e), w) + Load(Next(p, s, e), w) <= Load(s, w)
  {
    hide L.Enabled, AfterGet, AfterPrepare, AfterPoll, AfterRecord, AfterRemoveNext, AfterShutdown;
    match e
    case Get(v) => ShutGet(s, v);
    case PrepareToPush(v, readings, now) => ShutPrepare(p, s, v, readings, now);
    case Poll(_, _) => ShutSquasher(p, s, e);
    case RecordBatch(_) => ShutSquasher(p, s, e);
    case RemoveNext => ShutSquasher(p, s, e);
    case Shutdown => ShutSquasher(p, s, e);
    case _ =>
  }

  /** Once shut down, a step gives no worker a message and leaves the waiting ones waiting. */
  lemma ShutStep(p: Setup, s: State, e: Event, w: nat)
    requires Inv(p, s) && Enabled(p, s, e) && s.q.shuttingDown
    ensures var t := Next(p, s, e);
            && t.q.shuttingDown
            && |s.owner| <= |t.owner|
            && (forall h | 0 <= h < |s.owner| && s.owner[h].Waiting? :: t.owner[h].Waiting?)
            && (forall h | 0 <= h < |s.owner| && t.owner[h].WithWorker? :: s.owner[h] == t.owner[h])
            && Disposals(s, e, t, w) + Load(t, w) <= Load(s, w)
  {
    OwnerAfter(p, s, e);
    ShutLoad(p, s, e, w);
    assert forall h | 0 <= h < |s.owner| && RemovedBy(s, e) == Q.Some(h) :: !s.owner[h].Waiting?;
  }

  lemma {:induction false} ShutRun(p: Setup, s: State, es: seq<Event>, w: nat)
    requires Inv(p, s) && WakeInv(s) && Run(p, s, es) && s.q.shuttingDown
    ensures var t := Final(p, s, es);
            && t.q.shuttingDown && !SomeBlocked(t.workers)
            && |s.owner| <= |t.owner|
            && (forall h | 0 <= h < |s.owner| && s.owner[h].Waiting? :: t.owner[h].Waiting?)
            && (forall h | 0 <= h < |s.owner| && t.owner[h].WithWorker? :: s.owner[h] == t.owner[h])
            && DisposalCount(p, s, es, w) + Load(t, w) <= Load(s, w) <= 1
    decreases es
  {
    if es != [] {
      StepKeepsInv(p, s, es[0]);
      StepKeepsWake(p, s, es[0]);
      ShutStep(p, s, es[0], w);
      hide Inv, Covered, Next, Enabled, Disposals, Load;
      ShutRun(p, Next(p, s, es[0]), es[1..], w);
    }
  }

  /**
   * Over every run that continues one in which Shutdown has happened: no worker is blocked, what
   * waited still waits, every message a worker still has it had already, and each worker disposes
   * of at most that one.
   */
  lemma ShutdownIsSafe(p: Setup, s: State, es: seq<Event>, fs: seq<Event>, w: nat)
    requires Init(p, s) && Run(p, s, es) && Run(p, Final(p, s, es), fs)
    requires Final(p, s, es).q.shuttingDown
    ensures var t, u := Final(p, s, es), Final(p, Final(p, s, es), fs);
            && (forall v | 0 <= v < |u.workers| :: !u.workers[v].Blocked?)
            && (forall h | 0 <= h < |t.q.records| && At(t, h, Waiting) :: At(u, h, Waiting))
            && (forall h, v | 0 <= h < |t.q.records| && At(u, h, WithWorker(v)) :: At(t, h, WithWorker(v)))
            && DisposalCount(p, t, fs, w) <= 1
  {
    InitWake(p, s);
    RunKeepsWake(p, s, es);
    var t, u := Final(p, s, es), Final(p, Final(p, s, es), fs);
    RunKeepsWake(p, t, fs);
    ShutRun(p, t, fs, w);
    assert Ownership(t) && Ownership(u) && |t.owner| == |t.q.records| && |u.owner| == |u.q.records|;
    hide Inv, WakeInv, Ownership, At;
    forall h | 0 <= h < |t.q.records| && At(t, h, Waiting) ensures At(u, h, Waiting) {
      OwnerIsPlace(t, h, Waiting);
      OwnerIsPlace(u, h, Waiting);
    }
    forall h, v | 0 <= h < |t.q.records| && At(u, h, WithWorker(v)) ensures At(t, h, WithWorker(v)) {
      OwnerIsPlace(t, h, WithWorker(v));
      OwnerIsPlace(u, h, WithWorker(v));
    }
  }
}
