/** The running pump never gets stuck: left alone, with no more failures, it can always finish all its messages. */
module SystemDrains {
  import L = Limiter
  import R = LimiterRuns
  import Q = SlotQueue
  import opened System
  import opened SystemInvariant
  import opened SystemWakeups
  import opened SystemProgress
  import opened SystemTheorems

  /** Events that need no client, no shutdown and no cancellation, and are no temporary failure. */
  predicate Quiet(e: Event) {
    !e.Enqueue? && !e.Shutdown? && !e.Cancel? && !Fails(e)
  }

  predicate AllQuiet(es: seq<Event>) {
    forall i | 0 <= i < |es| :: Quiet(es[i])
  }

  ghost predicate Active(p: Setup, s: State) {
    Inv(p, s) && WakeInv(s) && !s.q.shuttingDown && 0 < |s.workers|
  }

  lemma QuietQueue(p: Setup, s: State, e: Event)
    requires Enabled(p, s, e) && Quiet(e)
    ensures Next(p, s, e).q.shuttingDown == s.q.shuttingDown && |Next(p, s, e).q.records| == |s.q.records|
  {
    hide AfterPrepare, AfterPoll, AfterRecord, AfterShutdown, L.Enabled, Q.FirstReady;
    if !e.Get? && !e.Reject? && !e.Answer? && !e.RemoveNext? {
      QueueStands(p, s, e);
      hide Next, Enabled;
    }
  }

  lemma QuietKeepsActive(p: Setup, s: State, e: Event)
    requires Active(p, s) && Enabled(p, s, e) && Quiet(e)
    ensures Active(p, Next(p, s, e))
  {
    StepKeepsInv(p, s, e);
    StepKeepsWake(p, s, e);
    hide Inv, WakeInv;
    QuietQueue(p, s, e);
  }

  /** A quiet run brings the messages, taken together, nearer to removal. */
  ghost predicate Lowers(p: Setup, s: State) {
    exists es :: Run(p, s, es) && AllQuiet(es) && Total(Final(p, s, es).owner) < Total(s.owner)
  }

  lemma LowersNow(p: Setup, s: State, e: Event)
    requires Active(p, s) && Enabled(p, s, e) && Quiet(e) && Moves(p, s, e)
    ensures Lowers(p, s)
  {
    StepPays(p, s, e);
    hide Active, Next, Enabled;
    var t := Next(p, s, e);
    assert Run(p, t, []) && Final(p, t, []) == t && [e][1..] == [];
    assert Run(p, s, [e]) && Final(p, s, [e]) == t;
  }

  lemma LowersAfter(p: Setup, s: State, e: Event)
    requires Active(p, s) && Enabled(p, s, e) && Quiet(e) && Lowers(p, Next(p, s, e))
    ensures Lowers(p, s)
  {
    StepPays(p, s, e);
    hide Active, Next, Enabled;
    var t := Next(p, s, e);
    var es :| Run(p, t, es) && AllQuiet(es) && Total(Final(p, t, es).owner) < Total(t.owner);
    assert ([e] + es)[1..] == es;
    assert Run(p, s, [e] + es) && AllQuiet([e] + es) && Final(p, s, [e] + es) == Final(p, t, es);
  }

  // ---------- a message with a worker ----------

  lemma PushingLowers(p: Setup, s: State, w: nat)
    requires Active(p, s) && IsPushing(s, w)
    ensures Lowers(p, s)
  {
    CarriedIsOwned(s, w);
    hide Inv;
    LowersNow(p, s, Answer(w, L.Success));
  }

  lemma LimiterNeverPanics(p: Setup, s: State, e: Event)
    requires Inv(p, s) && Enabled(p, s, e) && e.PrepareToPush?
    ensures !L.OutcomeOf(p.limit, s.lim, Arrival(p, s, e.w, e.readings, e.now)).Panicked?
  {
    hide L.Next, L.OutcomeOf;
    R.StepKeepsLimit(p.limit, s.lim, Arrival(p, s, e.w, e.readings, e.now));
  }

  lemma PreparedGoesOn(p: Setup, s: State, e: Event)
    requires Active(p, s) && Enabled(p, s, e) && e.PrepareToPush?
    ensures Next(p, s, e).owner != s.owner || IsPushing(Next(p, s, e), e.w)
  {
    CarriedIsOwned(s, e.w);
    LimiterNeverPanics(p, s, e);
    hide Inv, L.Next, L.Enabled, L.OutcomeOf;
  }

  /** A message that is prepared is squashed, or pushed directly and then answered. */
  lemma PreparingLowers(p: Setup, s: State, w: nat, smsg: L.ServiceMessage)
    requires Active(p, s) && Limited(p) && IsHolding(s, w) && Converted(p, s, s.workers[w].id) == Q.Some(smsg)
    ensures Lowers(p, s)
  {
    CarriedIsOwned(s, w);
    var n := |L.Lookup(s.lim.core.pushedAt, smsg.squashKey)|;
    var e := PrepareToPush(w, seq(n, _ => s.lim.clock), s.lim.clock);
    assert Enabled(p, s, e);
    QuietKeepsActive(p, s, e);
    PreparedGoesOn(p, s, e);
    hide Next, Enabled, Active, Lowers;
    if Next(p, s, e).owner != s.owner {
      LowersNow(p, s, e);
    } else {
      PushingLowers(p, Next(p, s, e), w);
      LowersAfter(p, s, e);
    }
  }

  lemma HoldingLowers(p: Setup, s: State, w: nat)
    requires Active(p, s) && IsHolding(s, w)
    ensures Lowers(p, s)
  {
    CarriedIsOwned(s, w);
    hide Inv, Lowers;
    match Converted(p, s, s.workers[w].id)
    case None => LowersNow(p, s, Reject(w));
    case Some(smsg) =>
      if Limited(p) {
        PreparingLowers(p, s, w, smsg);
      } else {
        QuietKeepsActive(p, s, PushUnlimited(w));
        PushingLowers(p, Next(p, s, PushUnlimited(w)), w);
        LowersAfter(p, s, PushUnlimited(w));
      }
  }

  // ---------- a message with the squasher ----------

  lemma RemovingLowers(p: Setup, s: State)
    requires Active(p, s) && s.sq.Removing? && s.sq.left != []
    ensures Lowers(p, s)
  {
    var h := s.sq.left[0];
    assert h in InHand(s) && s.owner[h] == WithSquasher;
    SlotsAfterRemove(s.q, s.owner, h);
    hide Inv;
    LowersNow(p, s, RemoveNext);
  }

  lemma PoppedLowers(p: Setup, s: State)
    requires Active(p, s) && s.sq.Popped? && InHand(s) != []
    ensures Lowers(p, s)
  {
    hide Lowers, L.Next, Ownership, R.LimitInv, Converts, WakeInv;
    var e := RecordBatch(s.lim.clock);
    assert Enabled(p, s, e) && Next(p, s, e).sq == Removing(InHand(s));
    QuietKeepsActive(p, s, e);
    hide Active, Inv, Next, Enabled;
    RemovingLowers(p, Next(p, s, e));
    LowersAfter(p, s, e);
  }

  // ---------- a message in a batch ----------

  lemma PollTakes(p: Setup, s: State, k: L.Key, now: int)
    requires Enabled(p, s, Poll(k, now)) && !s.stopRequested && k in s.lim.core.batches && s.lim.core.batches[k].due < now
    ensures Next(p, s, Poll(k, now)).owner == Reassign(s.owner, s.lim.core.batches[k].queuedMsgs, WithSquasher)
  {
    hide L.Next, Reassign, L.IsMinDue;
  }

  lemma PollIsPossible(p: Setup, s: State) returns (k: L.Key, now: int)
    requires Active(p, s) && (s.sq.Polling? || s.sq.Awake?) && s.lim.core.batches != map[]
    ensures Limited(p) && Enabled(p, s, Poll(k, now)) && !s.stopRequested
    ensures k in s.lim.core.batches && s.lim.core.batches[k].due < now
  {
    hide Ownership, R.LimitInv, Converts, Covered;
    assert s.lim.core.batches.Keys != {};
    k := L.SomeMinDue(s.lim.core, s.lim.core.batches.Keys);
    var due := s.lim.core.batches[k].due;
    now := 1 + if s.lim.clock < due then due else s.lim.clock;
  }

  /** A poll when the batch due first is past its due time takes it. */
  lemma PollLowers(p: Setup, s: State)
    requires Active(p, s) && (s.sq.Polling? || s.sq.Awake?) && s.lim.core.batches != map[]
    ensures Lowers(p, s)
  {
    var k, now := PollIsPossible(p, s);
    PopPays(p, s, k);
    PollTakes(p, s, k, now);
    hide Active, Inv, Next, Enabled, Reassign, Lowers;
    LowersNow(p, s, Poll(k, now));
  }

  lemma HandIsFull(p: Setup, s: State)
    requires Inv(p, s) && Limited(p) && s.sq.Popped?
    ensures InHand(s) != []
  {
    assert R.SafeKey(p.limit, s.lim, s.lim.popped[0].key);
  }

  /** While a message is in a batch of a running pump, the squasher has something to do. */
  lemma SquasherAtWork(p: Setup, s: State, h: Id)
    requires Active(p, s) && h < |s.owner| && s.owner[h].InBatch?
    ensures s.lim.core.batches != map[]
    ensures s.sq.Popped? || s.sq.Removing? || s.sq.Polling? || s.sq.Awake?
    ensures s.sq.Popped? ==> InHand(s) != []
  {
    InBatchIsStored(s, h);
    if s.sq.Popped? {
      HandIsFull(p, s);
    }
    hide R.LimitInv, Converts, Covered;
  }

  lemma BatchedLowers(p: Setup, s: State, h: Id)
    requires Active(p, s) && h < |s.owner| && s.owner[h].InBatch?
    ensures Lowers(p, s)
  {
    SquasherAtWork(p, s, h);
    hide Lowers, Inv, WakeInv;
    match s.sq
    case Popped => PoppedLowers(p, s);
    case Removing(left) =>
      if left != [] {
        RemovingLowers(p, s);
      } else {
        QuietKeepsActive(p, s, RemoveNext);
        PollLowers(p, Next(p, s, RemoveNext));
        LowersAfter(p, s, RemoveNext);
      }
    case _ => PollLowers(p, s);
  }

  // ---------- a waiting message ----------

  lemma GetLowers(p: Setup, s: State, w: nat, h: Id)
    requires Active(p, s) && (Is(s, w, Idle) || Is(s, w, Woken))
    requires h < |s.owner| && s.owner[h].Waiting?
    ensures Lowers(p, s)
  {
    var i := Q.FirstReady(s.q, 0);
    assert Q.Ready(s.q, s.q.records[h].idx);
    assert Q.InSlot(s.q, s.q.buf[i].value);
    assert !s.cancelled;
    hide Inv, WakeInv, Lowers;
    LowersNow(p, s, Get(w));
  }

  lemma CanLook(p: Setup, s: State, w: nat)
    requires Active(p, s) && w < |s.workers| && !s.workers[w].Blocked?
    ensures IsHolding(s, w) || IsPushing(s, w) || Is(s, w, BackingOff) || Is(s, w, Idle) || Is(s, w, Woken)
  {
    if Carries(s.workers[w]) {
      CarriedIsOwned(s, w);
    }
  }

  /** If all workers are blocked beside a waiting message, a signal has yet to be delivered. */
  lemma SignalOnItsWay(p: Setup, s: State, h: Id)
    requires Active(p, s) && h < |s.owner| && s.owner[h].Waiting?
    requires forall w | 0 <= w < |s.workers| :: s.workers[w].Blocked?
    ensures 0 < s.signals
  {
    var i := s.q.records[h].idx;
    assert i in ReadySlots(s.q) && ReadySlots(s.q) != {};
    assert s.workers[0].Blocked?;
    assert WokenWorkers(s.workers) == {};
  }

  /** Some worker is or can be brought to look for a message, or has one already. */
  lemma WaitingLowers(p: Setup, s: State, h: Id)
    requires Active(p, s) && h < |s.owner| && s.owner[h].Waiting?
    ensures Lowers(p, s)
  {
    hide Lowers;
    if w :| 0 <= w < |s.workers| && !s.workers[w].Blocked? {
      CanLook(p, s, w);
      hide Inv, WakeInv;
      match s.workers[w]
      case Holding(_) => HoldingLowers(p, s, w);
      case Pushing(_) => PushingLowers(p, s, w);
      case BackingOff =>
        QuietKeepsActive(p, s, Resume(w));
        GetLowers(p, Next(p, s, Resume(w)), w, h);
        LowersAfter(p, s, Resume(w));
      case Idle => GetLowers(p, s, w, h);
      case Woken => GetLowers(p, s, w, h);
      case _ => assert false;
    } else {
      SignalOnItsWay(p, s, h);
      hide Inv, WakeInv;
      var e := Deliver(Q.Some(0));
      QuietKeepsActive(p, s, e);
      GetLowers(p, Next(p, s, e), 0, h);
      LowersAfter(p, s, e);
    }
  }

  // ---------- every message ----------

  lemma HolderIsThere(p: Setup, s: State, h: Id, w: nat)
    requires Inv(p, s) && h < |s.owner| && s.owner[h] == WithWorker(w)
    ensures IsHolding(s, w) || IsPushing(s, w)
  {
    assert WorkersAgree(s.workers, s.owner) && |s.owner| == |s.q.records|;
  }

  /** Wherever a message is, a quiet run brings some message nearer to removal. */
  lemma UnfinishedLowers(p: Setup, s: State, h: Id)
    requires Active(p, s) && h < |s.owner| && !s.owner[h].Removed?
    ensures Lowers(p, s)
  {
    hide Lowers;
    match s.owner[h]
    case Waiting => WaitingLowers(p, s, h);
    case WithWorker(w) =>
      HolderIsThere(p, s, h, w);
      hide Inv;
      if s.workers[w].Holding? {
        HoldingLowers(p, s, w);
      } else {
        PushingLowers(p, s, w);
      }
    case InBatch(_) => BatchedLowers(p, s, h);
    case WithSquasher =>
      assert h in InHand(s);
      hide Inv;
      if s.sq.Popped? {
        PoppedLowers(p, s);
      } else {
        RemovingLowers(p, s);
      }
    case Removed =>
  }

  ghost predicate Empties(p: Setup, s: State) {
    exists es :: Run(p, s, es) && AllQuiet(es) && forall h | 0 <= h < |s.q.records| :: !Q.InSlot(Final(p, s, es).q, h)
  }

  lemma {:induction false} RunConcat(p: Setup, s: State, es: seq<Event>, fs: seq<Event>)
    requires Run(p, s, es) && Run(p, Final(p, s, es), fs)
    ensures Run(p, s, es + fs) && Final(p, s, es + fs) == Final(p, Final(p, s, es), fs)
    decreases es
  {
    hide Next, Enabled;
    if es == [] {
      assert es + fs == fs;
    } else {
      assert (es + fs)[0] == es[0] && (es + fs)[1..] == es[1..] + fs;
      RunConcat(p, Next(p, s, es[0]), es[1..], fs);
    }
  }

  lemma {:induction false} QuietRun(p: Setup, s: State, es: seq<Event>)
    requires Active(p, s) && Run(p, s, es) && AllQuiet(es)
    ensures Active(p, Final(p, s, es)) && |Final(p, s, es).q.records| == |s.q.records|
    decreases es
  {
    hide Active, Next, Enabled;
    if es != [] {
      QuietKeepsActive(p, s, es[0]);
      QuietQueue(p, s, es[0]);
      QuietRun(p, Next(p, s, es[0]), es[1..]);
    }
  }

  lemma EmptiesAfter(p: Setup, s: State, es: seq<Event>)
    requires Run(p, s, es) && AllQuiet(es) && |Final(p, s, es).q.records| == |s.q.records| && Empties(p, Final(p, s, es))
    ensures Empties(p, s)
  {
    hide Run, Final, Q.InSlot;
    var t := Final(p, s, es);
    var fs :| Run(p, t, fs) && AllQuiet(fs) && forall h | 0 <= h < |t.q.records| :: !Q.InSlot(Final(p, t, fs).q, h);
    RunConcat(p, s, es, fs);
    assert Run(p, s, es + fs) && AllQuiet(es + fs);
  }

  lemma {:induction false} ActiveEmpties(p: Setup, s: State)
    requires Active(p, s)
    ensures Empties(p, s)
    decreases Total(s.owner)
  {
    if h :| 0 <= h < |s.owner| && !s.owner[h].Removed? {
      UnfinishedLowers(p, s, h);
      hide Active, Run, Final, Total, Inv;
      var es :| Run(p, s, es) && AllQuiet(es) && Total(Final(p, s, es).owner) < Total(s.owner);
      var t := Final(p, s, es);
      QuietRun(p, s, es);
      ActiveEmpties(p, t);
      hide Empties;
      EmptiesAfter(p, s, es);
    } else {
      assert SlotsAgree(s.q, s.owner);
      assert Run(p, s, []) && AllQuiet([]) && Final(p, s, []) == s;
    }
  }

  lemma ReachedIsActive(p: Setup, s: State, es: seq<Event>)
    requires Init(p, s) && Run(p, s, es) && 0 < |s.workers| && !Final(p, s, es).q.shuttingDown
    ensures Active(p, Final(p, s, es))
  {
    hide Inv, WakeInv;
    InitWake(p, s);
    RunKeepsWake(p, s, es);
    SameWorkers(p, s, es);
  }

  /**
   * The running pump never deadlocks over a message: from every reachable state with a message in a
   * slot, whoever has it, some run without clients, shutdown or failures brings the messages nearer
   * to removal. So when no message can move any more, every message is removed.
   */
  lemma NoDeadlock(p: Setup, s: State, es: seq<Event>, h: Id)
    requires Init(p, s) && Run(p, s, es) && 0 < |s.workers|
    requires var t := Final(p, s, es); !t.q.shuttingDown && Q.InSlot(t.q, h)
    ensures var t := Final(p, s, es);
            exists fs :: Run(p, t, fs) && AllQuiet(fs) && Total(Final(p, t, fs).owner) < Total(t.owner)
  {
    ReachedIsActive(p, s, es);
    var t := Final(p, s, es);
    assert SlotsAgree(t.q, t.owner);
    hide Inv, WakeInv;
    UnfinishedLowers(p, t, h);
  }

  /** From every reachable state of the running pump, some run without clients, shutdown or failures leaves no message in the queue. */
  lemma CanDrain(p: Setup, s: State, es: seq<Event>)
    requires Init(p, s) && Run(p, s, es) && 0 < |s.workers| && !Final(p, s, es).q.shuttingDown
    ensures var t := Final(p, s, es);
            exists fs :: Run(p, t, fs) && AllQuiet(fs) && forall h | 0 <= h < |t.q.records| :: !Q.InSlot(Final(p, t, fs).q, h)
  {
    ReachedIsActive(p, s, es);
    hide Active;
    ActiveEmpties(p, Final(p, s, es));
  }
}
