/** No wake-up is lost, and the stages of a worker's and the pump's life. */
module SystemWakeups {
  import L = Limiter
  import R = LimiterRuns
  import Q = SlotQueue
  import opened System
  import opened SystemInvariant

  function ReadySlots(q: Q.QueueState): set<nat> {
    set i | 0 <= i < |q.buf| && Q.Ready(q, i)
  }

  function WokenWorkers(workers: seq<Worker>): set<nat> {
    set w | 0 <= w < |workers| && workers[w].Woken?
  }

  predicate SomeBlocked(workers: seq<Worker>) {
    exists w :: 0 <= w < |workers| && workers[w].Blocked?
  }

  /** While a worker is blocked, every available message has a signal on its way or a woken worker about to look. */
  ghost predicate Covered(s: State) {
    SomeBlocked(s.workers) ==> |ReadySlots(s.q)| <= s.signals + |WokenWorkers(s.workers)|
  }

  ghost predicate Lifecycle(s: State) {
    && (s.q.shuttingDown ==> !SomeBlocked(s.workers))
    && (s.cancelled || s.stopRequested || s.sq.Stopped? ==> s.q.shuttingDown)
    && (forall w | 0 <= w < |s.workers| && (s.workers[w].Exited? || s.workers[w].Gone?) :: s.q.shuttingDown)
  }

  ghost predicate WakeInv(s: State) {
    Covered(s) && Lifecycle(s)
  }

  // ---------- counting ----------

  lemma {:induction false} SubsetSize<T>(a: set<T>, b: set<T>)
    requires a <= b
    ensures |a| <= |b|
  {
    if a != {} {
      var x :| x in a;
      SubsetSize(a - {x}, b - {x});
    }
  }

  lemma ReadyAfterEnqueue(q: Q.QueueState, body: Q.Body)
    requires Q.WellFormed(q)
    ensures |ReadySlots(Q.Enqueue(q, body))| <= |ReadySlots(q)| + 1
  {
    var q', i := Q.Enqueue(q, body), Q.FirstFree(q.buf, 0);
    forall j | j in ReadySlots(q') ensures j in ReadySlots(q) + {i} {
      if j != i {
        assert q'.buf[j] == q.buf[j];
      }
    }
    SubsetSize(ReadySlots(q'), ReadySlots(q) + {i});
  }

  lemma ReadyAfterTake(q: Q.QueueState, i: nat)
    requires Q.WellFormed(q) && Q.Ready(q, i)
    ensures |ReadySlots(Q.SetPending(q, q.buf[i].value, true))| < |ReadySlots(q)|
  {
    var q' := Q.SetPending(q, q.buf[i].value, true);
    forall j | j in ReadySlots(q') ensures j in ReadySlots(q) - {i} {
      assert Q.Ready(q', j);
    }
    assert i in ReadySlots(q);
    SubsetSize(ReadySlots(q'), ReadySlots(q) - {i});
  }

  lemma ReadyAfterRequeue(q: Q.QueueState, h: Id)
    requires Q.WellFormed(q) && h < |q.records|
    ensures |ReadySlots(Q.SetPending(q, h, false))| <= |ReadySlots(q)| + 1
  {
    var q' := Q.SetPending(q, h, false);
    var i := q.records[h].idx;
    forall j | j in ReadySlots(q') ensures j in ReadySlots(q) + {i} {
      assert Q.Ready(q', j);
    }
    SubsetSize(ReadySlots(q'), ReadySlots(q) + {i});
  }

  lemma ReadyAfterRemove(q: Q.QueueState, h: Id)
    requires h < |q.records| && q.records[h].idx < |q.buf|
    ensures |ReadySlots(Q.Remove(q, h))| <= |ReadySlots(q)|
  {
    forall j | j in ReadySlots(Q.Remove(q, h)) ensures j in ReadySlots(q) {
      assert Q.Ready(Q.Remove(q, h), j);
    }
    SubsetSize(ReadySlots(Q.Remove(q, h)), ReadySlots(q));
  }

  lemma NoneReady(q: Q.QueueState)
    requires Q.FirstReady(q, 0) == |q.buf|
    ensures ReadySlots(q) == {}
  {}

  lemma WokenAfterStep(workers: seq<Worker>, w: nat, pc: Worker)
    requires w < |workers|
    ensures |WokenWorkers(workers[w := pc])| ==
            |WokenWorkers(workers)| - (if workers[w].Woken? then 1 else 0) + if pc.Woken? then 1 else 0
  {
    var a, b := WokenWorkers(workers), WokenWorkers(workers[w := pc]);
    assert b - {w} == a - {w};
    assert w in a <==> workers[w].Woken?;
    assert w in b <==> pc.Woken?;
    assert |a| == |a - {w}| + if w in a then 1 else 0;
    assert |b| == |b - {w}| + if w in b then 1 else 0;
  }

  lemma BlockedAfterStep(workers: seq<Worker>, w: nat, pc: Worker)
    requires w < |workers| && !pc.Blocked?
    ensures SomeBlocked(workers[w := pc]) ==> SomeBlocked(workers)
  {
    if SomeBlocked(workers[w := pc]) {
      var v :| 0 <= v < |workers| && workers[w := pc][v].Blocked?;
      assert workers[v].Blocked?;
    }
  }

  // ---------- steps ----------

  /** A worker that does not block changes state; the available messages grow by no more than the signals do. */
  lemma StepCovers(s: State, t: State, w: nat, pc: Worker)
    requires WakeInv(s) && w < |s.workers| && t.workers == s.workers[w := pc] && !pc.Blocked?
    requires t.q.shuttingDown == s.q.shuttingDown && t.cancelled == s.cancelled
    requires pc.Exited? || pc.Gone? ==> s.q.shuttingDown
    requires t.stopRequested || t.sq.Stopped? ==> s.q.shuttingDown
    requires |ReadySlots(t.q)| + s.signals + (if s.workers[w].Woken? then 1 else 0)
             <= |ReadySlots(s.q)| + t.signals + (if pc.Woken? then 1 else 0) || s.q.shuttingDown
    ensures WakeInv(t)
  {
    WokenAfterStep(s.workers, w, pc);
    BlockedAfterStep(s.workers, w, pc);
  }

  lemma GetWakes(p: Setup, s: State, w: nat)
    requires Inv(p, s) && WakeInv(s) && Enabled(p, s, Get(w))
    ensures WakeInv(AfterGet(s, w))
  {
    assert Q.WellFormed(s.q);
    hide Inv;
    var i, t := Q.FirstReady(s.q, 0), AfterGet(s, w);
    if s.cancelled || s.q.shuttingDown {
      StepCovers(s, t, w, Exited);
    } else if i == |s.q.buf| {
      NoneReady(s.q);
    } else {
      ReadyAfterTake(s.q, i);
      StepCovers(s, t, w, Holding(s.q.buf[i].value));
    }
  }

  lemma DropWakes(p: Setup, s: State, w: nat)
    requires Inv(p, s) && WakeInv(s) && (IsHolding(s, w) || IsPushing(s, w))
    ensures WakeInv(RemoveFromQueue(SetWorker(s, w, Idle), s.workers[w].id))
  {
    CarriedIsOwned(s, w);
    hide Inv, SlotsAgree;
    ReadyAfterRemove(s.q, s.workers[w].id);
    StepCovers(s, RemoveFromQueue(SetWorker(s, w, Idle), s.workers[w].id), w, Idle);
  }

  lemma ShutdownWakes(s: State)
    requires WakeInv(s)
    ensures WakeInv(AfterShutdown(s))
  {}

  lemma PrepareWakes(p: Setup, s: State, w: nat, readings: seq<int>, now: int)
    requires WakeInv(s) && Enabled(p, s, PrepareToPush(w, readings, now))
    ensures WakeInv(AfterPrepare(p, s, w, readings, now))
  {
    var t := AfterPrepare(p, s, w, readings, now);
    if L.OutcomeOf(p.limit, s.lim, Arrival(p, s, w, readings, now)).Panicked? {
    } else {
      StepCovers(s, t, w, t.workers[w]);
    }
  }

  lemma RemoveNextWakes(p: Setup, s: State)
    requires WakeInv(s) && Enabled(p, s, RemoveNext)
    ensures WakeInv(AfterRemoveNext(s))
  {
    if s.sq.left != [] && s.sq.left[0] < |s.q.records| && s.q.records[s.sq.left[0]].idx < |s.q.buf| {
      ReadyAfterRemove(s.q, s.sq.left[0]);
    }
  }

  lemma EnqueueWakes(p: Setup, s: State, body: Q.Body)
    requires Inv(p, s) && WakeInv(s)
    ensures WakeInv(AfterEnqueue(s, body))
  {
    assert Q.WellFormed(s.q);
    hide Inv;
    ReadyAfterEnqueue(s.q, body);
  }

  lemma DeliverWakes(p: Setup, s: State, to: Q.Option<nat>)
    requires WakeInv(s) && Enabled(p, s, Deliver(to))
    ensures WakeInv(AfterDeliver(s, to))
  {
    if to.Some? {
      StepCovers(s, AfterDeliver(s, to), to.value, Woken);
    } else {
      assert !SomeBlocked(s.workers);
    }
  }

  lemma RequeueWakes(p: Setup, s: State, w: nat)
    requires Inv(p, s) && WakeInv(s) && IsPushing(s, w)
    ensures WakeInv(AfterAnswer(s, w, L.TempFail))
  {
    assert Q.WellFormed(s.q);
    hide Inv;
    ReadyAfterRequeue(s.q, s.workers[w].id);
    StepCovers(s, AfterAnswer(s, w, L.TempFail), w, BackingOff);
  }

  lemma RequestStopWakes(p: Setup, s: State, w: nat)
    requires WakeInv(s) && Enabled(p, s, RequestStop(w))
    ensures WakeInv(AfterRequestStop(p, s, w))
  {
    StepCovers(s, AfterRequestStop(p, s, w), w, Gone);
  }

  lemma SquasherStepWakes(s: State, t: State)
    requires WakeInv(s) && t.q == s.q && t.signals == s.signals && t.workers == s.workers
    requires t.cancelled == s.cancelled && t.stopRequested == s.stopRequested
    requires t.sq.Stopped? ==> s.sq.Stopped? || s.stopRequested
    ensures WakeInv(t)
  {}

  lemma AnswerDrops(s: State, w: nat, status: L.PushStatus)
    requires IsPushing(s, w) && !status.TempFail?
    ensures AfterAnswer(s, w, status) == RemoveFromQueue(SetWorker(s, w, Idle), s.workers[w].id)
  {}

  /** Every step keeps available messages covered by signals and woken workers. */
  lemma StepKeepsWake(p: Setup, s: State, e: Event)
    requires Inv(p, s) && WakeInv(s) && Enabled(p, s, e)
    ensures WakeInv(Next(p, s, e))
  {
    hide Inv, AfterEnqueue, AfterDeliver, AfterShutdown, AfterGet, AfterPrepare, AfterAnswer, AfterRequestStop,
         AfterRemoveNext, RemoveFromQueue, L.Enabled, L.Next;
    match e
    case Enqueue(body) => EnqueueWakes(p, s, body);
    case Deliver(to) => DeliverWakes(p, s, to);
    case Shutdown => ShutdownWakes(s);
    case Cancel => assert Lifecycle(Next(p, s, e));
    case Get(w) => GetWakes(p, s, w);
    case Reject(w) => DropWakes(p, s, w);
    case PrepareToPush(w, readings, now) => PrepareWakes(p, s, w, readings, now);
    case PushUnlimited(w) => StepCovers(s, Next(p, s, e), w, Pushing(s.workers[w].id));
    case Answer(w, status) =>
      if status.TempFail? {
        RequeueWakes(p, s, w);
      } else {
        DropWakes(p, s, w);
        AnswerDrops(s, w, status);
      }
    case Resume(w) => StepCovers(s, Next(p, s, e), w, Idle);
    case RequestStop(w) => RequestStopWakes(p, s, w);
    case Poll(_, _) => SquasherStepWakes(s, Next(p, s, e));
    case RecordBatch(_) => SquasherStepWakes(s, Next(p, s, e));
    case RemoveNext => RemoveNextWakes(p, s);
  }

  lemma {:induction false} RunKeepsWake(p: Setup, s: State, es: seq<Event>)
    requires Inv(p, s) && WakeInv(s) && Run(p, s, es)
    ensures Inv(p, Final(p, s, es)) && WakeInv(Final(p, s, es))
    decreases es
  {
    hide Inv, WakeInv;
    if es != [] {
      StepKeepsInv(p, s, es[0]);
      StepKeepsWake(p, s, es[0]);
      RunKeepsWake(p, Next(p, s, es[0]), es[1..]);
    }
  }

  lemma InitWake(p: Setup, s: State)
    requires Init(p, s)
    ensures Inv(p, s) && WakeInv(s)
  {
    InitInv(p, s);
  }

  /** In every run, an available message never sits beside only sleeping workers: a signal or a woken worker is on its way. */
  lemma NoLostWakeup(p: Setup, s: State, es: seq<Event>)
    requires Init(p, s) && Run(p, s, es)
    ensures var t := Final(p, s, es);
            SomeBlocked(t.workers) ==> |ReadySlots(t.q)| <= t.signals + |WokenWorkers(t.workers)|
  {
    InitWake(p, s);
    RunKeepsWake(p, s, es);
  }
}
