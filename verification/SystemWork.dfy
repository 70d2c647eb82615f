/** All the work of workers, signals and squasher is bounded, waiting and waking included; only idle polls are not. */
module SystemWork {
  import L = Limiter
  import R = LimiterRuns
  import Q = SlotQueue
  import opened System
  import opened SystemInvariant
  import opened SystemWakeups
  import opened SystemProgress

  /** What a worker may still do without a message and without being woken. */
  function WorkerCredit(pc: Worker): nat {
    match pc
    case BackingOff => 3
    case Idle => 2
    case Woken => 2
    case Holding(_) => 1
    case Exited => 1
    case _ => 0
  }

  function WorkersCredit(workers: seq<Worker>): nat {
    if workers == [] then 0 else WorkersCredit(workers[..|workers| - 1]) + WorkerCredit(workers[|workers| - 1])
  }

  function SquasherCredit(sq: Squasher): nat {
    match sq
    case Popped => 2
    case Removing(_) => 1
    case _ => 0
  }

  /** Each message pays for its moves, each signal for a wake-up, and the first shutdown wakes every worker. */
  function Credit(s: State): nat {
    3 * Total(s.owner) + 3 * s.signals + WorkersCredit(s.workers) + SquasherCredit(s.sq)
    + if s.q.shuttingDown then 0 else 2 * |s.workers|
  }

  /** All events but those of clients and server, and polls that hand out no batch. */
  ghost predicate Works(p: Setup, s: State, e: Event)
    requires Enabled(p, s, e)
  {
    !e.Enqueue? && !e.Shutdown? && !e.Cancel? && (e.Poll? ==> Next(p, s, e).sq.Popped?)
  }

  ghost function WorkCount(p: Setup, s: State, es: seq<Event>): nat
    requires Run(p, s, es)
    decreases es
  {
    if es == [] then 0
    else (if Works(p, s, es[0]) then 1 else 0) + WorkCount(p, Next(p, s, es[0]), es[1..])
  }

  ghost predicate Spends(s: State, t: State, works: bool, credit: nat) {
    (if works then 1 else 0) + Credit(t) <= Credit(s) + credit
  }

  lemma {:induction false} WorkersCreditUpdate(workers: seq<Worker>, w: nat, pc: Worker)
    requires w < |workers|
    ensures WorkersCredit(workers[w := pc]) == WorkersCredit(workers) - WorkerCredit(workers[w]) + WorkerCredit(pc)
  {
    var n := |workers| - 1;
    if w < n {
      WorkersCreditUpdate(workers[..n], w, pc);
      assert workers[w := pc][..n] == workers[..n][w := pc];
    } else {
      assert workers[w := pc][..n] == workers[..n];
    }
  }

  lemma {:induction false} WorkersCreditAtMost(workers: seq<Worker>, workers': seq<Worker>)
    requires |workers| == |workers'|
    requires forall w | 0 <= w < |workers| :: workers'[w] == workers[w] || (workers[w].Blocked? && workers'[w].Woken?)
    ensures WorkersCredit(workers') <= WorkersCredit(workers) + 2 * |workers|
  {
    if workers != [] {
      WorkersCreditAtMost(workers[..|workers| - 1], workers'[..|workers| - 1]);
    }
  }

  lemma {:induction false} WorkersCreditAtStart(workers: seq<Worker>)
    requires forall w | 0 <= w < |workers| :: workers[w] == Idle
    ensures WorkersCredit(workers) == 2 * |workers|
  {
    if workers != [] {
      WorkersCreditAtStart(workers[..|workers| - 1]);
    }
  }

  /** A step of worker w, with what it does to messages and signals. */
  lemma WorkerSpends(s: State, t: State, w: nat, pc: Worker, credit: nat)
    requires w < |s.workers| && t.workers == s.workers[w := pc] && t.q.shuttingDown == s.q.shuttingDown
    requires SquasherCredit(t.sq) == SquasherCredit(s.sq)
    requires 1 + 3 * Total(t.owner) + 3 * t.signals + WorkerCredit(pc)
             <= 3 * Total(s.owner) + 3 * s.signals + WorkerCredit(s.workers[w]) + credit
    ensures Spends(s, t, true, credit)
  {
    WorkersCreditUpdate(s.workers, w, pc);
  }

  lemma GetSpends(p: Setup, s: State, w: nat)
    requires Inv(p, s) && Enabled(p, s, Get(w))
    ensures Spends(s, AfterGet(s, w), true, 0)
  {
    hide Inv, Total, Spends, WorkersCredit, Credit;
    GetPays(p, s, w);
    WorkerSpends(s, AfterGet(s, w), w, AfterGet(s, w).workers[w], 0);
  }

  lemma DropSpends(p: Setup, s: State, w: nat)
    requires Inv(p, s) && (IsHolding(s, w) || IsPushing(s, w))
    ensures Spends(s, RemoveFromQueue(SetWorker(s, w, Idle), s.workers[w].id), true, 0)
  {
    DropPays(p, s, w);
    hide Inv, Total, Spends, WorkersCredit, Q.Remove;
    WorkerSpends(s, RemoveFromQueue(SetWorker(s, w, Idle), s.workers[w].id), w, Idle, 0);
  }

  lemma RequeueSpends(p: Setup, s: State, w: nat)
    requires Inv(p, s) && IsPushing(s, w)
    ensures Spends(s, AfterAnswer(s, w, L.TempFail), true, 10)
  {
    hide Inv, Total, Spends, WorkersCredit, Credit;
    RequeuePays(p, s, w);
    WorkerSpends(s, AfterAnswer(s, w, L.TempFail), w, BackingOff, 10);
  }

  lemma PrepareSpends(p: Setup, s: State, w: nat, readings: seq<int>, now: int)
    requires Inv(p, s) && Enabled(p, s, PrepareToPush(w, readings, now))
    ensures Spends(s, AfterPrepare(p, s, w, readings, now), true, 0)
  {
    var e, t := Arrival(p, s, w, readings, now), AfterPrepare(p, s, w, readings, now);
    PreparePays(p, s, w, readings, now);
    CarriedIsOwned(s, w);
    R.StepKeepsLimit(p.limit, s.lim, e);
    hide Inv, Total, Spends, WorkersCredit, L.Next, L.Enabled, L.OutcomeOf;
    if L.OutcomeOf(p.limit, s.lim, e).Direct? {
      WorkerSpends(s, t, w, Pushing(e.qm), 0);
    } else {
      assert t.owner[e.qm] != s.owner[e.qm];
      WorkerSpends(s, t, w, Idle, 0);
    }
  }

  /** A poll that hands out a batch moves its messages; any other moves nothing. */
  lemma PollMoves(p: Setup, s: State, key: L.Key, now: int)
    requires Inv(p, s) && Enabled(p, s, Poll(key, now))
    ensures var t := AfterPoll(p, s, key, now);
            && (if t.sq.Popped? then Total(t.owner) < Total(s.owner) else t.owner == s.owner && SquasherCredit(t.sq) == 0)
            && SquasherCredit(s.sq) == 0 && t.signals == s.signals && t.workers == s.workers
            && t.q == s.q
  {
    if s.lim.core.batches != map[] {
      PopPays(p, s, key);
    }
    hide Inv, Total, Reassign, L.Next, L.IsMinDue;
  }

  lemma PollSpends(p: Setup, s: State, key: L.Key, now: int)
    requires Inv(p, s) && Enabled(p, s, Poll(key, now))
    ensures var t := AfterPoll(p, s, key, now); Spends(s, t, t.sq.Popped?, 0)
  {
    hide Inv, Total, WorkersCredit, Reassign, L.Next, AfterPoll, L.IsMinDue;
    PollMoves(p, s, key, now);
  }

  lemma RemoveNextSpends(p: Setup, s: State)
    requires Inv(p, s) && Enabled(p, s, RemoveNext)
    ensures Spends(s, AfterRemoveNext(s), true, 0)
  {
    RemoveNextPays(p, s);
    if s.sq.left != [] {
      var h := s.sq.left[0];
      assert h in InHand(s) && s.owner[h] == WithSquasher;
      SlotsAfterRemove(s.q, s.owner, h);
    }
    hide Inv, Total;
  }

  lemma ShutdownSpends(s: State)
    requires Lifecycle(s)
    ensures Spends(s, AfterShutdown(s), false, 0)
  {
    var t := AfterShutdown(s);
    if s.q.shuttingDown {
      assert t.workers == s.workers;
    } else {
      WorkersCreditAtMost(s.workers, t.workers);
    }
    hide Total, WorkersCredit;
  }

  lemma DeliverSpends(p: Setup, s: State, to: Q.Option<nat>)
    requires Enabled(p, s, Deliver(to))
    ensures Spends(s, AfterDeliver(s, to), true, 0)
  {
    hide Total;
    if to.Some? {
      WorkerSpends(s, AfterDeliver(s, to), to.value, Woken, 0);
    }
  }

  lemma EnqueueLeavesFlag(q: Q.QueueState, body: Q.Body)
    ensures Q.Enqueue(q, body).shuttingDown == q.shuttingDown
  {}

  lemma EnqueueSpends(s: State, body: Q.Body)
    ensures Spends(s, AfterEnqueue(s, body), false, 15)
  {
    TotalAppend(s.owner, Waiting);
    hide Total, Q.Enqueue;
    assert AfterEnqueue(s, body).q.shuttingDown == s.q.shuttingDown by { EnqueueLeavesFlag(s.q, body); }
  }

  lemma CancelSpends(s: State)
    ensures Spends(s, s.(cancelled := true), false, 0)
  {}

  lemma RecordSpends(p: Setup, s: State, now: int)
    requires Enabled(p, s, RecordBatch(now))
    ensures Spends(s, AfterRecord(p, s, now), true, 0)
  {
    hide L.Next, L.Enabled, Total;
  }

  lemma StepSpends(p: Setup, s: State, e: Event)
    requires Inv(p, s) && WakeInv(s) && Enabled(p, s, e)
    ensures Spends(s, Next(p, s, e), Works(p, s, e), (if e.Enqueue? then 15 else 0) + if Fails(e) then 10 else 0)
  {
    hide Inv, Covered, Spends, Credit, Total, AfterEnqueue, AfterShutdown, AfterGet, AfterPrepare, AfterPoll, AfterRecord,
      AfterRemoveNext, AfterDeliver, RemoveFromQueue, L.Enabled, L.Next;
    match e
    case Enqueue(body) => EnqueueSpends(s, body);
    case Deliver(to) => DeliverSpends(p, s, to);
    case Shutdown => ShutdownSpends(s);
    case Cancel => CancelSpends(s);
    case Get(w) => GetSpends(p, s, w);
    case Reject(w) => DropSpends(p, s, w);
    case PrepareToPush(w, readings, now) => PrepareSpends(p, s, w, readings, now);
    case PushUnlimited(w) => WorkerSpends(s, Next(p, s, e), w, Pushing(s.workers[w].id), 0);
    case Answer(w, status) =>
      if status.TempFail? {
        RequeueSpends(p, s, w);
      } else {
        DropSpends(p, s, w);
      }
    case Resume(w) => WorkerSpends(s, Next(p, s, e), w, Idle, 0);
    case RequestStop(w) => WorkerSpends(s, Next(p, s, e), w, Gone, 0);
    case Poll(key, now) => PollSpends(p, s, key, now);
    case RecordBatch(now) => RecordSpends(p, s, now);
    case RemoveNext => RemoveNextSpends(p, s);
  }

  lemma {:induction false} RunSpends(p: Setup, s: State, es: seq<Event>)
    requires Inv(p, s) && WakeInv(s) && Run(p, s, es)
    ensures WorkCount(p, s, es) + Credit(Final(p, s, es)) <= Credit(s) + 15 * EnqueueCount(es) + 10 * FailCount(es)
    decreases es
  {
    hide Inv, WakeInv, Next, Enabled, Works, Credit;
    if es != [] {
      StepKeepsInv(p, s, es[0]);
      StepKeepsWake(p, s, es[0]);
      StepSpends(p, s, es[0]);
      RunSpends(p, Next(p, s, es[0]), es[1..]);
    }
  }

  /**
   * However workers, signals and squasher are interleaved, all they do in a run, getting, blocking,
   * waking, pushing, backing off, sending and exiting included, is at most four steps per worker,
   * fifteen per message queued and ten per temporary failure; only polls that hand out no batch are
   * not counted.
   */
  lemma AllWorkBounded(p: Setup, s: State, es: seq<Event>)
    requires Init(p, s) && Run(p, s, es)
    ensures WorkCount(p, s, es) <= 4 * |s.workers| + 15 * EnqueueCount(es) + 10 * FailCount(es)
  {
    InitWake(p, s);
    WorkersCreditAtStart(s.workers);
    hide Inv, WakeInv, Run;
    RunSpends(p, s, es);
  }
}
