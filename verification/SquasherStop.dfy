/** Whether the squasher goroutine ends after all workers have asked it to. */
module SquasherStop {
  import L = Limiter
  import R = LimiterRuns
  import Q = SlotQueue
  import opened System
  import opened SystemInvariant
  import opened SystemWakeups

  /** Every worker has returned and has requested the squasher's shutdown. */
  ghost predicate AllGone(s: State) {
    forall w | 0 <= w < |s.workers| :: s.workers[w].Gone?
  }

  /** The squasher has stopped, has been woken, or has a batch that keeps it from waiting. */
  ghost predicate WillNotice(s: State) {
    s.sq.Stopped? || s.sq.Awake? || s.lim.core.batches != map[]
  }

  ghost predicate Stops(p: Setup, s: State) {
    exists es :: Run(p, s, es) && Final(p, s, es).sq.Stopped?
  }

  predicate SquasherMoves(e: Event) {
    e.Poll? || e.RecordBatch? || e.RemoveNext?
  }

  function SquasherMoveCount(es: seq<Event>): nat {
    if es == [] then 0 else (if SquasherMoves(es[0]) then 1 else 0) + SquasherMoveCount(es[1..])
  }

  /** How many moves the squasher needs, at most, to finish what it is at and poll once more. */
  function Need(s: State): nat {
    match s.sq
    case Polling => 1
    case Awake => 1
    case Removing(left) => |left| + 2
    case Popped => (if |s.lim.popped| == 1 then |s.lim.popped[0].queuedMsgs| else 0) + 3
    case _ => 0
  }

  /** Every run that lets the squasher make Need moves ends with it stopped. */
  ghost predicate AlwaysStops(p: Setup, s: State) {
    forall es | Run(p, s, es) && SquasherMoveCount(es) >= Need(s) :: Final(p, s, es).sq.Stopped?
  }

  lemma StepStaysUnnoticed(p: Setup, s: State, e: Event)
    requires Enabled(p, s, e) && AllGone(s) && !WillNotice(s)
    ensures AllGone(Next(p, s, e)) && !WillNotice(Next(p, s, e))
  {
    hide Reassign, Q.Enqueue, Q.Remove, Q.FirstReady, L.Next, L.Enabled, L.IsMinDue;
    if e.RecordBatch? {
      SquasherRecords(p, s.lim, e.now);
    }
  }

  lemma {:induction false} RunStaysUnnoticed(p: Setup, s: State, es: seq<Event>)
    requires Run(p, s, es) && AllGone(s) && !WillNotice(s)
    ensures !Final(p, s, es).sq.Stopped?
    decreases es
  {
    if es != [] {
      StepStaysUnnoticed(p, s, es[0]);
      hide Next, Enabled;
      RunStaysUnnoticed(p, Next(p, s, es[0]), es[1..]);
    }
  }

  // ---------- the squasher stops ----------

  /** The squasher has been asked to stop, will notice, and holds a popped batch just between popping and recording. */
  ghost predicate Stopping(s: State) {
    && s.stopRequested && WillNotice(s)
    && (if s.sq.Popped? then |s.lim.popped| == 1 else s.lim.popped == [])
    && !s.sq.Absent? && !s.sq.Asleep?
  }

  lemma ArrivalKeepsBatches(p: Setup, l: L.Limit<Id>, e: L.Event<Id>)
    requires L.Enabled(p.limit, l, e) && e.Arrive?
    ensures var l' := L.Next(p.limit, l, e); l'.popped == l.popped && (l.core.batches != map[] ==> l'.core.batches != map[])
  {}

  lemma SquasherNearer(p: Setup, s: State, e: Event)
    requires Enabled(p, s, e) && Stopping(s) && SquasherMoves(e)
    ensures Stopping(Next(p, s, e)) && Need(Next(p, s, e)) + 1 <= Need(s) && !s.sq.Stopped?
  {
    hide Reassign, Q.Remove, L.Next, L.Enabled, L.IsMinDue;
    if e.RecordBatch? {
      SquasherRecords(p, s.lim, e.now);
    }
  }

  lemma OthersLeaveSquasher(p: Setup, s: State, e: Event)
    requires Enabled(p, s, e) && !SquasherMoves(e) && !e.PrepareToPush? && !e.RequestStop?
    ensures var t := Next(p, s, e); t.sq == s.sq && t.lim == s.lim && t.stopRequested == s.stopRequested
  {
    hide Q.Enqueue, Q.Remove, Q.FirstReady, L.Next, L.Enabled, Q.SetPending;
  }

  lemma OthersStayStopping(p: Setup, s: State, e: Event)
    requires Enabled(p, s, e) && Stopping(s) && !SquasherMoves(e)
    ensures Stopping(Next(p, s, e)) && Need(Next(p, s, e)) <= Need(s) && (s.sq.Stopped? ==> Next(p, s, e).sq.Stopped?)
  {
    if e.PrepareToPush? {
      hide L.Next, L.Enabled, L.OutcomeOf;
      ArrivalKeepsBatches(p, s.lim, Arrival(p, s, e.w, e.readings, e.now));
    } else if e.RequestStop? {
    } else {
      OthersLeaveSquasher(p, s, e);
      hide Next, Enabled;
    }
  }

  /** Whatever happens, the squasher stays on its way, and each of its own moves brings it one nearer. */
  lemma StepStaysStopping(p: Setup, s: State, e: Event)
    requires Enabled(p, s, e) && Stopping(s)
    ensures Stopping(Next(p, s, e))
    ensures Need(Next(p, s, e)) + (if SquasherMoves(e) then 1 else 0) <= Need(s)
    ensures s.sq.Stopped? ==> Next(p, s, e).sq.Stopped?
  {
    hide Next, Enabled;
    if SquasherMoves(e) {
      SquasherNearer(p, s, e);
    } else {
      OthersStayStopping(p, s, e);
    }
  }

  lemma {:induction false} RunStops(p: Setup, s: State, es: seq<Event>)
    requires Run(p, s, es) && Stopping(s) && SquasherMoveCount(es) >= Need(s)
    ensures Final(p, s, es).sq.Stopped?
    decreases es
  {
    if es != [] {
      StepStaysStopping(p, s, es[0]);
      hide Next, Enabled;
      RunStops(p, Next(p, s, es[0]), es[1..]);
    }
  }

  // ---------- the squasher is never stuck on its way ----------

  /** Some run has at least n moves of the squasher in it. */
  ghost predicate CanMove(p: Setup, s: State, n: nat) {
    exists es :: Run(p, s, es) && SquasherMoveCount(es) >= n
  }

  lemma CanMoveAfter(p: Setup, s: State, e: Event, n: nat)
    requires Enabled(p, s, e) && SquasherMoves(e) && CanMove(p, Next(p, s, e), n)
    ensures CanMove(p, s, n + 1)
  {
    hide Next, Enabled;
    var es :| Run(p, Next(p, s, e), es) && SquasherMoveCount(es) >= n;
    assert ([e] + es)[1..] == es;
    assert Run(p, s, [e] + es) && SquasherMoveCount([e] + es) >= n + 1;
  }

  lemma CanMoveNone(p: Setup, s: State)
    ensures CanMove(p, s, 0)
  {
    assert Run(p, s, []);
  }

  lemma PollMoves(p: Setup, s: State)
    requires s.lim.popped == [] && (s.sq.Awake? || s.sq.Polling?)
    ensures CanMove(p, s, 1)
  {
    var k := "";
    if s.lim.core.batches != map[] {
      assert s.lim.core.batches.Keys != {};
      k := L.SomeMinDue(s.lim.core, s.lim.core.batches.Keys);
    }
    var e := Poll(k, s.lim.clock);
    CanMoveNone(p, Next(p, s, e));
    CanMoveAfter(p, s, e, 0);
  }

  lemma {:induction false} RemovingMoves(p: Setup, s: State)
    requires s.lim.popped == [] && s.sq.Removing?
    ensures CanMove(p, s, |s.sq.left| + 2)
    decreases |s.sq.left|
  {
    var t := Next(p, s, RemoveNext);
    if s.sq.left == [] {
      PollMoves(p, t);
    } else {
      RemovingMoves(p, t);
    }
    CanMoveAfter(p, s, RemoveNext, |s.sq.left| + 1);
  }

  lemma PoppedMoves(p: Setup, s: State)
    requires |s.lim.popped| == 1 && s.sq.Popped?
    ensures CanMove(p, s, Need(s))
  {
    var e := RecordBatch(s.lim.clock);
    RemovingMoves(p, Next(p, s, e));
    CanMoveAfter(p, s, e, Need(s) - 1);
  }

  /** Wherever the squasher is, it can make the moves it needs. */
  lemma SquasherCanMove(p: Setup, s: State)
    requires if s.sq.Popped? then |s.lim.popped| == 1 else s.lim.popped == []
    ensures CanMove(p, s, Need(s))
  {
    match s.sq
    case Popped => PoppedMoves(p, s);
    case Removing(_) => RemovingMoves(p, s);
    case Polling => PollMoves(p, s);
    case Awake => PollMoves(p, s);
    case _ => CanMoveNone(p, s);
  }

  /** A squasher that will notice the request stops in every run that lets it move, whatever the workers still do. */
  lemma WillNoticeStops(p: Setup, s: State, es: seq<Event>)
    requires Limited(p) && Init(p, s) && Run(p, s, es)
    requires Final(p, s, es).stopRequested && WillNotice(Final(p, s, es))
    ensures AlwaysStops(p, Final(p, s, es)) && CanMove(p, Final(p, s, es), Need(Final(p, s, es)))
  {
    InitInv(p, s);
    RunKeepsInv(p, s, es);
    var t := Final(p, s, es);
    assert SquasherAgrees(p, t);
    hide Inv, R.LimitInv, Run, Final;
    SquasherCanMove(p, t);
    forall fs | Run(p, t, fs) && SquasherMoveCount(fs) >= Need(t) ensures Final(p, t, fs).sq.Stopped? {
      RunStops(p, t, fs);
    }
  }

  lemma UnnoticedNeverStops(p: Setup, s: State)
    requires AllGone(s) && !WillNotice(s) && CanMove(p, s, Need(s))
    ensures !Stops(p, s) && !AlwaysStops(p, s)
  {
    hide AllGone, WillNotice;
    forall fs | Run(p, s, fs) ensures !Final(p, s, fs).sq.Stopped? {
      RunStaysUnnoticed(p, s, fs);
    }
  }

  /**
   * Once all workers are gone and have asked the squasher to stop, it stops in every run that lets it
   * make the moves it needs, which it always can, if and only if it is awake, has a batch stored, or
   * has already stopped. Otherwise it stops in no run: it waits for a signal nobody will send.
   */
  lemma StopsExactlyIfItWillNotice(p: Setup, s: State, es: seq<Event>)
    requires Limited(p) && Init(p, s) && Run(p, s, es)
    requires AllGone(Final(p, s, es)) && Final(p, s, es).stopRequested
    ensures var t := Final(p, s, es);
            && CanMove(p, t, Need(t))
            && (AlwaysStops(p, t) <==> WillNotice(t))
            && (Stops(p, t) <==> WillNotice(t))
  {
    InitInv(p, s);
    RunKeepsInv(p, s, es);
    var t := Final(p, s, es);
    assert SquasherAgrees(p, t);
    hide Inv, R.LimitInv, Init;
    SquasherCanMove(p, t);
    if WillNotice(t) {
      WillNoticeStops(p, s, es);
      hide Run, Final;
      var fs :| Run(p, t, fs) && SquasherMoveCount(fs) >= Need(t);
      assert Final(p, t, fs).sq.Stopped?;
    } else {
      UnnoticedNeverStops(p, t);
    }
  }

  lemma SleeperWakes(p: Setup, s: State, w: nat)
    requires Limited(p) && SquasherAgrees(p, s) && Enabled(p, s, RequestStop(w)) && s.sq.Asleep?
    ensures var t := Next(p, s, RequestStop(w)); t.sq.Awake? && t.lim.popped == [] && Stopping(t)
  {
    hide R.LimitInv;
  }

  /** In every run, a request that finds the squasher waiting wakes it, and its next move is to stop, whatever else happens first. */
  lemma RequestStopsSleeper(p: Setup, s: State, es: seq<Event>, w: nat)
    requires Limited(p) && Init(p, s) && Run(p, s, es)
    requires Enabled(p, Final(p, s, es), RequestStop(w)) && Final(p, s, es).sq.Asleep?
    ensures var t := Next(p, Final(p, s, es), RequestStop(w));
            && CanMove(p, t, 1)
            && forall fs | Run(p, t, fs) && SquasherMoveCount(fs) >= 1 :: Final(p, t, fs).sq.Stopped?
  {
    InitInv(p, s);
    RunKeepsInv(p, s, es);
    var t := Next(p, Final(p, s, es), RequestStop(w));
    assert SquasherAgrees(p, Final(p, s, es));
    hide Inv, R.LimitInv, Run, Final, Next, Enabled, Stopping;
    SleeperWakes(p, Final(p, s, es), w);
    PollMoves(p, t);
    forall fs | Run(p, t, fs) && SquasherMoveCount(fs) >= 1 ensures Final(p, t, fs).sq.Stopped? {
      RunStops(p, t, fs);
    }
  }

  /** One worker, no messages, and a shutdown just before the squasher's first poll. */
  lemma ShutEarly(p: Setup) returns (s: State, es: seq<Event>)
    requires Limited(p)
    ensures Init(p, s) && |s.workers| == 1 && Run(p, s, es)
    ensures var t := Final(p, s, es); AllGone(t) && t.stopRequested && !WillNotice(t)
  {
    var l: L.Limit<Id> := L.Limit(L.Core(map[], map[]), 1, map[], [], map[], map[]);
    s := State(Q.EMPTY, 0, false, [Idle], l, false, Polling, false, []);
    var a, b, c := Next(p, s, Shutdown), Next(p, Next(p, s, Shutdown), Get(0)), RequestStop(0);
    var d := Next(p, b, c);
    assert Enabled(p, s, Shutdown) && Enabled(p, a, Get(0)) && Enabled(p, b, c);
    assert AllGone(d) && d.stopRequested && !WillNotice(d);
    es := [Shutdown, Get(0), c];
    hide Next, Enabled;
    assert es[1..] == [Get(0), c] && es[1..][1..] == [c] && [c][1..] == [];
    assert Run(p, d, []) && Run(p, b, [c]) && Run(p, a, [Get(0), c]) && Run(p, s, es);
    assert Final(p, d, []) == Final(p, b, [c]) == Final(p, a, [Get(0), c]) == Final(p, s, es) == d;
  }

  /** The bad case is reached: the squasher never ends. */
  lemma MayNeverStop(p: Setup)
    requires Limited(p)
    ensures exists s, es :: && Init(p, s) && |s.workers| == 1 && Run(p, s, es)
                            && AllGone(Final(p, s, es)) && Final(p, s, es).stopRequested
                            && !Stops(p, Final(p, s, es))
  {
    var s, es := ShutEarly(p);
    hide Init, Run, Final, Stops, AllGone, WillNotice;
    StopsExactlyIfItWillNotice(p, s, es);
  }
}
