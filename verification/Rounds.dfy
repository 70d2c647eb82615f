/** What a worker's rounds do to queue, limiter and clock, on values. */
module Rounds {
  import Q = SlotQueue
  import L = Limiter
  import opened MemoryQueues
  import opened Squashing

  type Handle = MemoryQueuedMessage

  /**
   * What the outside decides in one round of a worker: cancellation, conversion, when the clock is
   * read while the message is prepared, how long that takes, and the push's answer.
   */
  datatype Turn = Turn(cancelled: bool, cancelledInGet: bool, smsg: Q.Option<L.ServiceMessage>,
                       offsets: seq<nat>, elapsed: nat, status: L.PushStatus)

  /** What became of a worker's round; Returned if it got no message. */
  datatype Round = Returned | Rejected(qm: Handle) | Squashed(qm: Handle) | Pushed(qm: Handle, status: L.PushStatus)

  // ---------- a worker's rounds on values ----------

  /** The queue, the limiter if there is one, the clock, whether the squasher waits, and whether it was asked to stop. */
  datatype Work = Work(q: Q.QueueState, limit: Q.Option<L.Limit<Handle>>, clock: int, waiter: Waiter, stopping: bool)

  /** all lists the messages of the queue's records. */
  ghost predicate Fits(all: seq<Handle>, s: Work) {
    && Q.WellFormed(s.q) && |all| == |s.q.records|
    && (s.limit.Some? ==> s.limit.value.clock <= s.clock)
  }

  /** How late in the round the i-th reading is taken; at its end if nothing else is said. */
  function Offset(turn: Turn, i: nat): (r: nat)
    ensures r <= turn.elapsed
  {
    if i < |turn.offsets| && turn.offsets[i] < turn.elapsed then turn.offsets[i] else turn.elapsed
  }

  /** n readings of the clock within the time that passes. */
  function ReadingsOver(n: nat, from: int, turn: Turn): (r: seq<int>)
    ensures |r| == n && forall i | 0 <= i < n :: from <= r[i] <= from + turn.elapsed
  {
    seq(n, i requires 0 <= i < n => from + Offset(turn, i))
  }

  /** The limiter's event for a message that arrives in a round that begins at time from. */
  function ArrivalOf(l: L.Limit<Handle>, from: int, qm: Handle, client: nat, smsg: L.ServiceMessage, turn: Turn): (e: L.Event<Handle>)
    ensures e.Arrive? && e.smsg == smsg && |e.readings| == |L.Lookup(l.core.pushedAt, smsg.squashKey)|
  {
    var n := |L.Lookup(l.core.pushedAt, smsg.squashKey)|;
    L.Arrive(qm, smsg, client, ReadingsOver(n, from, turn), from + turn.elapsed)
  }

  /** The rate limit decides: true if the message was squashed. */
  ghost function Prepared(cfg: L.Config, s: Work, qm: Handle, client: nat, smsg: L.ServiceMessage, turn: Turn): (r: (Work, bool))
    requires s.limit.Some? ==> s.limit.value.clock <= s.clock
    ensures r.0.q == s.q && (r.0.limit.Some? ==> r.0.limit.value.clock <= r.0.clock)
  {
    if s.limit.None? then (s.(clock := s.clock + turn.elapsed), false)
    else
      var l := s.limit.value;
      var e := ArrivalOf(l, s.clock, qm, client, smsg, turn);
      var squashed := L.OutcomeOf(cfg, l, e).Squashed?;
      (s.(limit := Q.Some(L.Next(cfg, l, e)), clock := e.now, waiter := if squashed then Signalled(s.waiter) else s.waiter),
       squashed)
  }

  /** What a worker does with the message it has got, all[h]. */
  ghost function Disposed(cfg: L.Config, all: seq<Handle>, s: Work, h: Q.Id, client: nat, turn: Turn): (r: (Work, Round))
    requires Fits(all, s) && h < |all|
    ensures Fits(all, r.0)
  {
    var removed := Q.Remove(s.q, h);
    if turn.smsg.None? then (s.(q := removed), Rejected(all[h]))
    else
      var (t, squashed) := Prepared(cfg, s, all[h], client, turn.smsg.value, turn);
      if squashed then (t, Squashed(all[h]))
      else (t.(q := if turn.status.TempFail? then Q.SetPending(s.q, h, false) else removed), Pushed(all[h], turn.status))
  }

  predicate NothingToGet(q: Q.QueueState, turn: Turn) {
    turn.cancelled || turn.cancelledInGet || q.shuttingDown || Q.FirstReady(q, 0) == |q.buf|
  }

  ghost function TurnOn(cfg: L.Config, all: seq<Handle>, s: Work, client: nat, turn: Turn): (r: (Work, Round))
    requires Fits(all, s)
    ensures Fits(all, r.0)
  {
    if NothingToGet(s.q, turn) then (s, Returned)
    else
      var h := s.q.buf[Q.FirstReady(s.q, 0)].value;
      Disposed(cfg, all, s.(q := Q.SetPending(s.q, h, true)), h, client, turn)
  }

  predicate Ended(rounds: seq<Round>) {
    rounds != [] && rounds[|rounds| - 1].Returned?
  }

  /** A worker's rounds up to the first in which it gets nothing. */
  ghost function TurnsOn(cfg: L.Config, all: seq<Handle>, s: Work, client: nat, turns: seq<Turn>): (r: (Work, seq<Round>))
    requires Fits(all, s)
    ensures Fits(all, r.0)
    decreases turns
  {
    if turns == [] then (s, [])
    else
      var n := |turns| - 1;
      var (t, rounds) := TurnsOn(cfg, all, s, client, turns[..n]);
      if Ended(rounds) then (t, rounds)
      else
        var (u, round) := TurnOn(cfg, all, t, client, turns[n]);
        (u, rounds + [round])
  }

  lemma TurnsStep(cfg: L.Config, all: seq<Handle>, s: Work, client: nat, turns: seq<Turn>, i: nat)
    requires Fits(all, s) && i < |turns| && !Ended(TurnsOn(cfg, all, s, client, turns[..i]).1)
    ensures var (t, rounds) := TurnsOn(cfg, all, s, client, turns[..i]);
            var (u, round) := TurnOn(cfg, all, t, client, turns[i]);
            TurnsOn(cfg, all, s, client, turns[..i + 1]) == (u, rounds + [round])
  {
    assert turns[..i + 1][..i] == turns[..i];
  }

  lemma {:induction false} TurnsEnd(cfg: L.Config, all: seq<Handle>, s: Work, client: nat, turns: seq<Turn>, i: nat)
    requires Fits(all, s) && i <= |turns| && Ended(TurnsOn(cfg, all, s, client, turns[..i]).1)
    ensures TurnsOn(cfg, all, s, client, turns) == TurnsOn(cfg, all, s, client, turns[..i])
    decreases |turns|
  {
    hide TurnOn, Fits;
    if i == |turns| {
      assert turns[..i] == turns;
    } else {
      var n := |turns| - 1;
      assert turns[..n][..i] == turns[..i];
      TurnsEnd(cfg, all, s, client, turns[..n], i);
    }
  }

  /** What a turn's round can be. */
  ghost predicate Follows(round: Round, turn: Turn) {
    && (round.Rejected? ==> turn.smsg.None?)
    && (round.Squashed? || round.Pushed? ==> turn.smsg.Some?)
    && (round.Pushed? ==> round.status == turn.status)
    && (turn.cancelled || turn.cancelledInGet ==> round.Returned?)
  }

  lemma RoundFollows(cfg: L.Config, all: seq<Handle>, s: Work, client: nat, turn: Turn)
    requires Fits(all, s)
    ensures Follows(TurnOn(cfg, all, s, client, turn).1, turn)
  {
    hide Prepared, Q.Remove, Q.FirstReady;
  }

  /** A worker goes on round after round until it gets nothing; round i disposes of its message as turn i says. */
  lemma {:induction false} RoundsFollowTurns(cfg: L.Config, all: seq<Handle>, s: Work, client: nat, turns: seq<Turn>)
    requires Fits(all, s)
    ensures var rounds := TurnsOn(cfg, all, s, client, turns).1;
            && |rounds| <= |turns| && (Ended(rounds) || |rounds| == |turns|)
            && forall i | 0 <= i < |rounds| ::
                 (i < |rounds| - 1 ==> !rounds[i].Returned?) && Follows(rounds[i], turns[i])
  {
    hide TurnOn, Follows, Fits;
    if turns != [] {
      var n := |turns| - 1;
      RoundsFollowTurns(cfg, all, s, client, turns[..n]);
      RoundFollows(cfg, all, TurnsOn(cfg, all, s, client, turns[..n]).0, client, turns[n]);
    }
  }

  // ---------- a pass of the squasher on values ----------

  /** The queue after messages are removed, in order, from the slots they name. */
  ghost function RemoveEach(q: Q.QueueState, ms: seq<Handle>): (r: Q.QueueState)
    ensures r.records == q.records && |r.buf| == |q.buf|
  {
    if ms == [] then q
    else
      var before, h := RemoveEach(q, ms[..|ms| - 1]), ms[|ms| - 1].id;
      if h < |q.records| && q.records[h].idx < |q.buf| then Q.Remove(before, h) else before
  }

  lemma RemoveEachStep(q: Q.QueueState, ms: seq<Handle>, i: nat)
    requires i < |ms| && ms[i].id < |q.records| && q.records[ms[i].id].idx < |q.buf|
    ensures RemoveEach(q, ms[..i + 1]) == Q.Remove(RemoveEach(q, ms[..i]), ms[i].id)
  {
    assert ms[..i + 1][..i] == ms[..i];
  }

  /** A pass whose poll comes elapsed later and, if a batch is handed out, records it sending later. k is the key due first. */
  ghost function PassOn(cfg: L.Config, s: Work, k: L.Key, elapsed: nat, sending: nat): Work
    requires s.limit.Some? && s.limit.value.clock <= s.clock && s.limit.value.popped == []
    requires s.limit.value.core.batches != map[] ==> L.IsMinDue(s.limit.value.core, k)
  {
    var l, polled := s.limit.value, s.clock + elapsed;
    if s.waiter.Running? && l.core.batches == map[] then s.(clock := polled, waiter := Asleep)
    else if s.stopping || l.core.batches == map[] || polled <= l.core.batches[k].due then s.(clock := polled, waiter := Running)
    else
      var m, now := L.Next(cfg, l, L.Pop(k, polled)), polled + sending;
      Work(RemoveEach(s.q, l.core.batches[k].queuedMsgs), Q.Some(L.Next(cfg, m, L.Record(now))), now, Running, s.stopping)
  }

  // ---------- backing off ----------

  /** Temporary failures since the last push that ended otherwise; rounds without a push do not count. */
  function Streak(rounds: seq<Round>): nat {
    if rounds == [] then 0
    else
      var before := Streak(rounds[..|rounds| - 1]);
      match rounds[|rounds| - 1]
      case Pushed(_, status) => if status.TempFail? then before + 1 else 0
      case _ => before
  }

  /** The failure count a worker backs off with after each temporary failure. */
  function Sleeps(rounds: seq<Round>): seq<nat> {
    if rounds == [] then []
    else
      var front := rounds[..|rounds| - 1];
      var last := rounds[|rounds| - 1];
      Sleeps(front) + if last.Pushed? && last.status.TempFail? then [Streak(front)] else []
  }

  lemma SleepsStep(rounds: seq<Round>, round: Round)
    ensures Sleeps(rounds + [round]) == Sleeps(rounds) + if round.Pushed? && round.status.TempFail? then [Streak(rounds)] else []
    ensures Streak(rounds + [round]) ==
            if !round.Pushed? then Streak(rounds) else if round.status.TempFail? then Streak(rounds) + 1 else 0
  {
    assert (rounds + [round])[..|rounds|] == rounds;
  }

  function FailedRounds(rounds: seq<Round>): set<nat> {
    set i | 0 <= i < |rounds| && rounds[i].Pushed? && rounds[i].status.TempFail?
  }

  /** One back-off for each temporary failure. */
  lemma {:induction false} SleepsCountFailures(rounds: seq<Round>)
    ensures |Sleeps(rounds)| == |FailedRounds(rounds)|
  {
    hide Streak;
    if rounds != [] {
      var n := |rounds| - 1;
      SleepsCountFailures(rounds[..n]);
      assert FailedRounds(rounds) == FailedRounds(rounds[..n]) +
             if rounds[n].Pushed? && rounds[n].status.TempFail? then {n} else {};
    }
  }

  /** The counts start at zero and grow by one until a push ends otherwise. */
  lemma {:induction false} BackOffCounts(rounds: seq<Round>)
    ensures var counts := Sleeps(rounds);
            && (forall i | 0 <= i < |counts| :: counts[i] == 0 || (i > 0 && counts[i] == counts[i - 1] + 1))
            && (Streak(rounds) > 0 ==> counts != [] && Streak(rounds) == counts[|counts| - 1] + 1)
  {
    if rounds != [] {
      var front, last := rounds[..|rounds| - 1], rounds[|rounds| - 1];
      BackOffCounts(front);
      assert rounds == front + [last];
      SleepsStep(front, last);
      hide Sleeps, Streak;
    }
  }
}
