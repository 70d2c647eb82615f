/** How much work a run can do: every move of a message pays for itself. */
module SystemProgress {
  import L = Limiter
  import R = LimiterRuns
  import Q = SlotQueue
  import opened System
  import opened SystemInvariant

  /** How many more places a message passes before it is removed, if no push fails temporarily. */
  function Distance(place: Place): nat {
    match place
    case Waiting => 4
    case WithWorker(_) => 3
    case InBatch(_) => 2
    case WithSquasher => 1
    case Removed => 0
  }

  function Total(owner: seq<Place>): nat {
    if owner == [] then 0 else Total(owner[..|owner| - 1]) + Distance(owner[|owner| - 1])
  }

  lemma TotalAppend(owner: seq<Place>, place: Place)
    ensures Total(owner + [place]) == Total(owner) + Distance(place)
  {
    assert (owner + [place])[..|owner|] == owner;
  }

  lemma {:induction false} TotalUpdate(owner: seq<Place>, h: nat, place: Place)
    requires h < |owner|
    ensures Total(owner[h := place]) == Total(owner) - Distance(owner[h]) + Distance(place)
  {
    var n := |owner| - 1;
    if h < n {
      TotalUpdate(owner[..n], h, place);
      assert owner[h := place][..n] == owner[..n][h := place];
    } else {
      assert owner[h := place][..n] == owner[..n];
    }
  }

  lemma {:induction false} TotalShrinks(owner: seq<Place>, owner': seq<Place>)
    requires |owner| == |owner'|
    requires forall h | 0 <= h < |owner| :: Distance(owner'[h]) <= Distance(owner[h])
    ensures Total(owner') <= Total(owner)
    ensures (exists h :: 0 <= h < |owner| && Distance(owner'[h]) < Distance(owner[h])) ==> Total(owner') < Total(owner)
  {
    if owner != [] {
      var n := |owner| - 1;
      assert forall h | 0 <= h < n :: owner[..n][h] == owner[h] && owner'[..n][h] == owner'[h];
      TotalShrinks(owner[..n], owner'[..n]);
      if h :| 0 <= h < |owner| && Distance(owner'[h]) < Distance(owner[h]) {
        if h < n {
          assert Distance(owner'[..n][h]) < Distance(owner[..n][h]);
        }
      }
    }
  }

  /** A step that moves a message from one place to another. */
  ghost predicate Moves(p: Setup, s: State, e: Event)
    requires Enabled(p, s, e)
  {
    !e.Enqueue? && Next(p, s, e).owner != s.owner
  }

  predicate Fails(e: Event) {
    e.Answer? && e.status.TempFail?
  }

  ghost function MoveCount(p: Setup, s: State, es: seq<Event>): nat
    requires Run(p, s, es)
    decreases es
  {
    if es == [] then 0
    else (if Moves(p, s, es[0]) then 1 else 0) + MoveCount(p, Next(p, s, es[0]), es[1..])
  }

  function FailCount(es: seq<Event>): nat {
    if es == [] then 0 else (if Fails(es[0]) then 1 else 0) + FailCount(es[1..])
  }

  function EnqueueCount(es: seq<Event>): nat {
    if es == [] then 0 else (if es[0].Enqueue? then 1 else 0) + EnqueueCount(es[1..])
  }

  ghost predicate Pays(s: State, t: State, moved: bool, credit: nat) {
    (if moved then 1 else 0) + Total(t.owner) <= Total(s.owner) + credit
  }

  lemma OneMovePays(s: State, t: State, h: Id, to: Place, credit: nat)
    requires h < |s.owner| && t.owner == s.owner[h := to]
    requires Distance(to) + 1 <= Distance(s.owner[h]) + credit
    ensures Pays(s, t, true, credit)
  {
    TotalUpdate(s.owner, h, to);
  }

  lemma GetPays(p: Setup, s: State, w: nat)
    requires Inv(p, s) && Enabled(p, s, Get(w))
    ensures Pays(s, AfterGet(s, w), AfterGet(s, w).owner != s.owner, 0)
  {
    var i := Q.FirstReady(s.q, 0);
    if !s.cancelled && !s.q.shuttingDown && i < |s.q.buf| {
      var h := s.q.buf[i].value;
      assert Q.InSlot(s.q, h) && s.owner[h] == Waiting;
      hide Inv;
      OneMovePays(s, AfterGet(s, w), h, WithWorker(w), 0);
    }
  }

  lemma DropPays(p: Setup, s: State, w: nat)
    requires Inv(p, s) && (IsHolding(s, w) || IsPushing(s, w))
    ensures Pays(s, RemoveFromQueue(SetWorker(s, w, Idle), s.workers[w].id), true, 0)
  {
    CarriedIsOwned(s, w);
    hide Inv;
    OneMovePays(s, RemoveFromQueue(SetWorker(s, w, Idle), s.workers[w].id), s.workers[w].id, Removed, 0);
  }

  lemma RequeuePays(p: Setup, s: State, w: nat)
    requires Inv(p, s) && IsPushing(s, w)
    ensures Pays(s, AfterAnswer(s, w, L.TempFail), true, 2)
  {
    CarriedIsOwned(s, w);
    hide Inv;
    OneMovePays(s, AfterAnswer(s, w, L.TempFail), s.workers[w].id, Waiting, 2);
  }

  lemma PreparePays(p: Setup, s: State, w: nat, readings: seq<int>, now: int)
    requires Inv(p, s) && Enabled(p, s, PrepareToPush(w, readings, now))
    ensures var t := AfterPrepare(p, s, w, readings, now); Pays(s, t, t.owner != s.owner, 0)
  {
    CarriedIsOwned(s, w);
    hide Inv, L.Next, L.Enabled;
    var e := Arrival(p, s, w, readings, now);
    if L.OutcomeOf(p.limit, s.lim, e).Squashed? {
      OneMovePays(s, AfterPrepare(p, s, w, readings, now), e.qm, InBatch(e.smsg.squashKey), 0);
    }
  }

  /** Popping moves a whole batch, which is never empty. */
  lemma PopPays(p: Setup, s: State, key: L.Key)
    requires Inv(p, s) && Limited(p) && key in s.lim.core.batches
    ensures Total(Reassign(s.owner, s.lim.core.batches[key].queuedMsgs, WithSquasher)) < Total(s.owner)
  {
    var hs := s.lim.core.batches[key].queuedMsgs;
    assert R.SafeKey(p.limit, s.lim, key);
    assert 0 < |hs|;
    assert ListAgrees(MsgsOf(s.lim.core.batches, key), s.owner, InBatch(key));
    hide Inv, BatchesAgree, R.LimitInv, R.SafeKey, SlotsAgree, WorkersAgree;
    var owner' := Reassign(s.owner, hs, WithSquasher);
    assert hs[0] in hs;
    assert Distance(owner'[hs[0]]) < Distance(s.owner[hs[0]]);
    TotalShrinks(s.owner, owner');
  }

  lemma PollPays(p: Setup, s: State, key: L.Key, now: int)
    requires Inv(p, s) && Enabled(p, s, Poll(key, now))
    ensures var t := AfterPoll(p, s, key, now); Pays(s, t, t.owner != s.owner, 0)
  {
    if s.lim.core.batches != map[] {
      PopPays(p, s, key);
    }
  }

  lemma RemoveNextPays(p: Setup, s: State)
    requires Inv(p, s) && Enabled(p, s, RemoveNext)
    ensures var t := AfterRemoveNext(s); Pays(s, t, t.owner != s.owner, 0)
  {
    if s.sq.left != [] {
      var h := s.sq.left[0];
      assert h in s.sq.left && h in InHand(s) && s.owner[h] == WithSquasher;
      SlotsAfterRemove(s.q, s.owner, h);
      hide Inv;
      OneMovePays(s, AfterRemoveNext(s), h, Removed, 0);
    }
  }

  lemma ShutdownMovesNothing(s: State)
    ensures AfterShutdown(s).owner == s.owner
  {}

  lemma StepPays(p: Setup, s: State, e: Event)
    requires Inv(p, s) && Enabled(p, s, e)
    ensures Pays(s, Next(p, s, e), Moves(p, s, e), (if e.Enqueue? then 4 else 0) + if Fails(e) then 2 else 0)
  {
    hide Inv, AfterShutdown, AfterGet, AfterPrepare, AfterPoll, AfterRemoveNext, RemoveFromQueue, L.Enabled, L.Next;
    match e
    case Enqueue(_) => TotalAppend(s.owner, Waiting);
    case Get(w) => GetPays(p, s, w);
    case Reject(w) => DropPays(p, s, w);
    case PrepareToPush(w, readings, now) => PreparePays(p, s, w, readings, now);
    case Answer(w, status) =>
      if status.TempFail? {
        RequeuePays(p, s, w);
      } else {
        DropPays(p, s, w);
      }
    case Poll(key, now) => PollPays(p, s, key, now);
    case RemoveNext => RemoveNextPays(p, s);
    case Shutdown => ShutdownMovesNothing(s);
    case _ =>
  }

  lemma {:induction false} RunPays(p: Setup, s: State, es: seq<Event>)
    requires Inv(p, s) && Run(p, s, es)
    ensures MoveCount(p, s, es) + Total(Final(p, s, es).owner)
            <= Total(s.owner) + 4 * EnqueueCount(es) + 2 * FailCount(es)
    decreases es
  {
    if es != [] {
      hide Inv, Next, Enabled;
      StepKeepsInv(p, s, es[0]);
      StepPays(p, s, es[0]);
      RunPays(p, Next(p, s, es[0]), es[1..]);
    }
  }

  /**
   * However workers and squasher are interleaved, the messages of a run change place at most four
   * times each, plus twice per temporary failure; so finitely many messages and failures allow
   * only finitely many rounds of getting, squashing, sending and removing.
   */
  lemma BoundedWork(p: Setup, s: State, es: seq<Event>)
    requires Init(p, s) && Run(p, s, es)
    ensures MoveCount(p, s, es) + Total(Final(p, s, es).owner) <= 4 * EnqueueCount(es) + 2 * FailCount(es)
  {
    InitInv(p, s);
    RunPays(p, s, es);
  }
}
