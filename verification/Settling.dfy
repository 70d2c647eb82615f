/** Where the messages taken from the in-memory queue are: in one of the squasher's batches or in hand, and nowhere else. */
module Settling {
  import Q = SlotQueue
  import L = Limiter
  import opened MemoryQueues

  type Handle = MemoryQueuedMessage

  type Batches = map<L.Key, L.Batch<Handle>>

  /** Whether the message queued h-th is in its slot and taken. */
  predicate Taken(q: Q.QueueState, h: Q.Id) {
    Q.InSlot(q, h) && q.records[h].pending
  }

  /** Whether a message is in one of the batches. */
  ghost predicate InSome(batches: Batches, m: Handle) {
    exists k :: k in batches && m in batches[k].queuedMsgs
  }

  ghost predicate Distinct(ms: seq<Handle>) {
    forall i, j | 0 <= i < j < |ms| :: ms[i] != ms[j]
  }

  /** No message is twice in the batches. */
  ghost predicate Unique(batches: Batches) {
    && (forall k | k in batches :: Distinct(batches[k].queuedMsgs))
    && (forall j, k, m | j in batches && k in batches && m in batches[j].queuedMsgs && m in batches[k].queuedMsgs :: j == k)
  }

  /** all lists the messages of the queue's records. */
  ghost predicate Lists(all: seq<Handle>, q: Q.QueueState) {
    && Q.WellFormed(q) && |all| == |q.records|
    && forall h | 0 <= h < |all| :: all[h].id == h
  }

  /** The messages taken are exactly those in the batches and those in hand; nothing leaks. */
  ghost predicate SettledOn(all: seq<Handle>, q: Q.QueueState, batches: Batches, hand: set<Handle>) {
    && Lists(all, q)
    && (forall h | 0 <= h < |all| :: Taken(q, h) <==> InSome(batches, all[h]) || all[h] in hand)
    && (forall m | m in hand :: m in all && !InSome(batches, m))
    && Unique(batches)
    && (forall k, m | k in batches && m in batches[k].queuedMsgs :: m in all)
  }

  /** A message in hand is in its slot and in no batch. */
  lemma InHandIsTaken(all: seq<Handle>, q: Q.QueueState, batches: Batches, hand: set<Handle>, m: Handle)
    requires SettledOn(all, q, batches, hand) && m in hand
    ensures m.id < |all| && all[m.id] == m && Q.InSlot(q, m.id) && !InSome(batches, m)
  {}

  lemma RemoveSettles(all: seq<Handle>, q: Q.QueueState, batches: Batches, hand: set<Handle>, m: Handle)
    requires SettledOn(all, q, batches, hand) && m in hand
    ensures m.id < |all| && all[m.id] == m && Q.InSlot(q, m.id) && !InSome(batches, m)
    ensures SettledOn(all, Q.Remove(q, m.id), batches, hand - {m})
    ensures forall h | 0 <= h < |all| :: Q.InSlot(Q.Remove(q, m.id), h) <==> Q.InSlot(q, h) && all[h] != m
  {
    hide InSome, Unique;
    Q.RemoveKeepsWellFormed(q, m.id);
  }

  lemma RequeueSettles(all: seq<Handle>, q: Q.QueueState, batches: Batches, m: Handle)
    requires SettledOn(all, q, batches, {m})
    ensures m.id < |all| && all[m.id] == m && Q.InSlot(q, m.id) && !InSome(batches, m)
    ensures SettledOn(all, Q.SetPending(q, m.id, false), batches, {})
    ensures forall h | 0 <= h < |all| :: Q.InSlot(Q.SetPending(q, m.id, false), h) <==> Q.InSlot(q, h)
  {
    hide InSome, Unique;
    assert m in {m};
  }

  lemma TakeSettles(all: seq<Handle>, q: Q.QueueState, batches: Batches, h: Q.Id)
    requires SettledOn(all, q, batches, {}) && h < |all| && Q.InSlot(q, h) && !q.records[h].pending
    ensures SettledOn(all, Q.SetPending(q, h, true), batches, {all[h]})
    ensures forall g | 0 <= g < |all| :: Q.InSlot(Q.SetPending(q, h, true), g) <==> Q.InSlot(q, g)
  {
    hide InSome, Unique;
    assert !Taken(q, h);
  }

  /** A message joins the batch of k, or opens it. */
  ghost predicate Joined(batches: Batches, batches': Batches, k: L.Key, m: Handle) {
    && k in batches' && batches' == batches[k := batches'[k]]
    && batches'[k].queuedMsgs == (if k in batches then batches[k].queuedMsgs else []) + [m]
  }

  lemma JoinedHold(batches: Batches, batches': Batches, k: L.Key, m: Handle)
    requires Joined(batches, batches', k, m) && Unique(batches) && !InSome(batches, m)
    ensures forall g :: InSome(batches', g) <==> InSome(batches, g) || g == m
    ensures Unique(batches')
  {
    forall j, g | j in batches && g in batches[j].queuedMsgs ensures g != m {
      assert InSome(batches, g);
    }
    forall g ensures InSome(batches', g) <==> InSome(batches, g) || g == m {
      if InSome(batches, g) {
        var j :| j in batches && g in batches[j].queuedMsgs;
        assert j in batches' && g in batches'[j].queuedMsgs;
      }
      if g == m {
        assert m in batches'[k].queuedMsgs;
      }
    }
  }

  lemma SquashSettles(all: seq<Handle>, q: Q.QueueState, batches: Batches, batches': Batches, k: L.Key, m: Handle)
    requires SettledOn(all, q, batches, {m}) && Joined(batches, batches', k, m)
    ensures SettledOn(all, q, batches', {}) && InSome(batches', m)
  {
    InHandIsTaken(all, q, batches, {m}, m);
    JoinedHold(batches, batches', k, m);
    hide Unique, Q.InSlot;
    forall j, g | j in batches' && g in batches'[j].queuedMsgs ensures g in all {
      assert InSome(batches', g);
    }
  }

  /** The messages of a list from the i-th on. */
  ghost function From(ms: seq<Handle>, i: nat): set<Handle>
    requires i <= |ms|
  {
    set j | i <= j < |ms| :: ms[j]
  }

  lemma FromNext(ms: seq<Handle>, i: nat)
    requires i < |ms| && Distinct(ms)
    ensures ms[i] in From(ms, i) && From(ms, i) - {ms[i]} == From(ms, i + 1)
  {}

  lemma LeftHold(batches: Batches, k: L.Key)
    requires k in batches && Unique(batches)
    ensures var ms := batches[k].queuedMsgs;
            && Distinct(ms) && Unique(batches - {k})
            && forall m :: InSome(batches, m) <==> InSome(batches - {k}, m) || m in From(ms, 0)
    ensures forall m | m in From(batches[k].queuedMsgs, 0) :: !InSome(batches - {k}, m)
  {
    var ms, rest := batches[k].queuedMsgs, batches - {k};
    assert forall m :: m in From(ms, 0) <==> m in ms;
    forall m ensures InSome(batches, m) <==> InSome(rest, m) || m in ms {
      if InSome(batches, m) {
        var j :| j in batches && m in batches[j].queuedMsgs;
        if j != k {
          assert j in rest && m in rest[j].queuedMsgs;
        }
      }
      if m in ms {
        assert k in batches && m in batches[k].queuedMsgs;
      }
    }
  }

  /** Taking a batch from the squasher puts its messages in hand. */
  lemma PopSettles(all: seq<Handle>, q: Q.QueueState, batches: Batches, k: L.Key)
    requires SettledOn(all, q, batches, {}) && k in batches
    ensures Distinct(batches[k].queuedMsgs) && SettledOn(all, q, batches - {k}, From(batches[k].queuedMsgs, 0))
  {
    LeftHold(batches, k);
    hide InSome, Unique, Distinct, Q.InSlot;
  }
}
