/** The window bound RateMax + 2 is reached by the pump: it cannot be lowered for any limit and any window length. */
module SystemTight {
  import opened Window
  import L = Limiter
  import R = LimiterRuns
  import Q = SlotQueue
  import opened System
  import opened SystemInvariant

  function Rep(n: nat, t: int): (r: seq<int>)
    ensures |r| == n && forall i | 0 <= i < n :: r[i] == t
  {
    seq(n, _ => t)
  }

  lemma RepAppend(n: nat, t: int)
    ensures Rep(n, t) + [t] == Rep(n + 1, t)
  {}

  lemma {:induction false} KeptOfRep(n: nat, t: int, now: int, per: int)
    ensures Kept(Rep(n, t), Rep(n, now), per) == if now - t > per then [] else Rep(n, t)
  {
    if n > 0 {
      assert Rep(n, t)[..n - 1] == Rep(n - 1, t) && Rep(n, now)[..n - 1] == Rep(n - 1, now);
      KeptOfRep(n - 1, t, now, per);
    }
  }

  lemma {:induction false} InWindowOfRep(h: seq<int>, n: nat, t: int, a: int, per: int)
    ensures InWindow(h + Rep(n, t), a, per) == InWindow(h, a, per) + if a <= t <= a + per then n else 0
  {
    if n == 0 {
      assert h + Rep(n, t) == h;
    } else {
      InWindowOfRep(h, n - 1, t, a, per);
      assert h + Rep(n, t) == h + Rep(n - 1, t) + [t];
      InWindowAppend(h + Rep(n - 1, t), t, a, per);
    }
  }

  /** Of three bursts of n and two more pushes with the last, a window at the last sees n + 2. */
  lemma BurstsInWindow(n: nat, t0: int, t1: int, t2: int, per: int)
    requires t0 < t1 < t2 && 0 <= per
    ensures InWindow([] + Rep(n, t0) + Rep(n, t1) + Rep(n, t2) + Rep(2, t2), t2, per) == n + 2
  {
    InWindowOfRep([], n, t0, t2, per);
    InWindowOfRep([] + Rep(n, t0), n, t1, t2, per);
    InWindowOfRep([] + Rep(n, t0) + Rep(n, t1), n, t2, t2, per);
    InWindowOfRep([] + Rep(n, t0) + Rep(n, t1) + Rep(n, t2), 2, t2, t2, per);
  }

  // ---------- what arrivals do to the limiter ----------

  /** The key's list holds n entries, all made at time t, and its history is h. */
  ghost predicate Has(l: L.Limit<Id>, k: L.Key, n: nat, t: int, h: seq<int>) {
    L.Lookup(l.core.pushedAt, k) == Rep(n, t) && L.Lookup(l.hist, k) == h
  }

  /** How many of n entries made at t a window ending at now still sees, if it sees those made at now only. */
  function Seen(n: nat, t: int, now: int): nat {
    if t == now then n else 0
  }

  lemma DirectEffect(cfg: L.Config, l: L.Limit<Id>, e: L.Event<Id>, n: nat, t: int, h: seq<int>)
    requires e.Arrive? && l.clock <= e.now && e.readings == Rep(n, e.now)
    requires Has(l, e.smsg.squashKey, n, t, h) && 0 <= cfg.ratePer && (t == e.now || e.now - t > cfg.ratePer)
    requires Seen(n, t, e.now) < cfg.rateMax
    ensures L.Enabled(cfg, l, e) && L.OutcomeOf(cfg, l, e).Direct?
    ensures var l' := L.Next(cfg, l, e);
            && Has(l', e.smsg.squashKey, Seen(n, t, e.now) + 1, e.now, h + [e.now])
            && l'.core.batches == l.core.batches && l'.popped == l.popped && l'.clock == e.now
  {
    hide Kept, Rep;
    KeptOfRep(n, t, e.now, cfg.ratePer);
    RepAppend(Seen(n, t, e.now), e.now);
    assert Rep(0, e.now) == [];
  }

  lemma SquashEffect(cfg: L.Config, l: L.Limit<Id>, e: L.Event<Id>, n: nat, h: seq<int>)
    requires e.Arrive? && l.clock == e.now && e.readings == Rep(n, e.now)
    requires Has(l, e.smsg.squashKey, n, e.now, h) && 0 <= cfg.ratePer && 0 < cfg.rateMax <= n
    requires var k := e.smsg.squashKey; k in l.core.batches ==> l.core.batches[k].queue == cfg.queue
    ensures L.Enabled(cfg, l, e) && L.OutcomeOf(cfg, l, e).Squashed?
    ensures var l', k := L.Next(cfg, l, e), e.smsg.squashKey;
            && Has(l', k, n, e.now, h) && l'.popped == l.popped && l'.clock == e.now
            && l'.core.batches.Keys == l.core.batches.Keys + {k}
            && l'.core.batches[k].due == e.now + cfg.ratePer && l'.core.batches[k].key == k
            && MsgsOf(l'.core.batches, k) == MsgsOf(l.core.batches, k) + [e.qm]
  {
    hide Kept;
    KeptOfRep(n, e.now, e.now, cfg.ratePer);
  }

  lemma PopEffect(cfg: L.Config, l: L.Limit<Id>, k: L.Key, now: int, n: nat, t: int, h: seq<int>)
    requires Has(l, k, n, t, h) && l.clock <= now && l.popped == []
    requires l.core.batches.Keys == {k} && l.core.batches[k].due < now && l.core.batches[k].key == k
    ensures L.Enabled(cfg, l, L.Pop(k, now))
    ensures var l' := L.Next(cfg, l, L.Pop(k, now));
            && Has(l', k, n, t, h) && l'.clock == now && l'.core.batches == map[]
            && |l'.popped| == 1 && l'.popped[0].key == k
  {
    assert (l.core.batches - {k}).Keys == {};
  }

  lemma RecordEffect(cfg: L.Config, l: L.Limit<Id>, k: L.Key, n: nat, now: int, h: seq<int>)
    requires Has(l, k, n, now, h) && l.clock <= now && |l.popped| == 1 && l.popped[0].key == k
    ensures L.Enabled(cfg, l, L.Record(now))
    ensures var l' := L.Next(cfg, l, L.Record(now));
            && Has(l', k, n + 1, now, h + [now]) && l'.clock == now && l'.popped == []
            && l'.core.batches == l.core.batches
  {
    hide Rep;
    RepAppend(n, now);
  }

  // ---------- reaching a state ----------

  ghost predicate Reaches(p: Setup, s: State, t: State) {
    exists es :: Run(p, s, es) && Final(p, s, es) == t
  }

  lemma ReachSelf(p: Setup, s: State)
    ensures Reaches(p, s, s)
  {
    assert Run(p, s, []) && Final(p, s, []) == s;
  }

  lemma {:induction false} RunAppend(p: Setup, s: State, es: seq<Event>, e: Event)
    requires Run(p, s, es) && Enabled(p, Final(p, s, es), e)
    ensures Run(p, s, es + [e]) && Final(p, s, es + [e]) == Next(p, Final(p, s, es), e)
    decreases es
  {
    if es == [] {
      assert es + [e] == [e] && [e][1..] == [];
      hide Next, Enabled;
      assert Run(p, Next(p, s, e), []) && Final(p, Next(p, s, e), []) == Next(p, s, e);
    } else {
      hide Next, Enabled;
      assert (es + [e])[0] == es[0] && (es + [e])[1..] == es[1..] + [e];
      RunAppend(p, Next(p, s, es[0]), es[1..], e);
    }
  }

  lemma ReachNext(p: Setup, s: State, t: State, e: Event)
    requires Reaches(p, s, t) && Enabled(p, t, e)
    ensures Reaches(p, s, Next(p, t, e))
  {
    hide Next, Enabled;
    var es :| Run(p, s, es) && Final(p, s, es) == t;
    RunAppend(p, s, es, e);
  }

  /** A state reached from s0 in which worker 0 is idle in a running pump and no message waits. */
  ghost predicate Calm(p: Setup, s0: State, s: State) {
    && Limited(p) && Inv(p, s) && Reaches(p, s0, s)
    && Is(s, 0, Idle) && !s.cancelled && !s.q.shuttingDown && !s.stopRequested
    && Q.FirstReady(s.q, 0) == |s.q.buf|
    && !s.sq.Asleep?
  }

  lemma CalmNext(p: Setup, s0: State, s: State, e: Event)
    requires Limited(p) && Inv(p, s) && Reaches(p, s0, s) && Enabled(p, s, e)
    ensures Inv(p, Next(p, s, e)) && Reaches(p, s0, Next(p, s, e))
  {
    hide Inv, Reaches, Next, Enabled;
    StepKeepsInv(p, s, e);
    ReachNext(p, s0, s, e);
  }

  lemma FirstReadyAtEnd(q: Q.QueueState)
    requires forall i | 0 <= i < |q.buf| :: !Q.Ready(q, i)
    ensures Q.FirstReady(q, 0) == |q.buf|
  {}

  /** After a message is queued, it is the only one available; after it is taken, none is. */
  lemma OneReady(q: Q.QueueState, body: Q.Body)
    requires Q.WellFormed(q) && Q.FirstReady(q, 0) == |q.buf|
    ensures var q', i := Q.Enqueue(q, body), Q.FirstFree(q.buf, 0);
            && Q.FirstReady(q', 0) == i < |q'.buf| && q'.buf[i] == Q.Some(|q.records|)
            && forall j | 0 <= j < |q'.buf| && j != i :: !Q.Ready(q', j)
  {
    var q', i := Q.Enqueue(q, body), Q.FirstFree(q.buf, 0);
    forall j | 0 <= j < |q'.buf| && j != i ensures !Q.Ready(q', j) {
      assert q'.buf[j] == q.buf[j] && !Q.Ready(q, j);
      if q.buf[j].Some? {
        assert Q.WellFormed(q);
      }
    }
    assert Q.Ready(q', i);
  }

  /** A message is queued and worker 0 gets it. */
  lemma GetNew(p: Setup, s0: State, s: State, body: Q.Body) returns (t: State)
    requires Calm(p, s0, s)
    ensures Inv(p, t) && Reaches(p, s0, t) && t.lim == s.lim && t.sq == s.sq
    ensures Is(t, 0, Holding(|s.q.records|)) && !t.cancelled && !t.q.shuttingDown && !t.stopRequested
    ensures |t.q.records| == |s.q.records| + 1 && t.q.records[|s.q.records|].body == body
    ensures forall i | 0 <= i < |t.q.buf| :: !Q.Ready(t.q, i)
  {
    assert Q.WellFormed(s.q);
    hide Inv, Reaches;
    var a := Next(p, s, Enqueue(body));
    CalmNext(p, s0, s, Enqueue(body));
    var i, h := Q.FirstFree(s.q.buf, 0), |s.q.records|;
    OneReady(s.q, body);
    t := Next(p, a, Get(0));
    CalmNext(p, s0, a, Get(0));
    forall j | 0 <= j < |t.q.buf| ensures !Q.Ready(t.q, j) {
      assert j != i ==> !Q.Ready(a.q, j);
      assert t.q.records[h].pending;
    }
  }

  /** The limiter's arrival event for the next message queued, all its readings at one instant. */
  function NextArrival(s: State, smsg: L.ServiceMessage, n: nat, now: int): L.Event<Id> {
    L.Arrive(|s.q.records|, smsg, 0, Rep(n, now), now)
  }

  /** A message is queued, got and found to be within the rate: for the limiter, one direct arrival. */
  lemma PrepareIt(p: Setup, s0: State, s: State, body: Q.Body, smsg: L.ServiceMessage, n: nat, t: int, now: int, h: seq<int>)
    returns (b: State)
    requires Calm(p, s0, s) && p.convert(body) == Q.Some(smsg) && s.lim.clock <= now
    requires Has(s.lim, smsg.squashKey, n, t, h) && 0 <= p.limit.ratePer && (t == now || now - t > p.limit.ratePer)
    requires Seen(n, t, now) < p.limit.rateMax
    ensures Inv(p, b) && Reaches(p, s0, b) && b.sq == s.sq && b.lim.clock == now
    ensures Is(b, 0, Pushing(|s.q.records|)) && |b.q.records| == |s.q.records| + 1
    ensures !b.cancelled && !b.q.shuttingDown && !b.stopRequested
    ensures forall i | 0 <= i < |b.q.buf| :: !Q.Ready(b.q, i)
    ensures Has(b.lim, smsg.squashKey, Seen(n, t, now) + 1, now, h + [now])
    ensures b.lim.core.batches == s.lim.core.batches && b.lim.popped == s.lim.popped
  {
    var e := NextArrival(s, smsg, n, now);
    DirectEffect(p.limit, s.lim, e, n, t, h);
    hide Inv, Reaches, Has, L.Next, L.Enabled, L.OutcomeOf, Rep;
    var a := GetNew(p, s0, s, body);
    var prepare := PrepareToPush(0, Rep(n, now), now);
    b := Next(p, a, prepare);
    hide Calm, Q.Ready;
    CalmNext(p, s0, a, prepare);
  }

  lemma CarriedInSlot(p: Setup, b: State)
    requires Inv(p, b) && IsPushing(b, 0)
    ensures b.q.records[b.workers[0].id].idx < |b.q.buf|
  {
    CarriedIsOwned(b, 0);
  }

  /** Removing a message makes no other message available. */
  lemma AfterRemoval(p: Setup, b: State, h: Id, q: Q.QueueState)
    requires Inv(p, b) && h < |b.q.records| && b.q.records[h].idx < |b.q.buf| && q == Q.Remove(b.q, h)
    requires forall i | 0 <= i < |b.q.buf| :: !Q.Ready(b.q, i)
    ensures Q.FirstReady(q, 0) == |q.buf|
  {
    hide Inv;
    forall i | 0 <= i < |q.buf| ensures !Q.Ready(q, i) {
      assert !Q.Ready(b.q, i);
    }
    FirstReadyAtEnd(q);
  }

  /** The message that worker 0 pushes is delivered and removed. */
  lemma AnswerIt(p: Setup, s0: State, b: State) returns (s': State)
    requires Limited(p) && Inv(p, b) && Reaches(p, s0, b) && !b.sq.Asleep? && IsPushing(b, 0)
    requires !b.cancelled && !b.q.shuttingDown && !b.stopRequested
    requires forall i | 0 <= i < |b.q.buf| :: !Q.Ready(b.q, i)
    ensures Calm(p, s0, s') && s'.lim == b.lim && s'.sq == b.sq
  {
    var h := b.workers[0].id;
    CarriedInSlot(p, b);
    hide Inv, Reaches;
    s' := Next(p, b, Answer(0, L.Success));
    CalmNext(p, s0, b, Answer(0, L.Success));
    AfterRemoval(p, b, h, s'.q);
  }

  /** A message is queued, got, pushed directly and removed. */
  lemma DirectIt(p: Setup, s0: State, s: State, body: Q.Body, smsg: L.ServiceMessage, n: nat, t: int, now: int, h: seq<int>)
    returns (s': State)
    requires Calm(p, s0, s) && p.convert(body) == Q.Some(smsg) && s.lim.clock <= now
    requires Has(s.lim, smsg.squashKey, n, t, h) && 0 <= p.limit.ratePer && (t == now || now - t > p.limit.ratePer)
    requires Seen(n, t, now) < p.limit.rateMax
    ensures Calm(p, s0, s') && s'.sq == s.sq && s'.lim.clock == now
    ensures Has(s'.lim, smsg.squashKey, Seen(n, t, now) + 1, now, h + [now])
    ensures s'.lim.core.batches == s.lim.core.batches && s'.lim.popped == s.lim.popped
  {
    hide Inv, Reaches, Has, Q.Ready;
    var b := PrepareIt(p, s0, s, body, smsg, n, t, now, h);
    hide Calm;
    s' := AnswerIt(p, s0, b);
  }

  lemma OwnQueue(p: Setup, s: State, k: L.Key)
    requires Inv(p, s) && Limited(p) && k in s.lim.core.batches
    ensures s.lim.core.batches[k].queue == p.limit.queue
  {
    assert R.SafeKey(p.limit, s.lim, k);
  }

  /** The next message is squashed: an arrival that opens or joins a batch. */
  lemma SquashNext(p: Setup, s: State, smsg: L.ServiceMessage, n: nat, now: int, h: seq<int>)
    requires Inv(p, s) && Limited(p) && s.lim.clock == now
    requires Has(s.lim, smsg.squashKey, n, now, h) && 0 <= p.limit.ratePer && p.limit.rateMax <= n
    ensures var e := NextArrival(s, smsg, n, now); var k := smsg.squashKey;
            && L.Enabled(p.limit, s.lim, e) && L.OutcomeOf(p.limit, s.lim, e).Squashed?
            && var l' := L.Next(p.limit, s.lim, e);
            && Has(l', k, n, now, h) && l'.popped == s.lim.popped && l'.clock == now
            && l'.core.batches.Keys == s.lim.core.batches.Keys + {k}
            && l'.core.batches[k].due == now + p.limit.ratePer && l'.core.batches[k].key == k
            && MsgsOf(l'.core.batches, k) == MsgsOf(s.lim.core.batches, k) + [|s.q.records|]
  {
    if smsg.squashKey in s.lim.core.batches {
      OwnQueue(p, s, smsg.squashKey);
    }
    hide Inv;
    SquashEffect(p.limit, s.lim, NextArrival(s, smsg, n, now), n, h);
  }

  /** A message is queued, got and squashed. */
  lemma SquashIt(p: Setup, s0: State, s: State, body: Q.Body, smsg: L.ServiceMessage, n: nat, now: int, h: seq<int>)
    returns (s': State)
    requires Calm(p, s0, s) && p.convert(body) == Q.Some(smsg) && s.lim.clock == now
    requires Has(s.lim, smsg.squashKey, n, now, h) && 0 <= p.limit.ratePer && p.limit.rateMax <= n
    ensures Calm(p, s0, s') && s'.sq == s.sq && s'.lim.clock == now
    ensures Has(s'.lim, smsg.squashKey, n, now, h) && s'.lim.popped == s.lim.popped
    ensures s'.lim.core.batches.Keys == s.lim.core.batches.Keys + {smsg.squashKey}
    ensures MsgsOf(s'.lim.core.batches, smsg.squashKey) == MsgsOf(s.lim.core.batches, smsg.squashKey) + [|s.q.records|]
    ensures var b := s'.lim.core.batches[smsg.squashKey]; b.due == now + p.limit.ratePer && b.key == smsg.squashKey
  {
    hide Inv, Reaches, Has, L.Next, L.Enabled, L.OutcomeOf, Rep, MsgsOf;
    SquashNext(p, s, smsg, n, now, h);
    var a := GetNew(p, s0, s, body);
    var prepare := PrepareToPush(0, Rep(n, now), now);
    s' := Next(p, a, prepare);
    assert s'.q == a.q && s'.lim == L.Next(p.limit, s.lim, NextArrival(s, smsg, n, now)) && Is(s', 0, Idle);
    hide Q.Ready, Next, Enabled;
    CalmNext(p, s0, a, prepare);
    FirstReadyAtEnd(s'.q);
  }

  /** Up to rateMax direct pushes at one instant, once everything older has left the window. */
  lemma {:induction false} Burst(p: Setup, s0: State, s: State, body: Q.Body, smsg: L.ServiceMessage,
                                 count: nat, n: nat, t: int, now: int, h: seq<int>)
    returns (s': State)
    requires Calm(p, s0, s) && p.convert(body) == Q.Some(smsg) && s.lim.clock <= now
    requires Has(s.lim, smsg.squashKey, n, t, h) && 0 <= p.limit.ratePer && (t == now || now - t > p.limit.ratePer)
    requires 0 < count && Seen(n, t, now) + count <= p.limit.rateMax
    ensures Calm(p, s0, s') && s'.sq == s.sq && s'.lim.clock == now
    ensures Has(s'.lim, smsg.squashKey, Seen(n, t, now) + count, now, h + Rep(count, now))
    ensures s'.lim.core.batches == s.lim.core.batches && s'.lim.popped == s.lim.popped
    decreases count
  {
    hide Calm;
    s' := DirectIt(p, s0, s, body, smsg, n, t, now, h);
    assert Rep(1, now) == [now];
    if count > 1 {
      s' := Burst(p, s0, s', body, smsg, count - 1, Seen(n, t, now) + 1, now, now, h + [now]);
      assert h + [now] + Rep(count - 1, now) == h + Rep(count, now);
    }
  }

  /** The squasher takes the one batch there is, which is due. */
  lemma PopIt(p: Setup, s0: State, s: State, k: L.Key, n: nat, t: int, now: int, h: seq<int>) returns (s': State)
    requires Calm(p, s0, s) && s.sq.Polling? && s.lim.clock <= now && s.lim.popped == []
    requires Has(s.lim, k, n, t, h)
    requires s.lim.core.batches.Keys == {k} && s.lim.core.batches[k].due < now && s.lim.core.batches[k].key == k
    ensures Calm(p, s0, s') && s'.sq.Popped?
    ensures Has(s'.lim, k, n, t, h) && s'.lim.clock == now && s'.lim.core.batches == map[]
    ensures |s'.lim.popped| == 1 && s'.lim.popped[0].key == k
  {
    PopEffect(p.limit, s.lim, k, now, n, t, h);
    hide Inv, Reaches, Has, L.Next;
    s' := Next(p, s, Poll(k, now));
    CalmNext(p, s0, s, Poll(k, now));
  }

  lemma RecordCalm(p: Setup, s0: State, s: State, now: int)
    requires Calm(p, s0, s) && Enabled(p, s, RecordBatch(now))
    ensures Calm(p, s0, AfterRecord(p, s, now))
  {
    hide Inv, Reaches, L.Next, L.Enabled, Q.FirstReady;
    CalmNext(p, s0, s, RecordBatch(now));
  }

  lemma HandInSlot(p: Setup, s: State, h: Id)
    requires Inv(p, s) && h in InHand(s)
    ensures h < |s.q.records| && s.q.records[h].idx < |s.q.buf|
  {
    assert s.owner[h] == WithSquasher;
  }

  lemma RemoveOne(p: Setup, s0: State, s: State) returns (s': State)
    requires Calm(p, s0, s) && s.sq.Removing? && s.sq.left != []
    ensures Calm(p, s0, s') && s'.sq == Removing(s.sq.left[1..]) && s'.lim == s.lim && s'.stopRequested == s.stopRequested
  {
    var h := s.sq.left[0];
    HandInSlot(p, s, h);
    hide Inv, Reaches, Q.Ready, Q.Remove;
    s' := Next(p, s, RemoveNext);
    CalmNext(p, s0, s, RemoveNext);
    AfterRemoval(p, s, h, s'.q);
  }

  lemma {:induction false} RemoveAll(p: Setup, s0: State, s: State) returns (s': State)
    requires Calm(p, s0, s) && s.sq.Removing?
    ensures Calm(p, s0, s') && s'.sq.Polling? && s'.lim == s.lim && s'.stopRequested == s.stopRequested
    decreases |s.sq.left|
  {
    if s.sq.left == [] {
      hide Inv, Reaches, Q.FirstReady;
      s' := Next(p, s, RemoveNext);
      CalmNext(p, s0, s, RemoveNext);
    } else {
      s' := RemoveOne(p, s0, s);
      hide Calm;
      s' := RemoveAll(p, s0, s');
    }
  }

  /** The squasher records the batch and removes its messages. */
  lemma RecordIt(p: Setup, s0: State, s: State, k: L.Key, n: nat, now: int, h: seq<int>) returns (s': State)
    requires Calm(p, s0, s) && s.sq.Popped? && s.lim.clock <= now && Has(s.lim, k, n, now, h)
    requires |s.lim.popped| == 1 && s.lim.popped[0].key == k
    ensures Calm(p, s0, s') && s'.sq.Polling?
    ensures Has(s'.lim, k, n + 1, now, h + [now]) && s'.lim.clock == now && s'.lim.popped == []
    ensures s'.lim.core.batches == s.lim.core.batches
  {
    RecordEffect(p.limit, s.lim, k, n, now, h);
    hide Calm, Has, L.Next, L.Enabled;
    assert Enabled(p, s, RecordBatch(now));
    RecordCalm(p, s0, s, now);
    var a := AfterRecord(p, s, now);
    hide Next, Enabled;
    s' := RemoveAll(p, s0, a);
  }

  /** One worker, nothing queued, the squasher polling. */
  function Start(): State {
    State(Q.EMPTY, 0, false, [Idle], L.Limit(L.Core(map[], map[]), 1, map[], [], map[], map[]), false, Polling, false, [])
  }

  lemma StartIsCalm(p: Setup)
    requires Limited(p)
    ensures Init(p, Start()) && Calm(p, Start(), Start())
  {
    InitInv(p, Start());
    ReachSelf(p, Start());
  }

  lemma HistoryReached(p: Setup, s: State, k: L.Key, n: nat, t: int, h: seq<int>)
    requires Calm(p, Start(), s) && Has(s.lim, k, n, t, h)
    ensures exists es :: Run(p, Start(), es) && L.Lookup(Final(p, Start(), es).lim.hist, k) == h
  {
    var es :| Run(p, Start(), es) && Final(p, Start(), es) == s;
  }

  lemma StartHas(k: L.Key, t: int)
    ensures Has(Start().lim, k, 0, t, [])
  {}

  /**
   * For every limit, every window length and every key that some message has, there is a run of the
   * pump that records rateMax + 2 pushes of the key at a single instant: the squasher pauses between
   * popping a batch and recording it.
   */
  lemma WindowBoundReached(p: Setup, body: Q.Body)
    requires Limited(p) && 0 <= p.limit.ratePer && p.convert(body).Some?
    ensures exists es, a ::
              && Run(p, Start(), es)
              && InWindow(L.Lookup(Final(p, Start(), es).lim.hist, p.convert(body).value.squashKey), a, p.limit.ratePer)
                 == p.limit.rateMax + 2
  {
    hide Calm, Has, Run, Final, InWindow;
    var smsg := p.convert(body).value;
    var k, max, per, s0 := smsg.squashKey, p.limit.rateMax, p.limit.ratePer, Start();
    var t0, t1, t2 := 1, 2 + per, 3 + 2 * per;
    var h0, h1 := [] + Rep(max, t0), [] + Rep(max, t0) + Rep(max, t1);
    var h2 := h1 + Rep(max, t2);
    StartIsCalm(p);
    StartHas(k, t0);

    var a1 := Burst(p, s0, s0, body, smsg, max, 0, t0, t0, []);
    var a2 := SquashIt(p, s0, a1, body, smsg, max, t0, h0);
    var a3 := PopIt(p, s0, a2, k, max, t0, t1, h0);
    var a4 := Burst(p, s0, a3, body, smsg, max, max, t0, t1, h0);
    var a5 := SquashIt(p, s0, a4, body, smsg, max, t1, h1);
    var a6 := Burst(p, s0, a5, body, smsg, max, max, t1, t2, h1);
    var a7 := RecordIt(p, s0, a6, k, max, t2, h2);
    var a8 := PopIt(p, s0, a7, k, max + 1, t2, t2, h2 + [t2]);
    var a9 := RecordIt(p, s0, a8, k, max + 1, t2, h2 + [t2]);

    assert Rep(2, t2) == [t2, t2] && h2 + [t2] + [t2] == h2 + Rep(2, t2);
    BurstsInWindow(max, t0, t1, t2, per);
    HistoryReached(p, a9, k, max + 2, t2, h2 + Rep(2, t2));
    var es :| Run(p, s0, es) && L.Lookup(Final(p, s0, es).lim.hist, k) == h2 + Rep(2, t2);
    assert InWindow(L.Lookup(Final(p, s0, es).lim.hist, k), t2, per) == max + 2;
  }
}
