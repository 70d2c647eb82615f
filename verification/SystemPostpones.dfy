/** A stored batch can be postponed any number of times while newer messages for its key are pushed directly. */
module SystemPostpones {
  import L = Limiter
  import Q = SlotQueue
  import opened System
  import opened SystemInvariant
  import opened SystemTight

  /** k's batch is stored and due one window after time t, at which its list was filled; the squasher has not polled. */
  ghost predicate Stored(p: Setup, s0: State, s: State, k: L.Key, t: int, h: seq<int>) {
    && Calm(p, s0, s) && s.sq.Polling? && s.lim.clock == t && Has(s.lim, k, p.limit.rateMax, t, h)
    && k in s.lim.core.batches && s.lim.core.batches[k].due == t + p.limit.ratePer
  }

  /** As soon as the batch is due, a burst is pushed directly and the next message postpones the batch. */
  lemma PostponeOnce(p: Setup, s0: State, s: State, body: Q.Body, smsg: L.ServiceMessage, t: int, h: seq<int>) returns (s': State)
    requires Limited(p) && 0 <= p.limit.ratePer && p.convert(body) == Q.Some(smsg) && Stored(p, s0, s, smsg.squashKey, t, h)
    ensures var now := t + p.limit.ratePer + 1;
            Stored(p, s0, s', smsg.squashKey, now, h + Rep(p.limit.rateMax, now))
    ensures MsgsOf(s.lim.core.batches, smsg.squashKey) <= MsgsOf(s'.lim.core.batches, smsg.squashKey)
  {
    hide Calm, Has, Rep;
    var now, max := t + p.limit.ratePer + 1, p.limit.rateMax;
    var a := Burst(p, s0, s, body, smsg, max, max, t, now, h);
    s' := SquashIt(p, s0, a, body, smsg, max, now, h + Rep(max, now));
  }

  lemma OneMore(n: nat, x: int)
    requires n > 0
    ensures x + (n - 1) * x == n * x
  {}

  lemma {:induction false} PostponeMany(p: Setup, s0: State, s: State, body: Q.Body, smsg: L.ServiceMessage, t: int, h: seq<int>, n: nat)
    returns (s': State, h': seq<int>)
    requires Limited(p) && 0 <= p.limit.ratePer && p.convert(body) == Q.Some(smsg) && Stored(p, s0, s, smsg.squashKey, t, h)
    ensures Stored(p, s0, s', smsg.squashKey, t + n * (p.limit.ratePer + 1), h') && |h'| == |h| + n * p.limit.rateMax
    ensures MsgsOf(s.lim.core.batches, smsg.squashKey) <= MsgsOf(s'.lim.core.batches, smsg.squashKey)
    decreases n
  {
    hide Stored, MsgsOf, Rep;
    if n == 0 {
      s', h' := s, h;
    } else {
      var step, max := p.limit.ratePer + 1, p.limit.rateMax;
      var a := PostponeOnce(p, s0, s, body, smsg, t, h);
      s', h' := PostponeMany(p, s0, a, body, smsg, t + step, h + Rep(max, t + step), n - 1);
      OneMore(n, step);
      OneMore(n, max);
    }
  }

  /** u is reached from t, where k's batch was stored, with that batch postponed n times over. */
  ghost predicate Postponed(p: Setup, t: State, u: State, k: L.Key, n: nat) {
    && k in t.lim.core.batches && k in u.lim.core.batches
    && t.lim.core.batches[k].queuedMsgs != [] && t.lim.core.batches[k].queuedMsgs <= u.lim.core.batches[k].queuedMsgs
    && u.lim.core.batches[k].due == t.lim.core.batches[k].due + n * (p.limit.ratePer + 1)
    && |L.Lookup(u.lim.hist, k)| == |L.Lookup(t.lim.hist, k)| + n * p.limit.rateMax
  }

  /** A burst fills the window and one more message opens a batch. */
  lemma FirstBatch(p: Setup, body: Q.Body) returns (t: State)
    requires Limited(p) && 0 <= p.limit.ratePer && p.convert(body).Some?
    ensures var k := p.convert(body).value.squashKey;
            Stored(p, Start(), t, k, 1, [] + Rep(p.limit.rateMax, 1)) && MsgsOf(t.lim.core.batches, k) != []
  {
    var smsg, max, s0 := p.convert(body).value, p.limit.rateMax, Start();
    StartIsCalm(p);
    StartHas(smsg.squashKey, 1);
    hide Calm, Has, Rep;
    var a := Burst(p, s0, s0, body, smsg, max, 0, 1, 1, []);
    t := SquashIt(p, s0, a, body, smsg, max, 1, [] + Rep(max, 1));
  }

  lemma Restart(p: Setup, s: State)
    requires Calm(p, Start(), s)
    ensures Calm(p, s, s)
  {
    ReachSelf(p, s);
  }

  lemma ListIs(s: State, k: L.Key, n: nat, t: int, h: seq<int>)
    requires Has(s.lim, k, n, t, h)
    ensures L.Lookup(s.lim.hist, k) == h
  {}

  lemma WasReached(p: Setup, s0: State, s: State)
    requires Calm(p, s0, s)
    ensures exists es :: Run(p, s0, es) && Final(p, s0, es) == s
  {
    hide Inv;
  }

  /**
   * For every n, every limit and every key that some message has, a run of the pump stores a batch
   * for the key and goes on until the batch, never sent, is postponed by n windows and more, and n
   * times rateMax messages for the key that came after it have been pushed directly.
   */
  lemma PostponedWithoutEnd(p: Setup, body: Q.Body, n: nat)
    requires Limited(p) && 0 <= p.limit.ratePer && p.convert(body).Some?
    ensures exists es, fs ::
              && Run(p, Start(), es) && Run(p, Final(p, Start(), es), fs)
              && Postponed(p, Final(p, Start(), es), Final(p, Final(p, Start(), es), fs), p.convert(body).value.squashKey, n)
  {
    var smsg := p.convert(body).value;
    var t := FirstBatch(p, body);
    var h := [] + Rep(p.limit.rateMax, 1);
    Restart(p, t);
    hide Calm, Has, Run, Final;
    var u, h' := PostponeMany(p, t, t, body, smsg, 1, h, n);
    assert Postponed(p, t, u, smsg.squashKey, n) by {
      ListIs(t, smsg.squashKey, p.limit.rateMax, 1, h);
      ListIs(u, smsg.squashKey, p.limit.rateMax, 1 + n * (p.limit.ratePer + 1), h');
    }
    WasReached(p, Start(), t);
    WasReached(p, t, u);
  }
}
