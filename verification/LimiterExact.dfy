/** Exactly when a key's pushes stay within a bound: the limit itself, or any bound above it. */
module LimiterExact {
  import opened Window
  import opened Limiter
  import opened LimiterRuns

  /**
   * A batch's push is recorded although the window ending now already holds b pushes of its key. A
   * direct push looks at the window first; the recording of a batch does not.
   */
  ghost predicate Crowded<M>(cfg: Config, l: Limit<M>, e: Event<M>, k: Key, b: int)
    requires Enabled(cfg, l, e)
  {
    e.Record? && l.popped[0].key == k && b <= |Recent(Lookup(l.hist, k), e.now - cfg.ratePer)|
  }

  /** No batch of k is recorded while the window is full up to b. */
  ghost predicate NeverCrowded<M>(cfg: Config, l: Limit<M>, es: seq<Event<M>>, k: Key, b: int)
    requires Run(cfg, l, es)
    decreases es
  {
    es == [] || (!Crowded(cfg, l, es[0], k, b) && NeverCrowded(cfg, Next(cfg, l, es[0]), es[1..], k, b))
  }

  lemma {:induction false} WindowIsRecent(h: seq<int>, now: int, per: int)
    requires forall i | 0 <= i < |h| :: h[i] <= now
    ensures InWindow(h, now - per, per) == |Recent(h, now - per)|
  {
    if h != [] {
      WindowIsRecent(h[..|h| - 1], now, per);
    }
  }

  /** What an event adds to k's history. */
  function Added<M>(cfg: Config, l: Limit<M>, e: Event<M>, k: Key): seq<int>
    requires e.Arrive? ==> |e.readings| == |Lookup(l.core.pushedAt, e.smsg.squashKey)|
    requires e.Record? ==> |l.popped| == 1
  {
    if KeyOf(l, e) == k && (e.Record? || (e.Arrive? && OutcomeOf(cfg, l, e).Direct?)) then [e.now] else []
  }

  lemma HistoryGrows<M>(cfg: Config, l: Limit<M>, e: Event<M>, k: Key)
    requires Enabled(cfg, l, e)
    ensures Lookup(Next(cfg, l, e).hist, k) == Lookup(l.hist, k) + Added(cfg, l, e, k)
  {
    hide Prepare;
    assert Lookup(l.hist, k) + [] == Lookup(l.hist, k);
  }

  /** A direct push finds fewer than rateMax pushes in the window, for all that pruning reads the clock entry by entry. */
  lemma DirectFindsRoom<M>(cfg: Config, l: Limit<M>, e: Event<M>)
    requires 0 < cfg.rateMax && LimitInv(cfg, l) && Enabled(cfg, l, e) && e.Arrive? && OutcomeOf(cfg, l, e).Direct?
    ensures |Recent(Lookup(l.hist, e.smsg.squashKey), e.now - cfg.ratePer)| < cfg.rateMax
  {
    var r := RateOf(l, e.smsg.squashKey);
    ListAgrees(cfg, l, e.smsg.squashKey);
    hide LimitInv, Kept, Recent;
    FlushSeesRate(r, l.clock, cfg.ratePer, e.readings, e.now);
  }

  lemma AddedIsNow<M>(cfg: Config, l: Limit<M>, e: Event<M>, k: Key)
    requires 0 < cfg.rateMax && LimitInv(cfg, l) && Enabled(cfg, l, e) && Added(cfg, l, e, k) != []
    ensures Added(cfg, l, e, k) == [e.now] && l.clock <= e.now
    ensures forall i | 0 <= i < |Lookup(l.hist, k)| :: Lookup(l.hist, k)[i] <= e.now
  {
    hide LimitInv, OutcomeOf;
    ListAgrees(cfg, l, k);
  }

  /** A push into a window that is full up to b makes a window with more than b. */
  lemma FullWindowBreaks(h: seq<int>, now: int, per: int, b: int)
    requires 0 < b <= |Recent(h, now - per)| && forall i | 0 <= i < |h| :: h[i] <= now
    ensures !Windows(h + [now], per, b)
  {
    WindowIsRecent(h, now, per);
    RecentMembers(h, now - per);
    var x := Recent(h, now - per)[0];
    assert x in Recent(h, now - per);
    var i :| 0 <= i < |h| && h[i] == x;
    InWindowAppend(h, now, now - per, per);
    assert InWindow(h + [now], now - per, per) > b;
  }

  /** As long as k's windows hold at most b pushes, an event breaks that exactly if it is a crowded record. */
  lemma StepExact<M>(cfg: Config, l: Limit<M>, e: Event<M>, k: Key, b: int)
    requires 0 < cfg.rateMax <= b && LimitInv(cfg, l) && Enabled(cfg, l, e)
    requires Windows(Lookup(l.hist, k), cfg.ratePer, b)
    ensures Windows(Lookup(Next(cfg, l, e).hist, k), cfg.ratePer, b) <==> !Crowded(cfg, l, e, k, b)
  {
    HistoryGrows(cfg, l, e, k);
    var h, per, now := Lookup(l.hist, k), cfg.ratePer, e.now;
    if Added(cfg, l, e, k) == [] {
      assert h + [] == h;
    } else {
      AddedIsNow(cfg, l, e, k);
      if e.Arrive? {
        DirectFindsRoom(cfg, l, e);
      }
      hide LimitInv, Next, OutcomeOf, Recent, Windows, Enabled;
      if |Recent(h, now - per)| < b {
        AppendKeepsWindows(h, now, per, b);
      } else {
        FullWindowBreaks(h, now, per, b);
      }
    }
  }

  lemma BrokenStaysBroken<M>(cfg: Config, l: Limit<M>, e: Event<M>, k: Key, b: int)
    requires Enabled(cfg, l, e) && !Windows(Lookup(l.hist, k), cfg.ratePer, b)
    ensures !Windows(Lookup(Next(cfg, l, e).hist, k), cfg.ratePer, b)
  {
    HistoryGrows(cfg, l, e, k);
    hide Next, OutcomeOf;
    var h := Lookup(l.hist, k);
    var a :| InWindow(h, a, cfg.ratePer) > b;
    if Added(cfg, l, e, k) == [] {
      assert h + [] == h;
    } else {
      InWindowAppend(h, e.now, a, cfg.ratePer);
      assert InWindow(h + [e.now], a, cfg.ratePer) > b;
    }
  }

  lemma {:induction false} RunStaysBroken<M>(cfg: Config, l: Limit<M>, es: seq<Event<M>>, k: Key, b: int)
    requires Run(cfg, l, es) && !Windows(Lookup(l.hist, k), cfg.ratePer, b)
    ensures !Windows(Lookup(Final(cfg, l, es).hist, k), cfg.ratePer, b)
    decreases es
  {
    if es != [] {
      BrokenStaysBroken(cfg, l, es[0], k, b);
      hide Next, Enabled, Windows;
      RunStaysBroken(cfg, Next(cfg, l, es[0]), es[1..], k, b);
    }
  }

  lemma {:induction false} RunExact<M>(cfg: Config, l: Limit<M>, es: seq<Event<M>>, k: Key, b: int)
    requires 0 < cfg.rateMax <= b && LimitInv(cfg, l) && Run(cfg, l, es)
    requires Windows(Lookup(l.hist, k), cfg.ratePer, b)
    ensures Windows(Lookup(Final(cfg, l, es).hist, k), cfg.ratePer, b) <==> NeverCrowded(cfg, l, es, k, b)
    decreases es
  {
    if es != [] {
      var m := Next(cfg, l, es[0]);
      StepKeepsLimit(cfg, l, es[0]);
      StepExact(cfg, l, es[0], k, b);
      hide Next, Enabled, Windows, LimitInv, Crowded;
      if Crowded(cfg, l, es[0], k, b) {
        RunStaysBroken(cfg, m, es[1..], k, b);
      } else {
        RunExact(cfg, m, es[1..], k, b);
      }
    }
  }

  /**
   * For every bound b that is at least rateMax, rateMax itself included: in a run no window of length
   * ratePer holds more than b recorded pushes of k if and only if no batch of k is recorded while the
   * window ending at that moment already holds b.
   */
  lemma BoundHoldsExactly<M>(cfg: Config, l: Limit<M>, es: seq<Event<M>>, k: Key, b: int)
    requires 0 < cfg.rateMax <= b && Init(l) && Run(cfg, l, es)
    ensures Windows(Lookup(Final(cfg, l, es).hist, k), cfg.ratePer, b) <==> NeverCrowded(cfg, l, es, k, b)
  {
    InitLimit(cfg, l);
    assert forall a :: InWindow([], a, cfg.ratePer) <= b;
    hide LimitInv, Run, Final, NeverCrowded;
    RunExact(cfg, l, es, k, b);
  }
}
