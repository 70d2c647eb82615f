/** What may happen to a stored batch's due time. */
module LimiterDue {
  import opened Window
  import opened Limiter
  import opened LimiterRuns

  /** No listed push is older than the one that fixed the stored batch's due time. */
  ghost predicate DueInv(r: Rate, clock: int, per: int) {
    r.due != [] ==> r.due[0] - per <= clock && forall i | 0 <= i < |r.p| :: r.due[0] - per <= r.p[i]
  }

  /** A squash of one of k's messages that drops every listed push made one window before due. */
  ghost predicate DropsFirst<M>(cfg: Config, l: Limit<M>, e: Event<M>, k: Key, due: int)
    requires Enabled(cfg, l, e)
  {
    && e.Arrive? && e.smsg.squashKey == k && OutcomeOf(cfg, l, e).Squashed?
    && due - cfg.ratePer !in Kept(Lookup(l.core.pushedAt, k), e.readings, cfg.ratePer)
  }

  /**
   * What a step does to a rate's due time: it goes only by a pop, and moves only forward, only after
   * it has passed, and exactly when a squash drops the pushes that fixed it.
   */
  ghost predicate DueMoves<M>(cfg: Config, l: Limit<M>, e: Event<M>, k: Key)
    requires Enabled(cfg, l, e)
  {
    k in l.core.batches ==>
      var l' := Next(cfg, l, e);
      var due := l.core.batches[k].due;
      && (k !in l'.core.batches <==> e.Pop? && e.key == k)
      && (k in l'.core.batches && l'.core.batches[k].due != due ==>
            due < l'.core.batches[k].due && due < e.now)
      && (k in l'.core.batches && l'.core.batches[k].due != due <==> DropsFirst(cfg, l, e, k, due))
  }

  lemma DirectKeepsDue(r: Rate, clock: int, per: int, readings: seq<int>, now: int)
    requires DueInv(r, clock, per) && |readings| == |r.p| && Readings(clock, readings, now)
    ensures DueInv(r.(p := Kept(r.p, readings, per) + [now], h := r.h + [now]), now, per)
  {
    KeptMembers(r.p, readings, per, clock);
    var kept := Kept(r.p, readings, per);
    assert forall i | 0 <= i < |kept| :: kept[i] in kept;
  }

  /** Squashing fixes a due time that is not before the last. */
  lemma SquashKeepsDue(r: Rate, clock: int, per: int, readings: seq<int>, now: int)
    requires DueInv(r, clock, per) && Times(r.p, clock) && |readings| == |r.p| && Readings(clock, readings, now)
    requires Kept(r.p, readings, per) != []
    ensures var kept := Kept(r.p, readings, per);
            && DueInv(r.(p := kept, due := [kept[0] + per]), now, per)
            && (r.due != [] ==> r.due[0] <= kept[0] + per && (r.due[0] != kept[0] + per <==> r.due[0] - per !in kept))
  {
    KeptMembers(r.p, readings, per, clock);
    var kept := Kept(r.p, readings, per);
    assert kept[0] in kept;
  }

  lemma OwnKeyFacts<M>(cfg: Config, l: Limit<M>, e: Event<M>)
    requires 0 < cfg.rateMax && LimitInv(cfg, l) && Enabled(cfg, l, e)
    ensures var r := RateOf(l, KeyOf(l, e));
            && Times(r.p, l.clock) && l.clock <= e.now
            && (e.Arrive? ==> |e.readings| == |r.p| && Readings(l.clock, e.readings, e.now) && !OutcomeOf(cfg, l, e).Panicked?)
            && (e.Pop? ==> l.core.batches[e.key].key == e.key)
  {
    hide Next, OutcomeOf, Kept;
    assert SafeKey(cfg, l, KeyOf(l, e));
    if e.Arrive? {
      NeverPanics(cfg, l, e);
    }
  }

  lemma LaterKeepsDue(r: Rate, clock: int, per: int, now: int)
    requires DueInv(r, clock, per) && clock <= now
    ensures DueInv(r, now, per) && DueInv(r.(due := [], inFlight := 1), now, per)
    ensures DueInv(r.(p := r.p + [now], h := r.h + [now], inFlight := 0), now, per)
  {}

  lemma RateDue<M>(cfg: Config, l: Limit<M>, e: Event<M>)
    requires 0 < cfg.rateMax && LimitInv(cfg, l) && Enabled(cfg, l, e)
    requires DueInv(RateOf(l, KeyOf(l, e)), l.clock, cfg.ratePer)
    ensures var k := KeyOf(l, e); var r, r' := RateOf(l, k), RateOf(Next(cfg, l, e), k);
            && DueInv(r', Next(cfg, l, e).clock, cfg.ratePer)
            && (r.due != [] ==> if e.Pop? then r'.due == [] else r'.due != [] && r.due[0] <= r'.due[0])
            && (r.due != [] ==> (r'.due != [] && r'.due != r.due <==> DropsFirst(cfg, l, e, k, r.due[0])))
  {
    hide LimitInv, SafeKey, RateInv, Next, OutcomeOf, Kept, DueInv, Contents, Readings, Times, IsMinDue;
    var r := RateOf(l, KeyOf(l, e));
    OwnKeyFacts(cfg, l, e);
    RateAfter(cfg, l, e);
    if e.Arrive? {
      if OutcomeOf(cfg, l, e).Direct? {
        DirectKeepsDue(r, l.clock, cfg.ratePer, e.readings, e.now);
      } else {
        SquashKeepsDue(r, l.clock, cfg.ratePer, e.readings, e.now);
      }
    } else {
      LaterKeepsDue(r, l.clock, cfg.ratePer, e.now);
    }
  }

  lemma ArrivalInTime<M>(cfg: Config, l: Limit<M>, e: Event<M>)
    requires 0 < cfg.rateMax && LimitInv(cfg, l) && Enabled(cfg, l, e) && e.Arrive?
    requires var k := e.smsg.squashKey; k in l.core.batches && e.now <= l.core.batches[k].due
    ensures var k, l' := e.smsg.squashKey, Next(cfg, l, e);
            k in l'.core.batches && l'.core.batches[k].due == l.core.batches[k].due
  {
    hide LimitInv, Next;
    ArrivalJoinsBatch(cfg, l, e, e.smsg.squashKey);
  }

  lemma StepKeepsDue<M>(cfg: Config, l: Limit<M>, e: Event<M>, k: Key)
    requires 0 < cfg.rateMax && LimitInv(cfg, l) && Enabled(cfg, l, e)
    requires DueInv(RateOf(l, k), l.clock, cfg.ratePer)
    ensures DueInv(RateOf(Next(cfg, l, e), k), Next(cfg, l, e).clock, cfg.ratePer) && DueMoves(cfg, l, e, k)
  {
    OwnKeyFacts(cfg, l, e);
    RateAfter(cfg, l, e);
    hide LimitInv, Next, OutcomeOf, Kept, DueInv, RateInv, Contents, SafeKey, Times, Readings;
    if KeyOf(l, e) != k {
      RateElsewhere(cfg, l, e, k);
      LaterKeepsDue(RateOf(l, k), l.clock, cfg.ratePer, Next(cfg, l, e).clock);
      assert RateOf(Next(cfg, l, e), k).due == RateOf(l, k).due;
    } else {
      RateDue(cfg, l, e);
      assert RateOf(Next(cfg, l, e), k).due == RateOf(Next(cfg, l, e), KeyOf(l, e)).due;
      if e.Arrive? && k in l.core.batches && e.now <= l.core.batches[k].due {
        ArrivalInTime(cfg, l, e);
      }
    }
  }

  lemma {:induction false} RunKeepsDue<M>(cfg: Config, l: Limit<M>, es: seq<Event<M>>, k: Key)
    requires 0 < cfg.rateMax && LimitInv(cfg, l) && Run(cfg, l, es)
    requires DueInv(RateOf(l, k), l.clock, cfg.ratePer)
    ensures LimitInv(cfg, Final(cfg, l, es))
    ensures DueInv(RateOf(Final(cfg, l, es), k), Final(cfg, l, es).clock, cfg.ratePer)
    decreases es
  {
    if es != [] {
      StepKeepsLimit(cfg, l, es[0]);
      StepKeepsDue(cfg, l, es[0], k);
      hide LimitInv, DueInv, Next, Enabled;
      RunKeepsDue(cfg, Next(cfg, l, es[0]), es[1..], k);
    }
  }

  /**
   * In every run a stored batch leaves only when the squasher pops it, and its due time never moves
   * back: it moves exactly when a message joins the batch and finds every push that fixed the due
   * time dropped from the window, which happens only after the due time has passed.
   */
  lemma DueOnlyAdvances<M>(cfg: Config, l: Limit<M>, es: seq<Event<M>>, e: Event<M>, k: Key)
    requires 0 < cfg.rateMax && Init(l) && Run(cfg, l, es) && Enabled(cfg, Final(cfg, l, es), e)
    requires k in Final(cfg, l, es).core.batches
    ensures var t, u := Final(cfg, l, es), Next(cfg, Final(cfg, l, es), e);
            && (k in u.core.batches <==> !(e.Pop? && e.key == k))
            && (k in u.core.batches ==> t.core.batches[k].due <= u.core.batches[k].due)
            && (k in u.core.batches && u.core.batches[k].due != t.core.batches[k].due <==>
                  DropsFirst(cfg, t, e, k, t.core.batches[k].due))
            && (DropsFirst(cfg, t, e, k, t.core.batches[k].due) ==> t.core.batches[k].due < e.now)
  {
    InitLimit(cfg, l);
    hide LimitInv, Next, OutcomeOf, Enabled, Run, Final;
    RunKeepsDue(cfg, l, es, k);
    StepKeepsDue(cfg, Final(cfg, l, es), e, k);
  }
}
