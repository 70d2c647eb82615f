/** The limiter's invariant over every event, and what it gives over whole runs. */
module LimiterRuns {
  import opened Window
  import opened Limiter

  function InFlight<M>(l: Limit<M>, k: Key): nat {
    if |l.popped| == 1 && l.popped[0].key == k then 1 else 0
  }

  function RateOf<M>(l: Limit<M>, k: Key): Rate {
    Rate(Lookup(l.core.pushedAt, k), Lookup(l.hist, k), InFlight(l, k),
         if k in l.core.batches then [l.core.batches[k].due] else [])
  }

  /** A nonempty batch of k's messages for the pump's queue, pairing each queued message with its service message. */
  ghost predicate WellFormed<M>(cfg: Config, b: Batch<M>, k: Key) {
    && b.key == k && b.queue == cfg.queue
    && 0 < |b.queuedMsgs| == |b.serviceMsgs|
    && forall i | 0 <= i < |b.serviceMsgs| :: b.serviceMsgs[i].squashKey == k
  }

  /** The messages of one key ever squashed, and where they are: sent, in the popped batch, or stored. */
  datatype Account<M> = Account(squashed: seq<M>, sent: seq<M>, inFlight: seq<M>, stored: seq<M>)

  function AccountOf<M>(l: Limit<M>, k: Key): Account<M> {
    Account(Lookup(l.squashed, k), Lookup(l.sent, k),
            if InFlight(l, k) == 1 then l.popped[0].queuedMsgs else [],
            if k in l.core.batches then l.core.batches[k].queuedMsgs else [])
  }

  ghost predicate Balanced<M>(a: Account<M>) {
    a.squashed == a.sent + a.inFlight + a.stored
  }

  /** Batches are well formed, and nothing squashed for k is lost, repeated or reordered. */
  ghost predicate Contents<M>(cfg: Config, l: Limit<M>, k: Key) {
    && (k in l.core.batches ==> WellFormed(cfg, l.core.batches[k], k))
    && (InFlight(l, k) == 1 ==> WellFormed(cfg, l.popped[0], k))
    && Balanced(AccountOf(l, k))
  }

  ghost predicate KeyInv<M>(cfg: Config, l: Limit<M>, k: Key, bound: int) {
    && |l.popped| <= 1
    && RateInv(cfg, RateOf(l, k), l.clock, bound)
    && Contents(cfg, l, k)
  }

  ghost predicate SafeKey<M>(cfg: Config, l: Limit<M>, k: Key) {
    KeyInv(cfg, l, k, cfg.rateMax + 2)
  }

  ghost predicate LimitInv<M>(cfg: Config, l: Limit<M>) {
    forall k :: SafeKey(cfg, l, k)
  }

  /** A direct push for k while k's own popped batch is still unrecorded. */
  ghost predicate Overtakes<M>(cfg: Config, l: Limit<M>, e: Event<M>, k: Key)
    requires Enabled(cfg, l, e)
  {
    e.Arrive? && e.smsg.squashKey == k && OutcomeOf(cfg, l, e).Direct? && InFlight(l, k) == 1
  }

  lemma InitHolds<M>(cfg: Config, l: Limit<M>, k: Key, bound: int)
    requires Init(l) && 0 <= bound
    ensures KeyInv(cfg, l, k, bound)
  {
    assert RateOf(l, k) == Rate([], [], 0, []);
  }

  lemma InitLimit<M>(cfg: Config, l: Limit<M>)
    requires Init(l) && 0 < cfg.rateMax
    ensures LimitInv(cfg, l)
  {
    forall k ensures SafeKey(cfg, l, k) {
      InitHolds(cfg, l, k, cfg.rateMax + 2);
    }
  }

  /** The key an event is about. */
  function KeyOf<M>(l: Limit<M>, e: Event<M>): Key
    requires e.Record? ==> |l.popped| == 1
  {
    match e
    case Arrive(_, smsg, _, _, _) => smsg.squashKey
    case Pop(key, _) => key
    case Record(_) => l.popped[0].key
  }

  /** What an event does to the rate of its own key. */
  lemma RateAfter<M>(cfg: Config, l: Limit<M>, e: Event<M>)
    requires Enabled(cfg, l, e) && 0 < cfg.rateMax
    requires e.Pop? ==> l.core.batches[e.key].key == e.key
    requires e.Arrive? ==> !OutcomeOf(cfg, l, e).Panicked?
    ensures Next(cfg, l, e).clock == e.now
    ensures var k := KeyOf(l, e); var r, r' := RateOf(l, k), RateOf(Next(cfg, l, e), k);
            match e
            case Arrive(_, _, _, readings, now) =>
              var kept := Kept(r.p, readings, cfg.ratePer);
              if OutcomeOf(cfg, l, e).Direct? then
                |kept| < cfg.rateMax && r' == r.(p := kept + [now], h := r.h + [now])
              else
                cfg.rateMax <= |kept| && r' == r.(p := kept, due := [kept[0] + cfg.ratePer])
            case Pop(_, now) => r.due != [] && r.due[0] < now && r.inFlight == 0 && r' == r.(due := [], inFlight := 1)
            case Record(now) => r.inFlight == 1 && r' == r.(p := r.p + [now], h := r.h + [now], inFlight := 0)
  {
    hide Kept;
    if e.Arrive? {
      KeptMembers(RateOf(l, KeyOf(l, e)).p, e.readings, cfg.ratePer, l.clock);
    }
  }

  /** An event leaves the rates and batches of all other keys as they are. */
  lemma RateElsewhere<M>(cfg: Config, l: Limit<M>, e: Event<M>, k: Key)
    requires Enabled(cfg, l, e) && KeyOf(l, e) != k
    requires e.Pop? ==> l.core.batches[e.key].key == e.key
    ensures RateOf(Next(cfg, l, e), k) == RateOf(l, k)
    ensures k in l.core.batches ==> Next(cfg, l, e).core.batches[k] == l.core.batches[k]
  {
    hide Kept;
  }

  /** With one queue, the stored batch is for the queue the message came from. */
  lemma NeverPanics<M>(cfg: Config, l: Limit<M>, e: Event<M>)
    requires Enabled(cfg, l, e) && e.Arrive? && Contents(cfg, l, e.smsg.squashKey)
    ensures !OutcomeOf(cfg, l, e).Panicked?
  {}

  lemma StepKeepsRate<M>(cfg: Config, l: Limit<M>, e: Event<M>, k: Key, bound: int)
    requires 0 < cfg.rateMax < bound
    requires Enabled(cfg, l, e) && RateInv(cfg, RateOf(l, k), l.clock, bound) && Contents(cfg, l, KeyOf(l, e))
    requires bound == cfg.rateMax + 1 ==> !Overtakes(cfg, l, e, k)
    ensures RateInv(cfg, RateOf(Next(cfg, l, e), k), Next(cfg, l, e).clock, bound)
  {
    hide Kept;
    hide RateInv, Prepare;
    if KeyOf(l, e) != k {
      RateElsewhere(cfg, l, e, k);
      TickKeepsRate(cfg, RateOf(l, k), l.clock, Next(cfg, l, e).clock, bound);
    } else {
      if e.Arrive? {
        NeverPanics(cfg, l, e);
      }
      RateAfter(cfg, l, e);
      var r := RateOf(l, k);
      match e
      case Arrive(_, _, _, readings, now) =>
        if OutcomeOf(cfg, l, e).Direct? {
          DirectKeepsRate(cfg, r, l.clock, readings, now, bound);
        } else {
          SquashKeepsRate(cfg, r, l.clock, readings, now, bound);
        }
      case Pop(_, now) => PopKeepsRate(cfg, r, l.clock, now, bound);
      case Record(now) => RecordKeepsRate(cfg, r, l.clock, now, bound);
    }
  }

  /** What an event does to its own key's account; every other key's account stays. */
  lemma AccountAfter<M>(cfg: Config, l: Limit<M>, e: Event<M>, k: Key)
    requires 0 < cfg.rateMax && Enabled(cfg, l, e)
    requires e.Pop? ==> l.core.batches[e.key].key == e.key
    requires e.Arrive? ==> !OutcomeOf(cfg, l, e).Panicked?
    ensures var a, a' := AccountOf(l, k), AccountOf(Next(cfg, l, e), k);
            if KeyOf(l, e) != k then a' == a
            else match e
              case Arrive(qm, _, _, _, _) =>
                if OutcomeOf(cfg, l, e).Squashed?
                then a' == a.(squashed := a.squashed + [qm], stored := a.stored + [qm]) else a' == a
              case Pop(_, _) => a.inFlight == [] && a' == a.(inFlight := a.stored, stored := [])
              case Record(_) => a' == a.(sent := a.sent + a.inFlight, inFlight := [])
  {
    hide Kept;
  }

  lemma StepKeepsAccount<M>(cfg: Config, l: Limit<M>, e: Event<M>, k: Key)
    requires 0 < cfg.rateMax && Enabled(cfg, l, e)
    requires e.Pop? ==> l.core.batches[e.key].key == e.key
    requires e.Arrive? ==> !OutcomeOf(cfg, l, e).Panicked?
    requires Balanced(AccountOf(l, k))
    ensures Balanced(AccountOf(Next(cfg, l, e), k))
  {
    hide Next, OutcomeOf, AccountOf;
    AccountAfter(cfg, l, e, k);
    var a := AccountOf(l, k);
    if e.Arrive? {
      assert a.sent + a.inFlight + (a.stored + [e.qm]) == a.squashed + [e.qm];
    } else {
      assert a.sent + [] + a.stored == a.sent + a.stored + [];
    }
  }

  lemma JoinKeepsWellFormed<M>(cfg: Config, c: Core<M>, client: nat, qm: M, smsg: ServiceMessage, due: int)
    requires smsg.squashKey in c.batches ==> WellFormed(cfg, c.batches[smsg.squashKey], smsg.squashKey)
    ensures WellFormed(cfg, JoinBatch(c, smsg.squashKey, cfg.queue, client, qm, smsg, due), smsg.squashKey)
  {}

  /** Where the stored batch of k and the popped batch come from. */
  lemma BatchesAfter<M>(cfg: Config, l: Limit<M>, e: Event<M>, k: Key)
    requires Enabled(cfg, l, e) && (e.Arrive? ==> !OutcomeOf(cfg, l, e).Panicked?)
    ensures var l' := Next(cfg, l, e);
            if e.Arrive? && e.smsg.squashKey == k && OutcomeOf(cfg, l, e).Squashed? then
              k in l'.core.batches && l'.popped == l.popped
              && exists due :: l'.core.batches[k] == JoinBatch(l.core, k, cfg.queue, e.client, e.qm, e.smsg, due)
            else
              && (k in l'.core.batches ==> k in l.core.batches && l'.core.batches[k] == l.core.batches[k])
              && l'.popped == if e.Arrive? then l.popped else if e.Record? then [] else [l.core.batches[e.key]]
  {
    hide Kept, JoinBatch;
  }

  lemma StepKeepsContents<M>(cfg: Config, l: Limit<M>, e: Event<M>, k: Key)
    requires 0 < cfg.rateMax && Enabled(cfg, l, e)
    requires Contents(cfg, l, k) && Contents(cfg, l, KeyOf(l, e))
    ensures Contents(cfg, Next(cfg, l, e), k)
  {
    hide Next, OutcomeOf, JoinBatch, Balanced, AccountOf;
    if e.Arrive? {
      NeverPanics(cfg, l, e);
    }
    StepKeepsAccount(cfg, l, e, k);
    BatchesAfter(cfg, l, e, k);
    if e.Arrive? && e.smsg.squashKey == k && OutcomeOf(cfg, l, e).Squashed? {
      var due :| Next(cfg, l, e).core.batches[k] == JoinBatch(l.core, k, cfg.queue, e.client, e.qm, e.smsg, due);
      JoinKeepsWellFormed(cfg, l.core, e.client, e.qm, e.smsg, due);
    }
  }

  lemma StepKeepsKey<M>(cfg: Config, l: Limit<M>, e: Event<M>, k: Key, bound: int)
    requires 0 < cfg.rateMax < bound
    requires Enabled(cfg, l, e) && KeyInv(cfg, l, k, bound) && Contents(cfg, l, KeyOf(l, e))
    requires bound == cfg.rateMax + 1 ==> !Overtakes(cfg, l, e, k)
    ensures KeyInv(cfg, Next(cfg, l, e), k, bound)
  {
    StepKeepsRate(cfg, l, e, k, bound);
    StepKeepsContents(cfg, l, e, k);
  }

  lemma StepKeepsLimit<M>(cfg: Config, l: Limit<M>, e: Event<M>)
    requires 0 < cfg.rateMax && LimitInv(cfg, l) && Enabled(cfg, l, e)
    ensures LimitInv(cfg, Next(cfg, l, e))
    ensures e.Arrive? ==> !OutcomeOf(cfg, l, e).Panicked?
  {
    assert SafeKey(cfg, l, KeyOf(l, e));
    forall k ensures SafeKey(cfg, Next(cfg, l, e), k) {
      assert SafeKey(cfg, l, k);
      StepKeepsKey(cfg, l, e, k, cfg.rateMax + 2);
    }
    if e.Arrive? {
      NeverPanics(cfg, l, e);
    }
  }

  // ---------- runs ----------

  ghost predicate Run<M>(cfg: Config, l: Limit<M>, es: seq<Event<M>>)
    decreases es
  {
    es == [] || (Enabled(cfg, l, es[0]) && Run(cfg, Next(cfg, l, es[0]), es[1..]))
  }

  ghost function Final<M>(cfg: Config, l: Limit<M>, es: seq<Event<M>>): Limit<M>
    requires Run(cfg, l, es)
    decreases es
  {
    if es == [] then l else Final(cfg, Next(cfg, l, es[0]), es[1..])
  }

  ghost predicate NeverOvertakes<M>(cfg: Config, l: Limit<M>, es: seq<Event<M>>, k: Key)
    requires Run(cfg, l, es)
    decreases es
  {
    es == [] || (!Overtakes(cfg, l, es[0], k) && NeverOvertakes(cfg, Next(cfg, l, es[0]), es[1..], k))
  }

  lemma {:induction false} RunKeepsLimit<M>(cfg: Config, l: Limit<M>, es: seq<Event<M>>)
    requires 0 < cfg.rateMax && LimitInv(cfg, l) && Run(cfg, l, es)
    ensures LimitInv(cfg, Final(cfg, l, es))
    decreases es
  {
    if es != [] {
      StepKeepsLimit(cfg, l, es[0]);
      RunKeepsLimit(cfg, Next(cfg, l, es[0]), es[1..]);
    }
  }

  lemma {:induction false} RunKeepsKey<M>(cfg: Config, l: Limit<M>, es: seq<Event<M>>, k: Key)
    requires 0 < cfg.rateMax && LimitInv(cfg, l) && Run(cfg, l, es)
    requires KeyInv(cfg, l, k, cfg.rateMax + 1) && NeverOvertakes(cfg, l, es, k)
    ensures KeyInv(cfg, Final(cfg, l, es), k, cfg.rateMax + 1)
    decreases es
  {
    if es != [] {
      StepKeepsLimit(cfg, l, es[0]);
      assert SafeKey(cfg, l, KeyOf(l, es[0]));
      StepKeepsKey(cfg, l, es[0], k, cfg.rateMax + 1);
      RunKeepsKey(cfg, Next(cfg, l, es[0]), es[1..], k);
    }
  }

  /** In every run no window of length ratePer holds more than rateMax + 2 pushes of one key. */
  lemma WindowBound<M>(cfg: Config, l: Limit<M>, es: seq<Event<M>>, k: Key, a: int)
    requires 0 < cfg.rateMax && Init(l) && Run(cfg, l, es)
    ensures InWindow(Lookup(Final(cfg, l, es).hist, k), a, cfg.ratePer) <= cfg.rateMax + 2
  {
    InitLimit(cfg, l);
    RunKeepsLimit(cfg, l, es);
    assert SafeKey(cfg, Final(cfg, l, es), k);
  }

  /** If no direct push for the key slips between the popping and the recording of its batches, the bound is rateMax + 1. */
  lemma PromptWindowBound<M>(cfg: Config, l: Limit<M>, es: seq<Event<M>>, k: Key, a: int)
    requires 0 < cfg.rateMax && Init(l) && Run(cfg, l, es) && NeverOvertakes(cfg, l, es, k)
    ensures InWindow(Lookup(Final(cfg, l, es).hist, k), a, cfg.ratePer) <= cfg.rateMax + 1
  {
    InitLimit(cfg, l);
    InitHolds(cfg, l, k, cfg.rateMax + 1);
    RunKeepsKey(cfg, l, es, k);
  }

  /** In every run the messages squashed for a key are, in order, those sent, those popped and those still stored. */
  lemma SquashedInOrder<M>(cfg: Config, l: Limit<M>, es: seq<Event<M>>, k: Key)
    requires 0 < cfg.rateMax && Init(l) && Run(cfg, l, es)
    ensures var t := Final(cfg, l, es);
            Lookup(t.squashed, k) ==
            Lookup(t.sent, k)
            + (if |t.popped| == 1 && t.popped[0].key == k then t.popped[0].queuedMsgs else [])
            + (if k in t.core.batches then t.core.batches[k].queuedMsgs else [])
  {
    InitLimit(cfg, l);
    RunKeepsLimit(cfg, l, es);
    assert SafeKey(cfg, Final(cfg, l, es), k);
  }

  // ---------- the pruned list against the full history ----------

  lemma ListAgrees<M>(cfg: Config, l: Limit<M>, k: Key)
    requires LimitInv(cfg, l)
    ensures ZERO_TIME < l.clock && Agree(RateOf(l, k), l.clock, cfg.ratePer)
  {
    assert SafeKey(cfg, l, k);
  }

  lemma FlushSeesRate(r: Rate, clock: int, per: int, readings: seq<int>, now: int)
    requires Agree(r, clock, per) && ZERO_TIME < clock
    requires |readings| == |r.p| && Readings(clock, readings, now)
    ensures var kept := Kept(r.p, readings, per);
            && Recent(kept, now - per) == Recent(r.h, now - per)
            && |Recent(r.h, now - per)| <= |kept| <= |Recent(r.h, clock - per)|
            && (forall x | x in kept :: x in r.h)
            && ((forall i | 0 <= i < |readings| :: readings[i] == now) ==> kept == Recent(r.h, now - per))
  {
    hide Recent, Kept;
    FlushKeepsAgree(r, clock, per, readings, now);
    RecentAtMostAll(Kept(r.p, readings, per), now - per);
    KeptAtMostRecent(r.p, readings, per, clock);
    RecentMembers(r.h, clock - per);
    RecentOfRecent(r.p, clock - per, now - per);
    RecentOfRecent(r.h, clock - per, now - per);
    if forall i | 0 <= i < |readings| :: readings[i] == now {
      KeptAtOneInstant(r.p, readings, per, now);
    }
  }

  /**
   * Pruning k's list answers for the whole history: it keeps everything the window at the last
   * reading sees, nothing the window at the previous clock did not see, and, when all readings are
   * one instant, exactly the window.
   */
  lemma FlushSeesHistory<M>(cfg: Config, l0: Limit<M>, es: seq<Event<M>>, l: Limit<M>, k: Key, readings: seq<int>, now: int)
    requires 0 < cfg.rateMax && Init(l0) && Run(cfg, l0, es) && l == Final(cfg, l0, es)
    requires |readings| == |Lookup(l.core.pushedAt, k)| && Readings(l.clock, readings, now)
    ensures var h := Lookup(l.hist, k);
            var kept := Kept(Lookup(l.core.pushedAt, k), readings, cfg.ratePer);
            && Recent(kept, now - cfg.ratePer) == Recent(h, now - cfg.ratePer)
            && |Recent(h, now - cfg.ratePer)| <= |kept| <= |Recent(h, l.clock - cfg.ratePer)|
            && (forall x | x in kept :: x in h)
            && ((forall i | 0 <= i < |readings| :: readings[i] == now) ==> kept == Recent(h, now - cfg.ratePer))
  {
    hide Init, Run, Final, LimitInv, Kept, Recent, Readings;
    InitLimit(cfg, l0);
    RunKeepsLimit(cfg, l0, es);
    ListAgrees(cfg, l, k);
    FlushSeesRate(RateOf(l, k), l.clock, cfg.ratePer, readings, now);
  }

  // ---------- gating ----------

  /** k's batch is still stored, still due at the same time, and has only been added to at the end. */
  ghost predicate Extends<M>(b: Batch<M>, l: Limit<M>, k: Key) {
    k in l.core.batches &&
    var c := l.core.batches[k];
    c.due == b.due && b.queuedMsgs <= c.queuedMsgs && b.serviceMsgs <= c.serviceMsgs
    && c.client == b.client && c.queue == b.queue
  }

  /** While the clock has not passed due, a message for k joins k's batch, and the batch's due time stays. */
  lemma ArrivalJoinsBatch<M>(cfg: Config, l: Limit<M>, e: Event<M>, k: Key)
    requires 0 < cfg.rateMax && LimitInv(cfg, l) && Enabled(cfg, l, e)
    requires e.Arrive? && e.smsg.squashKey == k && k in l.core.batches
    requires l.clock <= l.core.batches[k].due
    requires forall i | 0 <= i < |e.readings| :: e.readings[i] <= l.core.batches[k].due
    ensures OutcomeOf(cfg, l, e).Squashed?
    ensures var b := l.core.batches[k];
            Next(cfg, l, e).core == l.core.(batches := l.core.batches[k :=
              b.(queuedMsgs := b.queuedMsgs + [e.qm], serviceMsgs := b.serviceMsgs + [e.smsg])])
  {
    hide Kept, Recent, Windows;
    assert SafeKey(cfg, l, k);
    KeptAll(Lookup(l.core.pushedAt, k), e.readings, cfg.ratePer, l.core.batches[k].due);
  }

  /** Recording a push touches no batch. */
  lemma RecordKeepsBatch<M>(cfg: Config, l: Limit<M>, e: Event<M>, k: Key)
    requires Enabled(cfg, l, e) && e.Record?
    ensures Next(cfg, l, e).core.batches == l.core.batches
  {}

  lemma GatedStep<M>(cfg: Config, l: Limit<M>, e: Event<M>, k: Key)
    requires 0 < cfg.rateMax && LimitInv(cfg, l) && Enabled(cfg, l, e)
    requires k in l.core.batches && Next(cfg, l, e).clock <= l.core.batches[k].due
    ensures var l' := Next(cfg, l, e);
            && Extends(l.core.batches[k], l', k)
            && Lookup(l.hist, k) <= Lookup(l'.hist, k)
            && |Lookup(l'.hist, k)| + InFlight(l', k) == |Lookup(l.hist, k)| + InFlight(l, k)
  {
    hide Kept;
    hide Next, OutcomeOf, RateInv;
    assert SafeKey(cfg, l, KeyOf(l, e));
    if e.Arrive? {
      NeverPanics(cfg, l, e);
    }
    RateAfter(cfg, l, e);
    if KeyOf(l, e) != k {
      RateElsewhere(cfg, l, e, k);
    } else if e.Arrive? {
      ArrivalJoinsBatch(cfg, l, e, k);
    } else if e.Record? {
      RecordKeepsBatch(cfg, l, e, k);
    }
    assert RateOf(Next(cfg, l, e), k).inFlight == InFlight(Next(cfg, l, e), k);
  }

  lemma {:induction false} ClockOnlyAdvances<M>(cfg: Config, l: Limit<M>, es: seq<Event<M>>)
    requires Run(cfg, l, es)
    ensures l.clock <= Final(cfg, l, es).clock
    decreases es
  {
    if es != [] {
      ClockOnlyAdvances(cfg, Next(cfg, l, es[0]), es[1..]);
    }
  }

  /**
   * From the moment a batch is stored until the clock passes its due time, in every run: it stays
   * stored and only grows, and k records no push except a batch that had been popped before.
   */
  lemma {:induction false} GatedUntilDue<M>(cfg: Config, l: Limit<M>, es: seq<Event<M>>, k: Key)
    requires 0 < cfg.rateMax && LimitInv(cfg, l) && Run(cfg, l, es)
    requires k in l.core.batches && Final(cfg, l, es).clock <= l.core.batches[k].due
    ensures var l' := Final(cfg, l, es);
            && Extends(l.core.batches[k], l', k)
            && Lookup(l.hist, k) <= Lookup(l'.hist, k)
            && |Lookup(l'.hist, k)| + InFlight(l', k) == |Lookup(l.hist, k)| + InFlight(l, k)
    decreases es
  {
    if es != [] {
      var e, m := es[0], Next(cfg, l, es[0]);
      StepKeepsLimit(cfg, l, e);
      ClockOnlyAdvances(cfg, m, es[1..]);
      assert SafeKey(cfg, l, KeyOf(l, e));
      GatedStep(cfg, l, e, k);
      GatedUntilDue(cfg, m, es[1..], k);
    }
  }
}
