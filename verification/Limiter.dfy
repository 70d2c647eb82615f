/** The squasher's rate limiter as a state machine: one event per critical section. */
module Limiter {
  import opened Window

  type Key = string

  datatype ServiceMessage = ServiceMessage(squashKey: Key, content: string)

  /** RateMax, RatePer, and the identity of the one queue the pump serves. */
  datatype Config = Config(rateMax: int, ratePer: int, queue: nat)

  datatype Batch<M> = Batch(
    key: Key,
    serviceMsgs: seq<ServiceMessage>,
    due: int,
    queuedMsgs: seq<M>,
    queue: nat,
    client: nat)

  /** The zero time, which the source also uses as "no batch chosen yet". */
  const ZERO_TIME := 0

  function ZeroBatch<M>(): Batch<M> {
    Batch("", [], ZERO_TIME, [], 0, 0)
  }

  /** The two maps the squasher's lock protects. */
  datatype Core<M> = Core(pushedAt: map<Key, seq<int>>, batches: map<Key, Batch<M>>)

  datatype Outcome = Direct | Squashed | Panicked

  /** How a push ends. */
  datatype PushStatus = Success | TempFail | HardFail

  /** A missing key reads as an empty list. */
  function Lookup<V>(m: map<Key, seq<V>>, k: Key): seq<V> {
    if k in m then m[k] else []
  }

  // ---------- critical sections on the two maps ----------

  function Flush<M>(c: Core<M>, key: Key, readings: seq<int>, per: int): Core<M>
    requires |readings| == |Lookup(c.pushedAt, key)|
  {
    var times := Lookup(c.pushedAt, key);
    var kept := Kept(times, readings, per);
    if |kept| < |times| then c.(pushedAt := c.pushedAt[key := kept]) else c
  }

  function RecordPush<M>(c: Core<M>, key: Key, now: int): Core<M> {
    c.(pushedAt := c.pushedAt[key := Lookup(c.pushedAt, key) + [now]])
  }

  function JoinBatch<M>(c: Core<M>, key: Key, queue: nat, client: nat, qm: M, smsg: ServiceMessage, due: int): Batch<M>
  {
    if key in c.batches then
      var b := c.batches[key];
      b.(serviceMsgs := b.serviceMsgs + [smsg], queuedMsgs := b.queuedMsgs + [qm], due := due, key := key)
    else
      Batch(key, [smsg], due, [qm], queue, client)
  }

  function Prepare<M>(cfg: Config, c: Core<M>, queue: nat, client: nat, qm: M, smsg: ServiceMessage,
                      readings: seq<int>, now: int): (r: (Core<M>, Outcome))
    requires |readings| == |Lookup(c.pushedAt, smsg.squashKey)|
  {
    var key := smsg.squashKey;
    var kept := Kept(Lookup(c.pushedAt, key), readings, cfg.ratePer);
    var flushed := Flush(c, key, readings, cfg.ratePer);
    if |kept| < cfg.rateMax then
      (RecordPush(flushed, key, now), Direct)
    else if key in c.batches && c.batches[key].queue != queue then
      (flushed, Panicked)
    else
      var first := if kept == [] then ZERO_TIME else kept[0];
      var b := JoinBatch(c, key, queue, client, qm, smsg, first + cfg.ratePer);
      (flushed.(batches := c.batches[key := b]), Squashed)
  }

  /** No stored batch is due before k's. */
  ghost predicate IsMinDue<M>(c: Core<M>, k: Key) {
    k in c.batches && forall j | j in c.batches :: c.batches[k].due <= c.batches[j].due
  }

  /** Among nonempty keys with batches, one's batch is due first. */
  lemma {:induction false} SomeMinDue<M>(c: Core<M>, ks: set<Key>) returns (k: Key)
    requires ks != {} && ks <= c.batches.Keys
    ensures k in ks && forall j | j in ks :: c.batches[k].due <= c.batches[j].due
    decreases |ks|
  {
    k :| k in ks;
    if ks != {k} {
      var m := SomeMinDue(c, ks - {k});
      if c.batches[m].due < c.batches[k].due {
        k := m;
      }
    }
  }

  // ---------- the limiter with its history ----------

  /**
   * hist is every push ever recorded, never pruned; popped is the batch the squasher has taken
   * but not yet recorded; squashed and sent log, per key, the messages squashed and the messages
   * whose batch has been recorded.
   */
  datatype Limit<M> = Limit(
    core: Core<M>,
    clock: int,
    hist: map<Key, seq<int>>,
    popped: seq<Batch<M>>,
    squashed: map<Key, seq<M>>,
    sent: map<Key, seq<M>>)

  datatype Event<M> =
    | Arrive(qm: M, smsg: ServiceMessage, client: nat, readings: seq<int>, now: int)
    | Pop(key: Key, now: int)
    | Record(now: int)

  ghost predicate Init<M>(l: Limit<M>) {
    && l.core == Core(map[], map[])
    && ZERO_TIME < l.clock
    && l.hist == map[] && l.popped == [] && l.squashed == map[] && l.sent == map[]
  }

  /** Every clock reading is at or after the previous section's last one and at or before the section's end. */
  ghost predicate Readings(clock: int, readings: seq<int>, now: int) {
    clock <= now && forall i | 0 <= i < |readings| :: clock <= readings[i] <= now
  }

  ghost predicate Enabled<M>(cfg: Config, l: Limit<M>, e: Event<M>) {
    match e
    case Arrive(_, smsg, _, readings, now) =>
      && |readings| == |Lookup(l.core.pushedAt, smsg.squashKey)|
      && Readings(l.clock, readings, now)
    case Pop(key, now) =>
      && l.popped == [] && l.clock <= now
      && IsMinDue(l.core, key) && l.core.batches[key].due < now
    case Record(now) =>
      |l.popped| == 1 && l.clock <= now
  }

  function OutcomeOf<M>(cfg: Config, l: Limit<M>, e: Event<M>): Outcome
    requires e.Arrive? && |e.readings| == |Lookup(l.core.pushedAt, e.smsg.squashKey)|
  {
    Prepare(cfg, l.core, cfg.queue, e.client, e.qm, e.smsg, e.readings, e.now).1
  }

  ghost function Next<M>(cfg: Config, l: Limit<M>, e: Event<M>): Limit<M>
    requires Enabled(cfg, l, e)
  {
    match e
    case Arrive(qm, smsg, client, readings, now) =>
      var k := smsg.squashKey;
      var (core, outcome) := Prepare(cfg, l.core, cfg.queue, client, qm, smsg, readings, now);
      l.(core := core, clock := now,
         hist := if outcome.Direct? then l.hist[k := Lookup(l.hist, k) + [now]] else l.hist,
         squashed := if outcome.Squashed? then l.squashed[k := Lookup(l.squashed, k) + [qm]] else l.squashed)
    case Pop(key, now) =>
      l.(core := l.core.(batches := l.core.batches - {key}), clock := now, popped := [l.core.batches[key]])
    case Record(now) =>
      var b := l.popped[0];
      l.(core := RecordPush(l.core, b.key, now), clock := now, popped := [],
         hist := l.hist[b.key := Lookup(l.hist, b.key) + [now]],
         sent := l.sent[b.key := Lookup(l.sent, b.key) + b.queuedMsgs])
  }

  // ---------- the rate of one key ----------

  ghost predicate Times(h: seq<int>, clock: int) {
    Sorted(h) && forall i | 0 <= i < |h| :: ZERO_TIME < h[i] <= clock
  }

  /**
   * One key's pruned list p, full history h, number of popped but unrecorded batches, and the
   * due time of its stored batch if it has one.
   */
  datatype Rate = Rate(p: seq<int>, h: seq<int>, inFlight: nat, due: seq<int>)

  ghost predicate Agree(r: Rate, clock: int, per: int) {
    Times(r.p, clock) && Times(r.h, clock) && Recent(r.p, clock - per) == Recent(r.h, clock - per)
  }

  ghost predicate Windows(h: seq<int>, per: int, bound: int) {
    forall a :: InWindow(h, a, per) <= bound
  }

  /** Once the stored batch is due, the window has room for it. */
  ghost predicate RoomWhenDue(r: Rate, clock: int, per: int, bound: int) {
    r.due != [] ==> |Recent(r.h, Max(clock, r.due[0] + 1) - per)| + r.inFlight < bound
  }

  /** Until then, a full window that starts at due - per blocks every direct push. */
  ghost predicate BlockedUntilDue(r: Rate, clock: int, cfg: Config) {
    r.due != [] ==>
      && ZERO_TIME < r.due[0]
      && (clock <= r.due[0] ==> 0 < |r.p| && cfg.rateMax <= |r.p| && r.p[0] == r.due[0] - cfg.ratePer)
  }

  ghost predicate RateInv(cfg: Config, r: Rate, clock: int, bound: int) {
    && ZERO_TIME < clock
    && Agree(r, clock, cfg.ratePer)
    && |Recent(r.h, clock - cfg.ratePer)| + r.inFlight <= bound
    && Windows(r.h, cfg.ratePer, bound)
    && RoomWhenDue(r, clock, cfg.ratePer, bound)
    && BlockedUntilDue(r, clock, cfg)
  }

  /** Appending a push at time now keeps the window bound if the window ending at now has room for it. */
  lemma AppendKeepsWindows(h: seq<int>, now: int, per: int, bound: int)
    requires Windows(h, per, bound) && |Recent(h, now - per)| < bound
    ensures Windows(h + [now], per, bound)
  {
    forall a ensures InWindow(h + [now], a, per) <= bound {
      InWindowAppend(h, now, a, per);
      assert InWindow(h, a, per) <= bound;
      if a <= now <= a + per {
        InWindowAtMostRecent(h, a, per);
        RecentOfRecent(h, now - per, a);
      }
    }
  }

  /** Appending the same reading to list and history keeps them in agreement. */
  lemma AppendKeepsAgree(r: Rate, clock: int, per: int, now: int)
    requires Agree(r, clock, per) && ZERO_TIME < clock <= now
    ensures Agree(r.(p := r.p + [now], h := r.h + [now]), now, per)
  {
    hide Recent;
    RecentOfRecent(r.p, clock - per, now - per);
    RecentOfRecent(r.h, clock - per, now - per);
    RecentAppend(r.p, now, now - per);
    RecentAppend(r.h, now, now - per);
  }

  /** The clock may advance without any other change. */
  lemma TickKeepsRate(cfg: Config, r: Rate, clock: int, now: int, bound: int)
    requires RateInv(cfg, r, clock, bound) && clock <= now
    ensures RateInv(cfg, r, now, bound)
  {
    hide Recent, Windows;
    var per := cfg.ratePer;
    RecentOfRecent(r.p, clock - per, now - per);
    RecentOfRecent(r.h, clock - per, now - per);
    if r.due != [] {
      RecentOfRecent(r.h, Max(clock, r.due[0] + 1) - per, Max(now, r.due[0] + 1) - per);
    }
  }

  /** Pruning keeps the list in agreement with the history, within per of the readings. */
  lemma FlushKeepsAgree(r: Rate, clock: int, per: int, readings: seq<int>, now: int)
    requires Agree(r, clock, per) && ZERO_TIME < clock
    requires |readings| == |r.p| && Readings(clock, readings, now)
    ensures Agree(r.(p := Kept(r.p, readings, per)), now, per)
    ensures forall x | x in Kept(r.p, readings, per) :: x in Recent(r.h, clock - per)
  {
    hide Recent, Kept;
    var kept := Kept(r.p, readings, per);
    KeptMembers(r.p, readings, per, clock);
    assert forall i | 0 <= i < |kept| :: kept[i] in kept && kept[i] in r.p;
    KeptKeepsRecent(r.p, readings, per, now);
    RecentOfRecent(r.p, clock - per, now - per);
    RecentOfRecent(r.h, clock - per, now - per);
    RecentMembers(r.p, clock - per);
  }

  lemma RecentAtMostAll(h: seq<int>, lo: int)
    ensures |Recent(h, lo)| <= |h|
  {}

  lemma DirectKeepsRate(cfg: Config, r: Rate, clock: int, readings: seq<int>, now: int, bound: int)
    requires RateInv(cfg, r, clock, bound)
    requires |readings| == |r.p| && Readings(clock, readings, now)
    requires |Kept(r.p, readings, cfg.ratePer)| < cfg.rateMax
    requires cfg.rateMax + 1 + r.inFlight <= bound
    ensures RateInv(cfg, r.(p := Kept(r.p, readings, cfg.ratePer) + [now], h := r.h + [now]), now, bound)
  {
    hide Recent, Kept, Windows;
    var per := cfg.ratePer;
    var kept := Kept(r.p, readings, per);
    FlushKeepsAgree(r, clock, per, readings, now);
    AppendKeepsAgree(r.(p := kept), now, per, now);
    RecentAtMostAll(kept, now - per);
    RecentAppend(r.h, now, now - per);
    AppendKeepsWindows(r.h, now, per, bound);
    if r.due != [] {
      var edge := Max(now, r.due[0] + 1) - per;
      RecentOfRecent(r.h, now - per, edge);
      RecentAppend(r.h, now, edge);
      if now <= r.due[0] {
        KeptAll(r.p, readings, per, r.due[0]);
        assert false;
      }
    }
  }

  lemma SquashKeepsRate(cfg: Config, r: Rate, clock: int, readings: seq<int>, now: int, bound: int)
    requires 0 < cfg.rateMax
    requires RateInv(cfg, r, clock, bound)
    requires |readings| == |r.p| && Readings(clock, readings, now)
    requires cfg.rateMax <= |Kept(r.p, readings, cfg.ratePer)|
    ensures var kept := Kept(r.p, readings, cfg.ratePer);
            RateInv(cfg, r.(p := kept, due := [kept[0] + cfg.ratePer]), now, bound)
  {
    hide Recent, Kept, Windows;
    var per := cfg.ratePer;
    var kept := Kept(r.p, readings, per);
    TickKeepsRate(cfg, r, clock, now, bound);
    FlushKeepsAgree(r, clock, per, readings, now);
    // The oldest entry still counted is in the current window, and leaves it before the batch is due.
    var first := kept[0];
    assert first in kept;
    RecentMembers(r.h, clock - per);
    RecentLoses(r.h, clock - per, Max(now, first + per + 1) - per, first);
  }

  lemma PopKeepsRate(cfg: Config, r: Rate, clock: int, now: int, bound: int)
    requires RateInv(cfg, r, clock, bound) && clock <= now
    requires r.due != [] && r.due[0] < now && r.inFlight == 0
    ensures RateInv(cfg, r.(due := [], inFlight := 1), now, bound)
  {
    TickKeepsRate(cfg, r, clock, now, bound);
  }

  lemma RecordKeepsRate(cfg: Config, r: Rate, clock: int, now: int, bound: int)
    requires RateInv(cfg, r, clock, bound) && clock <= now && r.inFlight == 1
    ensures RateInv(cfg, r.(p := r.p + [now], h := r.h + [now], inFlight := 0), now, bound)
  {
    hide Recent, Windows;
    var per := cfg.ratePer;
    TickKeepsRate(cfg, r, clock, now, bound);
    AppendKeepsAgree(r, clock, per, now);
    RecentAppend(r.h, now, now - per);
    AppendKeepsWindows(r.h, now, per, bound);
    if r.due != [] {
      RecentAppend(r.h, now, Max(now, r.due[0] + 1) - per);
    }
  }
}
