/** The limiter does not look into messages: renaming them commutes with every event. */
module LimiterNames {
  import opened Window
  import opened Limiter

  function Each<M, N>(ms: seq<M>, f: M -> N): (ns: seq<N>)
    ensures |ns| == |ms| && forall i | 0 <= i < |ms| :: ns[i] == f(ms[i])
  {
    seq(|ms|, i requires 0 <= i < |ms| => f(ms[i]))
  }

  lemma EachConcat<M, N>(a: seq<M>, b: seq<M>, f: M -> N)
    ensures Each(a + b, f) == Each(a, f) + Each(b, f)
  {}

  function BatchNamed<M, N>(b: Batch<M>, f: M -> N): Batch<N> {
    Batch(b.key, b.serviceMsgs, b.due, Each(b.queuedMsgs, f), b.queue, b.client)
  }

  function BatchesNamed<M, N>(batches: map<Key, Batch<M>>, f: M -> N): map<Key, Batch<N>> {
    map k | k in batches :: BatchNamed(batches[k], f)
  }

  lemma BatchStored<M, N>(batches: map<Key, Batch<M>>, k: Key, b: Batch<M>, f: M -> N)
    ensures BatchesNamed(batches[k := b], f) == BatchesNamed(batches, f)[k := BatchNamed(b, f)]
  {}

  lemma QueueNamed<M, N>(batches: map<Key, Batch<M>>, k: Key, f: M -> N)
    requires k in batches
    ensures BatchesNamed(batches, f)[k].queue == batches[k].queue
  {}

  function LogNamed<M, N>(log: map<Key, seq<M>>, f: M -> N): map<Key, seq<N>> {
    map k | k in log :: Each(log[k], f)
  }

  function LimitNamed<M, N>(l: Limit<M>, f: M -> N): Limit<N> {
    Limit(Core(l.core.pushedAt, BatchesNamed(l.core.batches, f)), l.clock, l.hist,
          seq(|l.popped|, i requires 0 <= i < |l.popped| => BatchNamed(l.popped[i], f)),
          LogNamed(l.squashed, f), LogNamed(l.sent, f))
  }

  function EventNamed<M, N>(e: Event<M>, f: M -> N): Event<N> {
    match e
    case Arrive(qm, smsg, client, readings, now) => Arrive(f(qm), smsg, client, readings, now)
    case Pop(key, now) => Pop(key, now)
    case Record(now) => Record(now)
  }

  lemma LogAppend<M, N>(log: map<Key, seq<M>>, k: Key, ms: seq<M>, f: M -> N)
    ensures LogNamed(log[k := Lookup(log, k) + ms], f) == LogNamed(log, f)[k := Lookup(LogNamed(log, f), k) + Each(ms, f)]
  {
    EachConcat(Lookup(log, k), ms, f);
    assert Lookup(LogNamed(log, f), k) == Each(Lookup(log, k), f);
  }

  lemma JoinNamed<M, N>(c: Core<M>, key: Key, queue: nat, client: nat, qm: M, smsg: ServiceMessage, due: int, f: M -> N)
    ensures BatchNamed(JoinBatch(c, key, queue, client, qm, smsg, due), f)
            == JoinBatch(Core(c.pushedAt, BatchesNamed(c.batches, f)), key, queue, client, f(qm), smsg, due)
  {
    if key in c.batches {
      EachConcat(c.batches[key].queuedMsgs, [qm], f);
    }
    assert Each([qm], f) == [f(qm)];
  }

  lemma PrepareNamed<M, N>(cfg: Config, c: Core<M>, client: nat, qm: M, smsg: ServiceMessage, readings: seq<int>, now: int, f: M -> N)
    requires |readings| == |Lookup(c.pushedAt, smsg.squashKey)|
    ensures var (c', outcome) := Prepare(cfg, c, cfg.queue, client, qm, smsg, readings, now);
            Prepare(cfg, Core(c.pushedAt, BatchesNamed(c.batches, f)), cfg.queue, client, f(qm), smsg, readings, now)
            == (Core(c'.pushedAt, BatchesNamed(c'.batches, f)), outcome)
  {
    hide Kept, JoinBatch, BatchNamed;
    var kept := Kept(Lookup(c.pushedAt, smsg.squashKey), readings, cfg.ratePer);
    var first := if kept == [] then ZERO_TIME else kept[0];
    JoinNamed(c, smsg.squashKey, cfg.queue, client, qm, smsg, first + cfg.ratePer, f);
    var b := JoinBatch(c, smsg.squashKey, cfg.queue, client, qm, smsg, first + cfg.ratePer);
    BatchStored(c.batches, smsg.squashKey, b, f);
    if smsg.squashKey in c.batches {
      QueueNamed(c.batches, smsg.squashKey, f);
    }
  }

  lemma ArriveNamed<M, N>(cfg: Config, l: Limit<M>, e: Event<M>, f: M -> N)
    requires Enabled(cfg, l, e) && e.Arrive?
    ensures Enabled(cfg, LimitNamed(l, f), EventNamed(e, f))
    ensures OutcomeOf(cfg, LimitNamed(l, f), EventNamed(e, f)) == OutcomeOf(cfg, l, e)
    ensures Next(cfg, LimitNamed(l, f), EventNamed(e, f)) == LimitNamed(Next(cfg, l, e), f)
  {
    hide Prepare, LogNamed, BatchNamed;
    PrepareNamed(cfg, l.core, e.client, e.qm, e.smsg, e.readings, e.now, f);
    LogAppend(l.squashed, e.smsg.squashKey, [e.qm], f);
    assert Each([e.qm], f) == [f(e.qm)];
  }

  lemma PopNamed<M, N>(cfg: Config, l: Limit<M>, key: Key, now: int, f: M -> N)
    requires Enabled(cfg, l, Pop(key, now))
    ensures Enabled(cfg, LimitNamed(l, f), Pop(key, now))
    ensures Next(cfg, LimitNamed(l, f), Pop(key, now)) == LimitNamed(Next(cfg, l, Pop(key, now)), f)
  {
    assert BatchesNamed(l.core.batches - {key}, f) == BatchesNamed(l.core.batches, f) - {key};
  }

  lemma RecordNamed<M, N>(cfg: Config, l: Limit<M>, now: int, f: M -> N)
    requires Enabled(cfg, l, Record(now))
    ensures Enabled(cfg, LimitNamed(l, f), Record(now))
    ensures Next(cfg, LimitNamed(l, f), Record(now)) == LimitNamed(Next(cfg, l, Record(now)), f)
  {
    LogAppend(l.sent, l.popped[0].key, l.popped[0].queuedMsgs, f);
    hide LogNamed, BatchesNamed;
  }
}
