/** What becomes of a message for the squasher, and which client a batch is sent with. */
module LimiterClients {
  import opened Window
  import opened Limiter
  import opened LimiterRuns

  lemma {:induction false} KeptShorter(times: seq<int>, readings: seq<int>, per: int)
    requires |readings| == |times|
    ensures |Kept(times, readings, per)| <= |times|
    ensures |Kept(times, readings, per)| == |times| ==> Kept(times, readings, per) == times
  {
    if times != [] {
      var n := |times| - 1;
      KeptShorter(times[..n], readings[..n], per);
      assert times == times[..n] + [times[n]];
    }
  }

  /**
   * What a message for any queue meets. Below the limit its push is recorded and no batch changes; from
   * the limit on it panics exactly if its key's batch is for another queue, and otherwise goes behind
   * the messages of that batch, or into a new one for its own queue and client. Only its key is touched.
   */
  lemma PrepareIs<M>(cfg: Config, c: Core<M>, queue: nat, client: nat, qm: M, smsg: ServiceMessage, readings: seq<int>, now: int)
    requires 0 < cfg.rateMax && |readings| == |Lookup(c.pushedAt, smsg.squashKey)|
    ensures var k := smsg.squashKey;
            var kept := Kept(Lookup(c.pushedAt, k), readings, cfg.ratePer);
            var (c', outcome) := Prepare(cfg, c, queue, client, qm, smsg, readings, now);
            && (outcome.Direct? <==> |kept| < cfg.rateMax)
            && (outcome.Panicked? <==> cfg.rateMax <= |kept| && k in c.batches && c.batches[k].queue != queue)
            && (!outcome.Squashed? ==> c'.batches == c.batches)
            && Lookup(c'.pushedAt, k) == (if outcome.Direct? then kept + [now] else kept)
            && (forall j | j != k :: Lookup(c'.pushedAt, j) == Lookup(c.pushedAt, j))
            && (outcome.Squashed? ==>
                  c'.batches == c.batches[k :=
                    if k in c.batches then
                      var b := c.batches[k];
                      Batch(k, b.serviceMsgs + [smsg], kept[0] + cfg.ratePer, b.queuedMsgs + [qm], queue, b.client)
                    else Batch(k, [smsg], kept[0] + cfg.ratePer, [qm], queue, client)])
  {
    KeptShorter(Lookup(c.pushedAt, smsg.squashKey), readings, cfg.ratePer);
    hide Kept;
  }

  /** A batch, stored or popped. */
  ghost predicate Has<M>(l: Limit<M>, b: Batch<M>) {
    (b.key in l.core.batches && l.core.batches[b.key] == b) || b in l.popped
  }

  /** The event squashes b's first message and finds no batch for its key: it opens b, for the client it comes with. */
  ghost predicate Opens<M>(cfg: Config, l: Limit<M>, e: Event<M>, b: Batch<M>)
    requires Enabled(cfg, l, e)
  {
    && e.Arrive? && OutcomeOf(cfg, l, e).Squashed? && e.smsg.squashKey == b.key && b.key !in l.core.batches
    && b.queuedMsgs != [] && b.serviceMsgs != []
    && e.qm == b.queuedMsgs[0] && e.smsg == b.serviceMsgs[0] && e.client == b.client
  }

  /** The same batch at an earlier time. */
  ghost predicate Grew<M>(c: Batch<M>, b: Batch<M>) {
    c.key == b.key && c.client == b.client && c.queuedMsgs != [] && c.serviceMsgs != []
    && c.queuedMsgs <= b.queuedMsgs && c.serviceMsgs <= b.serviceMsgs
  }

  lemma SquashedBatch<M>(cfg: Config, l: Limit<M>, e: Event<M>)
    requires Enabled(cfg, l, e) && e.Arrive? && OutcomeOf(cfg, l, e).Squashed?
    ensures var k := e.smsg.squashKey;
            && k in Next(cfg, l, e).core.batches
            && var b := Next(cfg, l, e).core.batches[k];
            if k in l.core.batches then
              && b.client == l.core.batches[k].client
              && b.queuedMsgs == l.core.batches[k].queuedMsgs + [e.qm] && b.serviceMsgs == l.core.batches[k].serviceMsgs + [e.smsg]
            else
              b.client == e.client && b.queuedMsgs == [e.qm] && b.serviceMsgs == [e.smsg]
  {
    hide Kept;
  }

  lemma BatchIsWellFormed<M>(cfg: Config, l: Limit<M>, b: Batch<M>)
    requires LimitInv(cfg, l) && Has(l, b)
    ensures b.queuedMsgs != [] && b.serviceMsgs != []
  {
    assert SafeKey(cfg, l, b.key);
  }

  lemma BatchIsStored<M>(cfg: Config, l: Limit<M>, k: Key)
    requires LimitInv(cfg, l) && k in l.core.batches
    ensures var c := l.core.batches[k]; c.key == k && c.queuedMsgs != [] && c.serviceMsgs != []
  {
    assert SafeKey(cfg, l, k);
  }

  /** A squash that opens a batch stores the arriving message's client, and one that joins a batch keeps the batch's. */
  lemma StepOpens<M>(cfg: Config, l: Limit<M>, e: Event<M>, b: Batch<M>)
    requires 0 < cfg.rateMax && LimitInv(cfg, l) && Enabled(cfg, l, e) && Has(Next(cfg, l, e), b)
    ensures Opens(cfg, l, e, b) || exists c :: Has(l, c) && Grew(c, b)
  {
    hide LimitInv, Next, OutcomeOf;
    StepKeepsLimit(cfg, l, e);
    BatchIsWellFormed(cfg, Next(cfg, l, e), b);
    BatchesAfter(cfg, l, e, b.key);
    if e.Pop? {
      BatchIsStored(cfg, l, e.key);
    }
    if Has(l, b) {
      assert Grew(b, b);
    } else {
      assert e.Arrive? && e.smsg.squashKey == b.key && OutcomeOf(cfg, l, e).Squashed?;
      SquashedBatch(cfg, l, e);
      if b.key in l.core.batches {
        BatchIsStored(cfg, l, b.key);
        assert Has(l, l.core.batches[b.key]) && Grew(l.core.batches[b.key], b);
      }
    }
  }
}
