/** The squasher object: its two maps, mutated under the lock, proved against the limiter's events. */
module Squashing {
  import opened Window
  import opened Limiter
  import opened LimiterRuns

  /** The longest nap between two polls, in nanoseconds. */
  const MAX_NAP := 500_000_000

  datatype Poll<M> = Wait | Stopped | Ready(batch: Batch<M>) | Nap(duration: int)

  /** The squasher goroutine: running, in the condition's wait, or signalled there but not yet run. */
  datatype Waiter = Running | Asleep | Awake

  function Signalled(w: Waiter): Waiter {
    if w.Asleep? then Awake else w
  }

  class Squasher<M> {
    const config: Config
    var pushedAt: map<Key, seq<int>>
    var batches: map<Key, Batch<M>>
    var shuttingDown: bool
    var waiter: Waiter
    /** The limiter with its full history, of which the two maps are the current core. */
    ghost var limit: Limit<M>

    ghost predicate Valid()
      reads this
    {
      && 0 < config.rateMax
      && limit.core == Core(pushedAt, batches)
      && LimitInv(config, limit)
      && (waiter.Asleep? ==> batches == map[])
      && (waiter.Awake? ==> batches != map[] || shuttingDown)
    }

    constructor (config: Config, ghost now: int)
      requires 0 < config.rateMax && ZERO_TIME < now
      ensures Valid() && Init(limit) && limit.clock == now && this.config == config
      ensures !shuttingDown && waiter.Running?
    {
      this.config := config;
      pushedAt, batches, shuttingDown, waiter := map[], map[], false, Running;
      limit := Limit(Core(map[], map[]), now, map[], [], map[], map[]);
      new;
      InitLimit(config, limit);
    }

    /** Drops the expired pushes of key and reports how many remain and the oldest of them. */
    method FlushAndGetRate(key: Key, readings: seq<int>) returns (sendCount: int, sentAt: int)
      requires |readings| == |Lookup(pushedAt, key)|
      modifies this`pushedAt
      ensures Core(pushedAt, batches) == Flush(Core(old(pushedAt), batches), key, readings, config.ratePer)
      ensures var kept := Kept(old(Lookup(pushedAt, key)), readings, config.ratePer);
              sendCount == |kept| && sentAt == if kept == [] then ZERO_TIME else kept[0]
    {
      var times := Lookup(pushedAt, key);
      var flushedTimes: seq<int> := [];
      var didFlush := false;
      sendCount := 0;
      for i := 0 to |times|
        invariant flushedTimes == Kept(times[..i], readings[..i], config.ratePer)
        invariant sendCount == |flushedTimes| <= i && didFlush == (sendCount < i)
      {
        assert times[..i + 1][..i] == times[..i] && readings[..i + 1][..i] == readings[..i];
        if readings[i] - times[i] > config.ratePer {
          didFlush := true;
        } else {
          flushedTimes := flushedTimes + [times[i]];
          sendCount := sendCount + 1;
        }
      }
      assert times[..|times|] == times && readings[..|times|] == readings;
      if didFlush {
        pushedAt := pushedAt[key := flushedTimes];
      }
      sentAt := ZERO_TIME;
      if |flushedTimes| > 0 {
        sentAt := flushedTimes[0];
      }
    }

    method RecordPushNow(key: Key, now: int)
      modifies this`pushedAt
      ensures Core(pushedAt, batches) == RecordPush(Core(old(pushedAt), batches), key, now)
    {
      var times := Lookup(pushedAt, key);
      times := times + [now];
      pushedAt := pushedAt[key := times];
    }

    /**
     * Decides between pushing a message now and adding it to its key's batch, which signals the
     * squasher. For messages of the pump's own queue it is the limiter's arrival event, and it never
     * panics.
     */
    method PrepareToPush(queue: nat, qm: M, client: nat, smsg: ServiceMessage, readings: seq<int>, now: int)
      returns (outcome: Outcome)
      requires Valid() && |readings| == |Lookup(pushedAt, smsg.squashKey)| && Readings(limit.clock, readings, now)
      modifies this`pushedAt, this`batches, this`limit, this`waiter
      ensures waiter == if outcome.Squashed? then Signalled(old(waiter)) else old(waiter)
      ensures (Core(pushedAt, batches), outcome) ==
              Prepare(config, old(limit.core), queue, client, qm, smsg, readings, now)
      ensures queue == config.queue ==>
                && Valid() && outcome != Panicked
                && var e := Arrive(qm, smsg, client, readings, now);
                   Enabled(config, old(limit), e) && limit == Next(config, old(limit), e)
    {
      ghost var e := Arrive(qm, smsg, client, readings, now);
      hide Kept, LimitInv;
      StepKeepsLimit(config, limit, e);
      var key := smsg.squashKey;
      var sendCount, firstSendAt := FlushAndGetRate(key, readings);
      if sendCount < config.rateMax {
        RecordPushNow(key, now);
        outcome := Direct;
      } else if key in batches && batches[key].queue != queue {
        outcome := Panicked;
      } else {
        var batch := if key in batches then batches[key]
                     else Batch("", [], ZERO_TIME, [], queue, client);
        batch := batch.(key := key,
                        serviceMsgs := batch.serviceMsgs + [smsg],
                        queuedMsgs := batch.queuedMsgs + [qm],
                        due := firstSendAt + config.ratePer);
        assert [] + [smsg] == [smsg] && [] + [qm] == [qm];
        assert batch == JoinBatch(Core(pushedAt, batches), key, queue, client, qm, smsg, batch.due);
        batches := batches[key := batch];
        waiter := Signalled(waiter);
        outcome := Squashed;
      }
      if queue == config.queue {
        limit := Next(config, limit, e);
      }
    }

    /** The batch due first, visiting the map in any order; the zero batch if there is none. */
    method FindMinDue() returns (minDueBatch: Batch<M>, minDueBatchKey: Key)
      requires Valid()
      ensures batches == map[] ==> minDueBatch == ZeroBatch()
      ensures batches != map[] ==>
                && IsMinDue(limit.core, minDueBatchKey) && minDueBatch == batches[minDueBatchKey]
                && WellFormed(config, minDueBatch, minDueBatchKey)
    {
      forall k | k in batches ensures ZERO_TIME < batches[k].due && WellFormed(config, batches[k], k) {
        assert SafeKey(config, limit, k);
      }
      hide LimitInv;
      minDueBatch := ZeroBatch();
      minDueBatchKey := "";
      var rest := batches.Keys;
      while rest != {}
        invariant rest <= batches.Keys
        invariant rest == batches.Keys ==> minDueBatch == ZeroBatch()
        invariant rest < batches.Keys ==>
                    && minDueBatchKey in batches && minDueBatch == batches[minDueBatchKey]
                    && forall k | k in batches && k !in rest :: minDueBatch.due <= batches[k].due
        decreases |rest|
      {
        var k :| k in rest;
        if minDueBatch.due == ZERO_TIME || minDueBatch.due > batches[k].due {
          minDueBatch, minDueBatchKey := batches[k], k;
        }
        rest := rest - {k};
      }
    }

    /**
     * One pass of the batch loop under the lock. A pass that follows a wake-up does not look again
     * whether there are batches, and yet never finds none: it was signalled for a batch, or to stop.
     * The choice of k leaves the order in which the map is visited open.
     */
    method PollBatch(now: int) returns (r: Poll<M>)
      requires Valid() && !waiter.Asleep? && limit.popped == [] && limit.clock <= now
      modifies this`batches, this`limit, this`waiter
      ensures Valid() && waiter == if r.Wait? then Asleep else Running
      ensures r.Wait? <==> old(waiter).Running? && old(batches) == map[]
      ensures r.Stopped? <==> !r.Wait? && shuttingDown
      ensures r.Ready? <==> !r.Wait? && !shuttingDown && exists k :: k in old(batches) && old(batches)[k].due < now
      ensures r.Ready? ==>
                exists k :: && Enabled(config, old(limit), Pop(k, now))
                            && limit == Next(config, old(limit), Pop(k, now))
                            && r.batch == old(batches)[k] && batches == old(batches) - {k}
                            && WellFormed(config, r.batch, k)
      ensures r.Nap? ==>
                && old(batches) != map[]
                && 0 <= r.duration <= MAX_NAP
                && (forall k | k in batches :: now + r.duration <= batches[k].due)
                && (r.duration < MAX_NAP ==> exists k :: k in batches && now + r.duration == batches[k].due)
      ensures !r.Ready? ==> batches == old(batches) && limit == old(limit)
    {
      if waiter.Running? && |batches| == 0 {
        waiter := Asleep;
        return Wait;
      }
      waiter := Running;
      if shuttingDown {
        return Stopped;
      }
      var minDueBatch, minDueBatchKey := FindMinDue();
      hide LimitInv;
      if now > minDueBatch.due {
        StepKeepsLimit(config, limit, Pop(minDueBatchKey, now));
        limit := Next(config, limit, Pop(minDueBatchKey, now));
        batches := batches - {minDueBatchKey};
        return Ready(minDueBatch);
      }
      var nap := minDueBatch.due - now;
      if nap > MAX_NAP {
        nap := MAX_NAP;
      }
      return Nap(nap);
    }

    /** Tells the squasher to stop, and wakes it if it waits. */
    method RequestShutdown()
      requires Valid()
      modifies this`shuttingDown, this`waiter
      ensures Valid() && shuttingDown && waiter == Signalled(old(waiter))
    {
      shuttingDown := true;
      waiter := Signalled(waiter);
    }

    /** The locked part of sending a batch: its push is recorded under its key. */
    method RecordBatch(b: Batch<M>, now: int)
      requires Valid() && limit.popped == [b] && limit.clock <= now
      modifies this`pushedAt, this`limit
      ensures Valid() && limit == Next(config, old(limit), Record(now))
    {
      StepKeepsLimit(config, limit, Record(now));
      RecordPushNow(b.key, now);
      limit := Next(config, limit, Record(now));
    }
  }
}
