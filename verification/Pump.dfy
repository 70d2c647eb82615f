/** One worker's loop and the sending of a batch, on the queue and squasher objects. */
module Pumps {
  import Q = SlotQueue
  import L = Limiter
  import opened MemoryQueues
  import opened Squashing
  import opened Settling
  import opened Rounds

  class Pump {
    const queue: MemoryQueue
    /** Null when there is no rate limit. */
    const squasher: Squasher?<Handle>
    var clock: int

    constructor (queue: MemoryQueue, squasher: Squasher?<Handle>, clock: int)
      ensures this.queue == queue && this.squasher == squasher && this.clock == clock
    {
      this.queue, this.squasher, this.clock := queue, squasher, clock;
    }

    ghost function Config(): L.Config
      reads squasher
    {
      if squasher == null then L.Config(0, 0, 0) else squasher.config
    }

    ghost function State(): Work
      reads this, queue, queue.all, squasher
      requires queue.Valid()
    {
      if squasher == null then Work(queue.View(), Q.None, clock, Running, false)
      else Work(queue.View(), Q.Some(squasher.limit), clock, squasher.waiter, squasher.shuttingDown)
    }

    ghost function StoredBatches(): Batches
      reads squasher
    {
      if squasher == null then map[] else squasher.batches
    }

    ghost predicate Batched(m: Handle)
      reads squasher
    {
      InSome(StoredBatches(), m)
    }

    /** popped is the batch taken from the squasher and not yet recorded, if there is one. */
    ghost predicate ValidWith(popped: seq<L.Batch<Handle>>)
      reads this, queue, queue.all, squasher
    {
      && queue.Valid()
      && (squasher != null ==>
            && squasher.Valid() && squasher.config.queue == 0
            && squasher.limit.clock <= clock && squasher.limit.popped == popped)
    }

    ghost predicate Valid()
      reads this, queue, queue.all, squasher
    {
      ValidWith([])
    }

    ghost predicate Settled(hand: set<Handle>)
      reads queue, queue.all, squasher
      requires queue.Valid()
    {
      SettledOn(queue.all, queue.View(), StoredBatches(), hand)
    }

    /** Takes a message in hand out of the queue; the slot it names is its own. */
    method RemoveFromQueue(qm: Handle, ghost hand: set<Handle>)
      requires Valid() && Settled(hand) && qm in hand
      modifies queue`buf
      ensures Valid() && Settled(hand - {qm}) && !Batched(qm) && qm.id < |queue.all| && queue.all[qm.id] == qm
      ensures queue.View() == Q.Remove(old(queue.View()), qm.id)
      ensures forall h | 0 <= h < |queue.all| ::
                Q.InSlot(queue.View(), h) <==> old(Q.InSlot(queue.View(), h)) && queue.all[h] != qm
    {
      hide SettledOn, InSome, Q.InSlot, Q.Remove;
      RemoveSettles(queue.all, queue.View(), StoredBatches(), hand, qm);
      queue.Remove(qm);
    }

    /** Puts a message in hand back among the waiting ones. */
    method RequeueMessage(qm: Handle)
      requires Valid() && Settled({qm})
      modifies qm`pending
      ensures Valid() && Settled({}) && !Taken(queue.View(), qm.id) && Q.InSlot(queue.View(), qm.id) && !Batched(qm)
      ensures queue.View() == Q.SetPending(old(queue.View()), qm.id, false)
      ensures forall h | 0 <= h < |queue.all| :: Q.InSlot(queue.View(), h) <==> old(Q.InSlot(queue.View(), h))
    {
      hide SettledOn, InSome, Q.InSlot;
      RequeueSettles(queue.all, queue.View(), StoredBatches(), qm);
      queue.Requeue(qm);
    }

    /** One pass of the queue's Get; a message it returns is the first available one, and the only one in hand. */
    method Fetch(cancelled: bool) returns (r: Got)
      requires Valid() && Settled({})
      modifies queue.all
      ensures Valid() && queue.all == old(queue.all)
      ensures if r.Message? then r.qm in queue.all && Settled({r.qm}) else Settled({})
      ensures r.Closed? <==> cancelled || queue.shuttingDown
      ensures var q, i := old(queue.View()), Q.FirstReady(old(queue.View()), 0);
              && (r.Block? <==> !cancelled && !queue.shuttingDown && i == |q.buf|)
              && (r.Message? ==> r.qm.id < |queue.all| && queue.all[r.qm.id] == r.qm && q.buf[i] == Q.Some(r.qm.id))
              && queue.View() == if r.Message? then Q.SetPending(q, r.qm.id, true) else q
      ensures forall h | 0 <= h < |queue.all| :: Q.InSlot(queue.View(), h) <==> old(Q.InSlot(queue.View(), h))
    {
      ghost var before := queue.View();
      hide SettledOn, InSome, Q.SetPending;
      r := queue.Get(cancelled);
      if r.Message? {
        assert Q.Ready(before, Q.FirstReady(before, 0));
        TakeSettles(queue.all, before, StoredBatches(), r.qm.id);
      }
    }

    /** What a message's arrival does to the batches. */
    static lemma BatchesOf(config: L.Config, core: L.Core<Handle>, client: nat, qm: Handle, smsg: L.ServiceMessage,
                           readings: seq<int>, now: int)
      requires |readings| == |L.Lookup(core.pushedAt, smsg.squashKey)|
      ensures var (after, outcome) := L.Prepare(config, core, 0, client, qm, smsg, readings, now);
              if outcome.Squashed? then Joined(core.batches, after.batches, smsg.squashKey, qm) else after.batches == core.batches
    {}

    /** The squasher's decision is the limiter's arrival event, and changes the batches by the one message, if at all. */
    static method Decide(sq: Squasher<Handle>, qm: Handle, client: nat, smsg: L.ServiceMessage, turn: Turn, from: int)
      returns (squashed: bool)
      requires sq.Valid() && sq.config.queue == 0 && sq.limit.clock <= from && sq.limit.popped == []
      modifies sq`pushedAt, sq`batches, sq`limit, sq`waiter
      ensures sq.Valid() && sq.limit.clock == from + turn.elapsed && sq.limit.popped == []
      ensures var e := ArrivalOf(old(sq.limit), from, qm, client, smsg, turn);
              && L.Enabled(sq.config, old(sq.limit), e) && sq.limit == L.Next(sq.config, old(sq.limit), e)
              && (squashed <==> L.OutcomeOf(sq.config, old(sq.limit), e).Squashed?)
              && sq.waiter == if squashed then Signalled(old(sq.waiter)) else old(sq.waiter)
      ensures if squashed then Joined(old(sq.batches), sq.batches, smsg.squashKey, qm) else sq.batches == old(sq.batches)
    {
      var now := from + turn.elapsed;
      var readings := ReadingsOver(|L.Lookup(sq.pushedAt, smsg.squashKey)|, from, turn);
      ghost var core := sq.limit.core;
      var outcome := sq.PrepareToPush(0, qm, client, smsg, readings, now);
      BatchesOf(sq.config, core, client, qm, smsg, readings, now);
      squashed := outcome.Squashed?;
    }

    method Squash(sq: Squasher<Handle>, qm: Handle, client: nat, smsg: L.ServiceMessage, turn: Turn, ghost from: int)
      returns (squashed: bool)
      requires Valid() && sq == squasher && qm in queue.all && Settled({qm})
      requires sq.limit.clock <= from && clock == from + turn.elapsed
      modifies sq`pushedAt, sq`batches, sq`limit, sq`waiter
      ensures Valid() && if squashed then Settled({}) && Batched(qm) else Settled({qm})
      ensures queue.View() == old(queue.View())
      ensures var e := ArrivalOf(old(sq.limit), from, qm, client, smsg, turn);
              && L.Enabled(sq.config, old(sq.limit), e) && sq.limit == L.Next(sq.config, old(sq.limit), e)
              && (squashed <==> L.OutcomeOf(sq.config, old(sq.limit), e).Squashed?)
              && sq.waiter == if squashed then Signalled(old(sq.waiter)) else old(sq.waiter)
    {
      hide L.Next, L.OutcomeOf, L.Enabled, ArrivalOf, SettledOn, InSome, Joined;
      ghost var before := sq.batches;
      squashed := Decide(sq, qm, client, smsg, turn, clock - turn.elapsed);
      if squashed {
        SquashSettles(queue.all, queue.View(), before, sq.batches, smsg.squashKey, qm);
      }
    }

    /** Hands the message to the squasher if the rate is exceeded, or leaves it in hand to be pushed now. */
    method Push(qm: Handle, client: nat, smsg: L.ServiceMessage, turn: Turn) returns (squashed: bool)
      requires Valid() && qm in queue.all && Settled({qm})
      modifies this`clock, squasher
      ensures Valid() && if squashed then Settled({}) && Batched(qm) else Settled({qm})
      ensures (State(), squashed) == Prepared(Config(), old(State()), qm, client, smsg, turn)
      ensures squashed ==> Q.InSlot(queue.View(), qm.id)
    {
      InHandIsTaken(queue.all, queue.View(), StoredBatches(), {qm}, qm);
      hide SettledOn, InSome, Q.InSlot;
      ghost var from := clock;
      clock := clock + turn.elapsed;
      if squasher == null {
        return false;
      }
      squashed := Squash(squasher, qm, client, smsg, turn, from);
    }

    /** A round that had a message left it in the queue exactly if it was squashed or must be tried again, and in a batch exactly if squashed. */
    ghost predicate Settles(round: Round, turn: Turn)
      reads queue, queue.all, squasher
      requires queue.Valid()
    {
      !round.Returned? ==>
        && round.qm.id < |queue.all| && queue.all[round.qm.id] == round.qm
        && (Batched(round.qm) <==> round.Squashed?)
        && (Q.InSlot(queue.View(), round.qm.id) <==> round.Squashed? || (round.Pushed? && turn.status.TempFail?))
        && (round.Rejected? <==> turn.smsg.None?)
        && (round.Pushed? ==> round.status == turn.status)
    }

    /** After a push, the message is removed, or requeued if it must be tried again. */
    method Conclude(qm: Handle, status: L.PushStatus)
      requires Valid() && Settled({qm})
      modifies queue`buf, qm`pending
      ensures Valid() && Settled({}) && !Batched(qm) && qm.id < |queue.all| && queue.all[qm.id] == qm
      ensures queue.View() == if status.TempFail? then Q.SetPending(old(queue.View()), qm.id, false)
                              else Q.Remove(old(queue.View()), qm.id)
      ensures forall h | 0 <= h < |queue.all| ::
                Q.InSlot(queue.View(), h) <==> old(Q.InSlot(queue.View(), h)) && (queue.all[h] != qm || status.TempFail?)
      ensures status.TempFail? ==> Q.InSlot(queue.View(), qm.id)
    {
      assert {qm} - {qm} == {};
      InHandIsTaken(queue.all, queue.View(), StoredBatches(), {qm}, qm);
      hide Settled, Batched, Q.Remove, Q.SetPending;
      if status.Success? || status.HardFail? {
        RemoveFromQueue(qm, {qm});
      } else {
        RequeueMessage(qm);
      }
    }

    /** Disposes of a message that converts. */
    method DisposeConverted(qm: Handle, client: nat, turn: Turn) returns (round: Round)
      requires Valid() && Settled({qm}) && qm in queue.all && turn.smsg.Some?
      modifies this`clock, queue`buf, qm`pending, squasher
      ensures Valid() && Settled({}) && !round.Returned? && round.qm == qm && Settles(round, turn)
      ensures qm.id < |queue.all|
      ensures (State(), round) == Disposed(Config(), queue.all, old(State()), qm.id, client, turn)
      ensures forall h | 0 <= h < |queue.all| && queue.all[h] != qm ::
                Q.InSlot(queue.View(), h) <==> old(Q.InSlot(queue.View(), h))
    {
      hide Settled, Batched, Prepared, Q.Remove, Q.SetPending, Q.InSlot, Q.WellFormed;
      var squashed := Push(qm, client, turn.smsg.value, turn);
      if squashed {
        return Squashed(qm);
      }
      Conclude(qm, turn.status);
      return Pushed(qm, turn.status);
    }

    /** What a worker does with a message it has got: drop, squash, push, and then remove or requeue it. */
    method Dispose(qm: Handle, client: nat, turn: Turn) returns (round: Round)
      requires Valid() && Settled({qm}) && qm in queue.all
      modifies this`clock, queue`buf, qm`pending, squasher
      ensures Valid() && Settled({}) && !round.Returned? && round.qm == qm && Settles(round, turn)
      ensures qm.id < |queue.all|
      ensures (State(), round) == Disposed(Config(), queue.all, old(State()), qm.id, client, turn)
      ensures forall h | 0 <= h < |queue.all| && queue.all[h] != qm ::
                Q.InSlot(queue.View(), h) <==> old(Q.InSlot(queue.View(), h))
    {
      assert {qm} - {qm} == {};
      hide Settled, Batched, Prepared, Q.Remove, Q.SetPending, Q.InSlot, Q.WellFormed;
      if turn.smsg.None? {
        RemoveFromQueue(qm, {qm});
        return Rejected(qm);
      }
      round := DisposeConverted(qm, client, turn);
    }

    /**
     * One round of a worker, as TurnOn says. Whatever is cancelled, fails to convert, is squashed, or
     * fails to be pushed, it ends with nothing in hand, and only its own message leaves the queue.
     */
    method ServeTurn(client: nat, turn: Turn) returns (round: Round)
      requires Valid() && Settled({})
      modifies this`clock, queue`buf, queue.all, squasher
      ensures Valid() && Settled({}) && queue.all == old(queue.all) && Settles(round, turn)
      ensures (State(), round) == TurnOn(Config(), queue.all, old(State()), client, turn)
      ensures forall h | 0 <= h < |queue.all| && !(!round.Returned? && queue.all[h] == round.qm) ::
                Q.InSlot(queue.View(), h) <==> old(Q.InSlot(queue.View(), h))
    {
      hide Settled, Batched, Disposed;
      if turn.cancelled {
        return Returned;
      }
      var r := Fetch(turn.cancelledInGet);
      if !r.Message? {
        return Returned;
      }
      round := Dispose(r.qm, client, turn);
    }

    /**
     * A worker's loop: its rounds are those of TurnsOn, no message leaks, each is waiting, in a
     * batch, or removed. sleeps lists the failure counts it backs off with.
     */
    method ServeClient(client: nat, turns: seq<Turn>) returns (sleeps: seq<nat>, ghost rounds: seq<Round>)
      requires Valid() && Settled({})
      modifies this`clock, queue`buf, queue.all, squasher
      ensures Valid() && Settled({}) && queue.all == old(queue.all)
      ensures (State(), rounds) == TurnsOn(Config(), queue.all, old(State()), client, turns)
      ensures sleeps == Sleeps(rounds)
    {
      ghost var s := State();
      var failureCount := 0;
      sleeps, rounds := [], [];
      assert turns[..0] == [];
      hide Settled, TurnOn, TurnsOn, Sleeps, Streak;
      for i := 0 to |turns|
        invariant Valid() && Settled({}) && queue.all == old(queue.all)
        invariant (State(), rounds) == TurnsOn(Config(), queue.all, s, client, turns[..i]) && !Ended(rounds)
        invariant failureCount == Streak(rounds) && sleeps == Sleeps(rounds)
      {
        TurnsStep(Config(), queue.all, s, client, turns, i);
        var round := ServeTurn(client, turns[i]);
        SleepsStep(rounds, round);
        rounds := rounds + [round];
        match round
        case Returned =>
          TurnsEnd(Config(), queue.all, s, client, turns, i + 1);
          return;
        case Rejected(_) =>
        case Squashed(_) =>
        case Pushed(_, status) =>
          if status.TempFail? {
            sleeps := sleeps + [failureCount];
            failureCount := failureCount + 1;
          } else {
            failureCount := 0;
          }
      }
      assert turns[..|turns|] == turns;
    }

    method StopSquasher(sq: Squasher<Handle>)
      requires sq == squasher && Valid() && Settled({})
      modifies sq`shuttingDown, sq`waiter
      ensures Valid() && Settled({})
      ensures State() == old(State()).(stopping := true, waiter := Signalled(old(State().waiter)))
    {
      hide SettledOn;
      sq.RequestShutdown();
    }

    /** A worker goroutine: its loop, and then the request that the squasher stop, which wakes a squasher that waits. */
    method RunWorker(client: nat, turns: seq<Turn>) returns (sleeps: seq<nat>, ghost rounds: seq<Round>)
      requires Valid() && Settled({})
      modifies this`clock, queue`buf, queue.all, squasher
      ensures Valid() && Settled({}) && queue.all == old(queue.all)
      ensures var (s, rs) := TurnsOn(Config(), queue.all, old(State()), client, turns);
              && rounds == rs && sleeps == Sleeps(rs)
              && State() == if squasher == null then s else s.(stopping := true, waiter := Signalled(s.waiter))
      ensures squasher != null ==> squasher.shuttingDown && !squasher.waiter.Asleep?
    {
      sleeps, rounds := ServeClient(client, turns);
      if squasher != null {
        hide Settled, TurnsOn, Sleeps;
        StopSquasher(squasher);
      }
    }

    method RemoveAll(ms: seq<Handle>)
      requires Valid() && Distinct(ms) && Settled(From(ms, 0))
      modifies queue`buf
      ensures Valid() && Settled({})
      ensures forall h | 0 <= h < |queue.all| ::
                Q.InSlot(queue.View(), h) <==> old(Q.InSlot(queue.View(), h)) && queue.all[h] !in ms
      ensures queue.View() == RemoveEach(old(queue.View()), ms)
    {
      hide Settled, Q.Remove, Q.InSlot;
      for i := 0 to |ms|
        invariant Valid() && Settled(From(ms, i))
        invariant forall h | 0 <= h < |queue.all| ::
                    Q.InSlot(queue.View(), h) <==> old(Q.InSlot(queue.View(), h)) && queue.all[h] !in ms[..i]
        invariant queue.View() == RemoveEach(old(queue.View()), ms[..i])
      {
        FromNext(ms, i);
        RemoveFromQueue(ms[i], From(ms, i));
        RemoveEachStep(old(queue.View()), ms, i);
        assert ms[..i + 1] == ms[..i] + [ms[i]];
      }
      assert ms[..|ms|] == ms;
      assert From(ms, |ms|) == {};
    }

    method RecordIt(sq: Squasher<Handle>, b: L.Batch<Handle>)
      requires sq == squasher && ValidWith([b]) && Settled(From(b.queuedMsgs, 0))
      modifies sq`pushedAt, sq`limit
      ensures Valid() && Settled(From(b.queuedMsgs, 0))
      ensures queue.View() == old(queue.View()) && sq.limit == L.Next(sq.config, old(sq.limit), L.Record(clock))
    {
      hide SettledOn;
      sq.RecordBatch(b, clock);
    }

    /**
     * Records and sends a batch taken from the squasher. However the send is answered, exactly the
     * batch's messages leave the queue.
     */
    method SendBatch(b: L.Batch<Handle>, elapsed: nat, status: L.PushStatus)
      requires squasher != null && ValidWith([b]) && Distinct(b.queuedMsgs) && Settled(From(b.queuedMsgs, 0))
      modifies this`clock, queue`buf, squasher
      ensures squasher.waiter == old(squasher.waiter) && squasher.shuttingDown == old(squasher.shuttingDown)
      ensures Valid() && Settled({})
      ensures clock == old(clock) + elapsed && squasher.limit == L.Next(squasher.config, old(squasher.limit), L.Record(clock))
      ensures forall h | 0 <= h < |queue.all| ::
                Q.InSlot(queue.View(), h) <==> old(Q.InSlot(queue.View(), h)) && queue.all[h] !in b.queuedMsgs
      ensures queue.View() == RemoveEach(old(queue.View()), b.queuedMsgs)
    {
      hide SettledOn, L.Next, Q.InSlot;
      clock := clock + elapsed;
      RecordIt(squasher, b);
      RemoveAll(b.queuedMsgs);
    }

    /** A poll of the squasher; k is the key of the batch due first, which is the one it hands out if it does. */
    static method PollFor(sq: Squasher<Handle>, now: int) returns (r: Poll<Handle>, ghost k: L.Key)
      requires sq.Valid() && !sq.waiter.Asleep? && sq.limit.popped == [] && sq.limit.clock <= now
      modifies sq`batches, sq`limit, sq`waiter
      ensures sq.Valid() && sq.waiter == if r.Wait? then Asleep else Running
      ensures r.Wait? <==> old(sq.waiter).Running? && old(sq.batches) == map[]
      ensures r.Stopped? <==> !r.Wait? && sq.shuttingDown
      ensures old(sq.batches) != map[] ==> L.IsMinDue(old(sq.limit).core, k)
      ensures r.Ready? <==> !r.Wait? && !sq.shuttingDown && k in old(sq.batches) && old(sq.batches)[k].due < now
      ensures if r.Ready? then
                && L.Enabled(sq.config, old(sq.limit), L.Pop(k, now)) && sq.limit == L.Next(sq.config, old(sq.limit), L.Pop(k, now))
                && k in old(sq.batches) && r.batch == old(sq.batches)[k] && sq.batches == old(sq.batches) - {k}
                && sq.limit.popped == [r.batch] && sq.limit.clock == now
              else sq.batches == old(sq.batches) && sq.limit == old(sq.limit)
    {
      ghost var before, l := sq.batches, sq.limit;
      r := sq.PollBatch(now);
      k := "";
      hide L.Prepare;
      if r.Ready? {
        k :| && L.Enabled(sq.config, l, L.Pop(k, now)) && r.batch == before[k] && sq.batches == before - {k}
             && sq.limit == L.Next(sq.config, l, L.Pop(k, now));
      } else if before != map[] {
        assert before.Keys != {};
        k := L.SomeMinDue(l.core, before.Keys);
      }
    }

    /** Polls the squasher some time later; the messages of a batch it hands out are in hand. */
    method TakeBatch(sq: Squasher<Handle>, elapsed: nat) returns (r: Poll<Handle>, ghost k: L.Key)
      requires sq == squasher && Valid() && Settled({}) && !sq.waiter.Asleep?
      modifies this`clock, sq`batches, sq`limit, sq`waiter
      ensures queue.View() == old(queue.View()) && clock == old(clock) + elapsed
      ensures sq.waiter == if r.Wait? then Asleep else Running
      ensures r.Wait? <==> old(sq.waiter).Running? && old(sq.batches) == map[]
      ensures r.Stopped? <==> !r.Wait? && sq.shuttingDown
      ensures old(sq.batches) != map[] ==> L.IsMinDue(old(sq.limit).core, k)
      ensures r.Ready? <==> !r.Wait? && !sq.shuttingDown && k in old(sq.batches) && old(sq.batches)[k].due < clock
      ensures if r.Ready? then
                && L.Enabled(sq.config, old(sq.limit), L.Pop(k, clock)) && sq.limit == L.Next(sq.config, old(sq.limit), L.Pop(k, clock))
                && k in old(sq.batches) && r.batch == old(sq.batches)[k]
                && ValidWith([r.batch]) && Distinct(r.batch.queuedMsgs) && Settled(From(r.batch.queuedMsgs, 0))
              else Valid() && Settled({}) && sq.limit == old(sq.limit)
    {
      hide L.Next, L.Prepare, L.IsMinDue, L.Enabled, Distinct, From, SettledOn;
      ghost var before := sq.batches;
      clock := clock + elapsed;
      r, k := PollFor(sq, clock);
      if r.Ready? {
        PopSettles(queue.all, queue.View(), before, k);
      }
    }

    /**
     * One pass of the squasher's loop: if no stop was requested and a batch is due, k's, which is
     * due first, is sent and exactly its messages leave the queue; otherwise queue and limiter stay.
     */
    method ServeSquasher(elapsed: nat, sending: nat, status: L.PushStatus) returns (stopped: bool, ghost k: L.Key)
      requires squasher != null && Valid() && Settled({}) && !squasher.waiter.Asleep?
      modifies this`clock, queue`buf, squasher
      ensures Valid() && Settled({})
      ensures old(squasher.batches) != map[] ==> L.IsMinDue(old(squasher.limit).core, k)
      ensures State() == PassOn(squasher.config, old(State()), k, elapsed, sending)
      ensures stopped <==> squasher.shuttingDown && !squasher.waiter.Asleep?
      ensures var batches := old(squasher.batches);
              var sends := !squasher.waiter.Asleep? && !stopped && k in batches && batches[k].due < old(clock) + elapsed;
              forall h | 0 <= h < |queue.all| ::
                Q.InSlot(queue.View(), h) <==> old(Q.InSlot(queue.View(), h)) && !(sends && queue.all[h] in batches[k].queuedMsgs)
    {
      hide L.Next, L.Prepare, Settled, Q.InSlot, Q.WellFormed, From, Distinct, RemoveEach;
      var r;
      r, k := TakeBatch(squasher, elapsed);
      stopped := r.Stopped?;
      if r.Ready? {
        SendBatch(r.batch, sending, status);
      }
    }
  }
}
