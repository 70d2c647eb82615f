/** What every step of the pump keeps: who holds which message, where its slot is, and what a batch holds. */
module SystemInvariant {
  import L = Limiter
  import R = LimiterRuns
  import Q = SlotQueue
  import opened System

  ghost predicate Distinct(hs: seq<Id>) {
    forall i, j | 0 <= i < j < |hs| :: hs[i] != hs[j]
  }

  /** The messages the squasher has taken out of the batches and not yet removed. */
  function InHand(s: State): seq<Id> {
    if s.sq.Popped? && |s.lim.popped| == 1 then s.lim.popped[0].queuedMsgs
    else if s.sq.Removing? then s.sq.left
    else []
  }

  /** Slots and pending flags say what owner says. */
  ghost predicate SlotsAgree(q: Q.QueueState, owner: seq<Place>) {
    && Q.WellFormed(q)
    && |owner| == |q.records|
    && (forall h | 0 <= h < |owner| :: Q.InSlot(q, h) <==> !owner[h].Removed?)
    && (forall h | 0 <= h < |owner| && !owner[h].Removed? :: q.records[h].pending <==> !owner[h].Waiting?)
  }

  /** Workers hold exactly the messages owner gives them. */
  ghost predicate WorkersAgree(workers: seq<Worker>, owner: seq<Place>) {
    && (forall w | 0 <= w < |workers| && (workers[w].Holding? || workers[w].Pushing?) ::
          workers[w].id < |owner| && owner[workers[w].id] == WithWorker(w))
    && (forall h | 0 <= h < |owner| && owner[h].WithWorker? ::
          && owner[h].w < |workers|
          && (workers[owner[h].w] == Holding(h) || workers[owner[h].w] == Pushing(h)))
  }

  ghost predicate ListAgrees(hs: seq<Id>, owner: seq<Place>, place: Place) {
    && Distinct(hs)
    && (forall h | h in hs :: h < |owner| && owner[h] == place)
    && (forall h | 0 <= h < |owner| && owner[h] == place :: h in hs)
  }

  function MsgsOf(batches: map<L.Key, L.Batch<Id>>, k: L.Key): seq<Id> {
    if k in batches then batches[k].queuedMsgs else []
  }

  ghost predicate BatchesAgree(batches: map<L.Key, L.Batch<Id>>, owner: seq<Place>) {
    forall k :: ListAgrees(MsgsOf(batches, k), owner, InBatch(k))
  }

  ghost predicate Ownership(s: State) {
    && SlotsAgree(s.q, s.owner)
    && WorkersAgree(s.workers, s.owner)
    && BatchesAgree(s.lim.core.batches, s.owner)
    && ListAgrees(InHand(s), s.owner, WithSquasher)
  }

  ghost predicate SquasherAgrees(p: Setup, s: State) {
    && (s.sq.Absent? <==> !Limited(p))
    && (if s.sq.Popped? then |s.lim.popped| == 1 else s.lim.popped == [])
    && (s.sq.Asleep? ==> s.lim.core.batches == map[])
    && (s.sq.Awake? ==> s.lim.core.batches != map[] || s.stopRequested)
    && (!Limited(p) ==> s.lim.core.batches == map[])
    && (Limited(p) ==> R.LimitInv(p.limit, s.lim))
  }

  /** Each service message of a batch is the conversion of the queued message beside it. */
  ghost predicate Conversions(p: Setup, records: seq<Q.Record>, b: L.Batch<Id>) {
    && |b.queuedMsgs| == |b.serviceMsgs|
    && forall i | 0 <= i < |b.queuedMsgs| ::
         b.queuedMsgs[i] < |records| && p.convert(records[b.queuedMsgs[i]].body) == Q.Some(b.serviceMsgs[i])
  }

  ghost predicate Converts(p: Setup, records: seq<Q.Record>, batches: map<L.Key, L.Batch<Id>>, popped: seq<L.Batch<Id>>) {
    && (forall k | k in batches :: Conversions(p, records, batches[k]))
    && (forall i | 0 <= i < |popped| :: Conversions(p, records, popped[i]))
  }

  ghost predicate Inv(p: Setup, s: State) {
    && !s.crashed
    && Ownership(s)
    && SquasherAgrees(p, s)
    && Converts(p, s.q.records, s.lim.core.batches, s.lim.popped)
  }

  // ---------- slots ----------

  lemma SlotsAfterEnqueue(q: Q.QueueState, owner: seq<Place>, body: Q.Body)
    requires SlotsAgree(q, owner)
    ensures SlotsAgree(Q.Enqueue(q, body), owner + [Waiting])
  {
    Q.EnqueueKeepsWellFormed(q, body);
    assert forall h | 0 <= h < |q.records| :: Q.Enqueue(q, body).records[h] == q.records[h];
  }

  lemma SlotsAfterSetPending(q: Q.QueueState, owner: seq<Place>, h: Id, pending: bool, to: Place)
    requires SlotsAgree(q, owner) && h < |owner| && !owner[h].Removed?
    requires !to.Removed? && (pending <==> !to.Waiting?)
    ensures SlotsAgree(Q.SetPending(q, h, pending), owner[h := to])
  {
    forall g | 0 <= g < |owner| ensures Q.InSlot(Q.SetPending(q, h, pending), g) <==> Q.InSlot(q, g) {}
  }

  lemma SlotsAfterRemove(q: Q.QueueState, owner: seq<Place>, h: Id)
    requires SlotsAgree(q, owner) && h < |owner| && !owner[h].Removed?
    ensures Q.InSlot(q, h) && SlotsAgree(Q.Remove(q, h), owner[h := Removed])
  {
    assert Q.InSlot(q, h);
    Q.RemoveKeepsWellFormed(q, h);
  }

  /** Messages change hands without the queue noticing. */
  lemma SlotsAfterHandover(q: Q.QueueState, owner: seq<Place>, owner': seq<Place>)
    requires SlotsAgree(q, owner) && |owner'| == |owner|
    requires forall h | 0 <= h < |owner| :: owner'[h].Removed? == owner[h].Removed? && owner'[h].Waiting? == owner[h].Waiting?
    ensures SlotsAgree(q, owner')
  {}

  // ---------- workers ----------

  predicate Carries(pc: Worker) {
    pc.Holding? || pc.Pushing?
  }

  lemma WorkersAfterStep(workers: seq<Worker>, owner: seq<Place>, w: nat, pc: Worker)
    requires WorkersAgree(workers, owner) && w < |workers|
    requires !Carries(pc) && !Carries(workers[w])
    ensures WorkersAgree(workers[w := pc], owner)
  {}

  lemma WorkersAfterTake(workers: seq<Worker>, owner: seq<Place>, w: nat, h: Id)
    requires WorkersAgree(workers, owner) && w < |workers| && !Carries(workers[w])
    requires h < |owner| && !owner[h].WithWorker?
    ensures WorkersAgree(workers[w := Holding(h)], owner[h := WithWorker(w)])
  {}

  lemma WorkersAfterGive(workers: seq<Worker>, owner: seq<Place>, w: nat, pc: Worker, to: Place)
    requires WorkersAgree(workers, owner) && w < |workers| && Carries(workers[w]) && workers[w].id < |owner|
    requires !Carries(pc) && !to.WithWorker?
    ensures WorkersAgree(workers[w := pc], owner[workers[w].id := to])
  {}

  lemma WorkersAfterHandover(workers: seq<Worker>, owner: seq<Place>, owner': seq<Place>)
    requires WorkersAgree(workers, owner) && |owner| <= |owner'|
    requires forall h | 0 <= h < |owner| :: owner'[h] == owner[h] || (!owner[h].WithWorker? && !owner'[h].WithWorker?)
    requires forall h | |owner| <= h < |owner'| :: !owner'[h].WithWorker?
    ensures WorkersAgree(workers, owner')
  {}

  // ---------- lists ----------

  /** Only moves in and out of place matter to place's list. */
  lemma ListElsewhere(hs: seq<Id>, owner: seq<Place>, owner': seq<Place>, place: Place)
    requires ListAgrees(hs, owner, place) && |owner| <= |owner'|
    requires forall h | 0 <= h < |owner| :: owner'[h] == place <==> owner[h] == place
    requires forall h | |owner| <= h < |owner'| :: owner'[h] != place
    ensures ListAgrees(hs, owner', place)
  {}

  lemma ListAfterAppend(hs: seq<Id>, owner: seq<Place>, h: Id, place: Place)
    requires ListAgrees(hs, owner, place) && h < |owner| && owner[h] != place
    ensures ListAgrees(hs + [h], owner[h := place], place)
  {}

  lemma ListAfterTail(hs: seq<Id>, owner: seq<Place>, place: Place)
    requires ListAgrees(hs, owner, place) && hs != [] && place != Removed
    ensures hs[0] < |owner| && ListAgrees(hs[1..], owner[hs[0] := Removed], place)
  {
    assert hs[0] in hs;
    assert forall h | h in hs[1..] :: h in hs && h != hs[0];
    assert forall h | h in hs :: h == hs[0] || h in hs[1..] by {
      assert hs == [hs[0]] + hs[1..];
    }
  }

  /** A message that goes neither into nor out of a batch. */
  lemma BatchesElsewhere(batches: map<L.Key, L.Batch<Id>>, owner: seq<Place>, owner': seq<Place>)
    requires BatchesAgree(batches, owner) && |owner| <= |owner'|
    requires forall h | 0 <= h < |owner| :: owner'[h] == owner[h] || (!owner[h].InBatch? && !owner'[h].InBatch?)
    requires forall h | |owner| <= h < |owner'| :: !owner'[h].InBatch?
    ensures BatchesAgree(batches, owner')
  {
    hide ListAgrees;
    forall k ensures ListAgrees(MsgsOf(batches, k), owner', InBatch(k)) {
      ListElsewhere(MsgsOf(batches, k), owner, owner', InBatch(k));
    }
  }

  lemma BatchesAfterSquash(batches: map<L.Key, L.Batch<Id>>, owner: seq<Place>, h: Id, k: L.Key, b: L.Batch<Id>)
    requires BatchesAgree(batches, owner) && h < |owner| && !owner[h].InBatch?
    requires b.queuedMsgs == MsgsOf(batches, k) + [h]
    ensures BatchesAgree(batches[k := b], owner[h := InBatch(k)])
  {
    hide ListAgrees;
    forall j ensures ListAgrees(MsgsOf(batches[k := b], j), owner[h := InBatch(k)], InBatch(j)) {
      if j == k {
        ListAfterAppend(MsgsOf(batches, k), owner, h, InBatch(k));
      } else {
        ListElsewhere(MsgsOf(batches, j), owner, owner[h := InBatch(k)], InBatch(j));
      }
    }
  }

  lemma BatchesAfterPop(batches: map<L.Key, L.Batch<Id>>, owner: seq<Place>, k: L.Key)
    requires BatchesAgree(batches, owner) && k in batches && ListAgrees([], owner, WithSquasher)
    ensures var hs := batches[k].queuedMsgs; var owner' := Reassign(owner, hs, WithSquasher);
            && BatchesAgree(batches - {k}, owner') && ListAgrees(hs, owner', WithSquasher)
            && forall h | 0 <= h < |owner| ::
                 owner'[h] == owner[h] || (owner[h].InBatch? && owner'[h].WithSquasher?)
  {
    var hs := batches[k].queuedMsgs;
    var owner' := Reassign(owner, hs, WithSquasher);
    assert ListAgrees(MsgsOf(batches, k), owner, InBatch(k));
    forall j ensures ListAgrees(MsgsOf(batches - {k}, j), owner', InBatch(j)) {
      if j == k {
      } else {
        ListElsewhere(MsgsOf(batches, j), owner, owner', InBatch(j));
      }
    }
  }

  lemma InBatchIsStored(s: State, h: Id)
    requires Ownership(s) && h < |s.owner|
    ensures s.owner[h].InBatch? ==> s.owner[h].key in s.lim.core.batches
  {
    if s.owner[h].InBatch? {
      assert ListAgrees(MsgsOf(s.lim.core.batches, s.owner[h].key), s.owner, InBatch(s.owner[h].key));
    }
  }

  // ---------- conversions ----------

  lemma ConvertsElsewhere(p: Setup, records: seq<Q.Record>, records': seq<Q.Record>,
                          batches: map<L.Key, L.Batch<Id>>, popped: seq<L.Batch<Id>>)
    requires Converts(p, records, batches, popped) && |records| <= |records'|
    requires forall h | 0 <= h < |records| :: records'[h].body == records[h].body
    ensures Converts(p, records', batches, popped)
  {}

  // ---------- every event ----------

  /** One message moves between the queue and a worker, or out of the queue. */
  lemma MoveKeeps(p: Setup, s: State, t: State, h: Id, to: Place)
    requires Inv(p, s) && h < |s.owner| && t.owner == s.owner[h := to]
    requires s.owner[h].Waiting? || s.owner[h].WithWorker?
    requires to.Waiting? || to.WithWorker? || to.Removed?
    requires t.lim == s.lim && t.sq == s.sq && t.stopRequested == s.stopRequested && t.crashed == s.crashed
    requires |t.q.records| == |s.q.records|
    requires forall g | 0 <= g < |s.q.records| :: t.q.records[g].body == s.q.records[g].body
    requires SlotsAgree(t.q, t.owner) && WorkersAgree(t.workers, t.owner)
    ensures Inv(p, t)
  {
    hide R.LimitInv, SlotsAgree, WorkersAgree, BatchesAgree, ListAgrees, Converts;
    BatchesElsewhere(s.lim.core.batches, s.owner, t.owner);
    ListElsewhere(InHand(s), s.owner, t.owner, WithSquasher);
    ConvertsElsewhere(p, s.q.records, t.q.records, s.lim.core.batches, s.lim.popped);
  }

  lemma EnqueueKeeps(p: Setup, s: State, body: Q.Body)
    requires Inv(p, s)
    ensures Inv(p, AfterEnqueue(s, body))
  {
    var t := AfterEnqueue(s, body);
    assert |s.owner| == |s.q.records|;
    hide R.LimitInv, SlotsAgree, WorkersAgree, BatchesAgree, ListAgrees, Converts;
    SlotsAfterEnqueue(s.q, s.owner, body);
    WorkersAfterHandover(s.workers, s.owner, t.owner);
    BatchesElsewhere(s.lim.core.batches, s.owner, t.owner);
    ListElsewhere(InHand(s), s.owner, t.owner, WithSquasher);
    ConvertsElsewhere(p, s.q.records, t.q.records, s.lim.core.batches, s.lim.popped);
  }

  lemma WorkerStepKeeps(p: Setup, s: State, w: nat, pc: Worker)
    requires Inv(p, s) && w < |s.workers| && !Carries(pc) && !Carries(s.workers[w])
    ensures Inv(p, SetWorker(s, w, pc))
  {
    hide R.LimitInv, SlotsAgree, WorkersAgree, BatchesAgree, ListAgrees, Converts;
    WorkersAfterStep(s.workers, s.owner, w, pc);
  }

  lemma GetKeeps(p: Setup, s: State, w: nat)
    requires Inv(p, s) && Enabled(p, s, Get(w))
    ensures Inv(p, AfterGet(s, w))
  {
    var i := Q.FirstReady(s.q, 0);
    if s.cancelled || s.q.shuttingDown || i == |s.q.buf| {
      WorkerStepKeeps(p, s, w, AfterGet(s, w).workers[w]);
    } else {
      var h := s.q.buf[i].value;
      assert Q.InSlot(s.q, h) && s.owner[h] == Waiting;
      hide R.LimitInv, SlotsAgree, WorkersAgree, BatchesAgree, ListAgrees, Converts;
      SlotsAfterSetPending(s.q, s.owner, h, true, WithWorker(w));
      WorkersAfterTake(s.workers, s.owner, w, h);
      MoveKeeps(p, s, AfterGet(s, w), h, WithWorker(w));
    }
  }

  /** A worker's message is its own. */
  lemma CarriedIsOwned(s: State, w: nat)
    requires Ownership(s) && w < |s.workers| && Carries(s.workers[w])
    ensures s.workers[w].id < |s.owner| == |s.q.records| && s.owner[s.workers[w].id] == WithWorker(w)
    ensures Q.InSlot(s.q, s.workers[w].id) && s.q.records[s.workers[w].id].pending
  {}

  lemma DropKeeps(p: Setup, s: State, w: nat)
    requires Inv(p, s) && (IsHolding(s, w) || IsPushing(s, w))
    ensures Inv(p, RemoveFromQueue(SetWorker(s, w, Idle), s.workers[w].id))
  {
    CarriedIsOwned(s, w);
    hide R.LimitInv, SlotsAgree, WorkersAgree, BatchesAgree, ListAgrees, Converts;
    var h := s.workers[w].id;
    SlotsAfterRemove(s.q, s.owner, h);
    WorkersAfterGive(s.workers, s.owner, w, Idle, Removed);
    MoveKeeps(p, s, RemoveFromQueue(SetWorker(s, w, Idle), h), h, Removed);
  }

  lemma RequeueKeeps(p: Setup, s: State, w: nat)
    requires Inv(p, s) && IsPushing(s, w)
    ensures Inv(p, AfterAnswer(s, w, L.TempFail))
  {
    CarriedIsOwned(s, w);
    hide R.LimitInv, SlotsAgree, WorkersAgree, BatchesAgree, ListAgrees, Converts;
    var h := s.workers[w].id;
    SlotsAfterSetPending(s.q, s.owner, h, false, Waiting);
    WorkersAfterGive(s.workers, s.owner, w, BackingOff, Waiting);
    MoveKeeps(p, s, AfterAnswer(s, w, L.TempFail), h, Waiting);
  }

  /** A worker goes on from holding a message to pushing it. */
  lemma StartPushKeeps(p: Setup, s: State, w: nat)
    requires Inv(p, s) && IsHolding(s, w)
    ensures Inv(p, SetWorker(s, w, Pushing(s.workers[w].id)))
  {
    hide R.LimitInv, SlotsAgree, BatchesAgree, ListAgrees, Converts;
  }

  lemma ShutdownKeeps(p: Setup, s: State)
    requires Inv(p, s)
    ensures Inv(p, AfterShutdown(s))
  {
    hide R.LimitInv, BatchesAgree, ListAgrees, Converts;
    var t := AfterShutdown(s);
    assert forall h | 0 <= h < |s.owner| :: Q.InSlot(t.q, h) <==> Q.InSlot(s.q, h);
  }

  // ---------- the squasher's events ----------

  lemma ConvertsAfterSquash(p: Setup, records: seq<Q.Record>, batches: map<L.Key, L.Batch<Id>>, popped: seq<L.Batch<Id>>,
                            k: L.Key, b: L.Batch<Id>, h: Id, smsg: L.ServiceMessage)
    requires Converts(p, records, batches, popped) && h < |records| && p.convert(records[h].body) == Q.Some(smsg)
    requires b.queuedMsgs == MsgsOf(batches, k) + [h]
    requires b.serviceMsgs == (if k in batches then batches[k].serviceMsgs else []) + [smsg]
    ensures Converts(p, records, batches[k := b], popped)
  {
    if k in batches {
      assert Conversions(p, records, batches[k]);
    }
    assert Conversions(p, records, b);
  }

  lemma BatchesOfPrepare(p: Setup, s: State, e: L.Event<Id>)
    requires L.Enabled(p.limit, s.lim, e) && e.Arrive? && !L.OutcomeOf(p.limit, s.lim, e).Panicked?
    ensures var t, k := L.Next(p.limit, s.lim, e), e.smsg.squashKey;
            && t.popped == s.lim.popped
            && if L.OutcomeOf(p.limit, s.lim, e).Direct? then t.core.batches == s.lim.core.batches
               else
                 && k in t.core.batches && t.core.batches == s.lim.core.batches[k := t.core.batches[k]]
                 && var b := t.core.batches[k];
                    && b.queuedMsgs == MsgsOf(s.lim.core.batches, k) + [e.qm]
                    && b.serviceMsgs == (if k in s.lim.core.batches then s.lim.core.batches[k].serviceMsgs else []) + [e.smsg]
  {}

  /** What an arrival does to the batches. */
  lemma BatchesOfArrival(p: Setup, s: State, e: L.Event<Id>)
    requires Limited(p) && R.LimitInv(p.limit, s.lim) && L.Enabled(p.limit, s.lim, e) && e.Arrive?
    ensures var t, k := L.Next(p.limit, s.lim, e), e.smsg.squashKey;
            && t.popped == s.lim.popped && R.LimitInv(p.limit, t)
            && match L.OutcomeOf(p.limit, s.lim, e)
               case Panicked => false
               case Direct => t.core.batches == s.lim.core.batches
               case Squashed =>
                 && k in t.core.batches && t.core.batches == s.lim.core.batches[k := t.core.batches[k]]
                 && var b := t.core.batches[k];
                    && b.queuedMsgs == MsgsOf(s.lim.core.batches, k) + [e.qm]
                    && b.serviceMsgs == (if k in s.lim.core.batches then s.lim.core.batches[k].serviceMsgs else []) + [e.smsg]
  {
    R.StepKeepsLimit(p.limit, s.lim, e);
    hide R.LimitInv;
    BatchesOfPrepare(p, s, e);
  }

  /** The limiter moves on without touching its batches. */
  lemma LimitStepKeeps(p: Setup, s: State, lim: L.Limit<Id>)
    requires Inv(p, s) && Limited(p) && R.LimitInv(p.limit, lim)
    requires lim.core.batches == s.lim.core.batches && lim.popped == s.lim.popped
    ensures Inv(p, s.(lim := lim))
  {
    hide R.LimitInv, SlotsAgree, WorkersAgree, BatchesAgree, ListAgrees, Converts;
  }

  /** A held message goes into its key's batch, and the squasher is signalled. */
  lemma SquashKeeps(p: Setup, s: State, t: State, w: nat, k: L.Key, smsg: L.ServiceMessage)
    requires Inv(p, s) && Limited(p) && IsHolding(s, w)
    requires p.convert(s.q.records[s.workers[w].id].body) == Q.Some(smsg)
    requires R.LimitInv(p.limit, t.lim) && t.lim.popped == s.lim.popped
    requires k in t.lim.core.batches && t.lim.core.batches == s.lim.core.batches[k := t.lim.core.batches[k]]
    requires var b := t.lim.core.batches[k];
             && b.queuedMsgs == MsgsOf(s.lim.core.batches, k) + [s.workers[w].id]
             && b.serviceMsgs == (if k in s.lim.core.batches then s.lim.core.batches[k].serviceMsgs else []) + [smsg]
    requires s.workers[w].id < |s.owner|
    requires t == s.(lim := t.lim, workers := s.workers[w := Idle], sq := if s.sq.Asleep? then Awake else s.sq,
                     owner := s.owner[s.workers[w].id := InBatch(k)])
    ensures Inv(p, t)
  {
    CarriedIsOwned(s, w);
    hide R.LimitInv, SlotsAgree, WorkersAgree, BatchesAgree, ListAgrees, Converts;
    var h := s.workers[w].id;
    SlotsAfterHandover(s.q, s.owner, t.owner);
    WorkersAfterGive(s.workers, s.owner, w, Idle, InBatch(k));
    BatchesAfterSquash(s.lim.core.batches, s.owner, h, k, t.lim.core.batches[k]);
    ListElsewhere(InHand(s), s.owner, t.owner, WithSquasher);
    ConvertsAfterSquash(p, s.q.records, s.lim.core.batches, s.lim.popped, k, t.lim.core.batches[k], h, smsg);
  }

  lemma PrepareKeeps(p: Setup, s: State, w: nat, readings: seq<int>, now: int)
    requires Inv(p, s) && Enabled(p, s, PrepareToPush(w, readings, now))
    ensures Inv(p, AfterPrepare(p, s, w, readings, now))
  {
    var e := Arrival(p, s, w, readings, now);
    CarriedIsOwned(s, w);
    BatchesOfArrival(p, s, e);
    hide Inv, Ownership, L.Next, L.OutcomeOf, R.LimitInv, MsgsOf;
    if L.OutcomeOf(p.limit, s.lim, e).Direct? {
      StartPushKeeps(p, s, w);
      LimitStepKeeps(p, SetWorker(s, w, Pushing(e.qm)), L.Next(p.limit, s.lim, e));
    } else {
      SquashKeeps(p, s, AfterPrepare(p, s, w, readings, now), w, e.smsg.squashKey, e.smsg);
    }
  }

  lemma ConvertsAfterPop(p: Setup, records: seq<Q.Record>, batches: map<L.Key, L.Batch<Id>>, k: L.Key)
    requires Converts(p, records, batches, []) && k in batches
    ensures Converts(p, records, batches - {k}, [batches[k]])
  {}

  lemma SquasherTakes(p: Setup, l: L.Limit<Id>, key: L.Key, now: int)
    requires L.Enabled(p.limit, l, L.Pop(key, now))
    ensures var l' := L.Next(p.limit, l, L.Pop(key, now));
            && key in l.core.batches && l.popped == []
            && l'.core.batches == l.core.batches - {key} && l'.popped == [l.core.batches[key]]
  {}

  lemma PopKeeps(p: Setup, s: State, key: L.Key, now: int)
    requires Inv(p, s) && Limited(p) && (s.sq.Polling? || s.sq.Awake?) && L.Enabled(p.limit, s.lim, L.Pop(key, now))
    ensures Inv(p, s.(sq := Popped, lim := L.Next(p.limit, s.lim, L.Pop(key, now)),
                      owner := Reassign(s.owner, s.lim.core.batches[key].queuedMsgs, WithSquasher)))
  {
    hide R.LimitInv, L.Next, L.Enabled, SlotsAgree, WorkersAgree, BatchesAgree, ListAgrees, Converts, Reassign;
    R.StepKeepsLimit(p.limit, s.lim, L.Pop(key, now));
    SquasherTakes(p, s.lim, key, now);
    var batches := s.lim.core.batches;
    var owner' := Reassign(s.owner, batches[key].queuedMsgs, WithSquasher);
    BatchesAfterPop(batches, s.owner, key);
    SlotsAfterHandover(s.q, s.owner, owner');
    WorkersAfterHandover(s.workers, s.owner, owner');
    ConvertsAfterPop(p, s.q.records, batches, key);
  }

  lemma PollKeeps(p: Setup, s: State, key: L.Key, now: int)
    requires Inv(p, s) && Enabled(p, s, Poll(key, now))
    ensures Inv(p, AfterPoll(p, s, key, now))
  {
    var t := AfterPoll(p, s, key, now);
    var batches := s.lim.core.batches;
    if (s.sq.Polling? && batches == map[]) || s.stopRequested {
    } else if batches[key].due < now {
      PopKeeps(p, s, key, now);
    } else {
      hide R.LimitInv, SlotsAgree, WorkersAgree, BatchesAgree, ListAgrees, Converts;
    }
  }

  lemma SquasherRecords(p: Setup, l: L.Limit<Id>, now: int)
    requires L.Enabled(p.limit, l, L.Record(now))
    ensures var l' := L.Next(p.limit, l, L.Record(now)); l'.core.batches == l.core.batches && l'.popped == []
  {}

  lemma ConvertsWithoutPopped(p: Setup, records: seq<Q.Record>, batches: map<L.Key, L.Batch<Id>>, popped: seq<L.Batch<Id>>)
    requires Converts(p, records, batches, popped)
    ensures Converts(p, records, batches, [])
  {}

  lemma RecordKeeps(p: Setup, s: State, now: int)
    requires Inv(p, s) && Enabled(p, s, RecordBatch(now))
    ensures Inv(p, AfterRecord(p, s, now))
  {
    R.StepKeepsLimit(p.limit, s.lim, L.Record(now));
    hide R.LimitInv, SlotsAgree, WorkersAgree, BatchesAgree, ListAgrees, Converts, L.Next;
    SquasherRecords(p, s.lim, now);
    ConvertsWithoutPopped(p, s.q.records, s.lim.core.batches, s.lim.popped);
  }

  lemma RemoveNextKeeps(p: Setup, s: State)
    requires Inv(p, s) && Enabled(p, s, RemoveNext)
    ensures Inv(p, AfterRemoveNext(s))
  {
    hide R.LimitInv;
    if s.sq.left != [] {
      var h, t := s.sq.left[0], AfterRemoveNext(s);
      ListAfterTail(s.sq.left, s.owner, WithSquasher);
      assert h in s.sq.left;
      SlotsAfterRemove(s.q, s.owner, h);
      assert t.owner == s.owner[h := Removed];
      hide SlotsAgree, WorkersAgree, BatchesAgree, ListAgrees, Converts;
      WorkersAfterHandover(s.workers, s.owner, t.owner);
      BatchesElsewhere(s.lim.core.batches, s.owner, t.owner);
      ConvertsElsewhere(p, s.q.records, t.q.records, s.lim.core.batches, s.lim.popped);
    }
  }

  lemma DeliverKeeps(p: Setup, s: State, to: Q.Option<nat>)
    requires Inv(p, s) && Enabled(p, s, Deliver(to))
    ensures Inv(p, AfterDeliver(s, to))
  {
    var t := s.(signals := s.signals - 1);
    assert Inv(p, t) by {
      hide R.LimitInv, SlotsAgree, WorkersAgree, BatchesAgree, ListAgrees, Converts;
    }
    if to.Some? {
      WorkerStepKeeps(p, t, to.value, Woken);
    }
  }

  lemma CancelKeeps(p: Setup, s: State)
    requires Inv(p, s)
    ensures Inv(p, s.(cancelled := true))
  {
    hide R.LimitInv, SlotsAgree, WorkersAgree, BatchesAgree, ListAgrees, Converts;
  }

  lemma RequestStopKeeps(p: Setup, s: State, w: nat)
    requires Inv(p, s) && Enabled(p, s, RequestStop(w))
    ensures Inv(p, AfterRequestStop(p, s, w))
  {
    WorkerStepKeeps(p, s, w, Gone);
    hide R.LimitInv, SlotsAgree, WorkersAgree, BatchesAgree, ListAgrees, Converts;
  }

  lemma StepKeepsInv(p: Setup, s: State, e: Event)
    requires Inv(p, s) && Enabled(p, s, e)
    ensures Inv(p, Next(p, s, e))
  {
    hide Inv, AfterEnqueue, AfterShutdown, AfterGet, AfterPrepare, AfterPoll, AfterRecord, AfterRemoveNext, RemoveFromQueue;
    match e
    case Enqueue(body) => EnqueueKeeps(p, s, body);
    case Deliver(to) => DeliverKeeps(p, s, to);
    case Shutdown => ShutdownKeeps(p, s);
    case Cancel => CancelKeeps(p, s);
    case Get(w) => GetKeeps(p, s, w);
    case Reject(w) => DropKeeps(p, s, w);
    case PrepareToPush(w, readings, now) => PrepareKeeps(p, s, w, readings, now);
    case PushUnlimited(w) => StartPushKeeps(p, s, w);
    case Answer(w, status) =>
      if status.TempFail? {
        RequeueKeeps(p, s, w);
      } else {
        DropKeeps(p, s, w);
      }
    case Resume(w) => WorkerStepKeeps(p, s, w, Idle);
    case RequestStop(w) => RequestStopKeeps(p, s, w);
    case Poll(key, now) => PollKeeps(p, s, key, now);
    case RecordBatch(now) => RecordKeeps(p, s, now);
    case RemoveNext => RemoveNextKeeps(p, s);
  }

  lemma InitInv(p: Setup, s: State)
    requires Init(p, s)
    ensures Inv(p, s)
  {
    if Limited(p) {
      R.InitLimit(p.limit, s.lim);
    }
  }

  lemma {:induction false} RunKeepsInv(p: Setup, s: State, es: seq<Event>)
    requires Inv(p, s) && Run(p, s, es)
    ensures Inv(p, Final(p, s, es))
    decreases es
  {
    hide Inv;
    if es != [] {
      StepKeepsInv(p, s, es[0]);
      RunKeepsInv(p, Next(p, s, es[0]), es[1..]);
    }
  }

  lemma {:induction false} SameWorkers(p: Setup, s: State, es: seq<Event>)
    requires Run(p, s, es)
    ensures |Final(p, s, es).workers| == |s.workers|
    decreases es
  {
    if es != [] {
      hide Next, Enabled;
      SameWorkers(p, Next(p, s, es[0]), es[1..]);
    }
  }
}
