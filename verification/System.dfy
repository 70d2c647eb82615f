/**
 * The whole pump as a step system: clients queue messages, workers pull and push them, the squasher
 * sends batches. One event is one critical section (with the local steps up to the next one).
 */
module System {
  import L = Limiter
  import Q = SlotQueue

  type Id = Q.Id

  /** The limiter's settings, and the service's conversion of a queued body, which may fail. */
  datatype Setup = Setup(limit: L.Config, convert: Q.Body -> Q.Option<L.ServiceMessage>)

  /** Where a worker goroutine is. Blocked is inside the queue's condition wait; Woken has been signalled but has not run. */
  datatype Worker = Idle | Blocked | Woken | Holding(id: Id) | Pushing(id: Id) | BackingOff | Exited | Gone

  /** Where the squasher goroutine is. Asleep and Awake are its Blocked and Woken; Polling includes naps. */
  datatype Squasher = Absent | Polling | Asleep | Awake | Popped | Removing(left: seq<Id>) | Stopped

  datatype Place = Waiting | WithWorker(w: nat) | InBatch(key: L.Key) | WithSquasher | Removed

  /**
   * signals counts calls of Signal not yet executed, because they follow the unlock. crashed is set
   * where the source would panic or send a batch that does not exist. owner is a history variable:
   * where each message is; it guides no step.
   */
  datatype State = State(
    q: Q.QueueState,
    signals: nat,
    cancelled: bool,
    workers: seq<Worker>,
    lim: L.Limit<Id>,
    stopRequested: bool,
    sq: Squasher,
    crashed: bool,
    owner: seq<Place>)

  datatype Event =
    | Enqueue(body: Q.Body)
    | Deliver(to: Q.Option<nat>)
    | Shutdown
    | Cancel
    | Get(w: nat)
    | Reject(w: nat)
    | PrepareToPush(w: nat, readings: seq<int>, now: int)
    | PushUnlimited(w: nat)
    | Answer(w: nat, status: L.PushStatus)
    | Resume(w: nat)
    | RequestStop(w: nat)
    | Poll(key: L.Key, now: int)
    | RecordBatch(now: int)
    | RemoveNext

  ghost predicate Init(p: Setup, s: State) {
    && s.q == Q.EMPTY && s.signals == 0 && !s.cancelled
    && (forall w | 0 <= w < |s.workers| :: s.workers[w] == Idle)
    && L.Init(s.lim)
    && !s.stopRequested && s.sq == (if p.limit.rateMax > 0 then Polling else Absent)
    && !s.crashed && s.owner == []
  }

  predicate Limited(p: Setup) {
    p.limit.rateMax > 0
  }

  predicate Is(s: State, w: nat, pc: Worker) {
    w < |s.workers| && s.workers[w] == pc
  }

  predicate Holds(s: State, w: nat, h: Id) {
    w < |s.workers| && (s.workers[w] == Holding(h) || s.workers[w] == Pushing(h))
  }

  /** The converted message, for a handle to a message that was queued. */
  function Converted(p: Setup, s: State, h: Id): Q.Option<L.ServiceMessage>
    requires h < |s.q.records|
  {
    p.convert(s.q.records[h].body)
  }

  predicate IsHolding(s: State, w: nat) {
    w < |s.workers| && s.workers[w].Holding? && s.workers[w].id < |s.q.records|
  }

  predicate IsPushing(s: State, w: nat) {
    w < |s.workers| && s.workers[w].Pushing? && s.workers[w].id < |s.q.records|
  }

  function Arrival(p: Setup, s: State, w: nat, readings: seq<int>, now: int): L.Event<Id>
    requires IsHolding(s, w) && Converted(p, s, s.workers[w].id).Some?
  {
    L.Arrive(s.workers[w].id, Converted(p, s, s.workers[w].id).value, w, readings, now)
  }

  ghost predicate Enabled(p: Setup, s: State, e: Event) {
    match e
    case Enqueue(_) => true
    case Deliver(to) =>
      s.signals > 0 && (if to.Some? then Is(s, to.value, Blocked) else forall w | 0 <= w < |s.workers| :: !s.workers[w].Blocked?)
    case Shutdown => true
    // The server cancels the workers' context only after shutting the queue down.
    case Cancel => s.q.shuttingDown
    case Get(w) => Is(s, w, Idle) || Is(s, w, Woken)
    case Reject(w) => IsHolding(s, w) && Converted(p, s, s.workers[w].id).None?
    case PrepareToPush(w, readings, now) =>
      Limited(p) && IsHolding(s, w) && Converted(p, s, s.workers[w].id).Some?
      && L.Enabled(p.limit, s.lim, Arrival(p, s, w, readings, now))
    case PushUnlimited(w) => !Limited(p) && IsHolding(s, w) && Converted(p, s, s.workers[w].id).Some?
    case Answer(w, _) => IsPushing(s, w)
    case Resume(w) => Is(s, w, BackingOff)
    case RequestStop(w) => Is(s, w, Exited)
    case Poll(key, now) =>
      (s.sq.Polling? || s.sq.Awake?) && s.lim.clock <= now && s.lim.popped == []
      && (s.lim.core.batches != map[] ==> L.IsMinDue(s.lim.core, key))
    case RecordBatch(now) => s.sq.Popped? && L.Enabled(p.limit, s.lim, L.Record(now))
    case RemoveNext => s.sq.Removing?
  }

  function SetWorker(s: State, w: nat, pc: Worker): (t': State)
    requires w < |s.workers|
    ensures |t'.workers| == |s.workers|
  {
    s.(workers := s.workers[w := pc])
  }

  /** Blindly clears the slot the message's record names. */
  function RemoveFromQueue(s: State, h: Id): (t': State)
    requires h < |s.q.records|
    ensures |t'.workers| == |s.workers|
  {
    if s.q.records[h].idx < |s.q.buf|
    then s.(q := Q.Remove(s.q, h), owner := if h < |s.owner| then s.owner[h := Removed] else s.owner)
    else s.(crashed := true)
  }

  function AfterEnqueue(s: State, body: Q.Body): (t': State)
    ensures |t'.workers| == |s.workers|
  {
    s.(q := Q.Enqueue(s.q, body), signals := s.signals + 1, owner := s.owner + [Waiting])
  }

  function AfterDeliver(s: State, to: Q.Option<nat>): (t': State)
    requires s.signals > 0 && (to.Some? ==> to.value < |s.workers|)
    ensures |t'.workers| == |s.workers|
  {
    var t := s.(signals := s.signals - 1);
    if to.Some? then SetWorker(t, to.value, Woken) else t
  }

  function AfterShutdown(s: State): (t': State)
    ensures |t'.workers| == |s.workers|
  {
    s.(q := s.q.(shuttingDown := true),
       workers := seq(|s.workers|, w requires 0 <= w < |s.workers| => if s.workers[w].Blocked? then Woken else s.workers[w]))
  }

  function AfterGet(s: State, w: nat): (t': State)
    requires w < |s.workers|
    ensures |t'.workers| == |s.workers|
  {
    var i := Q.FirstReady(s.q, 0);
    if s.cancelled || s.q.shuttingDown then SetWorker(s, w, Exited)
    else if i == |s.q.buf| then SetWorker(s, w, Blocked)
    else
      var h := s.q.buf[i].value;
      SetWorker(s, w, Holding(h)).(
        q := Q.SetPending(s.q, h, true),
        owner := if h < |s.owner| then s.owner[h := WithWorker(w)] else s.owner)
  }

  function AfterReject(s: State, w: nat): (t': State)
    requires IsHolding(s, w)
    ensures |t'.workers| == |s.workers|
  {
    RemoveFromQueue(SetWorker(s, w, Idle), s.workers[w].id)
  }

  ghost function AfterPrepare(p: Setup, s: State, w: nat, readings: seq<int>, now: int): (t': State)
    requires Enabled(p, s, PrepareToPush(w, readings, now))
    ensures |t'.workers| == |s.workers|
  {
    var e := Arrival(p, s, w, readings, now);
    var t := s.(lim := L.Next(p.limit, s.lim, e));
    match L.OutcomeOf(p.limit, s.lim, e)
    case Panicked => t.(crashed := true)
    case Direct => SetWorker(t, w, Pushing(e.qm))
    case Squashed =>
      SetWorker(t, w, Idle).(
        sq := if s.sq.Asleep? then Awake else s.sq,
        owner := if e.qm < |s.owner| then s.owner[e.qm := InBatch(e.smsg.squashKey)] else s.owner)
  }

  function AfterAnswer(s: State, w: nat, status: L.PushStatus): (t': State)
    requires IsPushing(s, w)
    ensures |t'.workers| == |s.workers|
  {
    var h := s.workers[w].id;
    if status.TempFail? then
      SetWorker(s, w, BackingOff).(
        q := Q.SetPending(s.q, h, false),
        signals := s.signals + 1,
        owner := if h < |s.owner| then s.owner[h := Waiting] else s.owner)
    else
      RemoveFromQueue(SetWorker(s, w, Idle), h)
  }

  function AfterRequestStop(p: Setup, s: State, w: nat): (t': State)
    requires w < |s.workers|
    ensures |t'.workers| == |s.workers|
  {
    var t := SetWorker(s, w, Gone);
    if Limited(p) then t.(stopRequested := true, sq := if s.sq.Asleep? then Awake else s.sq) else t
  }

  function Reassign(owner: seq<Place>, hs: seq<Id>, place: Place): (r: seq<Place>)
    ensures |r| == |owner|
  {
    seq(|owner|, h requires 0 <= h < |owner| => if h in hs then place else owner[h])
  }

  ghost function AfterPoll(p: Setup, s: State, key: L.Key, now: int): (t': State)
    requires Enabled(p, s, Poll(key, now))
    ensures |t'.workers| == |s.workers|
  {
    if s.sq.Polling? && s.lim.core.batches == map[] then s.(sq := Asleep)
    else if s.stopRequested then s.(sq := Stopped)
    // The zero batch is "due" at once and would be sent.
    else if s.lim.core.batches == map[] then s.(crashed := true)
    else if s.lim.core.batches[key].due < now then
      s.(sq := Popped,
         lim := L.Next(p.limit, s.lim, L.Pop(key, now)),
         owner := Reassign(s.owner, s.lim.core.batches[key].queuedMsgs, WithSquasher))
    // Not due: nap and poll again.
    else s.(sq := Polling)
  }

  ghost function AfterRecord(p: Setup, s: State, now: int): (t': State)
    requires Enabled(p, s, RecordBatch(now))
    ensures |t'.workers| == |s.workers|
  {
    s.(lim := L.Next(p.limit, s.lim, L.Record(now)), sq := Removing(s.lim.popped[0].queuedMsgs))
  }

  function AfterRemoveNext(s: State): (t': State)
    requires s.sq.Removing?
    ensures |t'.workers| == |s.workers|
  {
    if s.sq.left == [] then s.(sq := Polling)
    else
      var t := s.(sq := Removing(s.sq.left[1..]));
      if s.sq.left[0] < |s.q.records| then RemoveFromQueue(t, s.sq.left[0]) else t.(crashed := true)
  }

  ghost function Next(p: Setup, s: State, e: Event): (t': State)
    requires Enabled(p, s, e)
    ensures |t'.workers| == |s.workers|
  {
    match e
    case Enqueue(body) => AfterEnqueue(s, body)
    case Deliver(to) => AfterDeliver(s, to)
    case Shutdown => AfterShutdown(s)
    case Cancel => s.(cancelled := true)
    case Get(w) => AfterGet(s, w)
    case Reject(w) => AfterReject(s, w)
    case PrepareToPush(w, readings, now) => AfterPrepare(p, s, w, readings, now)
    case PushUnlimited(w) => SetWorker(s, w, Pushing(s.workers[w].id))
    case Answer(w, status) => AfterAnswer(s, w, status)
    case Resume(w) => SetWorker(s, w, Idle)
    case RequestStop(w) => AfterRequestStop(p, s, w)
    case Poll(key, now) => AfterPoll(p, s, key, now)
    case RecordBatch(now) => AfterRecord(p, s, now)
    case RemoveNext => AfterRemoveNext(s)
  }

  ghost predicate Run(p: Setup, s: State, es: seq<Event>)
    decreases es
  {
    es == [] || (Enabled(p, s, es[0]) && Run(p, Next(p, s, es[0]), es[1..]))
  }

  ghost function Final(p: Setup, s: State, es: seq<Event>): State
    requires Run(p, s, es)
    decreases es
  {
    if es == [] then s else Final(p, Next(p, s, es[0]), es[1..])
  }
}
