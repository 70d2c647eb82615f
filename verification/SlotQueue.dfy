/** The in-memory queue on values: slots that are reused, and message records reached through them. */
module SlotQueue {

  type Body = string

  /** A message is named by the order in which it was queued; names are never reused, slots are. */
  type Id = nat

  datatype Option<T> = None | Some(value: T)

  datatype Record = Record(body: Body, pending: bool, idx: nat)

  /** buf holds the slots, records every message ever queued, whether or not a slot still holds it. */
  datatype QueueState = QueueState(buf: seq<Option<Id>>, records: seq<Record>, shuttingDown: bool)

  const EMPTY := QueueState([], [], false)

  /** Every slot holds a message that points back at it, so no message is in two slots. */
  ghost predicate WellFormed(q: QueueState) {
    && (forall i | 0 <= i < |q.buf| && q.buf[i].Some? ::
          q.buf[i].value < |q.records| && q.records[q.buf[i].value].idx == i)
    && (forall h | 0 <= h < |q.records| :: q.records[h].idx < |q.buf|)
  }

  predicate InSlot(q: QueueState, h: Id) {
    h < |q.records| && q.records[h].idx < |q.buf| && q.buf[q.records[h].idx] == Some(h)
  }

  predicate Ready(q: QueueState, i: nat) {
    i < |q.buf| && q.buf[i].Some? && q.buf[i].value < |q.records| && !q.records[q.buf[i].value].pending
  }

  /** The first free slot at or after i, or the end. */
  function FirstFree(buf: seq<Option<Id>>, i: nat): (r: nat)
    requires i <= |buf|
    ensures i <= r <= |buf| && (r < |buf| ==> buf[r].None?)
    ensures forall j | i <= j < r :: buf[j].Some?
    decreases |buf| - i
  {
    if i == |buf| || buf[i].None? then i else FirstFree(buf, i + 1)
  }

  /** The first slot at or after i whose message is not pending, or the end. */
  function FirstReady(q: QueueState, i: nat): (r: nat)
    requires i <= |q.buf|
    ensures i <= r <= |q.buf| && (r < |q.buf| ==> Ready(q, r))
    ensures forall j | i <= j < r :: !Ready(q, j)
    decreases |q.buf| - i
  {
    if i == |q.buf| || Ready(q, i) then i else FirstReady(q, i + 1)
  }

  function Enqueue(q: QueueState, body: Body): QueueState {
    var i := FirstFree(q.buf, 0);
    var h := |q.records|;
    q.(buf := if i < |q.buf| then q.buf[i := Some(h)] else q.buf + [Some(h)],
       records := q.records + [Record(body, false, i)])
  }

  function SetPending(q: QueueState, h: Id, pending: bool): QueueState
    requires h < |q.records|
  {
    q.(records := q.records[h := q.records[h].(pending := pending)])
  }

  function Remove(q: QueueState, h: Id): QueueState
    requires h < |q.records| && q.records[h].idx < |q.buf|
  {
    q.(buf := q.buf[q.records[h].idx := None])
  }

  lemma EnqueueKeepsWellFormed(q: QueueState, body: Body)
    requires WellFormed(q)
    ensures WellFormed(Enqueue(q, body)) && InSlot(Enqueue(q, body), |q.records|)
    ensures forall h | 0 <= h < |q.records| :: InSlot(Enqueue(q, body), h) <==> InSlot(q, h)
  {
    forall h | 0 <= h < |q.records| ensures InSlot(Enqueue(q, body), h) <==> InSlot(q, h) {
      assert Enqueue(q, body).records[h] == q.records[h];
    }
  }

  lemma RemoveKeepsWellFormed(q: QueueState, h: Id)
    requires WellFormed(q) && InSlot(q, h)
    ensures WellFormed(Remove(q, h)) && !InSlot(Remove(q, h), h)
    ensures forall g | 0 <= g < |q.records| && g != h :: InSlot(Remove(q, h), g) <==> InSlot(q, g)
  {}

  // ---------- slot economy ----------

  function Live(buf: seq<Option<Id>>): nat {
    if buf == [] then 0 else Live(buf[..|buf| - 1]) + if buf[|buf| - 1].Some? then 1 else 0
  }

  lemma {:induction false} LiveAtMostAll(buf: seq<Option<Id>>)
    ensures Live(buf) <= |buf|
    ensures Live(buf) == |buf| <==> forall i | 0 <= i < |buf| :: buf[i].Some?
  {
    if buf != [] {
      LiveAtMostAll(buf[..|buf| - 1]);
      assert forall i | 0 <= i < |buf| - 1 :: buf[..|buf| - 1][i] == buf[i];
    }
  }

  lemma {:induction false} LiveUpdate(buf: seq<Option<Id>>, i: nat, s: Option<Id>)
    requires i < |buf|
    ensures Live(buf[i := s]) == Live(buf) - (if buf[i].Some? then 1 else 0) + if s.Some? then 1 else 0
  {
    var n := |buf| - 1;
    if i < n {
      LiveUpdate(buf[..n], i, s);
      assert buf[i := s][..n] == buf[..n][i := s];
    } else {
      assert buf[i := s][..n] == buf[..n];
    }
  }

  datatype Op = Add(body: Body) | Take(slot: nat) | Put(id: Id) | Drop(id: Id) | Close

  predicate Possible(q: QueueState, op: Op) {
    match op
    case Add(_) => true
    case Take(slot) => slot == FirstReady(q, 0) < |q.buf|
    case Put(h) => InSlot(q, h) && q.records[h].pending
    case Drop(h) => InSlot(q, h) && q.records[h].pending
    case Close => true
  }

  function Apply(q: QueueState, op: Op): QueueState
    requires Possible(q, op)
  {
    match op
    case Add(body) => Enqueue(q, body)
    case Take(slot) => SetPending(q, q.buf[slot].value, true)
    case Put(h) => SetPending(q, h, false)
    case Drop(h) => Remove(q, h)
    case Close => q.(shuttingDown := true)
  }

  predicate Runs(q: QueueState, ops: seq<Op>)
    decreases ops
  {
    ops == [] || (Possible(q, ops[0]) && Runs(Apply(q, ops[0]), ops[1..]))
  }

  function After(q: QueueState, ops: seq<Op>): QueueState
    requires Runs(q, ops)
    decreases ops
  {
    if ops == [] then q else After(Apply(q, ops[0]), ops[1..])
  }

  /** The most messages ever live at once along a run. */
  function Peak(q: QueueState, ops: seq<Op>): nat
    requires Runs(q, ops)
    decreases ops
  {
    if ops == [] then Live(q.buf)
    else
      var rest := Peak(Apply(q, ops[0]), ops[1..]);
      if rest < Live(q.buf) then Live(q.buf) else rest
  }

  /** A step grows the slots only when all are taken, and then by the one it needs. */
  lemma ApplyGrowth(q: QueueState, op: Op)
    requires Possible(q, op)
    ensures var q' := Apply(q, op);
            && |q.buf| <= |q'.buf|
            && (|q.buf| < |q'.buf| ==> Live(q'.buf) == |q'.buf|)
  {
    if op.Add? && FirstFree(q.buf, 0) == |q.buf| {
      LiveAtMostAll(q.buf);
      var q' := Apply(q, op);
      assert q'.buf[..|q.buf|] == q.buf;
    }
  }

  lemma PeakAtLeastLive(q: QueueState, ops: seq<Op>)
    requires Runs(q, ops)
    ensures Live(q.buf) <= Peak(q, ops)
  {}

  lemma {:induction false} PeakIsSize(q: QueueState, ops: seq<Op>)
    requires Runs(q, ops)
    ensures |After(q, ops).buf| == if |q.buf| < Peak(q, ops) then Peak(q, ops) else |q.buf|
    decreases ops
  {
    LiveAtMostAll(q.buf);
    if ops != [] {
      var q' := Apply(q, ops[0]);
      ApplyGrowth(q, ops[0]);
      PeakAtLeastLive(q', ops[1..]);
      PeakIsSize(q', ops[1..]);
    }
  }

  /** From an empty queue, the number of slots is exactly the largest number of messages ever live at once. */
  lemma SlotEconomy(ops: seq<Op>)
    requires Runs(EMPTY, ops)
    ensures |After(EMPTY, ops).buf| == Peak(EMPTY, ops)
  {
    PeakIsSize(EMPTY, ops);
  }
}
