/** The one queue both implementations are: bodies waiting and bodies held, whatever their order. */
module AbstractQueue {
  import Q = SlotQueue
  import opened RedisList
  import R = RedisLog
  import C = RedisQueues

  type Body = string

  datatype Abstract = Abstract(waiting: multiset<Body>, held: multiset<Body>)

  datatype Op = Add(body: Body) | Take(body: Body) | Put(body: Body) | Drop(body: Body) | Close

  predicate Possible(a: Abstract, op: Op) {
    match op
    case Add(_) => true
    case Take(b) => b in a.waiting
    case Put(b) => b in a.held
    case Drop(b) => b in a.held
    case Close => true
  }

  function Apply(a: Abstract, op: Op): Abstract
    requires Possible(a, op)
  {
    match op
    case Add(b) => a.(waiting := a.waiting + multiset{b})
    case Take(b) => Abstract(a.waiting - multiset{b}, a.held + multiset{b})
    case Put(b) => Abstract(a.waiting + multiset{b}, a.held - multiset{b})
    case Drop(b) => a.(held := a.held - multiset{b})
    case Close => a
  }

  // ---------- the in-memory queue ----------

  /** What slot i contributes to the waiting or to the held bodies. */
  function InSlot(q: Q.QueueState, i: nat, pending: bool): multiset<Body>
    requires i < |q.buf|
  {
    if q.buf[i].Some? && q.buf[i].value < |q.records| && q.records[q.buf[i].value].pending == pending
    then multiset{q.records[q.buf[i].value].body} else multiset{}
  }

  function Slots(q: Q.QueueState, pending: bool): (r: seq<multiset<Body>>)
    ensures |r| == |q.buf|
  {
    seq(|q.buf|, i requires 0 <= i < |q.buf| => InSlot(q, i, pending))
  }

  function Sum(ms: seq<multiset<Body>>): multiset<Body> {
    if ms == [] then multiset{} else Sum(ms[..|ms| - 1]) + ms[|ms| - 1]
  }

  function OfMemory(q: Q.QueueState): Abstract {
    Abstract(Sum(Slots(q, false)), Sum(Slots(q, true)))
  }

  lemma Exchange(a: multiset<Body>, rest: multiset<Body>, x: multiset<Body>, y: multiset<Body>)
    requires x <= a
    ensures (a - x + y) + rest == (a + rest) - x + y && x <= a + rest
  {}

  /** Changing one slot changes the sum by that slot's contribution. */
  lemma {:induction false} SumUpdate(ms: seq<multiset<Body>>, i: nat, m: multiset<Body>)
    requires i < |ms|
    ensures ms[i] <= Sum(ms)
    ensures Sum(ms[i := m]) == Sum(ms) - ms[i] + m
  {
    var n := |ms| - 1;
    if i == n {
      assert ms[i := m][..n] == ms[..n];
    } else {
      assert ms[i := m][..n] == ms[..n][i := m];
      SumUpdate(ms[..n], i, m);
      Exchange(Sum(ms[..n]), ms[n], ms[i], m);
    }
  }

  lemma SumAppend(ms: seq<multiset<Body>>, m: multiset<Body>)
    ensures Sum(ms + [m]) == Sum(ms) + m
  {
    assert (ms + [m])[..|ms|] == ms;
  }

  lemma SlotsDiffer(q: Q.QueueState, q': Q.QueueState, i: nat, pending: bool)
    requires i < |q.buf| == |q'.buf|
    requires forall j | 0 <= j < |q.buf| && j != i :: InSlot(q', j, pending) == InSlot(q, j, pending)
    ensures Slots(q', pending) == Slots(q, pending)[i := InSlot(q', i, pending)]
  {}

  /** In two states that differ in one slot, which contributed nothing, the new one has y more. */
  lemma SlotGains(q: Q.QueueState, q': Q.QueueState, i: nat, pending: bool, y: multiset<Body>)
    requires i < |q.buf| == |q'.buf|
    requires forall j | 0 <= j < |q.buf| && j != i :: InSlot(q', j, pending) == InSlot(q, j, pending)
    requires InSlot(q, i, pending) == multiset{} && InSlot(q', i, pending) == y
    ensures Sum(Slots(q', pending)) == Sum(Slots(q, pending)) + y
  {
    SlotsDiffer(q, q', i, pending);
    hide InSlot, Sum;
    SumUpdate(Slots(q, pending), i, y);
    assert Sum(Slots(q, pending)) - multiset{} == Sum(Slots(q, pending));
  }

  /** In two states that differ in one slot, which ends up contributing nothing, the new one has x less. */
  lemma SlotLoses(q: Q.QueueState, q': Q.QueueState, i: nat, pending: bool, x: multiset<Body>)
    requires i < |q.buf| == |q'.buf|
    requires forall j | 0 <= j < |q.buf| && j != i :: InSlot(q', j, pending) == InSlot(q, j, pending)
    requires InSlot(q, i, pending) == x && InSlot(q', i, pending) == multiset{}
    ensures x <= Sum(Slots(q, pending)) && Sum(Slots(q', pending)) == Sum(Slots(q, pending)) - x
  {
    SlotsDiffer(q, q', i, pending);
    hide InSlot, Sum;
    SumUpdate(Slots(q, pending), i, multiset{});
    assert Sum(Slots(q, pending)) - x + multiset{} == Sum(Slots(q, pending)) - x;
  }

  function BodyOf(q: Q.QueueState, h: Q.Id): Body
    requires h < |q.records|
  {
    q.records[h].body
  }

  /** The abstract operation a concrete one performs. */
  function OpOf(q: Q.QueueState, op: Q.Op): Op
    requires Q.Possible(q, op)
  {
    match op
    case Add(body) => Add(body)
    case Take(slot) => Take(BodyOf(q, q.buf[slot].value))
    case Put(h) => Put(BodyOf(q, h))
    case Drop(h) => Drop(BodyOf(q, h))
    case Close => Close
  }

  lemma AddSlots(q: Q.QueueState, body: Body)
    requires Q.WellFormed(q)
    ensures var q', i := Q.Enqueue(q, body), Q.FirstFree(q.buf, 0);
            && (forall j, pending | 0 <= j < |q.buf| && j != i :: InSlot(q', j, pending) == InSlot(q, j, pending))
            && i < |q'.buf| && InSlot(q', i, false) == multiset{body} && InSlot(q', i, true) == multiset{}
            && if i < |q.buf| then |q'.buf| == |q.buf| && InSlot(q, i, false) == multiset{} && InSlot(q, i, true) == multiset{}
               else |q'.buf| == |q.buf| + 1
  {
    var q', i := Q.Enqueue(q, body), Q.FirstFree(q.buf, 0);
    forall j, pending | 0 <= j < |q.buf| && j != i ensures InSlot(q', j, pending) == InSlot(q, j, pending) {
      assert q'.buf[j] == q.buf[j];
    }
  }

  lemma AddSums(q: Q.QueueState, body: Body)
    requires Q.WellFormed(q)
    ensures var q' := Q.Enqueue(q, body);
            && Sum(Slots(q', false)) == Sum(Slots(q, false)) + multiset{body}
            && Sum(Slots(q', true)) == Sum(Slots(q, true)) + multiset{}
  {
    AddSlots(q, body);
    var q', i := Q.Enqueue(q, body), Q.FirstFree(q.buf, 0);
    hide InSlot, Sum, Q.Enqueue, Q.FirstFree, Q.WellFormed;
    if i < |q.buf| {
      SlotGains(q, q', i, false, multiset{body});
      SlotGains(q, q', i, true, multiset{});
    } else {
      assert Slots(q', false) == Slots(q, false) + [multiset{body}];
      assert Slots(q', true) == Slots(q, true) + [multiset{}];
      SumAppend(Slots(q, false), multiset{body});
      SumAppend(Slots(q, true), multiset{});
    }
  }

  lemma AddSimulates(q: Q.QueueState, body: Body)
    requires Q.WellFormed(q)
    ensures OfMemory(Q.Enqueue(q, body)) == Apply(OfMemory(q), Add(body))
  {
    AddSums(q, body);
    hide Sum, Slots, Q.Enqueue;
    assert Sum(Slots(q, true)) + multiset{} == Sum(Slots(q, true));
  }

  /** The slot an operation on one message is about. */
  function SlotOf(q: Q.QueueState, op: Q.Op): nat
    requires Q.Possible(q, op) && (op.Take? || op.Put? || op.Drop?)
  {
    if op.Take? then op.slot else q.records[op.id].idx
  }

  /** A message of body b is in slot i, pending or not as told, and in no other. */
  lemma OwnSlot(q: Q.QueueState, h: Q.Id, pending: bool)
    requires Q.WellFormed(q) && Q.InSlot(q, h) && q.records[h].pending == pending
    ensures InSlot(q, q.records[h].idx, pending) == multiset{BodyOf(q, h)}
    ensures InSlot(q, q.records[h].idx, !pending) == multiset{}
  {}

  lemma FlagChanges(q: Q.QueueState, h: Q.Id, pending: bool)
    requires Q.WellFormed(q) && Q.InSlot(q, h)
    ensures var q', i := Q.SetPending(q, h, pending), q.records[h].idx;
            && (forall j, p | 0 <= j < |q.buf| && j != i :: InSlot(q', j, p) == InSlot(q, j, p))
            && InSlot(q', i, pending) == multiset{BodyOf(q, h)} && InSlot(q', i, !pending) == multiset{}
  {}

  lemma SlotCleared(q: Q.QueueState, h: Q.Id)
    requires Q.WellFormed(q) && Q.InSlot(q, h)
    ensures var q', i := Q.Remove(q, h), q.records[h].idx;
            && (forall j, p | 0 <= j < |q.buf| && j != i :: InSlot(q', j, p) == InSlot(q, j, p))
            && (forall p :: InSlot(q', i, p) == multiset{})
  {}

  lemma SlotOpChanges(q: Q.QueueState, op: Q.Op)
    requires Q.WellFormed(q) && Q.Possible(q, op) && (op.Take? || op.Put? || op.Drop?)
    ensures var q', i := Q.Apply(q, op), SlotOf(q, op);
            && i < |q.buf| == |q'.buf|
            && (forall j, pending | 0 <= j < |q.buf| && j != i :: InSlot(q', j, pending) == InSlot(q, j, pending))
            && InSlot(q, i, op.Take?) == multiset{} && InSlot(q, i, !op.Take?) == multiset{OpOf(q, op).body}
            && InSlot(q', i, op.Take?) == (if op.Drop? then multiset{} else multiset{OpOf(q, op).body})
            && InSlot(q', i, !op.Take?) == multiset{}
  {
    hide InSlot;
    var h := if op.Take? then q.buf[op.slot].value else op.id;
    OwnSlot(q, h, !op.Take?);
    if op.Drop? {
      SlotCleared(q, h);
    } else {
      FlagChanges(q, h, op.Take?);
    }
  }

  /** The sums after an operation on one message with body b. */
  lemma SumsAfter(q: Q.QueueState, op: Q.Op)
    requires Q.WellFormed(q) && Q.Possible(q, op) && (op.Take? || op.Put? || op.Drop?)
    ensures var b, a, a' := multiset{OpOf(q, op).body}, OfMemory(q), OfMemory(Q.Apply(q, op));
            if op.Take? then b <= a.waiting && a'.waiting == a.waiting - b && a'.held == a.held + b
            else b <= a.held && a'.held == a.held - b && a'.waiting == if op.Put? then a.waiting + b else a.waiting
  {
    SlotOpChanges(q, op);
    var q', i, b := Q.Apply(q, op), SlotOf(q, op), multiset{OpOf(q, op).body};
    hide InSlot, Slots, Sum, Q.Apply, Q.Possible, Q.WellFormed, SlotOf, OpOf;
    SlotLoses(q, q', i, !op.Take?, b);
    SlotGains(q, q', i, op.Take?, if op.Drop? then multiset{} else b);
    if op.Drop? {
      assert Sum(Slots(q, false)) + multiset{} == Sum(Slots(q, false));
    }
  }

  lemma SlotOpSimulates(q: Q.QueueState, op: Q.Op)
    requires Q.WellFormed(q) && Q.Possible(q, op) && (op.Take? || op.Put? || op.Drop?)
    ensures Possible(OfMemory(q), OpOf(q, op))
    ensures OfMemory(Q.Apply(q, op)) == Apply(OfMemory(q), OpOf(q, op))
  {
    SumsAfter(q, op);
    hide OfMemory, Q.Apply, Q.WellFormed;
    assert OpOf(q, op).body in multiset{OpOf(q, op).body};
  }

  /** Every operation of the in-memory queue is an operation of the abstract queue. */
  lemma MemorySimulates(q: Q.QueueState, op: Q.Op)
    requires Q.WellFormed(q) && Q.Possible(q, op)
    ensures Possible(OfMemory(q), OpOf(q, op))
    ensures OfMemory(Q.Apply(q, op)) == Apply(OfMemory(q), OpOf(q, op))
  {
    match op
    case Add(body) => AddSimulates(q, body);
    case Close =>
      assert Slots(Q.Apply(q, op), false) == Slots(q, false) && Slots(Q.Apply(q, op), true) == Slots(q, true);
    case _ => SlotOpSimulates(q, op);
  }

  // ---------- the Redis queue ----------

  predicate Runs(a: Abstract, ops: seq<Op>)
    decreases ops
  {
    ops == [] || (Possible(a, ops[0]) && Runs(Apply(a, ops[0]), ops[1..]))
  }

  function After(a: Abstract, ops: seq<Op>): Abstract
    requires Runs(a, ops)
    decreases ops
  {
    if ops == [] then a else After(Apply(a, ops[0]), ops[1..])
  }

  lemma {:induction false} RunsConcat(a: Abstract, xs: seq<Op>, ys: seq<Op>)
    requires Runs(a, xs) && Runs(After(a, xs), ys)
    ensures Runs(a, xs + ys) && After(a, xs + ys) == After(After(a, xs), ys)
    decreases xs
  {
    hide Possible, Apply;
    if xs == [] {
      assert xs + ys == ys;
    } else {
      assert (xs + ys)[0] == xs[0] && (xs + ys)[1..] == xs[1..] + ys;
      RunsConcat(Apply(a, xs[0]), xs[1..], ys);
    }
  }

  lemma OneOp(a: Abstract, op: Op)
    requires Possible(a, op)
    ensures Runs(a, [op]) && After(a, [op]) == Apply(a, op)
  {
    hide Possible, Apply;
    assert [op][1..] == [];
    assert Runs(Apply(a, op), []) && After(Apply(a, op), []) == Apply(a, op);
  }

  function OfRedis(r: R.Redis): Abstract {
    Abstract(multiset(r.list), r.held)
  }

  /** The abstract operation, if any, that a step of the list performs; a requeue by one who does not hold the body adds it. */
  function StepOps(r: R.Redis, op: R.Op): (ops: seq<Op>)
    ensures |ops| <= 1
  {
    match op
    case Add(b) => [Add(b)]
    case Take => if r.list == [] then [] else [Take(r.list[|r.list| - 1])]
    case Put(b) => if b in r.held then [Put(b)] else [Add(b)]
    case Drop(b) => if b in r.held then [Drop(b)] else []
  }

  function RunOps(r: R.Redis, ops: seq<R.Op>): seq<Op> {
    if ops == [] then []
    else RunOps(r, ops[..|ops| - 1]) + StepOps(R.Run(r, ops[..|ops| - 1]), ops[|ops| - 1])
  }

  lemma LastOne(l: seq<Body>)
    requires l != []
    ensures multiset(l[..|l| - 1]) == multiset(l) - multiset{l[|l| - 1]} && l[|l| - 1] in multiset(l)
  {
    assert l == l[..|l| - 1] + [l[|l| - 1]];
  }

  lemma TakeIsOp(r: R.Redis)
    ensures var a, b, ops := OfRedis(r), OfRedis(R.Step(r, R.Take)), StepOps(r, R.Take);
            if ops == [] then b == a else Possible(a, ops[0]) && Apply(a, ops[0]) == b
  {
    if r.list != [] {
      LastOne(r.list);
    }
  }

  lemma PushOne(l: seq<Body>, x: Body)
    ensures multiset(LPush(l, x)) == multiset(l) + multiset{x}
  {}

  lemma StepIsOp(r: R.Redis, op: R.Op)
    ensures var a, b, ops := OfRedis(r), OfRedis(R.Step(r, op)), StepOps(r, op);
            if ops == [] then b == a else Possible(a, ops[0]) && Apply(a, ops[0]) == b
  {
    if op.Take? {
      TakeIsOp(r);
    } else {
      if !op.Drop? {
        PushOne(r.list, op.body);
      }
      hide LPush;
    }
  }

  lemma StepSimulates(r: R.Redis, op: R.Op)
    ensures Runs(OfRedis(r), StepOps(r, op))
    ensures After(OfRedis(r), StepOps(r, op)) == OfRedis(R.Step(r, op))
  {
    var ops := StepOps(r, op);
    StepIsOp(r, op);
    hide StepOps, OfRedis, Possible, Apply, R.Step;
    if ops != [] {
      OneOp(OfRedis(r), ops[0]);
      assert ops == [ops[0]];
    }
  }

  lemma {:induction false} RunSimulates(r: R.Redis, ops: seq<R.Op>)
    ensures Runs(OfRedis(r), RunOps(r, ops))
    ensures After(OfRedis(r), RunOps(r, ops)) == OfRedis(R.Run(r, ops))
  {
    if ops != [] {
      var front := ops[..|ops| - 1];
      RunSimulates(r, front);
      hide StepOps, OfRedis, Possible, Apply;
      StepSimulates(R.Run(r, front), ops[|ops| - 1]);
      RunsConcat(OfRedis(r), RunOps(r, front), StepOps(R.Run(r, front), ops[|ops| - 1]));
    }
  }

  /** The abstract operations a call of the Redis queue stands for: its own, after what others do during a Get. */
  function CallOps(r: R.Redis, call: C.Call): seq<Op> {
    match call
    case QueueCall(b) => [Add(b)]
    case GetCall(passes, got) => RunOps(r, C.Others(passes)) + if got.Message? then [Take(got.body)] else []
    case RequeueCall(b) => if b in r.held then [Put(b)] else [Add(b)]
    case RemoveCall(b) => if b in r.held then [Drop(b)] else []
  }

  lemma GetSimulates(r: R.Redis, passes: seq<C.Attempt>, got: C.Got)
    requires C.Reads(r, passes, got)
    ensures var call := C.GetCall(passes, got);
            Runs(OfRedis(r), CallOps(r, call)) && After(OfRedis(r), CallOps(r, call)) == OfRedis(C.AfterCall(r, call))
  {
    var ops, seen := RunOps(r, C.Others(passes)), C.Seen(r, passes);
    RunSimulates(r, C.Others(passes));
    C.GetIsCall(r, passes, got);
    if got.Message? {
      assert StepOps(seen, R.Take) == [Take(got.body)];
      hide C.Reads, C.AfterCall, StepOps, RunOps, OfRedis, Runs, After;
      StepSimulates(seen, R.Take);
      RunsConcat(OfRedis(r), ops, [Take(got.body)]);
    } else {
      assert ops + [] == ops;
    }
  }

  lemma CallIsOp(r: R.Redis, call: C.Call)
    requires !call.GetCall?
    ensures var op := C.OpsOf(call)[0];
            C.AfterCall(r, call) == R.Step(r, op) && CallOps(r, call) == StepOps(r, op)
  {
    hide C.AfterCall, R.Step;
    C.OneOpCall(r, call);
  }

  /**
   * Every call of the Redis queue object, and so every pass of its retry loop, is a run of the same
   * abstract queue: a Get does what others did meanwhile, and then takes the body it returns.
   */
  lemma RedisSimulates(r: R.Redis, call: C.Call)
    requires C.Happens(r, call)
    ensures Runs(OfRedis(r), CallOps(r, call))
    ensures After(OfRedis(r), CallOps(r, call)) == OfRedis(C.AfterCall(r, call))
  {
    if call.GetCall? {
      GetSimulates(r, call.passes, call.got);
    } else {
      var op := C.OpsOf(call)[0];
      CallIsOp(r, call);
      hide C.AfterCall, CallOps, StepOps, OfRedis, Runs, After, C.Happens, C.OpsOf, R.Step;
      StepSimulates(r, op);
    }
  }
}
