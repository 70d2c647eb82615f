/** What a Redis queue's list goes through, whoever does it, with logs of what arrived and what was delivered. */
module RedisLog {
  import opened RedisList

  type Body = string

  /** The list, what consumers hold, and two logs: bodies in order of arrival, requeued ones again, and bodies in order of delivery. */
  datatype Redis = Redis(list: seq<Body>, held: multiset<Body>, arrived: seq<Body>, delivered: seq<Body>)

  datatype Op = Add(body: Body) | Take | Put(body: Body) | Drop(body: Body)

  /** A queue found on the server: what it lists arrived before, oldest at the tail. */
  function Found(list: seq<Body>): Redis {
    Redis(list, multiset{}, Reverse(list), [])
  }

  /** Taking from an empty list takes nothing. */
  function Step(r: Redis, op: Op): Redis {
    match op
    case Add(b) => r.(list := LPush(r.list, b), arrived := r.arrived + [b])
    case Take =>
      if r.list == [] then r
      else
        var n := |r.list| - 1;
        r.(list := r.list[..n], held := r.held + multiset{r.list[n]}, delivered := r.delivered + [r.list[n]])
    case Put(b) => r.(list := LPush(r.list, b), held := r.held - multiset{b}, arrived := r.arrived + [b])
    case Drop(b) => r.(held := r.held - multiset{b})
  }

  function Run(r: Redis, ops: seq<Op>): Redis {
    if ops == [] then r else Step(Run(r, ops[..|ops| - 1]), ops[|ops| - 1])
  }

  lemma RunStep(r: Redis, ops: seq<Op>, op: Op)
    ensures Run(r, ops + [op]) == Step(Run(r, ops), op)
  {
    assert (ops + [op])[..|ops|] == ops;
  }

  lemma RunPrefix(r: Redis, ops: seq<Op>, i: nat)
    requires i < |ops|
    ensures Run(r, ops[..i + 1]) == Step(Run(r, ops[..i]), ops[i])
  {
    assert ops[..i + 1][..i] == ops[..i];
  }

  lemma RunAll(r: Redis, ops: seq<Op>)
    ensures Run(r, ops[..0]) == r && Run(r, ops[..|ops|]) == Run(r, ops)
  {
    assert ops[..|ops|] == ops;
  }

  lemma {:induction false} RunConcat(r: Redis, a: seq<Op>, b: seq<Op>)
    ensures Run(r, a + b) == Run(Run(r, a), b)
  {
    if b == [] {
      assert a + b == a;
    } else {
      var n := |b| - 1;
      assert a + b == a + b[..n] + [b[n]];
      RunStep(r, a + b[..n], b[n]);
      RunConcat(r, a, b[..n]);
    }
  }

  /** The bodies that some operations bring, in order, requeued ones among them. */
  function Come(ops: seq<Op>): seq<Body> {
    if ops == [] then []
    else
      var last := ops[|ops| - 1];
      Come(ops[..|ops| - 1]) + if last.Add? || last.Put? then [last.body] else []
  }

  /** The log of arrivals grows by exactly what comes in. */
  lemma {:induction false} ArrivedIsCome(r: Redis, ops: seq<Op>)
    ensures Run(r, ops).arrived == r.arrived + Come(ops)
  {
    if ops != [] {
      ArrivedIsCome(r, ops[..|ops| - 1]);
    }
  }

  lemma {:induction false} ComeConcat(a: seq<Op>, b: seq<Op>)
    ensures Come(a + b) == Come(a) + Come(b)
  {
    if b == [] {
      assert a + b == a;
    } else {
      assert (a + b)[..|a + b| - 1] == a + b[..|b| - 1];
      ComeConcat(a, b[..|b| - 1]);
    }
  }

  /** What has been delivered and then, oldest first, what is listed, is what arrived. */
  ghost predicate Fifo(r: Redis) {
    r.arrived == r.delivered + Reverse(r.list)
  }

  lemma LastIsOldest(l: seq<Body>)
    requires l != []
    ensures Reverse(l) == [l[|l| - 1]] + Reverse(l[..|l| - 1])
  {
    var n := |l| - 1;
    assert l == l[..n] + [l[n]];
    ReverseConcat(l[..n], [l[n]]);
    assert Reverse([l[n]]) == [l[n]];
  }

  lemma StepKeepsFifo(r: Redis, op: Op)
    requires Fifo(r)
    ensures Fifo(Step(r, op))
  {
    match op
    case Add(b) => assert r.delivered + (Reverse(r.list) + [b]) == r.delivered + Reverse(r.list) + [b];
    case Put(b) => assert r.delivered + (Reverse(r.list) + [b]) == r.delivered + Reverse(r.list) + [b];
    case Drop(_) =>
    case Take =>
      if r.list != [] {
        LastIsOldest(r.list);
      }
  }

  lemma {:induction false} RunKeepsFifo(r: Redis, ops: seq<Op>)
    requires Fifo(r)
    ensures Fifo(Run(r, ops))
  {
    if ops != [] {
      RunKeepsFifo(r, ops[..|ops| - 1]);
      StepKeepsFifo(Run(r, ops[..|ops| - 1]), ops[|ops| - 1]);
    }
  }
}
