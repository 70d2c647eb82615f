/** The two feedback stores: a slice in memory, newest last, and a Redis list, newest first. */
module Feedback {
  import opened RedisList

  /** The limit a Redis store uses when asked for none. */
  const DEFAULT_LIMIT := 100

  /** A list item as the store reads it back: a feedback entry, or something it cannot decode. */
  datatype Item<T> = Entry(value: T) | Undecodable

  function Entries<T>(xs: seq<T>): (r: seq<Item<T>>) {
    seq(|xs|, i requires 0 <= i < |xs| => Entry(xs[i]))
  }

  function Decoded<T>(items: seq<Item<T>>): seq<T> {
    if items == [] then []
    else
      var rest, last := Decoded(items[..|items| - 1]), items[|items| - 1];
      if last.Entry? then rest + [last.value] else rest
  }

  lemma {:induction false} DecodedConcat<T>(a: seq<Item<T>>, b: seq<Item<T>>)
    ensures Decoded(a + b) == Decoded(a) + Decoded(b)
  {
    if b == [] {
      assert a + b == a;
    } else {
      assert (a + b)[..|a + b| - 1] == a + b[..|b| - 1];
      DecodedConcat(a, b[..|b| - 1]);
    }
  }

  lemma DecodedOne<T>(item: Item<T>)
    ensures Decoded([item]) == if item.Entry? then [item.value] else []
  {
    assert [item][..0] == [] && Decoded([item][..0]) == [];
  }

  /** An item that cannot be decoded is left out, and every other is there in its place. */
  lemma DecodedAround<T>(a: seq<Item<T>>, item: Item<T>, b: seq<Item<T>>)
    ensures Decoded(a + [item] + b) == Decoded(a) + (if item.Entry? then [item.value] else []) + Decoded(b)
  {
    DecodedConcat(a + [item], b);
    DecodedConcat(a, [item]);
    DecodedOne(item);
  }

  lemma {:induction false} DecodedEntries<T>(xs: seq<T>)
    ensures Decoded(Entries(xs)) == xs
  {
    if xs != [] {
      var n := |xs| - 1;
      assert Entries(xs)[..n] == Entries(xs[..n]);
      DecodedEntries(xs[..n]);
    }
  }

  function RedisLimit(limit: int): nat
    ensures 0 < RedisLimit(limit)
  {
    if limit <= 0 then DEFAULT_LIMIT else limit
  }

  /** How many entries the memory store gives for a limit: all, if the limit is not positive. */
  function MemoryCount(n: nat, limit: int): nat {
    if limit > n || limit <= 0 then n else limit
  }

  /** What another client does to the list: push a new entry, or remove the oldest one there is. */
  datatype Act<T> = Arrival(x: T) | Removal

  function Acted<T>(list: seq<T>, acts: seq<Act<T>>): seq<T> {
    if acts == [] then list
    else
      var before := Acted(list, acts[..|acts| - 1]);
      match acts[|acts| - 1]
      case Arrival(x) => LPush(before, x)
      case Removal => if before == [] then [] else before[..|before| - 1]
  }

  function Arrivals<T>(acts: seq<Act<T>>): seq<T> {
    if acts == [] then []
    else
      Arrivals(acts[..|acts| - 1]) + if acts[|acts| - 1].Arrival? then [acts[|acts| - 1].x] else []
  }

  /** How many removals find an entry, in a list of n entries to begin with. */
  function Removed<T>(n: nat, acts: seq<Act<T>>): (c: nat)
    ensures c <= n + |Arrivals(acts)|
  {
    if acts == [] then 0
    else
      var before, front := Removed(n, acts[..|acts| - 1]), acts[..|acts| - 1];
      if acts[|acts| - 1].Removal? && before < n + |Arrivals(front)| then before + 1 else before
  }

  /** What one Redis pop returns, and what it leaves, when others act between its two commands. */
  function PopReturns<T>(list: seq<T>, k: nat): seq<T> {
    list[|list| - Min(k, |list|)..]
  }

  function PopLeaves<T>(list: seq<T>, acts: seq<Act<T>>, k: nat): seq<T> {
    var l := Acted(list, acts);
    l[..|l| - Min(k, |l|)]
  }

  datatype Op<T> = Push(x: T) | Pop(limit: int) | Peek(limit: int)

  /** The memory store's contents and answer after an operation. */
  function MemoryStep<T>(s: seq<T>, op: Op<T>): (seq<T>, seq<T>) {
    match op
    case Push(x) => (s + [x], [])
    case Pop(limit) => (s[MemoryCount(|s|, limit)..], s[..MemoryCount(|s|, limit)])
    case Peek(limit) => (s, s[..MemoryCount(|s|, limit)])
  }

  /** The Redis store's contents and answer after an operation that nobody interrupts. */
  function RedisStep<T>(l: seq<Item<T>>, op: Op<T>): (seq<Item<T>>, seq<T>) {
    match op
    case Push(x) => (LPush(l, Entry(x)), [])
    case Pop(limit) => (PopLeaves(l, [], RedisLimit(limit)), Decoded(PopReturns(l, RedisLimit(limit))))
    case Peek(limit) => (l, Decoded(PopReturns(l, RedisLimit(limit))))
  }

  class MemoryStore<T> {
    var feedback: seq<T>

    constructor ()
      ensures feedback == []
    {
      feedback := [];
    }

    method Push(x: T)
      modifies this
      ensures feedback == MemoryStep(old(feedback), Op.Push(x)).0 == old(feedback) + [x]
    {
      feedback := feedback + [x];
    }

    method Pop(limit: int) returns (result: seq<T>)
      modifies this
      ensures (feedback, result) == MemoryStep(old(feedback), Op.Pop(limit))
      ensures old(feedback) == result + feedback
      ensures |result| == if limit <= 0 then |old(feedback)| else Min(limit, |old(feedback)|)
    {
      if |feedback| == 0 {
        return [];
      }
      var count := limit;
      if count > |feedback| || count <= 0 {
        count := |feedback|;
      }
      result := feedback[..count];
      feedback := feedback[count..];
    }

    method Peek(limit: int) returns (result: seq<T>)
      ensures (feedback, result) == MemoryStep(feedback, Op.Peek(limit))
      ensures result <= feedback && |result| == if limit <= 0 then |feedback| else Min(limit, |feedback|)
    {
      if |feedback| == 0 {
        return [];
      }
      var count := limit;
      if count > |feedback| || count <= 0 {
        count := |feedback|;
      }
      result := feedback[..count];
    }
  }

  class RedisStore<T> {
    /** The shared list; other clients write it too. */
    var list: seq<Item<T>>

    constructor ()
      ensures list == []
    {
      list := [];
    }

    method Push(x: T)
      modifies this
      ensures list == RedisStep(old(list), Op.Push(x)).0 == [Entry(x)] + old(list)
    {
      list := LPush(list, Entry(x));
    }

    /**
     * Two commands in one pipeline; acts are what other clients do between them, in order.
     * Items that cannot be decoded are removed and not returned.
     */
    method Pop(limit: int, acts: seq<Act<Item<T>>>) returns (result: seq<T>)
      modifies this
      ensures result == Decoded(PopReturns(old(list), RedisLimit(limit)))
      ensures list == PopLeaves(old(list), acts, RedisLimit(limit))
      ensures acts == [] ==> (list, result) == RedisStep(old(list), Op.Pop(limit))
      ensures var k, n := if limit <= 0 then DEFAULT_LIMIT else limit, |old(list)|;
              result == Decoded(old(list)[n - Min(k, n)..])
    {
      var k := limit;
      if k <= 0 {
        k := DEFAULT_LIMIT;
      }
      var items := LRange(list, -k, -1);
      TailAndRest(list, k);
      list := Acted(list, acts);
      TailAndRest(list, k);
      list := LTrim(list, 0, -(k + 1));
      result := DecodeAll(items);
    }

    method Peek(limit: int) returns (result: seq<T>)
      ensures (list, result) == RedisStep(list, Op.Peek(limit))
      ensures var k, n := if limit <= 0 then DEFAULT_LIMIT else limit, |list|;
              result == Decoded(list[n - Min(k, n)..])
    {
      var k := limit;
      if k <= 0 {
        k := DEFAULT_LIMIT;
      }
      TailAndRest(list, k);
      result := DecodeAll(LRange(list, -k, -1));
    }

    static method DecodeAll(items: seq<Item<T>>) returns (result: seq<T>)
      ensures result == Decoded(items)
    {
      result := [];
      for i := 0 to |items|
        invariant result == Decoded(items[..i])
      {
        assert items[..i + 1][..i] == items[..i];
        if items[i].Undecodable? {
          continue;
        }
        result := result + [items[i].value];
      }
      assert items[..|items|] == items;
    }
  }

  // ---------- a pop between other clients' commands ----------

  lemma ReverseSplit<T>(s: seq<T>, m: nat)
    requires m <= |s|
    ensures Reverse(s) == Reverse(s[m..]) + Reverse(s[..m])
  {
    hide Reverse;
    var a, b := s[..m], s[m..];
    assert s == a + b;
    ReverseConcat(a, b);
  }

  /** All entries there were, newest first, if nothing had been removed. */
  function AllEntries<T>(list: seq<T>, acts: seq<Act<T>>): (r: seq<T>)
    ensures |r| == |list| + |Arrivals(acts)|
  {
    Reverse(Arrivals(acts)) + list
  }

  lemma ReversePush<T>(s: seq<T>, x: T)
    ensures Reverse(s + [x]) == [x] + Reverse(s)
  {
    ReverseConcat(s, [x]);
    assert Reverse([x]) == [x];
  }

  /** However arrivals and removals are interleaved, the list is a prefix of all entries: those not removed. */
  lemma {:induction false} ActedIsPrefix<T>(list: seq<T>, acts: seq<Act<T>>)
    ensures Acted(list, acts) == AllEntries(list, acts)[..|list| + |Arrivals(acts)| - Removed(|list|, acts)]
  {
    if acts != [] {
      var front, last := acts[..|acts| - 1], acts[|acts| - 1];
      ActedIsPrefix(list, front);
      if last.Arrival? {
        ReversePush(Arrivals(front), last.x);
        hide Reverse;
        assert AllEntries(list, acts) == [last.x] + AllEntries(list, front);
      } else {
        assert Arrivals(acts) == Arrivals(front);
      }
    }
  }

  function Max(a: nat, b: nat): nat {
    if a < b then b else a
  }

  /** The entries a pop removes although neither it nor any other client has got them. */
  function PopLost<T>(list: seq<T>, acts: seq<Act<T>>, k: nat): (lost: seq<T>)
    requires |PopLeaves(list, acts, k)| <= |AllEntries(list, acts)| - Max(Removed(|list|, acts), |PopReturns(list, k)|)
  {
    var all := AllEntries(list, acts);
    all[|PopLeaves(list, acts, k)|..|all| - Max(Removed(|list|, acts), |PopReturns(list, k)|)]
  }

  lemma PopSizes<T>(list: seq<T>, acts: seq<Act<T>>, k: nat)
    ensures var all, c := AllEntries(list, acts), Removed(|list|, acts);
            var size := |all| - c - Min(k, |all| - c);
            && |PopReturns(list, k)| == Min(k, |list|) && PopLeaves(list, acts, k) == all[..size]
            && size <= |all| - Max(c, Min(k, |list|))
  {
    ActedIsPrefix(list, acts);
  }

  /** How many entries are lost, of n + j of which others removed c. */
  function LossOf(n: nat, j: nat, c: nat, k: nat): int
    requires c <= n + j
  {
    n + j - Max(c, Min(k, n)) - (n + j - c - Min(k, n + j - c))
  }

  lemma LossCount(n: nat, j: nat, c: nat, k: nat)
    requires 0 < k && c <= n + j
    ensures 0 <= LossOf(n, j, c, k)
    ensures LossOf(n, j, c, k) == 0 <==> c == n + j || (j == 0 && n <= k) || (c == 0 && n >= k)
  {}

  lemma Cut<T>(s: seq<T>, a: nat, b: nat)
    requires a <= b <= |s|
    ensures s[..a] + s[a..b] + s[b..] == s && s[..a] + s[a..] == s
  {}

  lemma TailOfAll<T>(list: seq<T>, acts: seq<Act<T>>, k: nat)
    ensures var all := AllEntries(list, acts); all[|all| - Min(k, |list|)..] == PopReturns(list, k)
  {
    hide Reverse, Arrivals;
  }

  lemma PopCuts<T>(list: seq<T>, acts: seq<Act<T>>, k: nat, all: seq<T>, c: nat, r: nat)
    requires all == AllEntries(list, acts) && c == Removed(|list|, acts) <= |all| && r == |PopReturns(list, k)|
    requires |PopLeaves(list, acts, k)| <= |all| - Max(c, r) && PopLeaves(list, acts, k) == all[..|PopLeaves(list, acts, k)|]
    ensures PopLeaves(list, acts, k) + PopLost(list, acts, k) + all[|all| - Max(c, r)..] == all
    ensures all[..|all| - c] + all[|all| - c..] == all
  {
    hide AllEntries, Removed, PopReturns, PopLeaves;
    Cut(all, |PopLeaves(list, acts, k)|, |all| - Max(c, r));
    Cut(all, |all| - c, |all| - c);
  }

  /**
   * With n entries, j arrivals and c entries removed by others in between, a pop of k and the others
   * together get exactly the oldest max(c, min(k, n)) entries, min(c, min(k, n)) of them twice; the
   * trim leaves a prefix, and what lies between is lost. Nothing is lost if and only if the others
   * emptied the list, or nothing arrived and the pop asked for all, or they removed nothing and the
   * pop asked for no more than there was.
   */
  lemma PopLosesExactly<T>(list: seq<T>, acts: seq<Act<T>>, k: nat)
    requires 0 < k
    ensures var all, n, j, c := AllEntries(list, acts), |list|, |Arrivals(acts)|, Removed(|list|, acts);
            && c <= n + j == |all|
            && Acted(list, acts) + all[|all| - c..] == all
            && PopReturns(list, k) == all[|all| - Min(k, n)..]
            && |PopLeaves(list, acts, k)| <= |all| - Max(c, Min(k, n))
            && PopLeaves(list, acts, k) + PopLost(list, acts, k) + all[|all| - Max(c, Min(k, n))..] == all
            && |PopLost(list, acts, k)| == LossOf(n, j, c, k)
            && (PopLost(list, acts, k) == [] <==> c == n + j || (j == 0 && n <= k) || (c == 0 && n >= k))
  {
    PopSizes(list, acts, k);
    ActedIsPrefix(list, acts);
    hide Reverse, Acted, Arrivals, Removed, PopLeaves;
    var all, n, j, c := AllEntries(list, acts), |list|, |Arrivals(acts)|, Removed(|list|, acts);
    TailOfAll(list, acts, k);
    hide AllEntries, PopReturns, PopLost;
    LossCount(n, j, c, k);
    PopCuts(list, acts, k, all, c, Min(k, n));
  }

  function Pushes<T>(arrivals: seq<T>): seq<Act<T>> {
    seq(|arrivals|, i requires 0 <= i < |arrivals| => Arrival(arrivals[i]))
  }

  lemma {:induction false} PushesArrive<T>(arrivals: seq<T>, n: nat)
    ensures Arrivals(Pushes(arrivals)) == arrivals && Removed(n, Pushes(arrivals)) == 0
  {
    if arrivals != [] {
      var m := |arrivals| - 1;
      assert Pushes(arrivals)[..m] == Pushes(arrivals[..m]);
      PushesArrive(arrivals[..m], n);
    }
  }

  /**
   * If others only push in between, the entries lost are the oldest min(k, n+j) - min(k, n) of their
   * pushes, none if and only if n >= k or j = 0.
   */
  lemma PopLoses<T>(list: seq<T>, arrivals: seq<T>, k: nat)
    requires 0 < k
    ensures var n, j, acts := |list|, |arrivals|, Pushes(arrivals);
            var m := Min(k, n + j) - Min(k, n);
            && 0 <= m <= j
            && |PopLeaves(list, acts, k)| <= |AllEntries(list, acts)| - Max(Removed(n, acts), |PopReturns(list, k)|)
            && PopLost(list, acts, k) == Reverse(arrivals[..m])
            && Reverse(arrivals) + list == PopLeaves(list, acts, k) + Reverse(arrivals[..m]) + PopReturns(list, k)
            && (m == 0 <==> n >= k || j == 0)
  {
    var n, j, acts := |list|, |arrivals|, Pushes(arrivals);
    var m := Min(k, n + j) - Min(k, n);
    PushesArrive(arrivals, n);
    PopLosesExactly(list, acts, k);
    ReverseSplit(arrivals, m);
    hide Reverse, Arrivals, Removed, PopLeaves, Acted;
    assert Reverse(arrivals)[j - m..] == Reverse(arrivals[..m]);
  }

  lemma CollidingCount(n: nat, p: nat, q: nat, j: nat, k: nat)
    requires 0 < j && 0 < k
    ensures var d := Min(j, n + p); var dropped := d + Min(k, n + p + q - d);
            && Min(Max(j, k), n) <= dropped <= n + p + q
            && (dropped == Min(Max(j, k), n) <==> p == 0 && q == 0 && n <= Max(j, k))
  {}

  lemma TailOfTail<T>(s: seq<T>, j: nat, k: nat)
    requires j <= k
    ensures PopReturns(s, j) == PopReturns(PopReturns(s, k), j)
  {}

  lemma PushedBefore<T>(list: seq<T>, arrivals: seq<T>, k: nat)
    ensures var all := Reverse(arrivals) + list;
            PopLeaves(list, Pushes(arrivals), k) == all[..|all| - Min(k, |all|)]
  {
    PushesArrive(arrivals, |list|);
    ActedIsPrefix(list, Pushes(arrivals));
  }

  lemma CollidingLeaves<T>(list: seq<T>, before: seq<T>, between: seq<T>, j: nat, k: nat)
    ensures var all, d := Reverse(before + between) + list, Min(j, |list| + |before|);
            PopLeaves(PopLeaves(list, Pushes(before), j), Pushes(between), k) == all[..|all| - d - Min(k, |all| - d)]
  {
    var mid, all, d := PopLeaves(list, Pushes(before), j), Reverse(before + between) + list, Min(j, |list| + |before|);
    PushedBefore(list, before, j);
    PushedBefore(mid, between, k);
    ReverseConcat(before, between);
    hide Reverse, Pushes, PopLeaves;
    assert Reverse(between) + (Reverse(before) + list) == all;
    assert Reverse(between) + mid == all[..|all| - d];
  }

  lemma LastOfBoth<T>(a: seq<T>, b: seq<T>, k: nat)
    ensures PopReturns(b, k) == (a + b)[|a + b| - Min(k, |b|)..]
  {}

  /** A list without its last dropped entries, and its last r entries, make the whole list only if they meet. */
  lemma LeftAndLarger<T>(all: seq<T>, left: seq<T>, larger: seq<T>, dropped: nat, r: nat)
    requires r <= dropped <= |all| && left == all[..|all| - dropped] && larger == all[|all| - r..]
    ensures left == all[..|left|] && |left| + |larger| <= |all|
    ensures left + larger == all <==> dropped == r
  {
    if dropped == r {
      Cut(all, |left|, |left|);
    }
  }

  /**
   * Two pops whose reads both come before their trims, with pushes before and between the trims,
   * return the same oldest entries, and lose nothing exactly when nothing was pushed and the larger
   * covers all entries.
   */
  lemma CollidingPopsLose<T>(list: seq<T>, before: seq<T>, between: seq<T>, j: nat, k: nat)
    requires 0 < j && 0 < k
    ensures var n, all := |list|, Reverse(before + between) + list;
            var left := PopLeaves(PopLeaves(list, Pushes(before), j), Pushes(between), k);
            var larger := PopReturns(list, Max(j, k));
            && PopReturns(list, Min(j, k)) == PopReturns(larger, Min(j, k))
            && |left| + |larger| <= |all| && left == all[..|left|] && larger == all[|all| - |larger|..]
            && |all| - |left| == Min(j, n + |before|) + Min(k, |all| - Min(j, n + |before|))
            && (left + larger == all <==> before == [] && between == [] && n <= Max(j, k))
  {
    var n, all := |list|, Reverse(before + between) + list;
    var left := PopLeaves(PopLeaves(list, Pushes(before), j), Pushes(between), k);
    var d := Min(j, n + |before|);
    CollidingLeaves(list, before, between, j, k);
    LastOfBoth(Reverse(before + between), list, Max(j, k));
    TailOfTail(list, Min(j, k), Max(j, k));
    CollidingCount(n, |before|, |between|, j, k);
    hide Reverse, Pushes, PopLeaves, PopReturns;
    LeftAndLarger(all, left, PopReturns(list, Max(j, k)), d + Min(k, |all| - d), Min(Max(j, k), n));
  }

  // ---------- the two stores agree ----------

  function LimitOf<T>(op: Op<T>): int {
    if op.Push? then 1 else op.limit
  }

  /** The list that holds what the slice holds. */
  function Mirror<T>(s: seq<T>): (l: seq<Item<T>>)
    ensures |l| == |s|
  {
    Entries(Reverse(s))
  }

  lemma MirrorParts<T>(s: seq<T>, c: nat)
    requires c <= |s|
    ensures Mirror(s)[|s| - c..] == Entries(Reverse(s[..c])) && Mirror(s)[..|s| - c] == Mirror(s[c..])
  {
    ReverseSplit(s, c);
    hide Reverse;
  }

  lemma PushMirrors<T>(s: seq<T>, x: T)
    ensures LPush(Mirror(s), Entry(x)) == Mirror(s + [x]) && Reverse<T>([]) == []
  {
    ReversePush(s, x);
  }

  /** A range read and a trim of a mirrored list are a prefix and the rest of the slice. */
  lemma RangeOfMirror<T>(s: seq<T>, k: nat)
    ensures var c := Min(k, |s|);
            && PopLeaves(Mirror(s), [], k) == Mirror(s[c..])
            && Decoded(PopReturns(Mirror(s), k)) == Reverse(s[..c])
  {
    MirrorParts(s, Min(k, |s|));
    DecodedEntries(Reverse(s[..Min(k, |s|)]));
    hide Mirror, Reverse, Decoded;
  }

  /**
   * On mirrored stores an operation gives the same entries, in opposite order, and leaves the
   * stores mirrored, exactly when its limit is positive or no more than the default limit are held.
   */
  lemma StoresAgree<T>(s: seq<T>, op: Op<T>)
    ensures var ((s', x), (l', y)) := (MemoryStep(s, op), RedisStep(Mirror(s), op));
            (l' == Mirror(s') && y == Reverse(x)) <==> LimitOf(op) > 0 || |s| <= DEFAULT_LIMIT
  {
    hide Mirror, Reverse, Decoded, PopReturns, PopLeaves;
    if op.Push? {
      PushMirrors(s, op.x);
    } else {
      RangeOfMirror(s, RedisLimit(op.limit));
    }
  }

  /** Blocks are the answers to pops, in order; both stores' runs side by side. */
  datatype Trace<T> = Trace(memory: seq<T>, redis: seq<Item<T>>, pushed: seq<T>, popped: seq<T>, poppedRedis: seq<T>)

  function After<T>(t: Trace<T>, op: Op<T>): Trace<T> {
    var ((s, x), (l, y)) := (MemoryStep(t.memory, op), RedisStep(t.redis, op));
    Trace(s, l,
          if op.Push? then t.pushed + [op.x] else t.pushed,
          if op.Pop? then t.popped + x else t.popped,
          if op.Pop? then t.poppedRedis + Reverse(y) else t.poppedRedis)
  }

  function RunBoth<T>(ops: seq<Op<T>>): Trace<T> {
    if ops == [] then Trace([], [], [], [], []) else After(RunBoth(ops[..|ops| - 1]), ops[|ops| - 1])
  }

  ghost predicate OneStore<T>(t: Trace<T>) {
    && t.redis == Mirror(t.memory)
    && t.popped == t.poppedRedis
    && t.pushed == t.popped + t.memory
  }

  lemma BothStep<T>(t: Trace<T>, op: Op<T>)
    requires OneStore(t) && LimitOf(op) > 0
    ensures OneStore(After(t, op))
  {
    StoresAgree(t.memory, op);
    ReverseTwice(MemoryStep(t.memory, op).1);
    hide Mirror, RedisStep, Reverse;
    match op
    case Push(x) => assert t.popped + (t.memory + [x]) == t.popped + t.memory + [x];
    case Pop(limit) =>
      var c := MemoryCount(|t.memory|, limit);
      assert t.memory[..c] + t.memory[c..] == t.memory;
      assert t.popped + t.memory[..c] + t.memory[c..] == t.popped + (t.memory[..c] + t.memory[c..]);
    case Peek(_) =>
  }

  /** Over every run with positive limits both stores are one first-in-first-out store: what was popped, then what is left, is what was pushed. */
  lemma {:induction false} RunsAgree<T>(ops: seq<Op<T>>)
    requires forall i | 0 <= i < |ops| :: LimitOf(ops[i]) > 0
    ensures OneStore(RunBoth(ops))
  {
    if ops != [] {
      var n := |ops| - 1;
      assert LimitOf(ops[n]) > 0;
      assert forall i | 0 <= i < n :: ops[..n][i] == ops[i];
      RunsAgree(ops[..n]);
      BothStep(RunBoth(ops[..n]), ops[n]);
    }
  }
}
