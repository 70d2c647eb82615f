/** Redis lists as sequences, head first, with negative indices counting from the tail. */
module RedisList {

  function LPush<T>(l: seq<T>, x: T): seq<T> {
    [x] + l
  }

  /** The entries from index start to index stop, both included, after Redis has brought the indices into range. */
  function LRange<T>(l: seq<T>, start: int, stop: int): seq<T> {
    var n := |l|;
    var from := if start < 0 then (if n + start < 0 then 0 else n + start) else start;
    var to := if stop < 0 then n + stop else if stop >= n then n - 1 else stop;
    if from > to || from >= n then [] else l[from..to + 1]
  }

  /** LTRIM keeps what LRANGE would return. */
  function LTrim<T>(l: seq<T>, start: int, stop: int): seq<T> {
    LRange(l, start, stop)
  }

  function Min(a: nat, b: nat): nat {
    if a < b then a else b
  }

  function Reverse<T>(s: seq<T>): (r: seq<T>)
    ensures |r| == |s|
  {
    if s == [] then [] else Reverse(s[1..]) + [s[0]]
  }

  lemma {:induction false} ReverseConcat<T>(a: seq<T>, b: seq<T>)
    ensures Reverse(a + b) == Reverse(b) + Reverse(a)
  {
    if a == [] {
      assert a + b == b;
    } else {
      assert (a + b)[1..] == a[1..] + b;
      ReverseConcat(a[1..], b);
    }
  }

  lemma {:induction false} ReverseTwice<T>(a: seq<T>)
    ensures Reverse(Reverse(a)) == a
  {
    if a != [] {
      ReverseConcat(Reverse(a[1..]), [a[0]]);
      ReverseTwice(a[1..]);
      assert Reverse([a[0]]) == [a[0]];
    }
  }

  /** The range -k..-1 is the last k entries, and trimming to 0..-(k+1) leaves the others. */
  lemma TailAndRest<T>(l: seq<T>, k: nat)
    requires 0 < k
    ensures LRange(l, -(k as int), -1) == l[|l| - Min(k, |l|)..]
    ensures LTrim(l, 0, -(k + 1)) == l[..|l| - Min(k, |l|)]
  {}
}
