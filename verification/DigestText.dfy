/** Joining texts into one and taking it apart again. */
module DigestText {

  const SEPARATOR := "\n\n"

  /** Unicode white space, as a trim sees it. */
  predicate IsSpace(c: char) {
    || c == '\t' || c == '\n' || c == '\U{b}' || c == '\U{c}' || c == '\r' || c == ' '
    || c == '\U{85}' || c == '\U{a0}' || c == '\U{1680}' || '\U{2000}' <= c <= '\U{200a}'
    || c == '\U{2028}' || c == '\U{2029}' || c == '\U{202f}' || c == '\U{205f}' || c == '\U{3000}'
  }

  function TrimLeft(s: string): string {
    if s != [] && IsSpace(s[0]) then TrimLeft(s[1..]) else s
  }

  function TrimRight(s: string): string {
    if s != [] && IsSpace(s[|s| - 1]) then TrimRight(s[..|s| - 1]) else s
  }

  function TrimSpace(s: string): string {
    TrimRight(TrimLeft(s))
  }

  predicate HasSuffix(s: string, t: string) {
    |t| <= |s| && s[|s| - |t|..] == t
  }

  /** A text with neither leading nor trailing white space. */
  predicate Trimmed(s: string) {
    s != [] ==> !IsSpace(s[0]) && !IsSpace(s[|s| - 1])
  }

  lemma {:induction false} TrimLeftStart(s: string)
    ensures TrimLeft(s) != [] ==> !IsSpace(TrimLeft(s)[0])
  {
    if s != [] && IsSpace(s[0]) {
      TrimLeftStart(s[1..]);
    }
  }

  lemma {:induction false} TrimRightEnds(s: string)
    requires s != [] ==> !IsSpace(s[0])
    ensures Trimmed(TrimRight(s))
  {
    if s != [] && IsSpace(s[|s| - 1]) {
      TrimRightEnds(s[..|s| - 1]);
    }
  }

  predicate AllSpace(s: string) {
    forall c | c in s :: IsSpace(c)
  }

  /** t is s without white space at its ends. */
  ghost predicate Trims(s: string, t: string) {
    Trimmed(t) && exists l, r :: AllSpace(l) && AllSpace(r) && s == l + t + r
  }

  lemma {:induction false} TrimLeftCuts(s: string) returns (l: string)
    ensures AllSpace(l) && s == l + TrimLeft(s)
  {
    l := "";
    if s != [] && IsSpace(s[0]) {
      var rest := TrimLeftCuts(s[1..]);
      l := [s[0]] + rest;
    }
  }

  lemma {:induction false} TrimRightCuts(s: string) returns (r: string)
    ensures AllSpace(r) && s == TrimRight(s) + r
  {
    r := "";
    if s != [] && IsSpace(s[|s| - 1]) {
      var rest := TrimRightCuts(s[..|s| - 1]);
      r := rest + [s[|s| - 1]];
    }
  }

  lemma TrimIsUnique(l: string, t: string, r: string, m: string, u: string, q: string)
    requires l + t + r == m + u + q && AllSpace(l) && AllSpace(r) && AllSpace(m) && AllSpace(q) && Trimmed(t) && Trimmed(u)
    ensures t == u
  {
    var s := l + t + r;
    assert t == s[|l|..|l| + |t|] && u == s[|m|..|m| + |u|];
    assert forall k | 0 <= k < |l| :: s[k] == l[k];
    assert forall k | 0 <= k < |m| :: s[k] == m[k];
    assert forall k | 0 <= k < |r| :: s[|l| + |t| + k] == r[k];
    assert forall k | 0 <= k < |q| :: s[|m| + |u| + k] == q[k];
    assert forall k | |l| + |t| <= k < |s| :: s[k] == r[k - |l| - |t|];
    assert forall k | |m| + |u| <= k < |s| :: s[k] == q[k - |m| - |u|];
    assert t != [] ==> s[|l|] == t[0] && s[|l| + |t| - 1] == t[|t| - 1];
    assert u != [] ==> s[|m|] == u[0] && s[|m| + |u| - 1] == u[|u| - 1];
  }

  /** Trimming cuts white space off both ends, all of it and nothing else. */
  lemma TrimSpaceTrims(s: string)
    ensures Trimmed(TrimSpace(s)) && forall t :: Trims(s, t) <==> t == TrimSpace(s)
    ensures Trimmed(s) ==> TrimSpace(s) == s
    ensures TrimSpace(s) == [] <==> AllSpace(s)
  {
    TrimLeftStart(s);
    TrimRightEnds(TrimLeft(s));
    var l := TrimLeftCuts(s);
    var r := TrimRightCuts(TrimLeft(s));
    var t := TrimSpace(s);
    assert s == l + t + r && Trims(s, t);
    forall u | Trims(s, u) ensures u == t {
      var m, q :| AllSpace(m) && AllSpace(q) && s == m + u + q;
      TrimIsUnique(l, t, r, m, u, q);
    }
    if t == [] {
      assert s == l + r;
    } else {
      assert s[|l|] == t[0] && s[|l|] in s;
    }
  }

  // ---------- the join ----------

  /** The texts that survive trimming, trimmed, in order. */
  function Pieces(texts: seq<string>): seq<string> {
    if texts == [] then []
    else
      var rest, t := Pieces(texts[..|texts| - 1]), TrimSpace(texts[|texts| - 1]);
      if t == [] then rest else rest + [t]
  }

  function Join(ps: seq<string>): string {
    if ps == [] then ""
    else if |ps| == 1 then ps[0]
    else ps[0] + SEPARATOR + Join(ps[1..])
  }

  function Digest(texts: seq<string>): string {
    Join(Pieces(texts))
  }

  predicate Clean(ps: seq<string>) {
    forall p | p in ps :: p != [] && Trimmed(p)
  }

  lemma {:induction false} PiecesClean(texts: seq<string>)
    ensures Clean(Pieces(texts))
  {
    if texts != [] {
      PiecesClean(texts[..|texts| - 1]);
      TrimSpaceTrims(texts[|texts| - 1]);
    }
  }

  lemma {:induction false} JoinAppend(ps: seq<string>, p: string)
    requires ps != []
    ensures Join(ps + [p]) == Join(ps) + SEPARATOR + p
  {
    if |ps| == 1 {
      assert (ps + [p])[1..] == [p];
    } else {
      assert (ps + [p])[1..] == ps[1..] + [p];
      JoinAppend(ps[1..], p);
      assert ps[0] + SEPARATOR + (Join(ps[1..]) + SEPARATOR + p) == ps[0] + SEPARATOR + Join(ps[1..]) + SEPARATOR + p;
    }
  }

  /** A join of clean pieces is itself trimmed, and empty only if there are none. */
  lemma {:induction false} JoinTrimmed(ps: seq<string>)
    requires Clean(ps)
    ensures Trimmed(Join(ps)) && (Join(ps) == [] <==> ps == [])
  {
    if |ps| > 1 {
      assert ps[0] in ps;
      assert forall p | p in ps[1..] :: p in ps;
      JoinTrimmed(ps[1..]);
    } else if |ps| == 1 {
      assert ps[0] in ps;
    }
  }

  lemma {:induction false} JoinNested(ps: seq<string>, qs: seq<string>)
    requires ps != []
    ensures Join([Join(ps)] + qs) == Join(ps + qs)
    decreases |ps|
  {
    if |ps| == 1 {
      assert ps == [ps[0]];
    } else if qs == [] {
      assert ps + qs == ps && [Join(ps)] + qs == [Join(ps)];
    } else {
      JoinNested(ps[1..], qs);
      assert ([Join(ps)] + qs)[1..] == qs == ([Join(ps[1..])] + qs)[1..];
      assert (ps + qs)[1..] == ps[1..] + qs;
      assert Join([Join(ps)] + qs) == ps[0] + SEPARATOR + (Join(ps[1..]) + SEPARATOR + Join(qs));
    }
  }

  lemma {:induction false} PiecesConcat(a: seq<string>, b: seq<string>)
    ensures Pieces(a + b) == Pieces(a) + Pieces(b)
  {
    if b == [] {
      assert a + b == a;
    } else {
      assert (a + b)[..|a + b| - 1] == a + b[..|b| - 1];
      PiecesConcat(a, b[..|b| - 1]);
    }
  }

  lemma PieceOfOne(t: string)
    ensures Pieces([t]) == if TrimSpace(t) == [] then [] else [TrimSpace(t)]
  {
    assert [t][..0] == [];
  }

  /** Digesting a digest of the first texts with the rest is digesting them all. */
  lemma DigestStaged(a: seq<string>, b: seq<string>)
    ensures Digest([Digest(a)] + b) == Digest(a + b)
  {
    PiecesClean(a);
    JoinTrimmed(Pieces(a));
    TrimSpaceTrims(Digest(a));
    PieceOfOne(Digest(a));
    PiecesConcat([Digest(a)], b);
    PiecesConcat(a, b);
    if Pieces(a) == [] {
      assert Pieces([Digest(a)]) + Pieces(b) == Pieces(b) == Pieces(a) + Pieces(b);
    } else {
      JoinNested(Pieces(a), Pieces(b));
    }
  }

  // ---------- the split ----------

  predicate SeparatorAt(s: string, i: nat) {
    i + 1 < |s| && s[i] == '\n' && s[i + 1] == '\n'
  }

  predicate HasSeparator(s: string) {
    exists i: nat :: i < |s| && SeparatorAt(s, i)
  }

  /** The first place at or after i where a separator starts, or the end. */
  function FirstSeparator(s: string, i: nat): (r: nat)
    requires i <= |s|
    ensures i <= r <= |s| && (r < |s| ==> SeparatorAt(s, r))
    ensures forall j: nat | i <= j < r :: !SeparatorAt(s, j)
    decreases |s| - i
  {
    if i == |s| || SeparatorAt(s, i) then i else FirstSeparator(s, i + 1)
  }

  /** Splits at the leftmost separators that do not overlap. */
  function Split(s: string): (r: seq<string>)
    ensures r != []
    decreases |s|
  {
    var i := FirstSeparator(s, 0);
    if i == |s| then [s] else [s[..i]] + Split(s[i + 2..])
  }

  lemma {:induction false} SplitLeavesNoSeparator(s: string)
    ensures forall p | p in Split(s) :: !HasSeparator(p)
    decreases |s|
  {
    var i := FirstSeparator(s, 0);
    if i < |s| {
      SplitLeavesNoSeparator(s[i + 2..]);
      assert !HasSeparator(s[..i]) by {
        forall j: nat | j < |s[..i]| ensures !SeparatorAt(s[..i], j) {
          assert !SeparatorAt(s, j);
        }
      }
    }
  }

  lemma FirstSeparatorIs(s: string, i: nat)
    requires SeparatorAt(s, i) && forall j: nat | j < i :: !SeparatorAt(s, j)
    ensures FirstSeparator(s, 0) == i
  {}

  lemma {:induction false} SplitOfJoin(ps: seq<string>)
    requires Clean(ps) && ps != [] && forall p | p in ps :: !HasSeparator(p)
    ensures Split(Join(ps)) == ps
  {
    var s, p := Join(ps), ps[0];
    assert p in ps && p != [] && !IsSpace(p[|p| - 1]);
    if |ps| == 1 {
      assert forall j: nat | j < |p| :: !SeparatorAt(p, j);
      assert FirstSeparator(s, 0) == |s|;
    } else {
      assert s == p + SEPARATOR + Join(ps[1..]);
      forall j: nat | j < |p| ensures !SeparatorAt(s, j) {
        if j + 1 < |p| {
          assert !SeparatorAt(p, j);
        }
      }
      FirstSeparatorIs(s, |p|);
      assert s[..|p|] == p && s[|p| + 2..] == Join(ps[1..]);
      assert forall q | q in ps[1..] :: q in ps;
      SplitOfJoin(ps[1..]);
      assert ps == [p] + ps[1..];
    }
  }

  /**
   * Splitting a digest gives back its pieces, in order, exactly when there is a piece and no
   * piece contains a blank line.
   */
  lemma DigestRoundTrip(texts: seq<string>)
    ensures Split(Digest(texts)) == Pieces(texts) <==>
              Pieces(texts) != [] && forall p | p in Pieces(texts) :: !HasSeparator(p)
  {
    PiecesClean(texts);
    SplitLeavesNoSeparator(Digest(texts));
    if Pieces(texts) != [] && forall p | p in Pieces(texts) :: !HasSeparator(p) {
      SplitOfJoin(Pieces(texts));
    }
  }
}
