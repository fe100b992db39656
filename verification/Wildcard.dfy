/** The wildcard matcher: reading a pattern off its text, the search with its cursors,
    and the one situation in which the search does not come back. */
module Wildcard {
  import opened Glob

  /** The contents of a NUL-terminated string, and reading it at or before its end. */
  type CString = s: string | '\0' !in s witness ""

  function At(s: CString, i: nat): (c: char)
    ensures c == '\0' <==> i >= |s|
  {
    if i < |s| then s[i] else '\0'
  }

  // ----- reading a pattern -----

  function FirstClose(w: string, k: nat): (e: nat)
    requires k <= |w|
    ensures k <= e <= |w|
    ensures e < |w| ==> w[e] == ']'
    ensures forall x | k <= x < e :: w[x] != ']'
    decreases |w| - k
  {
    if k == |w| || w[k] == ']' then k else FirstClose(w, k + 1)
  }

  /** Where the body of the class opened at i begins: past a leading '!'. */
  function BodyStart(w: string, i: nat): (s: nat)
    requires i < |w|
    ensures i < s <= |w| + 1
  {
    if i + 1 < |w| && w[i+1] == '!' then i + 2 else i + 1
  }

  /** Its closing bracket, which is never the first character of the body; the length of
      the pattern when there is none. */
  function ClassEnd(w: string, i: nat): (e: nat)
    requires i < |w|
    ensures i < e <= |w|
  {
    var s := BodyStart(w, i);
    if s >= |w| then |w| else FirstClose(w, s + 1)
  }

  function ClassAt(w: string, i: nat): Atom
    requires i < |w| && ClassEnd(w, i) < |w|
  {
    Class(w[i+1] == '!', w[BodyStart(w, i)..ClassEnd(w, i)])
  }

  /** Every class opened from i on is closed. */
  predicate Closed(w: string, i: nat)
    requires i <= |w|
    decreases |w| - i
  {
    if i == |w| then true
    else if w[i] == '[' then ClassEnd(w, i) < |w| && Closed(w, ClassEnd(w, i) + 1)
    else Closed(w, i + 1)
  }

  /** The pattern written in w from i on. */
  function Pattern(w: string, i: nat): (p: seq<Atom>)
    requires i <= |w| && Closed(w, i)
    decreases |w| - i
  {
    if i == |w| then []
    else if w[i] == '[' then [ClassAt(w, i)] + Pattern(w, ClassEnd(w, i) + 1)
    else if w[i] == '*' then [Star] + Pattern(w, i + 1)
    else if w[i] == '?' then [AnyChar] + Pattern(w, i + 1)
    else [Literal(w[i])] + Pattern(w, i + 1)
  }

  // ----- what the search answers -----

  /** Star m follows another star with nothing but '?' in between. */
  ghost predicate Redundant(p: seq<Atom>, m: nat) {
    m < |p| && p[m].Star? && exists n: nat | n < m :: p[n].Star? && forall x | n < x < m :: p[x].AnyChar?
  }

  /** The pattern has a redundant star, and what stands before it fits the text with at
      least one character to spare. */
  ghost predicate Stuck(p: seq<Atom>, t: string) {
    exists m: nat | Redundant(p, m) :: Matches(p[..m] + [AnyChar, Star], t)
  }

  /** Either an answer, or the loop that looks past the '?' and '*' after a star never ends. */
  datatype Outcome = Answer(fit: bool) | NoAnswer

  ghost function Expected(p: seq<Atom>, t: string): Outcome {
    if Stuck(p, t) then NoAnswer else Answer(Matches(p, t))
  }

  // ----- the loop that looks past '?' and '*' -----

  predicate Looking(w: CString, t: CString, s: (nat, nat)) {
    At(t, s.1) != '\0' && (At(w, s.0) == '?' || At(w, s.0) == '*')
  }

  /** The two cursors after n rounds of the loop body. */
  function Rounds(w: CString, t: CString, s: (nat, nat), n: nat): (nat, nat) {
    if n == 0 then s
    else var r := Rounds(w, t, s, n - 1); if At(w, r.0) == '?' then (r.0 + 1, r.1 + 1) else r
  }

  lemma {:induction false} RoundsFromNext(w: CString, t: CString, s: (nat, nat), n: nat)
    ensures At(w, s.0) == '?' ==> Rounds(w, t, s, n + 1) == Rounds(w, t, (s.0 + 1, s.1 + 1), n)
    ensures At(w, s.0) != '?' ==> Rounds(w, t, s, n) == s
    decreases n
  {
    if n > 0 { RoundsFromNext(w, t, s, n - 1); }
    assert At(w, s.0) == '?' ==> Rounds(w, t, s, 1) == (s.0 + 1, s.1 + 1) by {
      assert Rounds(w, t, s, 0) == s;
    }
  }

  /** A star at m with only '?' before it, and text left once those are used up. */
  predicate StarAhead(w: CString, t: CString, s: (nat, nat), m: nat) {
    s.0 <= m < |w| && w[m] == '*' && s.1 + (m - s.0) < |t| && forall x | s.0 <= x < m :: w[x] == '?'
  }

  /** The loop is still running after any number of rounds. */
  ghost predicate Forever(w: CString, t: CString, s: (nat, nat)) {
    forall n: nat :: Looking(w, t, Rounds(w, t, s, n))
  }

  /** The loop runs for ever exactly when it meets a '*' while text is left. */
  lemma {:induction false} LooksForEver(w: CString, t: CString, s: (nat, nat))
    ensures Forever(w, t, s) <==> exists m: nat :: StarAhead(w, t, s, m)
    decreases |w| - s.0
  {
    assert Rounds(w, t, s, 0) == s;
    if !Looking(w, t, s) {
      assert !Looking(w, t, Rounds(w, t, s, 0));
      assert forall m: nat :: !StarAhead(w, t, s, m);
    } else if w[s.0] == '*' {
      forall n: nat ensures Looking(w, t, Rounds(w, t, s, n)) { RoundsFromNext(w, t, s, n); }
      assert StarAhead(w, t, s, s.0);
    } else {
      var s' := (s.0 + 1, s.1 + 1);
      LooksForEver(w, t, s');
      forall n: nat ensures Rounds(w, t, s, n + 1) == Rounds(w, t, s', n) { RoundsFromNext(w, t, s, n); }
      forall m: nat ensures StarAhead(w, t, s, m) <==> StarAhead(w, t, s', m) {}
      if exists m: nat :: StarAhead(w, t, s', m) {
        forall n: nat ensures Looking(w, t, Rounds(w, t, s, n)) {
          if n > 0 { assert Rounds(w, t, s, n - 1 + 1) == Rounds(w, t, s', n - 1); }
        }
      } else {
        assert !Forever(w, t, s');
        var n: nat :| !Looking(w, t, Rounds(w, t, s', n));
        var r := Rounds(w, t, s, n + 1);
        assert !Looking(w, t, r);
        assert !Forever(w, t, s);
      }
    }
  }

  // ----- how the answer depends on the head of the pattern -----

  lemma {:induction false} NeverFitsNothing(p: seq<Atom>)
    ensures !Matches(p + [AnyChar, Star], [])
    decreases |p|
  {
    var t: string := [];
    if p == [] {
      assert p + [AnyChar, Star] == [AnyChar, Star];
    } else {
      NeverFitsNothing(p[1..]);
      assert (p + [AnyChar, Star])[1..] == p[1..] + [AnyChar, Star];
      assert t[0..] == t;
    }
  }

  lemma {:induction false} EmptyTextIsNeverStuck(p: seq<Atom>)
    ensures !Stuck(p, [])
  {
    forall m: nat | Redundant(p, m) ensures !Matches(p[..m] + [AnyChar, Star], []) {
      NeverFitsNothing(p[..m]);
    }
  }

  lemma {:induction false} Before(a: Atom, p: seq<Atom>, m: nat)
    requires 0 < m <= |p| + 1
    ensures ([a] + p)[..m] + [AnyChar, Star] == [a] + (p[..m-1] + [AnyChar, Star])
  {}

  /** After a head that is no star, the rest decides. */
  lemma {:induction false} ExpectedFixedHead(a: Atom, p: seq<Atom>, t: string)
    requires !a.Star?
    ensures t == [] || !Accepts(a, t[0]) ==> Expected([a] + p, t) == Answer(false)
    ensures t != [] && Accepts(a, t[0]) ==> Expected([a] + p, t) == Expected(p, t[1..])
  {
    Cons(a, p);
    forall m: nat ensures Redundant([a] + p, m) <==> m > 0 && Redundant(p, m - 1) {
      RedundantShift(a, p, m);
    }
    forall m: nat | Redundant([a] + p, m)
      ensures Matches(([a] + p)[..m] + [AnyChar, Star], t)
         <==> t != [] && Accepts(a, t[0]) && Matches(p[..m-1] + [AnyChar, Star], t[1..])
    {
      Before(a, p, m);
      Cons(a, p[..m-1] + [AnyChar, Star]);
    }
    if t != [] && Accepts(a, t[0]) && Stuck(p, t[1..]) {
      var m: nat :| Redundant(p, m) && Matches(p[..m] + [AnyChar, Star], t[1..]);
      assert Redundant([a] + p, m + 1);
    }
  }

  lemma {:induction false} RedundantShift(a: Atom, p: seq<Atom>, m: nat)
    requires !a.Star? || p == [] || !(p[0].Star? || p[0].AnyChar?)
    ensures Redundant([a] + p, m) <==> m > 0 && Redundant(p, m - 1)
  {
    var q := [a] + p;
    if Redundant(q, m) {
      var n: nat :| n < m && q[n].Star? && forall x | n < x < m :: q[x].AnyChar?;
      assert q[m] == p[m-1];
      assert p != [] ==> q[1] == p[0];
      assert n > 0;
      assert p[n-1].Star? && forall x | n - 1 < x < m - 1 :: p[x] == q[x+1];
    }
    if m > 0 && Redundant(p, m - 1) {
      var n: nat :| n < m - 1 && p[n].Star? && forall x | n < x < m - 1 :: p[x].AnyChar?;
      assert q[n+1].Star? && forall x | n + 1 < x < m :: q[x] == p[x-1];
    }
  }

  /** Dropping a '?' right after the first star shifts the redundant stars. */
  lemma {:induction false} RedundantBehindAnyChar(p: seq<Atom>, m: nat)
    ensures Redundant([Star, AnyChar] + p, m) <==> m > 1 && Redundant([Star] + p, m - 1)
  {
    var q, q' := [Star, AnyChar] + p, [Star] + p;
    assert forall x | 0 < x < |q'| :: q[x+1] == q'[x];
    if Redundant(q, m) {
      var n: nat :| n < m && q[n].Star? && forall x | n < x < m :: q[x].AnyChar?;
      assert n != 1 && m != 1;
      var n' := if n == 0 then 0 else n - 1;
      assert q'[n'].Star? && forall x | n' < x < m - 1 :: q'[x] == q[x+1];
    }
    if m > 1 && Redundant(q', m - 1) {
      var n: nat :| n < m - 1 && q'[n].Star? && forall x | n < x < m - 1 :: q'[x].AnyChar?;
      var n' := if n == 0 then 0 else n + 1;
      assert q[n'].Star?;
      forall x | n' < x < m ensures q[x].AnyChar? { assert x > 1 ==> q[x] == q'[x-1]; }
    }
  }

  lemma {:induction false} PrefixBehindAnyChar(p: seq<Atom>, t: string, m: nat)
    requires t != [] && 1 < m <= |p| + 2
    ensures Matches(([Star, AnyChar] + p)[..m] + [AnyChar, Star], t)
       <==> Matches(([Star] + p)[..m-1] + [AnyChar, Star], t[1..])
  {
    hide Matches;
    var r := p[..m-2] + [AnyChar, Star];
    assert ([Star, AnyChar] + p)[..m] + [AnyChar, Star] == [Star, AnyChar] + r;
    assert ([Star] + p)[..m-1] + [AnyChar, Star] == [Star] + r;
    StarAbsorbsAnyChar(r, t);
  }

  /** A '?' right after a star trades places with it. */
  lemma {:induction false} ExpectedStarAnyChar(p: seq<Atom>, t: string)
    requires t != []
    ensures Expected([Star, AnyChar] + p, t) == Expected([Star] + p, t[1..])
  {
    hide Matches, Redundant;
    var q, q' := [Star, AnyChar] + p, [Star] + p;
    StarAbsorbsAnyChar(p, t);
    forall m: nat ensures Redundant(q, m) <==> m > 1 && Redundant(q', m - 1) { RedundantBehindAnyChar(p, m); }
    forall m: nat | 1 < m <= |q|
      ensures Matches(q[..m] + [AnyChar, Star], t) <==> Matches(q'[..m-1] + [AnyChar, Star], t[1..])
    {
      PrefixBehindAnyChar(p, t, m);
    }
    forall m: nat | Redundant(q, m) || Redundant(q', m) ensures 0 < m < |q| { RedundantInside(q, q', m); }
    if Stuck(q', t[1..]) {
      var m: nat :| Redundant(q', m) && Matches(q'[..m] + [AnyChar, Star], t[1..]);
      assert Redundant(q, m + 1);
    }
  }

  lemma {:induction false} RedundantInside(q: seq<Atom>, q': seq<Atom>, m: nat)
    requires (Redundant(q, m) || Redundant(q', m)) && |q'| <= |q|
    ensures 0 < m < |q|
  {}

  lemma {:induction false} OneCharacterIsEnough(t: string)
    requires t != []
    ensures Matches([AnyChar, Star], t)
  {
    var rest := t[1..];
    assert rest[|rest|..] == [] && Matches([], rest[|rest|..]);
    Cons(Star, []);
    assert Matches([Star] + [], rest);
    assert [AnyChar, Star][1..] == [Star] + [];
  }

  /** A star right after a star, with text left: the search is stuck. */
  lemma {:induction false} ExpectedStarStar(p: seq<Atom>, t: string)
    requires t != []
    ensures Expected([Star, Star] + p, t) == NoAnswer
  {
    var q := [Star, Star] + p;
    assert Redundant(q, 1) by { assert q[0].Star?; }
    assert q[..1] + [AnyChar, Star] == [Star] + [AnyChar, Star];
    StarStep([AnyChar, Star], t);
    OneCharacterIsEnough(t);
  }

  /** With no text left a star adds nothing. */
  lemma {:induction false} ExpectedStarNoText(p: seq<Atom>)
    ensures Expected([Star] + p, []) == Expected(p, [])
  {
    EmptyTextIsNeverStuck([Star] + p);
    EmptyTextIsNeverStuck(p);
    StarStep(p, []);
  }

  ghost predicate Anchored(p: seq<Atom>) {
    p == [] || p[0].Literal? || p[0].Class?
  }

  /** If p can be begun here, and can be begun further right with what r needs to spare, then
      it can be begun here with that to spare: a leftmost placement leaves the most text. */
  lemma {:induction false} BeginsHere(p: seq<Atom>, q: seq<Atom>, r: seq<Atom>, t: string, j: nat)
    requires forall u: string :: Matches(r, u) <==> u != []
    requires j <= |t| && Matches(p + q, t) && Matches(p + r, t[j..])
    ensures Matches(p + r, t)
    decreases |p|
  {
    hide Matches;
    if p == [] {
      assert p + r == r;
      assert Matches(r, t[j..]);
      assert t[j..] != [] && t != [];
    } else {
      var a, p' := p[0], p[1..];
      assert p == [a] + p' && p + q == [a] + (p' + q) && p + r == [a] + (p' + r);
      if a.Star? {
        MatchesStar(p' + r, t[j..]);
        var k: nat :| k <= |t[j..]| && Matches(p' + r, t[j..][k..]);
        Drop(t, j, k);
        MatchesStar(p' + r, t);
      } else {
        MatchesFixed(a, p' + q, t);
        MatchesFixed(a, p' + r, t);
        MatchesFixed(a, p' + r, t[j..]);
        assert t[1..][j..] == t[j..][1..];
        BeginsHere(p', q, r, t[1..], j);
      }
    }
  }

  /** A rest that matches here without getting stuck here does not get stuck further right. */
  lemma {:induction false} MatchHereDecides(p: seq<Atom>, m: nat, t: string)
    requires Matches(p, t) && Redundant(p, m) && !Stuck(p, t)
    ensures !Matches([Star] + (p[..m] + [AnyChar, Star]), t)
  {
    var r := p[..m] + [AnyChar, Star];
    Cons(Star, r);
    if Matches([Star] + r, t) {
      var j: nat :| j <= |t| && Matches(r, t[j..]);
      assert p == p[..m] + p[m..];
      forall u: string ensures Matches([AnyChar, Star], u) <==> u != [] {
        if u != [] { OneCharacterIsEnough(u); }
      }
      BeginsHere(p[..m], p[m..], [AnyChar, Star], t, j);
    }
  }

  /** A star before an anchored rest: the rest is tried here first, then one to the right. */
  lemma {:induction false} ExpectedSearch(p: seq<Atom>, t: string)
    requires Anchored(p) && t != []
    ensures Expected([Star] + p, t) ==
            if Expected(p, t) == Answer(false) then Expected([Star] + p, t[1..]) else Expected(p, t)
  {
    hide Matches;
    var q := [Star] + p;
    StarStep(p, t);
    forall m: nat ensures Redundant(q, m) <==> m > 0 && Redundant(p, m - 1) { RedundantShift(Star, p, m); }
    forall m: nat | Redundant(q, m)
      ensures q[..m] + [AnyChar, Star] == [Star] + (p[..m-1] + [AnyChar, Star])
      ensures Matches(q[..m] + [AnyChar, Star], t)
         <==> Matches(p[..m-1] + [AnyChar, Star], t) || Matches(q[..m] + [AnyChar, Star], t[1..])
    {
      Before(Star, p, m);
      StarStep(p[..m-1] + [AnyChar, Star], t);
    }
    if Stuck(p, t) {
      var m: nat :| Redundant(p, m) && Matches(p[..m] + [AnyChar, Star], t);
      assert Redundant(q, m + 1);
      assert Stuck(q, t);
    } else if Matches(p, t) {
      forall m: nat | Redundant(q, m) ensures !Matches(q[..m] + [AnyChar, Star], t) {
        MatchHereDecides(p, m - 1, t);
      }
    }
  }

  // ----- masks without special characters -----

  predicate Plain(w: string) { '*' !in w && '?' !in w && '[' !in w }

  lemma {:induction false} PatternEnds(w: string)
    ensures Closed(w, |w|) && Pattern(w, |w|) == []
  {}

  lemma {:induction false} PlainStep(w: string, i: nat)
    requires Plain(w) && i < |w| && Closed(w, i + 1)
    ensures Closed(w, i) && Pattern(w, i) == [Literal(w[i])] + Pattern(w, i + 1)
  {
    assert w[i] in w;
  }

  lemma {:induction false} PlainPattern(w: string, i: nat)
    requires Plain(w) && i <= |w|
    ensures Closed(w, i) && |Pattern(w, i)| == |w| - i
    ensures forall k: nat | k < |w| - i :: Pattern(w, i)[k] == Literal(w[i+k])
    decreases |w| - i
  {
    hide Pattern, Closed;
    if i == |w| {
      PatternEnds(w);
    } else {
      PlainPattern(w, i + 1);
      PlainStep(w, i);
    }
  }

  lemma {:induction false} LiteralsMatch(p: seq<Atom>, w: string, q: seq<Atom>, t: string)
    requires |p| == |w| && forall k: nat | k < |w| :: p[k] == Literal(w[k])
    ensures Matches(p + q, t) <==> w <= t && Matches(q, t[|w|..])
    decreases |w|
  {
    if w == [] {
      assert p + q == q && t[0..] == t;
    } else {
      assert p + q == [p[0]] + (p[1..] + q);
      MatchesFixed(p[0], p[1..] + q, t);
      if t != [] && t[0] == w[0] {
        LiteralsMatch(p[1..], w[1..], q, t[1..]);
        assert w <= t <==> w[1..] <= t[1..];
        if w <= t { assert t[1..][|w|-1..] == t[|w|..]; }
      }
    }
  }

  /** A plain mask matches itself only, and followed by a star everything that begins with it. */
  lemma {:induction false} PlainMasks(w: string, t: string)
    requires Plain(w)
    ensures Closed(w, 0)
    ensures Matches(Pattern(w, 0), t) <==> t == w
    ensures Matches(Pattern(w, 0) + [Star], t) <==> w <= t
  {
    PlainPattern(w, 0);
    var p := Pattern(w, 0);
    LiteralsMatch(p, w, [], t);
    assert p + [] == p;
    LiteralsMatch(p, w, [Star], t);
    if w <= t {
      assert t == w <==> t[|w|..] == [];
      var rest := t[|w|..];
      assert Matches([], rest[|rest|..]);
      MatchesStar([], rest);
      assert [Star] + [] == [Star];
    }
  }
}
