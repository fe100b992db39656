/** Shell glob patterns, as values: what a pattern is, what it matches, and the
    algebra of matching.  Nothing here refers to the search that decides it. */
module Glob {

  datatype Atom =
    | Star
    | AnyChar
    | Literal(c: char)
    | Class(negated: bool, body: string)

  // ----- character classes -----

  /** Position k of a class body joins its neighbours into a range.  A '-' between
      neighbours that do not ascend is an ordinary member. */
  predicate IsRange(body: string, k: nat) {
    0 < k < |body| - 1 && body[k] == '-' && body[k-1] < body[k+1]
  }

  predicate Contributes(body: string, k: nat, c: char)
    requires k < |body|
  {
    if IsRange(body, k) then body[k-1] <= c <= body[k+1] else body[k] == c
  }

  ghost predicate InBody(body: string, c: char) {
    exists k: nat | k < |body| :: Contributes(body, k, c)
  }

  ghost predicate Accepts(a: Atom, c: char) {
    match a
    case Star => false
    case AnyChar => true
    case Literal(x) => x == c
    case Class(negated, body) => InBody(body, c) != negated
  }

  /** What the class [lo-hi] means: the whole interval when it ascends, and the three
      characters themselves, '-' included, when it does not. */
  lemma {:induction false} SimpleRange(lo: char, hi: char, c: char)
    ensures InBody([lo, '-', hi], c) <==> if lo < hi then lo <= c <= hi else c == lo || c == '-' || c == hi
  {
    var body := [lo, '-', hi];
    assert Contributes(body, 0, c) <==> c == lo;
    assert Contributes(body, 1, c) <==> if lo < hi then lo <= c <= hi else c == '-';
    assert Contributes(body, 2, c) <==> c == hi;
  }

  // ----- matching -----

  /** The texts one atom stands for. */
  ghost predicate Takes(a: Atom, piece: string) {
    a.Star? || (|piece| == 1 && Accepts(a, piece[0]))
  }

  function Flatten(pieces: seq<string>): string {
    if pieces == [] then [] else pieces[0] + Flatten(pieces[1..])
  }

  /** The declarative meaning: the text can be cut into one piece per atom, where a
      star takes any piece and every other atom takes one character it accepts. */
  ghost predicate IsCut(p: seq<Atom>, t: string, pieces: seq<string>) {
    && |pieces| == |p|
    && Flatten(pieces) == t
    && forall i | 0 <= i < |p| :: Takes(p[i], pieces[i])
  }

  ghost predicate CanCut(p: seq<Atom>, t: string) {
    exists pieces :: IsCut(p, t, pieces)
  }

  /** The same relation by recursion on the pattern. */
  ghost predicate Matches(p: seq<Atom>, t: string)
    decreases |p|
  {
    if p == [] then t == []
    else if p[0].Star? then exists k: nat | k <= |t| :: Matches(p[1..], t[k..])
    else t != [] && Accepts(p[0], t[0]) && Matches(p[1..], t[1..])
  }

  lemma {:induction false} CutFromMatch(p: seq<Atom>, t: string) returns (pieces: seq<string>)
    requires Matches(p, t)
    ensures IsCut(p, t, pieces)
    decreases |p|
  {
    if p == [] {
      pieces := [];
    } else {
      var k: nat;
      if p[0].Star? {
        k :| k <= |t| && Matches(p[1..], t[k..]);
      } else {
        k := 1;
      }
      var rest := CutFromMatch(p[1..], t[k..]);
      pieces := [t[..k]] + rest;
      assert pieces[1..] == rest && t[..k] + t[k..] == t;
    }
  }

  lemma {:induction false} MatchFromCut(p: seq<Atom>, t: string, pieces: seq<string>)
    requires IsCut(p, t, pieces)
    ensures Matches(p, t)
    decreases |p|
  {
    if p != [] {
      var k := |pieces[0]|;
      assert Takes(p[0], pieces[0]);
      assert t[..k] == pieces[0] && t[k..] == Flatten(pieces[1..]);
      MatchFromCut(p[1..], t[k..], pieces[1..]);
    }
  }

  /** Recursion and cutting agree on every pattern and text. */
  lemma {:induction false} MatchesIffCut(p: seq<Atom>, t: string)
    ensures Matches(p, t) <==> CanCut(p, t)
  {
    if Matches(p, t) {
      var pieces := CutFromMatch(p, t);
    }
    if pieces :| IsCut(p, t, pieces) {
      MatchFromCut(p, t, pieces);
    }
  }

  // ----- laws used by the search -----

  lemma {:induction false} Drop(t: string, a: nat, b: nat)
    requires a + b <= |t|
    ensures t[a..][b..] == t[a+b..]
  {}

  lemma {:induction false} Cons(a: Atom, p: seq<Atom>)
    ensures ([a] + p)[0] == a && ([a] + p)[1..] == p
  {}

  lemma {:induction false} MatchesStar(p: seq<Atom>, t: string)
    ensures Matches([Star] + p, t) <==> exists k: nat | k <= |t| :: Matches(p, t[k..])
  {
    Cons(Star, p);
  }

  lemma {:induction false} MatchesFixed(a: Atom, p: seq<Atom>, t: string)
    requires !a.Star?
    ensures Matches([a] + p, t) <==> t != [] && Accepts(a, t[0]) && Matches(p, t[1..])
  {
    Cons(a, p);
  }

  /** A star takes nothing, or takes one character and is still there. */
  lemma {:induction false} StarStep(p: seq<Atom>, t: string)
    ensures Matches([Star] + p, t) <==> Matches(p, t) || (t != [] && Matches([Star] + p, t[1..]))
  {
    Cons(Star, p);
    assert t[0..] == t;
    if k: nat :| k <= |t| && Matches(p, t[k..]) {
      if k > 0 {
        Drop(t, 1, k - 1);
        assert Matches(p, t[1..][k-1..]);
      }
    }
    if t != [] && Matches([Star] + p, t[1..]) {
      var k: nat :| k <= |t[1..]| && Matches(p, t[1..][k..]);
      Drop(t, 1, k);
      assert Matches(p, t[k+1..]);
    }
  }

  /** `*?rest` matches t exactly when `*rest` matches t without its first character. */
  lemma {:induction false} StarAbsorbsAnyChar(p: seq<Atom>, t: string)
    ensures Matches([Star, AnyChar] + p, t) <==> t != [] && Matches([Star] + p, t[1..])
    decreases |t|
  {
    var q := [AnyChar] + p;
    assert [Star, AnyChar] + p == [Star] + q;
    StarStep(q, t);
    Cons(AnyChar, p);
    if t != [] {
      StarAbsorbsAnyChar(p, t[1..]);
      StarStep(p, t[1..]);
      assert [Star, AnyChar] + p == [Star] + q;
    }
  }

  function AnyChars(k: nat): (r: seq<Atom>) { seq(k, _ => AnyChar) }

  /** The whole run: `*` and k `?` need k characters and then behave as `*`. */
  lemma {:induction false} StarAbsorbsRun(k: nat, p: seq<Atom>, t: string)
    ensures Matches([Star] + AnyChars(k) + p, t) <==> k <= |t| && Matches([Star] + p, t[k..])
    decreases k
  {
    if k == 0 {
      assert [Star] + AnyChars(0) + p == [Star] + p;
      assert t[0..] == t;
    } else {
      var rest := AnyChars(k - 1) + p;
      assert [Star] + AnyChars(k) + p == [Star, AnyChar] + rest;
      StarAbsorbsAnyChar(rest, t);
      if t != [] {
        assert [Star] + rest == [Star] + AnyChars(k - 1) + p;
        StarAbsorbsRun(k - 1, p, t[1..]);
        if k <= |t| { Drop(t, 1, k - 1); }
      }
    }
  }

  /** Two stars in a row say no more than one. */
  lemma {:induction false} StarStar(p: seq<Atom>, t: string)
    ensures Matches([Star, Star] + p, t) <==> Matches([Star] + p, t)
  {
    var q := [Star] + p;
    assert [Star, Star] + p == [Star] + q;
    Cons(Star, q);
    Cons(Star, p);
    if k: nat :| k <= |t| && Matches(q, t[k..]) {
      var l: nat :| l <= |t[k..]| && Matches(p, t[k..][l..]);
      Drop(t, k, l);
      assert Matches(p, t[k+l..]);
    }
    if Matches(q, t) {
      assert t[0..] == t;
      assert Matches(q, t[0..]);
    }
  }
}
