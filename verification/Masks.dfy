/** What each kind of mask text means, from its first character on. */
module Masks {
  import opened Glob
  import opened Wildcard

  // ----- a pattern does not depend on what stands before it -----

  lemma {:induction false} FirstCloseShift(p: string, u: string, k: nat)
    requires k <= |u|
    ensures FirstClose(p + u, |p| + k) == |p| + FirstClose(u, k)
    decreases |u| - k
  {
    if k < |u| && u[k] != ']' {
      FirstCloseShift(p, u, k + 1);
    }
  }

  lemma {:induction false} ClassShift(p: string, u: string, i: nat)
    requires i < |u|
    ensures ClassEnd(p + u, |p| + i) == |p| + ClassEnd(u, i)
    ensures ClassEnd(u, i) < |u| ==> ClassAt(p + u, |p| + i) == ClassAt(u, i)
  {
    hide FirstClose;
    var s := BodyStart(u, i);
    assert BodyStart(p + u, |p| + i) == |p| + s;
    if s < |u| {
      FirstCloseShift(p, u, s + 1);
      assert forall e | s <= e <= |u| :: (p + u)[|p|+s..|p|+e] == u[s..e];
    }
  }

  lemma {:induction false} PatternShift(p: string, u: string, i: nat)
    requires i <= |u|
    ensures Closed(p + u, |p| + i) <==> Closed(u, i)
    ensures Closed(u, i) ==> Pattern(p + u, |p| + i) == Pattern(u, i)
    decreases |u| - i
  {
    hide ClassEnd, ClassAt;
    if i < |u| {
      assert (p + u)[|p|+i] == u[i];
      if u[i] == '[' {
        ClassShift(p, u, i);
        if ClassEnd(u, i) < |u| { PatternShift(p, u, ClassEnd(u, i) + 1); }
      } else {
        PatternShift(p, u, i + 1);
      }
    }
  }

  // ----- the masks, by how they begin -----

  lemma {:induction false} EmptyMask(t: string)
    ensures Closed("", 0) && (Matches(Pattern("", 0), t) <==> t == "")
  {}

  lemma {:induction false} PlainHead(c: char, rest: string)
    requires c != '['
    ensures var w := [c] + rest; Closed(w, 0) <==> Closed(rest, 0)
    ensures Closed(rest, 0) ==>
      Pattern([c] + rest, 0) == [if c == '*' then Star else if c == '?' then AnyChar else Literal(c)] + Pattern(rest, 0)
  {
    PatternShift([c], rest, 0);
  }

  /** A star stands for any text. */
  lemma {:induction false} StarMask(rest: string, t: string)
    ensures Closed("*" + rest, 0) <==> Closed(rest, 0)
    ensures Closed(rest, 0) ==>
      (Matches(Pattern("*" + rest, 0), t) <==> exists k: nat | k <= |t| :: Matches(Pattern(rest, 0), t[k..]))
  {
    hide Pattern, Closed, Matches;
    assert "*" + rest == ['*'] + rest;
    PlainHead('*', rest);
    if Closed(rest, 0) { MatchesStar(Pattern(rest, 0), t); }
  }

  /** A question mark stands for any one character, and any other character for itself. */
  lemma {:induction false} CharacterMask(c: char, rest: string, t: string)
    requires c != '[' && c != '*'
    ensures Closed([c] + rest, 0) <==> Closed(rest, 0)
    ensures Closed(rest, 0) ==>
      (Matches(Pattern([c] + rest, 0), t)
       <==> t != "" && (c == '?' || t[0] == c) && Matches(Pattern(rest, 0), t[1..]))
  {
    hide Pattern, Closed, Matches;
    PlainHead(c, rest);
    if Closed(rest, 0) { MatchesFixed(if c == '?' then AnyChar else Literal(c), Pattern(rest, 0), t); }
  }

  lemma {:induction false} FirstCloseIs(w: string, k: nat, e: nat)
    requires k <= e < |w| && w[e] == ']' && forall x | k <= x < e :: w[x] != ']'
    ensures FirstClose(w, k) == e
  {}

  /** What is written between the brackets; a leading '!' complements, and a ']' that comes first
      is a member. */
  lemma {:induction false} ClassHead(negated: bool, body: string, rest: string)
    requires body != "" && ']' !in body[1..] && (body[0] == '!' ==> negated)
    ensures var w := "[" + (if negated then "!" else "") + body + "]" + rest;
      && (Closed(w, 0) <==> Closed(rest, 0))
      && (Closed(rest, 0) ==> Pattern(w, 0) == [Class(negated, body)] + Pattern(rest, 0))
  {
    var open := "[" + (if negated then "!" else "");
    var w, s := open + body + "]" + rest, |open|;
    assert w[0] == '[' && BodyStart(w, 0) == s;
    assert w[s..s+|body|] == body && w[s+|body|] == ']';
    forall x | s + 1 <= x < s + |body| ensures w[x] != ']' {
      assert w[x] == body[x-s] == body[1..][x-s-1];
    }
    FirstCloseIs(w, s + 1, s + |body|);
    assert ClassEnd(w, 0) == s + |body| && ClassAt(w, 0) == Class(negated, body);
    hide Closed, Pattern;
    PatternShift(open + body + "]", rest, 0);
    ClassStep(w);
  }

  lemma {:induction false} ClassStep(w: string)
    requires w != "" && w[0] == '[' && ClassEnd(w, 0) < |w|
    ensures Closed(w, 0) <==> Closed(w, ClassEnd(w, 0) + 1)
    ensures Closed(w, 0) ==> Pattern(w, 0) == [ClassAt(w, 0)] + Pattern(w, ClassEnd(w, 0) + 1)
  {
    hide ClassEnd, ClassAt;
  }

  /** A class stands for one of its members. */
  lemma {:induction false} ClassMask(body: string, rest: string, t: string)
    requires body != "" && ']' !in body[1..] && body[0] != '!'
    ensures var w := "[" + body + "]" + rest;
      && (Closed(w, 0) <==> Closed(rest, 0))
      && (Closed(rest, 0) ==>
            (Matches(Pattern(w, 0), t) <==> t != "" && InBody(body, t[0]) && Matches(Pattern(rest, 0), t[1..])))
  {
    hide Pattern, Closed, Matches, InBody;
    assert "[" + "" + body == "[" + body;
    ClassHead(false, body, rest);
    if Closed(rest, 0) { MatchesFixed(Class(false, body), Pattern(rest, 0), t); }
  }

  /** ... and with a '!' for one character that is no member. */
  lemma {:induction false} ComplementMask(body: string, rest: string, t: string)
    requires body != "" && ']' !in body[1..]
    ensures var w := "[!" + body + "]" + rest;
      && (Closed(w, 0) <==> Closed(rest, 0))
      && (Closed(rest, 0) ==>
            (Matches(Pattern(w, 0), t) <==> t != "" && !InBody(body, t[0]) && Matches(Pattern(rest, 0), t[1..])))
  {
    hide Pattern, Closed, Matches, InBody;
    assert "[" + "!" == "[!";
    ClassHead(true, body, rest);
    if Closed(rest, 0) { MatchesFixed(Class(true, body), Pattern(rest, 0), t); }
  }

  // ----- the members of a class -----

  /** Without a '-' between two others a body lists its members. */
  lemma {:induction false} ListedMembers(body: string, c: char)
    requires forall k | 0 < k < |body| - 1 :: body[k] != '-'
    ensures InBody(body, c) <==> c in body
  {
    if c in body {
      var k: nat :| k < |body| && body[k] == c;
      assert Contributes(body, k, c);
    }
  }

  /** Bodies that no '-' joins have the members of both. */
  lemma {:induction false} JoinedMembers(a: string, b: string, c: char)
    requires a != "" && b != "" && a[|a|-1] != '-' && b[0] != '-'
    ensures InBody(a + b, c) <==> InBody(a, c) || InBody(b, c)
  {
    var body := a + b;
    forall k: nat | k < |a| ensures Contributes(body, k, c) <==> Contributes(a, k, c) {}
    forall k: nat | k < |b| ensures Contributes(body, |a| + k, c) <==> Contributes(b, k, c) {}
    if InBody(body, c) {
      var k: nat :| k < |body| && Contributes(body, k, c);
      assert k < |a| || Contributes(b, k - |a|, c);
    }
    if k: nat :| k < |b| && Contributes(b, k, c) {
      assert Contributes(body, |a| + k, c);
    }
    if k: nat :| k < |a| && Contributes(a, k, c) {
      assert Contributes(body, k, c);
    }
  }

  /** A '-' between two others stands for all that lies between them if they ascend, and else for
      itself. */
  lemma {:induction false} DashedMembers(a: string, b: string, c: char)
    requires a != "" && b != "" && a[|a|-1] != '-' && b[0] != '-'
    ensures InBody(a + "-" + b, c)
       <==> InBody(a, c) || InBody(b, c)
            || (if a[|a|-1] < b[0] then a[|a|-1] <= c <= b[0] else c == '-')
  {
    var body := a + "-" + b;
    forall k: nat | k < |a| ensures Contributes(body, k, c) <==> Contributes(a, k, c) {}
    forall k: nat | k < |b| ensures Contributes(body, |a| + 1 + k, c) <==> Contributes(b, k, c) {}
    if InBody(body, c) {
      var k: nat :| k < |body| && Contributes(body, k, c);
      assert k <= |a| || Contributes(b, k - |a| - 1, c);
    }
    if k: nat :| k < |b| && Contributes(b, k, c) { assert Contributes(body, |a| + 1 + k, c); }
    if k: nat :| k < |a| && Contributes(a, k, c) { assert Contributes(body, k, c); }
    assert Contributes(body, |a|, c) <==> if a[|a|-1] < b[0] then a[|a|-1] <= c <= b[0] else c == '-';
  }
}
