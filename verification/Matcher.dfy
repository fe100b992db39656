/** The matcher itself: three routines that move a cursor over the pattern w and one
    over the text t.  A cursor at the length of its string reads the closing NUL. */
module Matcher {
  import opened Glob
  import opened Wildcard

  /** One pass over the class whose '[' is just behind i, testing the character at j.
      The pattern cursor ends on the closing bracket whatever the character. */
  method Set(w: CString, i: nat, t: CString, j: nat) returns (fit: bool, i': nat, j': nat)
    requires 0 < i <= |w| && w[i-1] == '[' && ClassEnd(w, i - 1) < |w|
    requires j < |t|
    ensures i' == ClassEnd(w, i - 1)
    ensures fit <==> Accepts(ClassAt(w, i - 1), t[j])
    ensures j' == if fit then j + 1 else j
  {
    ghost var s, e := BodyStart(w, i - 1), ClassEnd(w, i - 1);
    ghost var body := w[s..e];
    var negation, atBeginning := false, true;
    fit, i', j' := false, i, j;
    if At(w, i') == '!' {
      negation := true;
      i' := i' + 1;
    }
    while At(w, i') != ']' || atBeginning
      invariant s <= i' <= e
      invariant atBeginning <==> i' == s
      invariant fit <==> exists k: nat | k < i' - s :: Contributes(body, k, t[j])
      decreases e - i'
    {
      ghost var k := i' - s;
      ghost var had := fit;
      if !fit {
        if At(w, i') == '-' && At(w, i' - 1) < At(w, i' + 1) && At(w, i' + 1) != ']' && !atBeginning {
          assert IsRange(body, k);
          if At(w, i' - 1) <= At(t, j) <= At(w, i' + 1) {
            fit := true;
            i' := i' + 1;
          }
        } else if At(w, i') == At(t, j) {
          assert !IsRange(body, k);
          fit := true;
        }
      }
      assert had || (fit <==> Contributes(body, k, t[j]));
      i' := i' + 1;
      atBeginning := false;
    }
    if negation {
      fit := !fit;
    }
    if fit {
      j' := j' + 1;
    }
  }

  // ----- the answer owed at a pair of cursors -----

  ghost function Owed(w: CString, t: CString, i: nat, j: nat): Outcome
    requires i <= |w| && j <= |t| && Closed(w, i)
  {
    Expected(Pattern(w, i), t[j..])
  }

  /** The same when a star stands before the pattern cursor. */
  ghost function OwedAfterStar(w: CString, t: CString, i: nat, j: nat): Outcome
    requires i <= |w| && j <= |t| && Closed(w, i)
  {
    Expected([Star] + Pattern(w, i), t[j..])
  }

  lemma {:induction false} OwedAtStar(w: CString, t: CString, i: nat, j: nat)
    requires i < |w| && j <= |t| && Closed(w, i) && w[i] == '*'
    ensures Owed(w, t, i, j) == OwedAfterStar(w, t, i + 1, j)
    ensures j < |t| ==> OwedAfterStar(w, t, i, j) == NoAnswer
    ensures j == |t| ==> Owed(w, t, i, j) == Owed(w, t, i + 1, j)
    ensures j == |t| ==> OwedAfterStar(w, t, i, j) == OwedAfterStar(w, t, i + 1, j)
  {
    var rest := Pattern(w, i + 1);
    assert [Star] + Pattern(w, i) == [Star, Star] + rest;
    if j < |t| {
      ExpectedStarStar(rest, t[j..]);
    } else {
      ExpectedStarNoText(rest);
      ExpectedStarNoText([Star] + rest);
    }
  }

  lemma {:induction false} OwedAtAnyChar(w: CString, t: CString, i: nat, j: nat)
    requires i < |w| && j < |t| && Closed(w, i) && w[i] == '?'
    ensures Owed(w, t, i, j) == Owed(w, t, i + 1, j + 1)
  {
    assert t[j..][1..] == t[j+1..];
    ExpectedFixedHead(AnyChar, Pattern(w, i + 1), t[j..]);
  }

  lemma {:induction false} OwedAtStarAnyChar(w: CString, t: CString, i: nat, j: nat)
    requires i < |w| && j < |t| && Closed(w, i) && w[i] == '?'
    ensures OwedAfterStar(w, t, i, j) == OwedAfterStar(w, t, i + 1, j + 1)
  {
    var rest := Pattern(w, i + 1);
    assert [Star] + Pattern(w, i) == [Star, AnyChar] + rest;
    assert t[j..][1..] == t[j+1..];
    ExpectedStarAnyChar(rest, t[j..]);
  }

  lemma {:induction false} OwedAtClass(w: CString, t: CString, i: nat, j: nat)
    requires i < |w| && j < |t| && Closed(w, i) && w[i] == '['
    ensures Owed(w, t, i, j) ==
            if Accepts(ClassAt(w, i), t[j]) then Owed(w, t, ClassEnd(w, i) + 1, j + 1) else Answer(false)
  {
    assert t[j..][1..] == t[j+1..];
    ExpectedFixedHead(ClassAt(w, i), Pattern(w, ClassEnd(w, i) + 1), t[j..]);
  }

  lemma {:induction false} OwedAtLiteral(w: CString, t: CString, i: nat, j: nat)
    requires i < |w| && j < |t| && Closed(w, i) && w[i] != '[' && w[i] != '?' && w[i] != '*'
    ensures Owed(w, t, i, j) == if w[i] == t[j] then Owed(w, t, i + 1, j + 1) else Answer(false)
  {
    assert t[j..][1..] == t[j+1..];
    ExpectedFixedHead(Literal(w[i]), Pattern(w, i + 1), t[j..]);
  }

  /** When pattern or text is used up and no star is next, both must be. */
  lemma {:induction false} OwedAtEnd(w: CString, t: CString, i: nat, j: nat)
    requires i <= |w| && j <= |t| && Closed(w, i)
    requires i == |w| || (j == |t| && w[i] != '*')
    ensures Owed(w, t, i, j) == Answer(i == |w| && j == |t|)
    ensures j == |t| ==> OwedAfterStar(w, t, i, j) == Answer(i == |w|)
  {
    if j == |t| {
      EmptyTextIsNeverStuck(Pattern(w, i));
      ExpectedStarNoText(Pattern(w, i));
    } else {
      assert !exists m: nat :: Redundant(Pattern(w, i), m);
    }
  }

  /** One step of the search: here, or else one place to the right. */
  lemma {:induction false} OwedSearching(w: CString, t: CString, i: nat, j: nat)
    requires i <= |w| && j < |t| && Closed(w, i)
    requires At(w, i) != '?' && At(w, i) != '*'
    ensures OwedAfterStar(w, t, i, j) ==
            if Owed(w, t, i, j) == Answer(false) then OwedAfterStar(w, t, i, j + 1) else Owed(w, t, i, j)
    // a rest that ends here, or whose literal head differs, does not fit here
    ensures At(w, i) != t[j] && At(w, i) != '[' ==> Owed(w, t, i, j) == Answer(false)
  {
    assert t[j..][1..] == t[j+1..];
    ExpectedSearch(Pattern(w, i), t[j..]);
    if i == |w| {
      OwedAtEnd(w, t, i, j);
    } else if w[i] != '[' {
      OwedAtLiteral(w, t, i, j);
    }
  }

  // ----- the search -----

  /** What is done at a star once `?` and `*` are passed over: tries the rest of the pattern here
      and, as long as it does not fit, further right, passing over places where its literal head
      is missing. */
  method Search(w: CString, i: nat, t: CString, j: nat) returns (r: Outcome, j': nat)
    requires i <= |w| && Closed(w, i) && At(w, i) != '?' && At(w, i) != '*'
    requires j < |t|
    ensures j <= j' <= |t|
    ensures r == OwedAfterStar(w, t, i, j)
    ensures r == Answer(true) ==> r == Owed(w, t, i, j')
    ensures r == Answer(true) ==> forall x: nat | j <= x < j' :: Owed(w, t, i, x) == Answer(false)
    ensures r == Answer(false) ==> forall x: nat | j <= x < |t| :: Owed(w, t, i, x) == Answer(false)
    decreases |w| - i, 2
  {
    hide Owed, OwedAfterStar, Pattern, Closed;
    j' := j;
    r := WildcardFit(w, i, t, j');
    OwedSearching(w, t, i, j');
    if r == Answer(false) {
      while true
        invariant j <= j' < |t|
        invariant forall x: nat | j <= x <= j' :: Owed(w, t, i, x) == Answer(false)
        invariant OwedAfterStar(w, t, i, j) == OwedAfterStar(w, t, i, j' + 1)
        decreases |t| - j'
      {
        j' := j' + 1;
        while At(w, i) != At(t, j') && At(w, i) != '[' && At(t, j') != '\0'
          invariant j < j' <= |t|
          invariant forall x: nat | j <= x < j' :: Owed(w, t, i, x) == Answer(false)
          invariant OwedAfterStar(w, t, i, j) == OwedAfterStar(w, t, i, j')
          decreases |t| - j'
        {
          OwedSearching(w, t, i, j');
          j' := j' + 1;
        }
        if At(t, j') == '\0' {
          r := Answer(false);
          break;
        }
        r := WildcardFit(w, i, t, j');
        OwedSearching(w, t, i, j');
        if r != Answer(false) {
          break;
        }
      }
    }
    if At(t, j') == '\0' {
      OwedAtEnd(w, t, i, j');
      r := Answer(At(w, i) == '\0');
    }
  }

  /** The star at i, with text left at j: looks past the '?' and '*' that follow, then
      tries the rest of the pattern at each place it could begin. */
  method Asterisk(w: CString, i: nat, t: CString, j: nat) returns (r: Outcome, i': nat, j': nat)
    requires i < |w| && w[i] == '*' && Closed(w, i)
    requires j < |t|
    ensures i < i' <= |w| && Closed(w, i') && j <= j' <= |t|
    ensures r == Owed(w, t, i, j)
    // on success the cursors stand where the rest of the pattern fits ...
    ensures r == Answer(true) ==> r == Owed(w, t, i', j')
    // ... past the '?' and '*', each '?' having used one character ...
    ensures r == Answer(true) ==> forall x | i < x < i' :: w[x] == '?' || w[x] == '*'
    // ... and at the leftmost place where it does
    ensures r == Answer(true) ==> forall x: nat | j + (i' - i - 1) <= x < j' :: Owed(w, t, i', x) == Answer(false)
    ensures Forever(w, t, (i + 1, j)) ==> r == NoAnswer
    decreases |w| - i, 0
  {
    hide Owed, OwedAfterStar, Pattern, Forever;
    OwedAtStar(w, t, i, j);
    LooksForEver(w, t, (i + 1, j));
    i', j' := i + 1, j;
    while At(t, j') != '\0' && (At(w, i') == '?' || At(w, i') == '*')
      invariant i < i' <= |w| && Closed(w, i') && j' == j + (i' - i - 1) <= |t|
      invariant forall x | i < x < i' :: w[x] == '?'
      invariant Owed(w, t, i, j) == OwedAfterStar(w, t, i', j')
      decreases |t| - j'
    {
      if At(w, i') == '?' {
        OwedAtStarAnyChar(w, t, i', j');
        j' := j' + 1;
        i' := i' + 1;
      } else {
        // neither cursor moves again
        OwedAtStar(w, t, i', j');
        return NoAnswer, i', j';
      }
    }
    assert !Forever(w, t, (i + 1, j));
    while At(w, i') == '*'
      invariant i < i' <= |w| && Closed(w, i')
      invariant if j' == |t| then j' <= j + (i' - i - 1) else j' == j + (i' - i - 1) < |t|
      invariant At(w, i') == '*' ==> j' == |t|
      invariant forall x | i < x < i' :: w[x] == '?' || w[x] == '*'
      invariant Owed(w, t, i, j) == OwedAfterStar(w, t, i', j')
      decreases |w| - i'
    {
      OwedAtStar(w, t, i', j');
      i' := i' + 1;
    }
    if At(t, j') == '\0' {
      OwedAtEnd(w, t, i', j');
      return Answer(At(w, i') == '\0'), i', j';
    }
    r, j' := Search(w, i', t, j');
    return;
  }

  /** Whether the pattern from i on matches the text from j on. */
  method WildcardFit(w: CString, i: nat, t: CString, j: nat) returns (r: Outcome)
    requires i <= |w| && j <= |t| && Closed(w, i)
    ensures r == Owed(w, t, i, j)
    decreases |w| - i, 1
  {
    hide Owed, OwedAfterStar, Pattern, ClassAt, Accepts;
    var fit, i', j' := true, i, j;
    while At(w, i') != '\0' && fit && At(t, j') != '\0'
      invariant i <= i' <= |w| && j <= j' <= |t| && Closed(w, i')
      invariant Owed(w, t, i, j) == if fit then Owed(w, t, i', j') else Answer(false)
      decreases |w| - i'
    {
      match At(w, i')
      case '[' =>
        OwedAtClass(w, t, i', j');
        i' := i' + 1;
        fit, i', j' := Set(w, i', t, j');
        i' := i' + 1;
      case '?' =>
        OwedAtAnyChar(w, t, i', j');
        j' := j' + 1;
        i' := i' + 1;
      case '*' =>
        var s;
        s, i', j' := Asterisk(w, i', t, j');
        if s == NoAnswer {
          return NoAnswer;
        }
        fit := s.fit;
      case c =>
        OwedAtLiteral(w, t, i', j');
        fit := c == At(t, j');
        j' := j' + 1;
        i' := i' + 1;
    }
    while At(w, i') == '*' && fit
      invariant i <= i' <= |w| && j <= j' <= |t| && Closed(w, i')
      invariant fit && At(w, i') != '\0' ==> j' == |t|
      invariant Owed(w, t, i, j) == if fit then Owed(w, t, i', j') else Answer(false)
      decreases |w| - i'
    {
      OwedAtStar(w, t, i', j');
      i' := i' + 1;
    }
    if fit {
      OwedAtEnd(w, t, i', j');
    }
    return Answer(fit && At(t, j') == '\0' && At(w, i') == '\0');
  }

  // ----- what a caller gets -----

  /** A pattern in which no star follows another with only '?' in between always gets its
      answer, and the answer is the declarative relation. */
  method Fits(w: CString, t: CString) returns (r: bool)
    requires Closed(w, 0)
    requires forall m: nat :: !Redundant(Pattern(w, 0), m)
    ensures r <==> CanCut(Pattern(w, 0), t)
  {
    var o := WildcardFit(w, 0, t, 0);
    assert t[0..] == t;
    MatchesIffCut(Pattern(w, 0), t);
    r := o.fit;
  }

  /** Without that restriction the answer can fail to come although the pattern matches. */
  lemma {:induction false} TwoStarsGetNoAnswer()
    ensures Closed("**", 0) && CanCut(Pattern("**", 0), "a")
    ensures Owed("**", "a", 0, 0) == NoAnswer
  {
    var w: CString := "**";
    assert Pattern(w, 2) == [] && Pattern(w, 1) == [Star] && Pattern(w, 0) == [Star, Star] + [];
    ExpectedStarStar([], "a");
    assert "a"[0..] == "a";
    assert Flatten(["", "a"]) == "a" by { assert ["", "a"][1..] == ["a"] && ["a"][1..] == []; }
    assert IsCut(Pattern(w, 0), "a", ["", "a"]);
  }
}
