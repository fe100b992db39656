/** Cutting a text at a separator, gluing pieces back, and replacing in place. */
module Auxiliar {

  datatype Option<+T> = None | Some(value: T)

  predicate OccursAt(s: string, sep: string, k: nat) {
    k + |sep| <= |s| && s[k..k+|sep|] == sep
  }

  ghost predicate Contains(s: string, sep: string) {
    exists k: nat :: OccursAt(s, sep, k)
  }

  function FirstFrom(s: string, sep: string, start: nat): (r: Option<nat>)
    ensures r.Some? ==> start <= r.value && OccursAt(s, sep, r.value)
    ensures r.Some? ==> forall x: nat | start <= x < r.value :: !OccursAt(s, sep, x)
    ensures r.None? ==> forall x: nat | start <= x :: !OccursAt(s, sep, x)
    decreases |s| - start
  {
    if OccursAt(s, sep, start) then Some(start)
    else if start >= |s| then None
    else FirstFrom(s, sep, start + 1)
  }

  /** The first occurrence. */
  function Find(s: string, sep: string): (r: Option<nat>)
    ensures r.Some? ==> OccursAt(s, sep, r.value)
    ensures r.Some? ==> forall x: nat | x < r.value :: !OccursAt(s, sep, x)
    ensures r.None? <==> !Contains(s, sep)
  {
    FirstFrom(s, sep, 0)
  }

  /** The pieces between the separators. */
  function Split(s: string, sep: string): (r: seq<string>)
    requires sep != ""
    ensures |r| > 0
    decreases |s|
  {
    match Find(s, sep)
    case None => [s]
    case Some(end) => [s[..end]] + Split(s[end+|sep|..], sep)
  }

  function Join(pieces: seq<string>, sep: string): string
    requires |pieces| > 0
  {
    if |pieces| == 1 then pieces[0] else pieces[0] + sep + Join(pieces[1..], sep)
  }

  /** What a search that begins at `start` reports: a position in the whole text. */
  function FindFrom(s: string, sep: string, start: nat): (r: Option<nat>)
    requires start <= |s|
    ensures r.Some? ==> start <= r.value <= r.value + |sep| <= |s|
  {
    match Find(s[start..], sep)
    case None => None
    case Some(k) => Some(start + k)
  }

  lemma {:induction false} SplitStep(s: string, sep: string)
    requires sep != ""
    ensures Find(s, sep).None? ==> Split(s, sep) == [s]
    ensures Find(s, sep).Some? ==>
      var k := Find(s, sep).value;
      k + |sep| <= |s| && Split(s, sep) == [s[..k]] + Split(s[k+|sep|..], sep)
  {}

  method SplitString(str: string, sep: string) returns (ret: seq<string>)
    requires sep != ""
    ensures ret == Split(str, sep)
  {
    hide Split, Find;
    ret := [];
    var start := 0;
    assert str[0..] == str;
    while true
      invariant start <= |str|
      invariant ret + Split(str[start..], sep) == Split(str, sep)
      decreases |str| - start
    {
      var end := FindFrom(str, sep, start);
      ghost var here := str[start..];
      SplitStep(here, sep);
      if end.None? {
        break;
      }
      assert here[..end.value-start] == str[start..end.value];
      assert here[end.value-start+|sep|..] == str[end.value+|sep|..];
      ret := ret + [str[start..end.value]];
      start := end.value + |sep|;
    }
    ret := ret + [str[start..]];
  }

  lemma {:induction false} JoinCons(p: string, rest: seq<string>, sep: string)
    requires |rest| > 0
    ensures Join([p] + rest, sep) == p + sep + Join(rest, sep)
  {
    assert ([p] + rest)[1..] == rest;
  }

  /** The replacement works on a copy of the text; `left` is what that copy holds at the end,
      which the caller of the original never sees. */
  method ReplaceString(text: string, key: string, value: string) returns (found: bool, left: string)
    requires key != ""
    ensures found <==> Contains(text, key)
    ensures left == Join(Split(text, key), value)
  {
    hide Split, Join, Contains, Find;
    left := text;
    assert text[0..] == text;
    SplitStep(text, key);
    JoinOne(text, value);
    if FindFrom(left, key, 0).None? {
      return false, left;
    }
    var pos := 0;
    while true
      invariant 0 <= pos <= |left|
      invariant left[..pos] + Join(Split(left[pos..], key), value) == Join(Split(text, key), value)
      decreases |left| - pos
    {
      var start := FindFrom(left, key, pos);
      ghost var here := left[pos..];
      SplitStep(here, key);
      if start.None? {
        break;
      }
      var k := start.value;
      var rest := left[k+|key|..];
      assert here[..k-pos] == left[pos..k] && here[k-pos+|key|..] == rest;
      JoinCons(left[pos..k], Split(rest, key), value);
      ReplacedPrefix(left, pos, k, value, Join(Split(rest, key), value));
      left := left[..k] + value + rest;
      pos := k + |value|;
      assert left[pos..] == rest;
    }
    JoinOne(left[pos..], value);
    assert left[..pos] + left[pos..] == left;
    return true, left;
  }

  lemma {:induction false} JoinOne(p: string, sep: string)
    ensures Join([p], sep) == p
  {}

  lemma {:induction false} ReplacedPrefix(s: string, pos: nat, k: nat, value: string, tail: string)
    requires pos <= k <= |s|
    ensures forall rest: string :: s[..pos] + (s[pos..k] + value + tail) == (s[..k] + value + rest)[..k+|value|] + tail
  {
    forall rest: string
      ensures s[..pos] + (s[pos..k] + value + tail) == (s[..k] + value + rest)[..k+|value|] + tail
    {
      assert (s[..k] + value + rest)[..k+|value|] == s[..k] + value;
      assert s[..k] == s[..pos] + s[pos..k];
    }
  }

  // ----- what splitting means -----

  /** Nothing is lost: joining the pieces gives the text back. */
  lemma {:induction false} JoinOfSplit(s: string, sep: string)
    requires sep != ""
    ensures Join(Split(s, sep), sep) == s
    decreases |s|
  {
    match Find(s, sep)
    case None =>
    case Some(end) =>
      var rest := s[end+|sep|..];
      JoinOfSplit(rest, sep);
      JoinCons(s[..end], Split(rest, sep), sep);
      assert s == s[..end] + s[end..end+|sep|] + rest;
  }

  /** The separator does not turn up before the end of a piece it follows, nor in the last piece. */
  ghost predicate Separable(pieces: seq<string>, sep: string) {
    && |pieces| > 0
    && (forall i | 0 <= i < |pieces| - 1 :: Find(pieces[i] + sep, sep) == Some(|pieces[i]|))
    && !Contains(pieces[|pieces|-1], sep)
  }

  lemma {:induction false} SeparableCons(p: string, rest: seq<string>, sep: string)
    requires |rest| > 0
    ensures Separable([p] + rest, sep) <==> Find(p + sep, sep) == Some(|p|) && Separable(rest, sep)
  {
    var pieces := [p] + rest;
    assert forall i | 0 <= i < |rest| :: pieces[i+1] == rest[i];
    assert pieces[0] == p;
    if Find(p + sep, sep) == Some(|p|) && Separable(rest, sep) {
      forall i | 0 <= i < |pieces| - 1 ensures Find(pieces[i] + sep, sep) == Some(|pieces[i]|) {
        if i > 0 { assert pieces[i] == rest[i-1]; }
      }
    }
  }

  /** Whether the separator after p is the first one does not depend on what follows it. */
  lemma {:induction false} FindAfterPiece(p: string, sep: string, rest: string)
    ensures Find(p + sep + rest, sep) == Some(|p|) <==> Find(p + sep, sep) == Some(|p|)
  {
    var s, q := p + sep + rest, p + sep;
    forall k: nat | k <= |p| ensures OccursAt(s, sep, k) <==> OccursAt(q, sep, k) {
      assert s[k..k+|sep|] == q[k..k+|sep|];
    }
    assert OccursAt(q, sep, |p|);
  }

  lemma {:induction false} SplitOfTwo(p: string, tail: string, rest: seq<string>, sep: string)
    requires sep != ""
    ensures Split(p + sep + tail, sep) == [p] + rest <==> Find(p + sep, sep) == Some(|p|) && Split(tail, sep) == rest
  {
    hide Split, OccursAt, Contains;
    var s := p + sep + tail;
    FindAfterPiece(p, sep, tail);
    SplitStep(s, sep);
    assert s[..|p|] == p && s[|p|+|sep|..] == tail;
    if Split(s, sep) == [p] + rest {
      FindBefore(s, sep, p, rest);
      assert Split(tail, sep) == ([p] + rest)[1..] == rest;
    }
  }

  lemma {:induction false} FindBefore(s: string, sep: string, p: string, rest: seq<string>)
    requires sep != "" && |p| < |s| && Split(s, sep) == [p] + rest
    ensures Find(s, sep) == Some(|p|)
  {
    hide Split, OccursAt, Contains;
    SplitStep(s, sep);
    assert Split(s, sep)[0] == p;
  }

  lemma {:induction false} OnePieceSeparable(p: string, sep: string)
    requires sep != ""
    ensures Split(Join([p], sep), sep) == [p] <==> Separable([p], sep)
  {
    hide Split, OccursAt, Contains;
    SplitStep(p, sep);
  }

  /** Exactly when splitting undoes joining. */
  lemma {:induction false} SplitOfJoin(pieces: seq<string>, sep: string)
    requires sep != "" && |pieces| > 0
    ensures Split(Join(pieces, sep), sep) == pieces <==> Separable(pieces, sep)
    decreases |pieces|
  {
    hide Split, Separable;
    if |pieces| == 1 {
      assert pieces == [pieces[0]];
      OnePieceSeparable(pieces[0], sep);
    } else {
      var p, rest := pieces[0], pieces[1..];
      assert pieces == [p] + rest;
      SplitOfTwo(p, Join(rest, sep), rest, sep);
      SeparableCons(p, rest, sep);
      SplitOfJoin(rest, sep);
    }
  }

  lemma {:induction false} FreeBeforeEnd(p: string, sep: string)
    requires sep != "" && Find(p + sep, sep) == Some(|p|)
    ensures !Contains(p, sep)
  {
    if k: nat :| OccursAt(p, sep, k) {
      assert (p + sep)[k..k+|sep|] == p[k..k+|sep|];
      assert OccursAt(p + sep, sep, k);
    }
  }

  /** The pieces of any text are separable; in particular none contains the separator. */
  lemma {:induction false} SplitIsSeparable(s: string, sep: string)
    requires sep != ""
    ensures Separable(Split(s, sep), sep)
    ensures forall p | p in Split(s, sep) :: !Contains(p, sep)
  {
    var pieces := Split(s, sep);
    JoinOfSplit(s, sep);
    SplitOfJoin(pieces, sep);
    forall i | 0 <= i < |pieces| ensures !Contains(pieces[i], sep) {
      if i < |pieces| - 1 { FreeBeforeEnd(pieces[i], sep); }
    }
  }

  /** No proper beginning of the separator is also its end. */
  ghost predicate Borderless(sep: string) {
    forall b | 0 < b < |sep| :: sep[..b] != sep[|sep|-b..]
  }

  lemma {:induction false} FirstAtEnd(p: string, sep: string)
    requires sep != "" && Borderless(sep) && !Contains(p, sep)
    ensures Find(p + sep, sep) == Some(|p|)
  {
    var q := p + sep;
    assert OccursAt(q, sep, |p|);
    forall k: nat | k < |p| ensures !OccursAt(q, sep, k) {
      if k + |sep| <= |p| {
        assert !OccursAt(p, sep, k);
        assert p[k..k+|sep|] == q[k..k+|sep|];
      } else {
        var b := k + |sep| - |p|;
        assert sep[..b] == q[|p|..|p|+b] == q[k..k+|sep|][|sep|-b..];
      }
    }
  }

  /** For such separators, a single character or CR LF among them, it is enough that no
      piece contains the separator. */
  lemma {:induction false} SplitOfJoinBorderless(pieces: seq<string>, sep: string)
    requires sep != "" && |pieces| > 0 && Borderless(sep)
    ensures Split(Join(pieces, sep), sep) == pieces <==> forall p | p in pieces :: !Contains(p, sep)
  {
    SplitOfJoin(pieces, sep);
    if Separable(pieces, sep) {
      SplitIsSeparable(Join(pieces, sep), sep);
    }
    if forall p | p in pieces :: !Contains(p, sep) {
      forall i | 0 <= i < |pieces| - 1 ensures Find(pieces[i] + sep, sep) == Some(|pieces[i]|) {
        FirstAtEnd(pieces[i], sep);
      }
    }
  }

  lemma {:induction false} FindInFront(a: string, sep: string, more: string)
    requires sep != "" && Find(a, sep).Some?
    ensures Find(a + more, sep) == Find(a, sep)
  {
    hide Find;
    var s, k := a + more, Find(a, sep).value;
    assert s[k..k+|sep|] == a[k..k+|sep|];
    assert OccursAt(s, sep, k);
    forall x: nat | x < k ensures !OccursAt(s, sep, x) {
      assert s[x..x+|sep|] == a[x..x+|sep|];
      assert !OccursAt(a, sep, x);
    }
  }

  lemma {:induction false} FindInConcat(a: string, sep: string, b: string)
    requires sep != "" && Borderless(sep)
    ensures Find(a + sep + b, sep) == match Find(a, sep) case None => Some(|a|) case Some(k) => Some(k)
  {
    if Find(a, sep).None? {
      FirstAtEnd(a, sep);
      FindAfterPiece(a, sep, b);
    } else {
      FindInFront(a, sep, sep + b);
      assert a + (sep + b) == a + sep + b;
    }
    hide Find;
  }

  lemma {:induction false} ConcatSlices(a: string, sep: string, b: string, n: nat)
    requires n <= |a|
    ensures (a + sep + b)[..n] == a[..n] && (a + sep + b)[n..] == a[n..] + sep + b
    ensures (a + sep + b)[|a|..] == sep + b && (a + sep + b)[|a|+|sep|..] == b && (a + sep + b)[..|a|] == a
  {}

  /** With a separator between two texts, their pieces come one after the other. */
  lemma {:induction false} SplitOfConcat(a: string, sep: string, b: string)
    requires sep != "" && Borderless(sep)
    ensures Split(a + sep + b, sep) == Split(a, sep) + Split(b, sep)
    decreases |a|
  {
    hide Borderless, Split, Contains, OccursAt, Find;
    FindInConcat(a, sep, b);
    SplitStep(a, sep);
    SplitStep(a + sep + b, sep);
    var first := Find(a, sep);
    if first.None? {
      ConcatSlices(a, sep, b, 0);
    } else {
      var n := first.value + |sep|;
      ConcatSlices(a, sep, b, first.value);
      ConcatSlices(a, sep, b, n);
      SplitOfConcat(a[n..], sep, b);
      assert Split(a + sep + b, sep) == [a[..first.value]] + (Split(a[n..], sep) + Split(b, sep));
    }
  }

  lemma {:induction false} OnePiece(s: string, sep: string)
    requires sep != ""
    ensures |Split(s, sep)| == 1 <==> !Contains(s, sep)
  {
    hide Contains;
  }
}
