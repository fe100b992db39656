/** The client's receive buffer: lines are found and cut up in place by writing NULs over
    the delimiters, and the pieces are read as C strings where they lie. */
module Receiver {
  import opened Auxiliar
  import opened Wire

  const NUL := '\0'

  /** A C string lies at from, its NUL at stop. */
  predicate IsCString(s: seq<char>, from: nat, stop: nat) {
    from <= stop < |s| && s[stop] == NUL && forall k | from <= k < stop :: s[k] != NUL
  }

  /** Reading the C string at an offset. */
  function CStr(s: seq<char>, from: nat): string
    decreases |s| - from
  {
    if from >= |s| || s[from] == NUL then "" else [s[from]] + CStr(s, from + 1)
  }

  lemma {:induction false} CStrIs(s: seq<char>, from: nat, stop: nat)
    requires IsCString(s, from, stop)
    ensures CStr(s, from) == s[from..stop]
    decreases |s| - from
  {
    if from < stop {
      assert s[from] == s[from..stop][0];
      assert s[from+1..stop] == s[from..stop][1..];
      CStrIs(s, from + 1, stop);
    }
  }

  method StrChr(buf: array<char>, from: nat, ghost stop: nat, c: char) returns (p: Option<nat>)
    requires c != NUL && IsCString(buf[..], from, stop)
    ensures p.None? ==> Cut(buf[from..stop], c) == (buf[from..stop], None)
    ensures p.Some? ==> from <= p.value < stop
    ensures p.Some? ==> Cut(buf[from..stop], c) == (buf[from..p.value], Some(buf[p.value+1..stop]))
  {
    ghost var s := buf[from..stop];
    var k := from;
    while buf[k] != NUL && buf[k] != c
      invariant from <= k <= stop && c !in buf[from..k]
      decreases stop - k
    {
      assert k < stop;
      assert buf[from..k+1] == buf[from..k] + [buf[k]];
      k := k + 1;
    }
    if buf[k] == NUL {
      assert k == stop;
      CutMissing(s, c);
      return None;
    }
    assert k < stop;
    assert s == buf[from..k] + [c] + buf[k+1..stop];
    CutFound(s, c, buf[from..k], buf[k+1..stop]);
    return Some(k);
  }

  /** The client's way with delimiters: find the first, write a NUL over it, and go on behind it. */
  method CutAt(buf: array<char>, from: nat, ghost stop: nat, c: char) returns (p: Option<nat>)
    requires c != NUL && IsCString(buf[..], from, stop)
    modifies buf
    ensures p.None? ==> buf[..] == old(buf[..]) && Cut(old(buf[from..stop]), c) == (old(buf[from..stop]), None)
    ensures p.Some? ==> from <= p.value < stop && buf[..] == old(buf[..])[p.value := NUL]
    ensures p.Some? ==> IsCString(buf[..], from, p.value) && IsCString(buf[..], p.value + 1, stop)
    ensures p.Some? ==> Cut(old(buf[from..stop]), c) == (buf[from..p.value], Some(buf[p.value+1..stop]))
  {
    p := StrChr(buf, from, stop, c);
    if p.Some? {
      ghost var s := buf[from..stop];
      assert buf[from..p.value] == s[..p.value-from] && buf[p.value+1..stop] == s[p.value+1-from..];
      assert forall x | x in s[..p.value-from] || x in s[p.value+1-from..] :: x in s;
      buf[p.value] := NUL;
      assert buf[from..p.value] == s[..p.value-from] && buf[p.value+1..stop] == s[p.value+1-from..];
    }
  }

  /** Writing at q leaves a C string that lies elsewhere alone. */
  lemma {:induction false} Elsewhere(s: seq<char>, q: nat, x: char, from: nat, stop: nat)
    requires IsCString(s, from, stop) && q < |s| && !(from <= q <= stop)
    ensures IsCString(s[q := x], from, stop) && s[q := x][from..stop] == s[from..stop]
    ensures CStr(s[q := x], from) == CStr(s, from) == s[from..stop]
  {
    assert s[q := x][from..stop] == s[from..stop];
    CStrIs(s, from, stop);
    CStrIs(s[q := x], from, stop);
  }

  method StrStr(buf: array<char>, from: nat, ghost stop: nat, pattern: string) returns (p: Option<nat>)
    requires pattern != "" && NUL !in pattern && IsCString(buf[..], from, stop)
    ensures match Find(buf[from..stop], pattern) case None => p.None? case Some(k) => p == Some(from + k)
  {
    ghost var s := buf[from..stop];
    var k := from;
    while buf[k] != NUL
      invariant from <= k <= stop
      invariant forall x: nat :: x < k - from ==> !OccursAt(s, pattern, x)
      decreases stop - k
    {
      var here := HasPrefix(buf, k, stop, pattern);
      assert s[k-from..] == buf[k..stop];
      if here {
        assert OccursAt(s, pattern, k - from);
        return Some(k);
      }
      k := k + 1;
    }
    assert k == stop;
    return None;
  }

  method HasPrefix(buf: array<char>, from: nat, ghost stop: nat, pattern: string) returns (b: bool)
    requires NUL !in pattern && IsCString(buf[..], from, stop)
    ensures b <==> pattern <= buf[from..stop]
  {
    var k := 0;
    while k < |pattern| && buf[from+k] == pattern[k]
      invariant k <= |pattern| && from + k <= stop
      invariant pattern[..k] == buf[from..from+k]
      decreases |pattern| - k
    {
      assert from + k < stop by { assert pattern[k] in pattern; }
      k := k + 1;
    }
    b := k == |pattern|;
    if b {
      assert pattern == pattern[..k] && buf[from..stop][..k] == buf[from..from+k];
    } else {
      assert from + k < stop ==> buf[from..stop][k] == buf[from+k];
    }
  }

  /** nick!ident@host, cut into its parts; only the prefix is written to.  The host pointer is
      assigned only when an ident was found. */
  method ParseSource(buf: array<char>, from: nat, ghost stop: nat) returns (ident: Option<nat>, host: Pointer<nat>)
    requires IsCString(buf[..], from, stop)
    modifies buf
    ensures forall k | 0 <= k < buf.Length && !(from <= k < stop) :: buf[k] == old(buf[k])
    ensures PartsAt(buf[..], from, ident, host) == ReadSource(old(buf[from..stop]))
    ensures (ident.Some? ==> ident.value <= stop) && (host.To? ==> host.value <= stop)
  {
    hide Cut, CStr;
    ident := CutAt(buf, from, stop, '!');
    host := Wild;
    if ident.None? {
      CStrIs(buf[..], from, stop);
      return;
    }
    ghost var nickEnd := ident.value;
    CStrIs(buf[..], from, nickEnd);
    ident := Some(ident.value + 1);
    CStrIs(buf[..], ident.value, stop);
    ghost var s := buf[..];
    var at := CutAt(buf, ident.value, stop, '@');
    host := Null;
    if at.Some? {
      Elsewhere(s, at.value, NUL, from, nickEnd);
      CStrIs(buf[..], ident.value, at.value);
      CStrIs(buf[..], at.value + 1, stop);
      host := To(at.value + 1);
    }
  }

  function TextAt(s: seq<char>, p: Option<nat>): Option<string> {
    match p case None => None case Some(k) => Some(CStr(s, k))
  }

  function PointerAt(s: seq<char>, p: Pointer<nat>): Pointer<string> {
    match p case Wild => Wild case Null => Null case To(k) => To(CStr(s, k))
  }

  /** What the pointers into the prefix lead to. */
  function PartsAt(s: seq<char>, nick: nat, ident: Option<nat>, host: Pointer<nat>): Parts {
    Parts(CStr(s, nick), TextAt(s, ident), PointerAt(s, host))
  }

  /** A C string that ends at or before e reads the same in any text that agrees up to e. */
  lemma {:induction false} SameUpTo(s: seq<char>, s': seq<char>, from: nat, e: nat)
    requires from <= e < |s| && |s| == |s'| && s[..e+1] == s'[..e+1] && s[e] == NUL
    ensures CStr(s, from) == CStr(s', from)
    decreases |s| - from
  {
    assert forall k | 0 <= k <= e :: s[k] == s[..e+1][k] == s'[..e+1][k] == s'[k];
    if s[from] != NUL {
      SameUpTo(s, s', from + 1, e);
    }
  }

  /** A line without a source: a ping, or a hook call with null pointers for the source. */
  method ParseUnprefixed(buf: array<char>, data: nat, ghost stop: nat) returns (d: Delivery)
    requires IsCString(buf[..], data, stop) && buf[data] != ':'
    modifies buf
    ensures d == ReadLine(old(buf[data..stop]))
    ensures forall k | 0 <= k < buf.Length && !(data <= k < stop) :: buf[k] == old(buf[k])
  {
    var params := CutAt(buf, data, stop, ' ');
    if params.None? {
      return Nothing;
    }
    CStrIs(buf[..], data, params.value);
    CStrIs(buf[..], params.value + 1, stop);
    var command := CStr(buf[..], data);
    var text := CStr(buf[..], params.value + 1);
    if command == "PING" {
      return Pong(text);
    }
    return Hook(Reply(None, None, Null, command, To(text), None));
  }

  lemma {:induction false} SameParts(s: seq<char>, s': seq<char>, nick: nat, ident: Option<nat>, host: Pointer<nat>,
                                     low: nat)
    requires nick <= low < |s| && s[low] == NUL && |s'| == |s| && s[..low+1] == s'[..low+1]
    requires (ident.Some? ==> ident.value <= low) && (host.To? ==> host.value <= low)
    ensures PartsAt(s', nick, ident, host) == PartsAt(s, nick, ident, host)
  {
    SameUpTo(s, s', nick, low);
    if ident.Some? { SameUpTo(s, s', ident.value, low); }
    if host.To? { SameUpTo(s, s', host.value, low); }
  }

  /** A private message or a notice: its target is cut off, and the text comes behind it. */
  method CutTarget(buf: array<char>, params: nat, ghost stop: nat) returns (target: string, text: Option<string>)
    requires IsCString(buf[..], params, stop)
    modifies buf
    ensures (target, text) == Cut(old(CStr(buf[..], params)), ' ')
    ensures forall k | 0 <= k < buf.Length && !(params <= k < stop) :: buf[k] == old(buf[k])
  {
    hide Cut;
    CStrIs(buf[..], params, stop);
    var space := CutAt(buf, params, stop, ' ');
    if space.None? {
      return CStr(buf[..], params), None;
    }
    CStrIs(buf[..], params, space.value);
    CStrIs(buf[..], space.value + 1, stop);
    return CStr(buf[..], params), Some(CStr(buf[..], space.value + 1));
  }

  /** A names reply: the channel ends at the first " :" behind the first '#'. */
  method CutNames(buf: array<char>, params: nat, ghost stop: nat)
    requires IsCString(buf[..], params, stop)
    modifies buf
    ensures CStr(buf[..], params) == BeforeNames(old(CStr(buf[..], params)))
    ensures forall k | 0 <= k < buf.Length && !(params <= k < stop) :: buf[k] == old(buf[k])
  {
    hide Find, CStr;
    ghost var p := buf[params..stop];
    CStrIs(buf[..], params, stop);
    var channel := StrStr(buf, params, stop, "#");
    if channel.None? {
      return;
    }
    assert buf[channel.value..stop] == p[channel.value-params..];
    var end := StrStr(buf, channel.value, stop, " :");
    if end.None? {
      return;
    }
    buf[end.value] := NUL;
    CStrIs(buf[..], params, end.value);
    assert buf[params..end.value] == p[..end.value-params];
  }

  /** Hands a reply to its hook.  The source's pieces lie below `low`, the parameters above. */
  method DeliverReply(buf: array<char>, nick: nat, ident: Option<nat>, host: Pointer<nat>, ghost low: nat,
                      command: string, params: Option<nat>, ghost stop: nat) returns (d: Delivery)
    requires nick <= low < buf.Length && buf[low] == NUL
    requires (ident.Some? ==> ident.value <= low) && (host.To? ==> host.value <= low)
    requires params.Some? ==> low < params.value && IsCString(buf[..], params.value, stop)
    modifies buf
    ensures d == Deliver(old(PartsAt(buf[..], nick, ident, host)), command, old(TextAt(buf[..], params)))
    ensures forall k | 0 <= k < buf.Length && !(params.Some? && params.value <= k < stop) :: buf[k] == old(buf[k])
  {
    hide Cut, CStr, BeforeNames;
    if command !in ["PRIVMSG", "NOTICE", "353"] {
      var reply := Reply(Some(CStr(buf[..], nick)), TextAt(buf[..], ident), PointerAt(buf[..], host), command,
                         Ref(TextAt(buf[..], params)), None);
      return if command == "MODE" then ModeChange(reply) else Hook(reply);
    }
    if params.None? {
      return Nothing;
    }
    ghost var s := buf[..];
    var target, text, rest := "", None, Null;
    if command == "353" {
      CutNames(buf, params.value, stop);
      rest := To(CStr(buf[..], params.value));
    } else {
      target, text := CutTarget(buf, params.value, stop);
      if text.None? && command == "PRIVMSG" {
        return Nothing;
      }
      rest := if text.None? then Wild else Ref(text);
    }
    SameParts(s, buf[..], nick, ident, host, low);
    return Hook(Reply(Some(CStr(buf[..], nick)), TextAt(buf[..], ident), PointerAt(buf[..], host), command, rest,
                      if command == "353" then None else Some(target)));
  }

  /** The rest of a line once its prefix is cut off: the command, its parameters, the hook. */
  method ParseRest(buf: array<char>, prefix: nat, ghost low: nat, cmd: nat, ghost stop: nat) returns (d: Delivery)
    requires IsCString(buf[..], prefix, low) && cmd == low + 1 && IsCString(buf[..], cmd, stop)
    modifies buf
    ensures d == Deliver(ReadSource(old(buf[prefix..low])), Cut(old(buf[cmd..stop]), ' ').0,
        Cut(old(buf[cmd..stop]), ' ').1)
    ensures forall k | 0 <= k < buf.Length && !(prefix <= k < stop) :: buf[k] == old(buf[k])
  {
    hide Cut, ReadSource, Deliver;
    ghost var s0 := buf[..];
    var params := CutAt(buf, cmd, stop, ' ');
    ghost var cmdEnd := if params.Some? then params.value else stop;
    if params.Some? {
      Elsewhere(s0, cmdEnd, NUL, prefix, low);
    }
    ghost var s1 := buf[..];
    var ident, host := ParseSource(buf, prefix, low);
    SameAbove(s1, buf[..], low, cmd, cmdEnd);
    var command := CStr(buf[..], cmd);
    if params.Some? {
      params := Some(params.value + 1);
      SameAbove(s1, buf[..], low, params.value, stop);
    }
    d := DeliverReply(buf, prefix, ident, host, low, command, params, stop);
  }

  lemma {:induction false} ReadPrefixed(line: string)
    requires line != "" && line[0] == ':'
    ensures var (prefix, rest) := Cut(line[1..], ' ');
            ReadLine(line) == match rest
                              case None => Nothing
                              case Some(r) => Deliver(ReadSource(prefix), Cut(r, ' ').0, Cut(r, ' ').1)
  {
    hide Cut, ReadSource, Deliver;
  }

  /** One line, from data to its NUL at stop.  Only the line itself is written to. */
  method ParseIrcReply(buf: array<char>, data: nat, ghost stop: nat) returns (d: Delivery)
    requires IsCString(buf[..], data, stop)
    modifies buf
    ensures d == ReadLine(old(buf[data..stop]))
    ensures forall k | 0 <= k < buf.Length && !(data <= k < stop) :: buf[k] == old(buf[k])
  {
    hide Cut, ReadSource, Deliver, ReadLine, CStr;
    if buf[data] != ':' {
      d := ParseUnprefixed(buf, data, stop);
      return;
    }
    ghost var line := buf[data..stop];
    ReadPrefixed(line);
    assert buf[data+1..stop] == line[1..];
    var space := CutAt(buf, data + 1, stop, ' ');
    if space.None? {
      return Nothing;
    }
    d := ParseRest(buf, data + 1, space.value, space.value + 1, stop);
  }

  lemma {:induction false} SameAbove(s: seq<char>, s': seq<char>, low: nat, from: nat, stop: nat)
    requires IsCString(s, from, stop) && low <= from && |s'| == |s|
    requires forall k | low <= k < |s| :: s'[k] == s[k]
    ensures IsCString(s', from, stop) && CStr(s', from) == s[from..stop]
  {
    assert s'[from..stop] == s[from..stop];
    CStrIs(s', from, stop);
  }

  lemma {:induction false} LinesStep(text: string)
    ensures Find(text, CRLF).None? ==> Lines(text) == []
    ensures Find(text, CRLF).Some? ==>
      var k := Find(text, CRLF).value;
      k + 2 <= |text| && Lines(text) == [text[..k]] + Lines(text[k+2..])
  {}

  lemma {:induction false} ReadAllAppend(a: seq<string>, b: seq<string>)
    ensures ReadAll(a + b) == ReadAll(a) + ReadAll(b)
    decreases |a|
  {
    hide ReadLine;
    if a == [] {
      assert a + b == b;
    } else {
      assert (a + b)[0] == a[0] && (a + b)[1..] == a[1..] + b;
      assert ReadAll(a + b) == [ReadLine(a[0])] + ReadAll(a[1..] + b);
      assert ReadAll(a) == [ReadLine(a[0])] + ReadAll(a[1..]);
      hide ReadAll;
      ReadAllAppend(a[1..], b);
    }
  }

  /** A received text, line by line; what follows the last CR LF is not looked at.  Messages that
      were printed into it come out as they were meant exactly when their fields allow it. */
  method SplitToReplies(buf: array<char>, ghost stop: nat) returns (ds: seq<Delivery>)
    requires IsCString(buf[..], 0, stop)
    modifies buf
    ensures ds == ReadAll(Lines(old(buf[..stop])))
    ensures forall ms: seq<(Source, Message)> | PrintMessages(ms) == old(buf[..stop]) ::
      ds == MeantAll(ms) <==> forall i | 0 <= i < |ms| :: Sendable(ms[i].0, ms[i].1)
  {
    hide Lines, ReadLine;
    ghost var text := buf[..stop];
    ghost var seen := [];
    ds := [];
    var data := 0;
    assert text[0..] == text;
    while true
      invariant data <= stop < buf.Length && buf[stop] == NUL
      invariant forall k | data <= k < stop :: buf[k] == text[k] && buf[k] != NUL
      invariant seen + Lines(text[data..]) == Lines(text) && ds == ReadAll(seen)
      decreases stop - data
    {
      ghost var here := text[data..];
      assert buf[data..stop] == here;
      var p := StrStr(buf, data, stop, CRLF);
      LinesStep(here);
      if p.None? {
        break;
      }
      ghost var k := p.value - data;
      ghost var line := here[..k];
      LineAt(text, data, k);
      buf[p.value] := NUL;
      assert buf[data..p.value] == line;
      var d := ParseIrcReply(buf, data, p.value);
      ReadAllAppend(seen, [line]);
      ds := ds + [d];
      seen := seen + [line];
      data := p.value + 2;
    }
    assert seen + [] == seen;
    forall ms: seq<(Source, Message)> | PrintMessages(ms) == text
      ensures ds == MeantAll(ms) <==> forall i | 0 <= i < |ms| :: Sendable(ms[i].0, ms[i].1)
    {
      MessagesDelivered(ms);
    }
  }

  lemma {:induction false} LineAt(text: string, data: nat, k: nat)
    requires data + k + 2 <= |text|
    ensures text[data..][..k] == text[data..data+k]
    ensures text[data..][k+2..] == text[data+k+2..]
  {}
}
