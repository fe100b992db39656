/** Lines on the wire: what the server prints, and how the client cuts them up. */
module Wire {
  import opened Auxiliar

  const CRLF := "\r\n"

  // ----- printing -----

  datatype Source = Source(nick: string, ident: string, host: string)

  datatype Message =
    | JoinMessage(channel: string)
    | QuitMessage(reason: string)
    | PartMessage(channel: string, reason: string)
    | TopicMessage(channel: string, topic: string)
    | InviteMessage(channel: string)
    | PrivateMessage(target: string, text: string)

  function Command(m: Message): string {
    match m
    case JoinMessage(_) => "JOIN"
    case QuitMessage(_) => "QUIT"
    case PartMessage(_, _) => "PART"
    case TopicMessage(_, _) => "TOPIC"
    case InviteMessage(_) => "INVITE"
    case PrivateMessage(_, _) => "PRIVMSG"
  }

  function Parameters(m: Message): string {
    match m
    case JoinMessage(channel) => channel
    case QuitMessage(reason) => ":" + (if reason != "" then reason else "Quit")
    case PartMessage(channel, reason) => channel + (if reason != "" then " :" + reason else "")
    case TopicMessage(channel, topic) => channel + " :" + topic
    case InviteMessage(channel) => channel
    case PrivateMessage(target, text) => target + [' '] + (":" + text)
  }

  function Prefix(src: Source): string { src.nick + "!" + src.ident + "@" + src.host }

  function Body(src: Source, m: Message): string {
    Prefix(src) + [' '] + (Command(m) + [' '] + Parameters(m))
  }

  function Line(src: Source, m: Message): string { ":" + Body(src, m) }

  function PrintAll(lines: seq<string>): string {
    if lines == [] then "" else lines[0] + CRLF + PrintAll(lines[1..])
  }

  // ----- cutting a line -----

  /** Everything before the first c, and what follows it. */
  function Cut(s: string, c: char): (r: (string, Option<string>)) {
    match Find(s, [c])
    case None => (s, None)
    case Some(k) => (s[..k], Some(s[k+1..]))
  }

  lemma {:induction false} OccursChar(s: string, c: char, k: nat)
    ensures OccursAt(s, [c], k) <==> k < |s| && s[k] == c
  {}

  lemma {:induction false} CutFound(s: string, c: char, head: string, tail: string)
    ensures Cut(s, c) == (head, Some(tail)) <==> s == head + [c] + tail && c !in head
  {
    forall k: nat ensures OccursAt(s, [c], k) <==> k < |s| && s[k] == c { OccursChar(s, c, k); }
    if s == head + [c] + tail && c !in head {
      assert OccursAt(s, [c], |head|) by { assert s[|head|] == c; }
      assert forall k: nat | k < |head| :: s[k] == head[k];
      assert Find(s, [c]) == Some(|head|);
      assert s[..|head|] == head && s[|head|+1..] == tail;
    }
  }

  lemma {:induction false} CutMissing(s: string, c: char)
    ensures Cut(s, c) == (s, None) <==> c !in s
    ensures Cut(s, c).1.None? ==> c !in s
  {
    forall k: nat ensures OccursAt(s, [c], k) <==> k < |s| && s[k] == c { OccursChar(s, c, k); }
    if c in s {
      var k: nat :| k < |s| && s[k] == c;
      assert OccursAt(s, [c], k);
    }
  }

  /** What a pointer of the program leads to.  A wild one was never assigned, or is one past null. */
  datatype Pointer<+T> = Wild | Null | To(value: T)

  function Ref(s: Option<string>): Pointer<string> {
    match s case None => Null case Some(x) => To(x)
  }

  datatype Parts = Parts(nick: string, ident: Option<string>, host: Pointer<string>)

  /** What the hook for a command is handed.  A part that is missing is a null pointer, except
      that the host is wild when no ident was found. */
  datatype Reply = Reply(nick: Option<string>, ident: Option<string>, host: Pointer<string>,
                         command: string, params: Pointer<string>, target: Option<string>)

  datatype Delivery =
    | Nothing                     // the line is dropped
    | Pong(params: string)        // a ping, answered at once
    | Hook(reply: Reply)
    | ModeChange(reply: Reply)    // cut up further, and perhaps not handed to the hook at all

  /** nick!ident@host; the host is not looked for without a '!'. */
  function ReadSource(prefix: string): Parts {
    var (nick, rest) := Cut(prefix, '!');
    match rest
    case None => Parts(nick, None, Wild)
    case Some(r) => var (ident, host) := Cut(r, '@'); Parts(nick, Some(ident), Ref(host))
  }

  /** A names reply is cut behind the channel before the hook sees it. */
  function BeforeNames(params: string): string {
    match Find(params, "#")
    case None => params
    case Some(k) =>
      match Find(params[k..], " :")
      case None => params
      case Some(e) => params[..k+e]
  }

  /** The target is cut off the parameters of a private message or a notice. */
  function Deliver(source: Parts, command: string, params: Option<string>): Delivery {
    var reply := Reply(Some(source.nick), source.ident, source.host, command, Ref(params), None);
    if command == "PRIVMSG" then
      match params
      case None => Nothing
      case Some(p) =>
        var (target, text) := Cut(p, ' ');
        if text.None? then Nothing else Hook(reply.(params := Ref(text), target := Some(target)))
    else if command == "NOTICE" then
      match params
      case None => Nothing
      case Some(p) =>
        var (target, text) := Cut(p, ' ');
        Hook(reply.(params := if text.None? then Wild else Ref(text), target := Some(target)))
    else if command == "353" then
      match params case None => Nothing case Some(p) => Hook(reply.(params := To(BeforeNames(p))))
    else if command == "MODE" then ModeChange(reply)
    else Hook(reply)
  }

  function ReadLine(line: string): Delivery {
    if line != "" && line[0] == ':' then
      var (prefix, rest) := Cut(line[1..], ' ');
      match rest
      case None => Nothing
      case Some(r) => var (command, params) := Cut(r, ' '); Deliver(ReadSource(prefix), command, params)
    else
      var (command, rest) := Cut(line, ' ');
      match rest
      case None => Nothing
      case Some(params) =>
        if command == "PING" then Pong(params)
        else Hook(Reply(None, None, Null, command, To(params), None))
  }

  /** The complete lines of a received text; what follows the last CR LF is not one. */
  function Lines(text: string): seq<string> {
    var pieces := Split(text, CRLF);
    pieces[..|pieces|-1]
  }

  function ReadAll(lines: seq<string>): seq<Delivery> {
    if lines == [] then [] else [ReadLine(lines[0])] + ReadAll(lines[1..])
  }

  // ----- the round trip -----

  /** What the hook should be handed for a printed message. */
  function Meant(src: Source, m: Message): Delivery {
    var target := if m.PrivateMessage? then Some(m.target) else None;
    var params := if m.PrivateMessage? then ":" + m.text else Parameters(m);
    Hook(Reply(Some(src.nick), Some(src.ident), To(src.host), Command(m), To(params), target))
  }

  /** No field contains a delimiter that ends it. */
  predicate Readable(src: Source, m: Message) {
    && '!' !in src.nick && '@' !in src.ident
    && ' ' !in src.nick && ' ' !in src.ident && ' ' !in src.host
    && (m.PrivateMessage? ==> ' ' !in m.target)
  }

  lemma {:induction false} SourceRoundTrip(src: Source, prefix: string)
    ensures ReadSource(prefix) == Parts(src.nick, Some(src.ident), To(src.host))
       <==> prefix == Prefix(src) && '!' !in src.nick && '@' !in src.ident
  {
    var rest := src.ident + "@" + src.host;
    CutFound(prefix, '!', src.nick, rest);
    assert src.nick + "!" + rest == Prefix(src);
    CutFound(rest, '@', src.ident, src.host);
    var (nick, r) := Cut(prefix, '!');
    if r.Some? {
      CutFound(prefix, '!', nick, r.value);
      CutFound(r.value, '@', src.ident, src.host);
    }
  }

  lemma {:induction false} CommandsHaveNoSpace(m: Message)
    ensures ' ' !in Command(m)
    ensures Command(m) == "PRIVMSG" <==> m.PrivateMessage?
    ensures Command(m) != "NOTICE" && Command(m) != "353" && Command(m) != "MODE"
  {}

  /** A printed line is read back as the message it was printed for exactly when its fields
      are free of the delimiters that end them. */
  lemma {:induction false} LineRoundTrip(src: Source, m: Message)
    ensures ReadLine(Line(src, m)) == Meant(src, m) <==> Readable(src, m)
  {
    hide Cut, ReadSource, Prefix, Command;
    var body, rest := Body(src, m), Command(m) + [' '] + Parameters(m);
    assert Line(src, m)[1..] == body;
    SpacesInPrefix(src);
    SourceRoundTrip(src, Cut(body, ' ').0);
    if ' ' !in Prefix(src) {
      CutFound(body, ' ', Prefix(src), rest);
      CommandsHaveNoSpace(m);
      CutFound(rest, ' ', Command(m), Parameters(m));
      if m.PrivateMessage? {
        CutFound(Parameters(m), ' ', m.target, ":" + m.text);
      }
    } else {
      HeadHasNone(body, ' ');
    }
  }

  lemma {:induction false} HeadHasNone(s: string, c: char)
    ensures c !in Cut(s, c).0
  {
    var (head, tail) := Cut(s, c);
    if tail.Some? { CutFound(s, c, head, tail.value); } else { CutMissing(s, c); }
  }

  lemma {:induction false} SpacesInPrefix(src: Source)
    ensures ' ' !in Prefix(src) <==> ' ' !in src.nick && ' ' !in src.ident && ' ' !in src.host
  {}

  // ----- the host handed to a hook -----

  function SourceHost(d: Delivery): Option<Pointer<string>> {
    match d
    case Hook(r) => if r.nick.Some? then Some(r.host) else None
    case ModeChange(r) => Some(r.host)
    case _ => None
  }

  lemma {:induction false} HostOfSource(prefix: string)
    ensures ReadSource(prefix).host.Wild? <==> '!' !in prefix
    ensures ReadSource(prefix).host.Null? <==> '!' in prefix && '@' !in prefix[|Cut(prefix, '!').0|..]
  {
    CutMissing(prefix, '!');
    var (nick, rest) := Cut(prefix, '!');
    if rest.Some? {
      CutFound(prefix, '!', nick, rest.value);
      assert prefix[|nick|..] == ['!'] + rest.value;
      CutMissing(rest.value, '@');
      if Cut(rest.value, '@').1.Some? {
        CutFound(rest.value, '@', Cut(rest.value, '@').0, Cut(rest.value, '@').1.value);
      }
    }
    hide Cut;
  }

  lemma {:induction false} HostDelivered(source: Parts, command: string, params: Option<string>)
    ensures var d := Deliver(source, command, params); d == Nothing || SourceHost(d) == Some(source.host)
  {
    hide Cut, BeforeNames;
  }

  /** The host of a line with a source is wild exactly when the source has no '!', and null exactly
      when there is no '@' behind the first '!'. */
  lemma {:induction false} HostHandedOver(line: string)
    requires SourceHost(ReadLine(line)).Some?
    ensures line != "" && line[0] == ':'
    ensures var host, prefix := SourceHost(ReadLine(line)).value, Cut(line[1..], ' ').0;
      && (host.Wild? <==> '!' !in prefix)
      && (host.Null? <==> '!' in prefix && '@' !in prefix[|Cut(prefix, '!').0|..])
  {
    hide Cut, Deliver, ReadSource;
    if line != "" && line[0] == ':' {
      var (prefix, rest) := Cut(line[1..], ' ');
      HostOfSource(prefix);
      if rest.Some? {
        HostDelivered(ReadSource(prefix), Cut(rest.value, ' ').0, Cut(rest.value, ' ').1);
      }
    }
  }

  /** A line of the server itself, whose source is its host name. */
  lemma {:induction false} ServerLineHost()
    ensures SourceHost(ReadLine(":irc.host 001 n :Welcome")) == Some(Wild)
  {
    hide Cut, ReadSource;
    var line, rest := ":irc.host 001 n :Welcome", "001 n :Welcome";
    assert line[1..] == "irc.host" + [' '] + rest;
    CutFound(line[1..], ' ', "irc.host", rest);
    assert rest == "001" + [' '] + "n :Welcome";
    CutFound(rest, ' ', "001", "n :Welcome");
    HostOfSource("irc.host");
    HostDelivered(ReadSource("irc.host"), "001", Some("n :Welcome"));
  }

  lemma {:induction false} ParametersDelivered(source: Parts, command: string, params: Option<string>)
    ensures var d := Deliver(source, command, params);
      d.Hook? ==> (d.reply.params.Wild? <==> command == "NOTICE" && params.Some? && ' ' !in params.value)
  {
    hide BeforeNames;
    if params.Some? {
      CutMissing(params.value, ' ');
    }
    hide Cut;
  }

  /** The parameters handed to a hook are wild exactly for a notice that has a target and no text. */
  lemma {:induction false} ParametersHandedOver(line: string)
    requires ReadLine(line).Hook?
    ensures var rest := Cut(line[if line != "" && line[0] == ':' then 1 else 0..], ' ').1;
      ReadLine(line).reply.params.Wild? <==>
        && line != "" && line[0] == ':' && rest.Some?
        && var (command, params) := Cut(rest.value, ' ');
        command == "NOTICE" && params.Some? && ' ' !in params.value
  {
    hide Cut, Deliver, ReadSource;
    if line != "" && line[0] == ':' {
      var (prefix, rest) := Cut(line[1..], ' ');
      if rest.Some? {
        ParametersDelivered(ReadSource(prefix), Cut(rest.value, ' ').0, Cut(rest.value, ' ').1);
      }
    }
  }

  lemma {:induction false} HeadOfLonger(a: string, b: string, c: char)
    requires c in a
    ensures Cut(a + b, c).0 == Cut(a, c).0
  {
    CutMissing(a, c);
    var (head, tail) := Cut(a, c);
    CutFound(a, c, head, tail.value);
    assert a + b == head + [c] + (tail.value + b);
    CutFound(a + b, c, head, tail.value + b);
  }

  lemma {:induction false} BodyFromNick(src: Source, m: Message) returns (rest: string)
    ensures Body(src, m) == src.nick + "!" + rest == src.nick + ("!" + rest)
  {
    rest := src.ident + "@" + src.host + [' '] + (Command(m) + [' '] + Parameters(m));
  }

  /** A printed message hands over a host, if not always its own, unless a space in the nick ends
      the source before its '!'. */
  lemma {:induction false} PrintedHost(src: Source, m: Message)
    ensures ReadSource(Cut(Body(src, m), ' ').0).host.Wild? <==> ' ' in src.nick && '!' !in Cut(src.nick, ' ').0
  {
    hide ReadSource, Cut, Body;
    var nick, head := src.nick, Cut(Body(src, m), ' ').0;
    var rest := BodyFromNick(src, m);
    HostOfSource(head);
    if ' ' in nick {
      HeadOfLonger(nick, "!" + rest, ' ');
    } else {
      LongHead(nick + "!", rest, ' ');
      assert head[|nick|] == (nick + "!")[|nick|] == '!';
    }
  }

  lemma {:induction false} LongHead(a: string, b: string, c: char)
    requires c !in a
    ensures a <= Cut(a + b, c).0
  {
    var (head, tail) := Cut(a + b, c);
    if tail.Some? {
      CutFound(a + b, c, head, tail.value);
      assert (a + b)[|head|] == c && forall k | 0 <= k < |a| :: (a + b)[k] == a[k];
    }
  }

  // ----- reading parameters further -----

  predicate StartsWithColon(s: string) { s != "" && s[0] == ':' }

  /** The channel or target and the text, by the grammar of the prefix form: the text is the
      last parameter, introduced by a colon. */
  function ReadParameters(params: string): (string, Option<string>) {
    if StartsWithColon(params) then ("", Some(params[1..]))
    else match Find(params, " :")
      case None => (params, None)
      case Some(k) => (params[..k], Some(params[k+2..]))
  }

  /** What the printer was given; a quit without a reason is announced as "Quit". */
  function Fields(m: Message): (string, Option<string>) {
    match m
    case JoinMessage(channel) => (channel, None)
    case QuitMessage(reason) => ("", Some(if reason == "" then "Quit" else reason))
    case PartMessage(channel, reason) => (channel, if reason == "" then None else Some(reason))
    case TopicMessage(channel, topic) => (channel, Some(topic))
    case InviteMessage(channel) => (channel, None)
    case PrivateMessage(target, text) => (target, Some(text))
  }

  predicate Unmistakable(name: string) { !StartsWithColon(name) && Find(name, " :").None? }

  lemma {:induction false} TextReadBack(name: string, text: string)
    ensures ReadParameters(name + " :" + text) == (name, Some(text)) <==> Unmistakable(name)
  {
    var params := name + " :" + text;
    assert Borderless(" :") by { assert " :"[..1][0] != " :"[1..][0]; }
    FindAfterPiece(name, " :", text);
    if Find(name, " :").None? {
      FirstAtEnd(name, " :");
    } else if Find(name + " :", " :") == Some(|name|) {
      FreeBeforeEnd(name, " :");
    }
    assert OccursAt(params, " :", |name|);
    assert params[..|name|] == name && params[|name|+2..] == text;
    hide Find;
    if Find(params, " :") != Some(|name|) && Find(params, " :").Some? {
      assert |params[..Find(params, " :").value]| != |name|;
    }
  }

  /** The parameters say what was meant exactly when the channel or target could not be taken
      for the text or its introduction. */
  lemma {:induction false} ParametersReadBack(m: Message)
    ensures ReadParameters(Parameters(m)) == Fields(m) <==> m.QuitMessage? || Unmistakable(Fields(m).0)
  {
    hide Find;
    var (name, text) := Fields(m);
    if !m.QuitMessage? {
      if text.Some? {
        hide ReadParameters;
        TextReadBack(name, text.value);
        assert Parameters(m) == name + " :" + text.value;
      } else {
        assert Parameters(m) == name;
      }
    }
  }

  lemma {:induction false} PrintAllIsJoin(lines: seq<string>)
    ensures PrintAll(lines) == Join(lines + [""], CRLF)
    decreases |lines|
  {
    if lines != [] {
      PrintAllIsJoin(lines[1..]);
      assert (lines + [""])[1..] == lines[1..] + [""];
      assert lines[0] == (lines + [""])[0];
    }
  }

  /** The lines of a printed stream come out one by one, in order, exactly when none of them
      contains CR LF. */
  lemma {:induction false} StreamRoundTrip(lines: seq<string>)
    ensures Lines(PrintAll(lines)) == lines <==> forall line | line in lines :: !Contains(line, CRLF)
  {
    var text, pieces := PrintAll(lines), lines + [""];
    PrintAllIsJoin(lines);
    assert Borderless(CRLF) by { assert CRLF[..1][0] != CRLF[1..][0]; }
    SplitOfJoinBorderless(pieces, CRLF);
    assert !Contains("", CRLF);
    assert forall p :: p in pieces <==> p in lines || p == "";
    if Lines(text) == lines {
      SplitIsSeparable(text, CRLF);
      forall line | line in lines ensures !Contains(line, CRLF) {
        assert line in Lines(text);
        assert line in Split(text, CRLF);
      }
    }
    if forall line | line in lines :: !Contains(line, CRLF) {
      assert Split(text, CRLF)[..|lines|] == lines;
    }
  }

  // ----- both together -----

  function PrintMessages(ms: seq<(Source, Message)>): string {
    if ms == [] then "" else Line(ms[0].0, ms[0].1) + CRLF + PrintMessages(ms[1..])
  }

  function MeantAll(ms: seq<(Source, Message)>): seq<Delivery> {
    if ms == [] then [] else [Meant(ms[0].0, ms[0].1)] + MeantAll(ms[1..])
  }

  ghost predicate Sendable(src: Source, m: Message) {
    Readable(src, m) && !Contains(Line(src, m), CRLF)
  }

  function LinesOf(ms: seq<(Source, Message)>): (r: seq<string>)
    ensures |r| == |ms|
  {
    if ms == [] then [] else [Line(ms[0].0, ms[0].1)] + LinesOf(ms[1..])
  }

  lemma {:induction false} LinesOfPrinted(ms: seq<(Source, Message)>)
    ensures PrintMessages(ms) == PrintAll(LinesOf(ms))
    ensures forall i | 0 <= i < |ms| :: LinesOf(ms)[i] == Line(ms[i].0, ms[i].1)
    decreases |ms|
  {
    hide Line;
    if ms != [] {
      LinesOfPrinted(ms[1..]);
      assert LinesOf(ms)[1..] == LinesOf(ms[1..]);
    }
  }

  lemma {:induction false} LinesReadBack(ms: seq<(Source, Message)>)
    ensures ReadAll(LinesOf(ms)) == MeantAll(ms) <==> forall i | 0 <= i < |ms| :: Readable(ms[i].0, ms[i].1)
    decreases |ms|
  {
    hide Line, ReadLine, Meant, Readable;
    if ms != [] {
      LinesReadBack(ms[1..]);
      LineRoundTrip(ms[0].0, ms[0].1);
      var a, b := ReadAll(LinesOf(ms)), MeantAll(ms);
      assert LinesOf(ms)[1..] == LinesOf(ms[1..]);
      assert a == [ReadLine(LinesOf(ms)[0])] + ReadAll(LinesOf(ms[1..]));
      assert a == b <==> a[0] == b[0] && a[1..] == b[1..];
      assert forall i | 0 < i < |ms| :: ms[i] == ms[1..][i-1];
      assert (forall i | 0 <= i < |ms[1..]| :: Readable(ms[1..][i].0, ms[1..][i].1)) ==>
        forall i | 0 < i < |ms| :: Readable(ms[i].0, ms[i].1);
    }
  }

  /** A stream of messages comes out line by line, each read back as what was meant, exactly
      when all their fields are free of the delimiters. */
  lemma {:induction false} MessagesRoundTrip(ms: seq<(Source, Message)>)
    ensures Lines(PrintMessages(ms)) == LinesOf(ms) && ReadAll(LinesOf(ms)) == MeantAll(ms)
       <==> forall i | 0 <= i < |ms| :: Sendable(ms[i].0, ms[i].1)
  {
    hide Line, Lines, Readable;
    LinesOfPrinted(ms);
    LinesReadBack(ms);
    StreamRoundTrip(LinesOf(ms));
    assert forall i | 0 <= i < |ms| :: LinesOf(ms)[i] in LinesOf(ms);
  }

  // ----- from the printed stream to the hooks -----

  lemma {:induction false} LineCount(lines: seq<string>)
    ensures |Lines(PrintAll(lines))| >= |lines|
    ensures |Lines(PrintAll(lines))| == |lines| ==> forall line | line in lines :: !Contains(line, CRLF)
    decreases |lines|
  {
    if lines == [] {
      OnePiece("", CRLF);
    } else {
      var first, rest := lines[0], lines[1..];
      assert Borderless(CRLF) by { assert CRLF[..1][0] != CRLF[1..][0]; }
      SplitOfConcat(first, CRLF, PrintAll(rest));
      OnePiece(first, CRLF);
      LineCount(rest);
      assert forall line | line in lines :: line == first || line in rest;
    }
    hide Contains;
  }

  lemma {:induction false} OneEach(lines: seq<string>, ms: seq<(Source, Message)>)
    ensures |ReadAll(lines)| == |lines|
    ensures |MeantAll(ms)| == |ms|
    decreases |lines|, |ms|
  {
    if lines != [] {
      OneEach(lines[1..], ms);
    } else if ms != [] {
      OneEach(lines, ms[1..]);
    }
  }

  /** What the client makes of a printed stream is what was meant, message by message, exactly
      when all fields are free of the delimiters. */
  lemma {:induction false} MessagesDelivered(ms: seq<(Source, Message)>)
    ensures ReadAll(Lines(PrintMessages(ms))) == MeantAll(ms)
        <==> forall i | 0 <= i < |ms| :: Sendable(ms[i].0, ms[i].1)
  {
    var lines := LinesOf(ms);
    LinesOfPrinted(ms);
    MessagesRoundTrip(ms);
    OneEach(Lines(PrintMessages(ms)), ms);
    LineCount(lines);
    StreamRoundTrip(lines);
    hide Line, Lines, ReadAll, MeantAll, Readable, Contains, Sendable;
    if ReadAll(Lines(PrintMessages(ms))) == MeantAll(ms) {
      assert Lines(PrintMessages(ms)) == lines;
    }
  }
}
