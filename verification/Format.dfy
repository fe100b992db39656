/** The lines in so many words: what the printers write, what each form of line is read as, and
    where a received text is cut. */
module Format {
  import opened Auxiliar
  import opened Wire
  import opened Roster

  // ----- what is printed -----

  /** Everything before the command. */
  function From(src: Source): string { ":" + src.nick + "!" + src.ident + "@" + src.host + " " }

  lemma {:induction false} WrittenOut(src: Source, m: Message)
    ensures Line(src, m) == From(src) + (Command(m) + " " + Parameters(m))
  {
    hide Command, Parameters;
  }

  lemma {:induction false} CommandAndText(name: string, text: string)
    ensures Command(JoinMessage(name)) + " " + Parameters(JoinMessage(name)) == "JOIN " + name
    ensures Command(InviteMessage(name)) + " " + Parameters(InviteMessage(name)) == "INVITE " + name
    ensures Command(PartMessage(name, "")) + " " + Parameters(PartMessage(name, "")) == "PART " + name
    ensures Command(QuitMessage(text)) + " " + Parameters(QuitMessage(text))
        == "QUIT :" + (if text == "" then "Quit" else text)
  {}

  lemma {:induction false} CommandNameText(name: string, text: string)
    ensures Command(PrivateMessage(name, text)) + " " + Parameters(PrivateMessage(name, text))
        == "PRIVMSG " + name + " :" + text
    ensures Command(TopicMessage(name, text)) + " " + Parameters(TopicMessage(name, text))
        == "TOPIC " + name + " :" + text
    ensures text != "" ==>
      Command(PartMessage(name, text)) + " " + Parameters(PartMessage(name, text)) == "PART " + name + " :" + text
  {}

  /** Each printer's line, written out. */
  lemma {:induction false} PrintedLines(src: Source, name: string, text: string)
    ensures Line(src, JoinMessage(name)) == From(src) + ("JOIN " + name)
    ensures Line(src, InviteMessage(name)) == From(src) + ("INVITE " + name)
    ensures Line(src, PrivateMessage(name, text)) == From(src) + ("PRIVMSG " + name + " :" + text)
    ensures Line(src, TopicMessage(name, text)) == From(src) + ("TOPIC " + name + " :" + text)
    ensures Line(src, PartMessage(name, "")) == From(src) + ("PART " + name)
    ensures text != "" ==> Line(src, PartMessage(name, text)) == From(src) + ("PART " + name + " :" + text)
    ensures Line(src, QuitMessage(text)) == From(src) + ("QUIT :" + (if text == "" then "Quit" else text))
  {
    hide Line, From, Command, Parameters;
    CommandAndText(name, text);
    CommandNameText(name, text);
    WrittenOut(src, JoinMessage(name));
    WrittenOut(src, InviteMessage(name));
    WrittenOut(src, PrivateMessage(name, text));
    WrittenOut(src, TopicMessage(name, text));
    WrittenOut(src, PartMessage(name, ""));
    WrittenOut(src, PartMessage(name, text));
    WrittenOut(src, QuitMessage(text));
  }

  // ----- where a received text is cut -----

  lemma {:induction false} ReturnIn(s: string, k: nat)
    requires OccursAt(s, CRLF, k)
    ensures '\r' in s
  {
    assert s[k] == s[k..k+2][0];
  }

  /** A line ends at the first CR LF, and what follows the last one is none. */
  lemma {:induction false} LineEnds(line: string, rest: string)
    requires '\r' !in line
    ensures Lines(line) == []
    ensures Lines(line + "\r\n" + rest) == [line] + Lines(rest)
  {
    hide Contains, Split;
    forall k: nat ensures !OccursAt(line, CRLF, k) {
      if OccursAt(line, CRLF, k) { ReturnIn(line, k); }
    }
    OnePiece(line, CRLF);
    assert Borderless(CRLF) by { assert CRLF[..1][0] != CRLF[1..][0]; }
    SplitOfConcat(line, CRLF, rest);
    SplitStep(line, CRLF);
  }

  // ----- what a line is read as -----

  lemma {:induction false} FirstSpace(head: string, tail: string)
    requires ' ' !in head
    ensures Cut(head + " " + tail, ' ') == (head, Some(tail))
  {
    assert " " == [' '];
    CutFound(head + " " + tail, ' ', head, tail);
  }

  /** A line without a source is a ping, or goes to its hook with null pointers for the source, or
      is dropped for want of parameters. */
  lemma {:induction false} WithoutSource(command: string, params: string)
    requires ' ' !in command && !StartsWithColon(command)
    ensures ReadLine(command + " " + params)
         == if command == "PING" then Pong(params) else Hook(Reply(None, None, Null, command, To(params), None))
    ensures ReadLine(command) == Nothing
  {
    hide Cut;
    FirstSpace(command, params);
    CutMissing(command, ' ');
    if command != "" { assert (command + " " + params)[0] == command[0]; }
  }

  lemma {:induction false} PingAhead(params: string)
    ensures "PING " <= "PING" + [' '] + params
  {}

  /** A ping is answered, and nothing else is. */
  lemma {:induction false} PongIffPing(line: string)
    ensures ReadLine(line).Pong? <==> "PING " <= line
    ensures "PING " <= line ==> ReadLine(line) == Pong(line[5..])
  {
    hide Cut, Deliver, ReadSource;
    if "PING " <= line {
      assert line == "PING" + " " + line[5..];
      WithoutSource("PING", line[5..]);
    } else if !StartsWithColon(line) {
      var (command, rest) := Cut(line, ' ');
      if rest.Some? {
        CutFound(line, ' ', command, rest.value);
        PingAhead(rest.value);
      }
    } else if Cut(line[1..], ' ').1.Some? {
      var r := Cut(line[1..], ' ').1.value;
      NoPongDelivered(ReadSource(Cut(line[1..], ' ').0), Cut(r, ' ').0, Cut(r, ' ').1);
    }
  }

  lemma {:induction false} NoPongDelivered(source: Parts, command: string, params: Option<string>)
    ensures !Deliver(source, command, params).Pong?
  {
    hide Cut, BeforeNames;
  }

  /** What the hook for a line with a source is handed, if its command is none of those that cut
      their parameters. */
  lemma {:induction false} WithSource(prefix: string, command: string, params: string)
    requires ' ' !in prefix && ' ' !in command
    ensures var p := ReadSource(prefix);
      var reply := Reply(Some(p.nick), p.ident, p.host, command, To(params), None);
      var d := ReadLine(":" + prefix + " " + command + " " + params);
      && (command !in ["PRIVMSG", "NOTICE", "353", "MODE"] ==> d == Hook(reply))
      && (command == "353" ==> d == Hook(reply.(params := To(BeforeNames(params)))))
      && (command == "MODE" ==> d == ModeChange(reply))
  {
    hide Cut, ReadSource, BeforeNames, ReadLine;
    ReadCommand(prefix, command, params);
  }

  /** A private message and a notice have their target taken off. */
  lemma {:induction false} WithTarget(prefix: string, command: string, target: string, text: string)
    requires ' ' !in prefix && ' ' !in target && command in ["PRIVMSG", "NOTICE"]
    ensures var p := ReadSource(prefix);
      ReadLine(":" + prefix + " " + command + " " + target + " " + text)
        == Hook(Reply(Some(p.nick), p.ident, p.host, command, To(text), Some(target)))
  {
    hide Cut, ReadSource, BeforeNames, ReadLine;
    var params := target + " " + text;
    assert ":" + prefix + " " + command + " " + target + " " + text == ":" + prefix + " " + command + " " + params;
    ReadCommand(prefix, command, params);
    FirstSpace(target, text);
  }

  /** ... and without a text the one is dropped, and the other has its parameters one past null. */
  lemma {:induction false} WithoutText(prefix: string, target: string)
    requires ' ' !in prefix && ' ' !in target
    ensures ReadLine(":" + prefix + " PRIVMSG " + target) == Nothing
    ensures var p := ReadSource(prefix);
      ReadLine(":" + prefix + " NOTICE " + target)
        == Hook(Reply(Some(p.nick), p.ident, p.host, "NOTICE", Wild, Some(target)))
  {
    hide Cut, ReadSource, BeforeNames;
    forall command | command == "PRIVMSG" || command == "NOTICE"
      ensures ReadLine(":" + prefix + " " + command + " " + target)
          == Deliver(ReadSource(prefix), command, Some(target))
    {
      ReadCommand(prefix, command, target);
    }
    CutMissing(target, ' ');
    assert ":" + prefix + " PRIVMSG " + target == ":" + prefix + " " + "PRIVMSG" + " " + target;
    assert ":" + prefix + " NOTICE " + target == ":" + prefix + " " + "NOTICE" + " " + target;
  }

  lemma {:induction false} ReadCommand(prefix: string, command: string, params: string)
    requires ' ' !in prefix && ' ' !in command
    ensures ReadLine(":" + prefix + " " + command + " " + params) == Deliver(ReadSource(prefix), command, Some(params))
    ensures ReadLine(":" + prefix + " " + command) == Deliver(ReadSource(prefix), command, None)
  {
    hide Cut, ReadSource, Deliver;
    var rest := command + " " + params;
    assert ":" + prefix + " " + command + " " + params == ":" + (prefix + " " + rest);
    assert ":" + prefix + " " + command == ":" + (prefix + " " + command);
    assert (":" + (prefix + " " + rest))[1..] == prefix + " " + rest;
    assert (":" + (prefix + " " + command))[1..] == prefix + " " + command;
    FirstSpace(prefix, rest);
    FirstSpace(prefix, command);
    FirstSpace(command, params);
    CutMissing(command, ' ');
  }

  /** A line with a source and no parameters: the replies that would be cut are dropped, the others
      handed over with a null pointer. */
  lemma {:induction false} WithoutParameters(prefix: string, command: string)
    requires ' ' !in prefix && ' ' !in command
    ensures ReadLine(":" + prefix) == Nothing
    ensures var p := ReadSource(prefix); var reply := Reply(Some(p.nick), p.ident, p.host, command, Null, None);
      ReadLine(":" + prefix + " " + command)
        == if command in ["PRIVMSG", "NOTICE", "353"] then Nothing
           else if command == "MODE" then ModeChange(reply) else Hook(reply)
  {
    hide Cut, ReadSource, BeforeNames;
    CutMissing(prefix, ' ');
    assert (":" + prefix)[1..] == prefix;
    ReadCommand(prefix, command, "");
    hide ReadLine;
  }

  /** The source: a nick, with a '!' an ident behind it, and with an '@' a host behind that. */
  lemma {:induction false} SourceParts(nick: string, ident: string, host: string)
    requires '!' !in nick && '@' !in ident
    ensures ReadSource(nick) == Parts(nick, None, Wild)
    ensures ReadSource(nick + "!" + ident) == Parts(nick, Some(ident), Null)
    ensures ReadSource(nick + "!" + ident + "@" + host) == Parts(nick, Some(ident), To(host))
  {
    hide Cut;
    CutMissing(nick, '!');
    assert ['!'] == "!" && ['@'] == "@";
    CutFound(nick + "!" + ident, '!', nick, ident);
    CutMissing(ident, '@');
    assert nick + "!" + ident + "@" + host == nick + "!" + (ident + "@" + host);
    CutFound(nick + "!" + (ident + "@" + host), '!', nick, ident + "@" + host);
    CutFound(ident + "@" + host, '@', ident, host);
  }

  /** A names reply ends, for its hook, before the first " :" behind the first '#'. */
  lemma {:induction false} NamesCutOff(before: string, channel: string, names: string)
    requires '#' !in before
    ensures BeforeNames(before) == before
    ensures StartsWithHash(channel) && !Contains(channel, " :") ==>
      && BeforeNames(before + channel + " :" + names) == before + channel
      && BeforeNames(before + channel) == before + channel
  {
    hide Contains;
    NoHash(before);
    if StartsWithHash(channel) && !Contains(channel, " :") {
      HashAt(before, channel);
      HashAt(before, channel + " :" + names);
      assert before + channel + " :" + names == before + (channel + " :" + names);
      assert (before + channel)[|before|..] == channel;
      assert (before + (channel + " :" + names))[|before|..] == channel + " :" + names;
      assert Borderless(" :") by { assert " :"[..1][0] != " :"[1..][0]; }
      FirstAtEnd(channel, " :");
      FindAfterPiece(channel, " :", names);
      hide Find;
      assert (before + (channel + " :" + names))[..|before|+|channel|] == before + channel;
    }
  }

  /** For the list of users it is what stands behind that " :" that counts, and nothing is listed without. */
  lemma {:induction false} NamesListed(before: string, channel: string, names: string)
    requires '#' !in before
    ensures DecodeNames(before) == []
    ensures StartsWithHash(channel) && !Contains(channel, " :") ==>
      && DecodeNames(before + channel) == []
      && DecodeNames(before + channel + " :" + names) == EntriesOf(Split(names, " "), channel)
  {
    hide Contains, EntriesOf, Split;
    NoHash(before);
    if StartsWithHash(channel) && !Contains(channel, " :") {
      var all := channel + " :" + names;
      HashAt(before, channel);
      HashAt(before, all);
      assert before + channel + " :" + names == before + all;
      assert (before + channel)[|before|..] == channel && (before + all)[|before|..] == all;
      assert Borderless(" :") by { assert " :"[..1][0] != " :"[1..][0]; }
      FirstAtEnd(channel, " :");
      FindAfterPiece(channel, " :", names);
      hide Find;
      assert all[..|channel|] == channel && all[|channel|+2..] == names;
    }
  }

  /** Which of the two marks a name begins with is its flag, and the nick is the rest. */
  lemma {:induction false} MarkedName(nick: string, channel: string)
    ensures EntryOf("@" + nick, channel) == Entry(nick, channel, 4)
    ensures EntryOf("+" + nick, channel) == Entry(nick, channel, 1)
    ensures (nick == "" || nick[0] !in "@+") ==> EntryOf(nick, channel) == Entry(nick, channel, 0)
  {
    assert ("@" + nick)[1..] == nick == ("+" + nick)[1..];
  }

  predicate StartsWithHash(s: string) { s != "" && s[0] == '#' }

  lemma {:induction false} NoHash(s: string)
    requires '#' !in s
    ensures Find(s, "#").None?
  {
    forall k: nat ensures !OccursAt(s, "#", k) { assert "#" == ['#']; OccursChar(s, '#', k); }
    hide Find;
  }

  lemma {:induction false} HashAt(before: string, text: string)
    requires '#' !in before && StartsWithHash(text)
    ensures Find(before + text, "#") == Some(|before|)
  {
    hide Find;
    var s := before + text;
    forall k: nat ensures OccursAt(s, "#", k) <==> k < |s| && s[k] == '#' {
      assert "#" == ['#'];
      OccursChar(s, '#', k);
    }
    assert OccursAt(s, "#", |before|);
    assert forall k: nat | k < |before| :: s[k] == before[k];
  }
}
