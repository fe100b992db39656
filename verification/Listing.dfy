/** The server's NAMES string, and what the client's roster makes of it. */
module Listing {
  import opened Auxiliar
  import opened Wire
  import opened Roster

  // ----- what the server's NAMES string becomes -----

  datatype Status = Plain | Voiced | Operator

  datatype Member = Member(nick: string, status: Status)

  function NameOf(m: Member): string {
    match m.status
    case Operator => "@" + m.nick
    case Voiced => "+" + m.nick
    case Plain => m.nick
  }

  /** The server puts a space after every name, the last one included. */
  function NamesString(members: seq<Member>): string {
    if members == [] then "" else NameOf(members[0]) + " " + NamesString(members[1..])
  }

  function NamesParams(client: string, channel: string, members: seq<Member>): string {
    client + " = " + channel + " :" + NamesString(members)
  }

  /** Such a reply, written out. */
  lemma {:induction false} ReplyWritten()
    ensures NamesParams("al", "#c", [Member("a", Operator), Member("b", Voiced), Member("d", Plain)])
         == "al = #c :@a +b d "
  {
    var members := [Member("a", Operator), Member("b", Voiced), Member("d", Plain)];
    assert members[1..] == [Member("b", Voiced), Member("d", Plain)] && members[1..][1..] == [Member("d", Plain)];
    assert members[1..][1..][1..] == [];
  }

  /** Nicks have no space, and a plain one does not look like an operator's or a voiced user's. */
  predicate Nameable(m: Member) {
    && ' ' !in m.nick
    && (m.status.Plain? && m.nick != "" ==> m.nick[0] != '@' && m.nick[0] != '+')
  }

  /** The first '#' begins the channel, and the first " :" behind it ends it. */
  ghost predicate Framed(client: string, channel: string) {
    '#' !in client && channel != "" && channel[0] == '#' && !Contains(channel, " :")
  }

  function FlagsOf(status: Status): bv8 {
    match status case Operator => OP case Voiced => VOICE case Plain => 0
  }

  function MemberEntries(members: seq<Member>, channel: string): (r: seq<Entry>)
    ensures |r| == |members|
    ensures forall i | 0 <= i < |members| :: r[i] == Entry(members[i].nick, channel, FlagsOf(members[i].status))
  {
    if members == [] then []
    else [Entry(members[0].nick, channel, FlagsOf(members[0].status))] + MemberEntries(members[1..], channel)
  }

  lemma {:induction false} EntryOfName(m: Member, channel: string)
    requires ' ' !in m.nick
    ensures EntryOf(NameOf(m), channel) == Entry(m.nick, channel, FlagsOf(m.status)) <==> Nameable(m)
    ensures ' ' !in NameOf(m)
  {
    assert m.status.Plain? || NameOf(m)[1..] == m.nick;
  }

  // ----- counting names -----

  /** How many names a text lists. */
  function Count(s: string): nat { |Split(s, " ")| }

  lemma {:induction false} CountOne(s: string)
    ensures Count(s) >= 1
    ensures Count(s) == 1 <==> ' ' !in s
  {
    OnePiece(s, " ");
    forall k: nat ensures OccursAt(s, " ", k) <==> k < |s| && s[k] == ' ' {
      assert " " == [' '];
      OccursChar(s, ' ', k);
    }
    if ' ' in s {
      var k: nat :| k < |s| && s[k] == ' ';
      assert OccursAt(s, " ", k);
    }
    hide Split;
  }

  lemma {:induction false} CountConcat(a: string, b: string)
    ensures Split(a + " " + b, " ") == Split(a, " ") + Split(b, " ")
    ensures Count(a + " " + b) == Count(a) + Count(b)
  {
    assert Borderless(" ");
    SplitOfConcat(a, " ", b);
    hide Split;
  }

  lemma {:induction false} CountBehindHead(c: char, head: string, tail: string)
    requires c != ' ' && ' ' !in head
    ensures Count([c] + (head + " " + tail)) == Count(head + " " + tail)
  {
    hide Count;
    assert [c] + (head + " " + tail) == ([c] + head) + " " + tail;
    CountConcat(head, tail);
    CountConcat([c] + head, tail);
    CountOne(head);
    CountOne([c] + head);
  }

  lemma {:induction false} CutAtSpace(s: string) returns (head: string, tail: string)
    requires ' ' in s
    ensures s == head + " " + tail && ' ' !in head
  {
    CutMissing(s, ' ');
    head, tail := Cut(s, ' ').0, Cut(s, ' ').1.value;
    CutFound(s, ' ', head, tail);
    assert " " == [' '];
  }

  lemma {:induction false} CountBehind(c: char, s: string)
    requires c != ' '
    ensures Count([c] + s) == Count(s)
  {
    hide Count;
    if ' ' in s {
      var head, tail := CutAtSpace(s);
      CountBehindHead(c, head, tail);
    } else {
      CountOne(s);
      CountOne([c] + s);
    }
  }

  lemma {:induction false} ListedNames(names: string, channel: string)
    ensures |ListedIn(names, channel)| == Count(names)
    ensures forall e | e in ListedIn(names, channel) :: e.channel == channel
  {
    hide Split;
  }

  lemma {:induction false} NamesCount(members: seq<Member>)
    ensures Count(NamesString(members)) >= |members| + 1
    decreases |members|
  {
    hide Count, NameOf;
    if members == [] {
      CountOne("");
    } else {
      CountConcat(NameOf(members[0]), NamesString(members[1..]));
      CountOne(NameOf(members[0]));
      NamesCount(members[1..]);
    }
  }

  // ----- exactly when the reply is read back -----

  lemma {:induction false} FirstListed(name: string, rest: string, channel: string)
    requires ' ' !in name
    ensures ListedIn(name + " " + rest, channel) == [EntryOf(name, channel)] + ListedIn(rest, channel)
  {
    CutFound(name + [' '] + rest, ' ', name, rest);
    assert " " == [' '];
    ListedAtSpace(name + [' '] + rest, channel);
    hide ListedIn, EntryOf;
  }

  lemma {:induction false} NamesStringEntries(members: seq<Member>, channel: string)
    ensures ListedIn(NamesString(members), channel) == MemberEntries(members, channel) + [Entry("", channel, 0)]
       <==> forall m | m in members :: Nameable(m)
    decreases |members|
  {
    hide NameOf, EntryOf, ListedIn, Count, Nameable;
    var end := [Entry("", channel, 0)];
    if members == [] {
      CutMissing("", ' ');
      ListedAtSpace("", channel);
      assert EntryOf("", channel) == Entry("", channel, 0) by { EmptyName(channel); }
    } else {
      var m, rest, name := members[0], members[1..], NameOf(members[0]);
      var listed, wanted := ListedIn(NamesString(members), channel), MemberEntries(members, channel) + end;
      SpaceInName(m);
      if ' ' in m.nick {
        CountConcat(name, NamesString(rest));
        CountOne(name);
        NamesCount(rest);
        ListedNames(NamesString(members), channel);
        assert |listed| > |wanted| && m in members && !Nameable(m);
      } else {
        FirstListed(name, NamesString(rest), channel);
        EntryOfName(m, channel);
        NamesStringEntries(rest, channel);
        assert wanted == [Entry(m.nick, channel, FlagsOf(m.status))] + (MemberEntries(rest, channel) + end);
        HeadAndRest(EntryOf(name, channel), ListedIn(NamesString(rest), channel),
                    Entry(m.nick, channel, FlagsOf(m.status)), MemberEntries(rest, channel) + end);
        assert (forall x | x in members :: Nameable(x)) <==> Nameable(m) && forall x | x in rest :: Nameable(x);
      }
    }
  }

  lemma {:induction false} EmptyName(channel: string)
    ensures EntryOf("", channel) == Entry("", channel, 0)
  {}

  lemma {:induction false} SpaceInName(m: Member)
    ensures ' ' in NameOf(m) <==> ' ' in m.nick
    ensures ' ' in m.nick ==> !Nameable(m)
  {}

  lemma {:induction false} HeadAndRest(x: Entry, a: seq<Entry>, y: Entry, b: seq<Entry>)
    ensures [x] + a == [y] + b <==> x == y && a == b
  {
    assert ([x] + a)[0] == x && ([y] + b)[0] == y && ([x] + a)[1..] == a && ([y] + b)[1..] == b;
  }

  /** A reply that is framed well: the names are read where they were put. */
  lemma {:induction false} FramedNames(client: string, channel: string, members: seq<Member>)
    requires Framed(client, channel)
    ensures DecodeNames(NamesParams(client, channel, members)) == ListedIn(NamesString(members), channel)
  {
    hide ListedIn, NamesString;
    var users := NamesString(members);
    var params, before, text := NamesParams(client, channel, members), client + " = ", channel + " :" + users;
    assert params == before + ['#'] + text[1..];
    CutFound(params, '#', before, text[1..]);
    assert Find(params, "#") == Some(|before|) by {
      assert ['#'] == "#" && params[..|before|] == before;
      assert Find(params, "#").Some?;
      assert |params[..Find(params, "#").value]| == |before|;
    }
    assert params[|before|..] == text;
    assert Borderless(" :") by { assert " :"[..1][0] != " :"[1..][0]; }
    FirstAtEnd(channel, " :");
    FindAfterPiece(channel, " :", users);
    assert text[..|channel|] == channel && text[|channel|+2..] == users;
  }

  /** A text that begins with '#' and is cut before its first " :". */
  lemma {:induction false} CutBeforeNames(text: string, end: nat)
    requires text != "" && text[0] == '#' && Find(text, " :") == Some(end)
    ensures text == text[..end] + " :" + text[end+2..]
    ensures end > 0 && !Contains(text[..end], " :")
  {
    hide Find, Contains;
    assert text[end] == text[end..end+2][0] == ' ';
    var head, names := text[..end], text[end+2..];
    assert text == head + " :" + names;
    FindAfterPiece(head, " :", names);
    FreeBeforeEnd(head, " :");
  }

  lemma {:induction false} FirstHash(params: string, start: nat)
    requires Find(params, "#") == Some(start)
    ensures start < |params| && params[start] == '#' && '#' !in params[..start]
  {
    forall k: nat ensures OccursAt(params, "#", k) <==> k < |params| && params[k] == '#' {
      assert "#" == ['#'];
      OccursChar(params, '#', k);
    }
  }

  /** What it takes for the first name to be read with this channel. */
  lemma {:induction false} DecodedFrame(params: string, channel: string) returns (start: nat, names: string)
    requires DecodeNames(params) != [] && forall e | e in DecodeNames(params) :: e.channel == channel
    ensures start < |params| && params[start] == '#' && '#' !in params[..start]
    ensures params[start..] == channel + " :" + names && DecodeNames(params) == ListedIn(names, channel)
    ensures channel != "" && channel[0] == '#' && !Contains(channel, " :")
  {
    hide ListedIn, Find, Contains;
    start := Find(params, "#").value;
    FirstHash(params, start);
    var text := params[start..];
    var end := Find(text, " :").value;
    CutBeforeNames(text, end);
    names := text[end+2..];
    ListedNames(names, text[..end]);
    assert DecodeNames(params)[0] in DecodeNames(params);
  }

  lemma {:induction false} CountBehindChannel(channel: string, names: string)
    ensures Count(channel + " :" + names) == Count(channel) + Count(names)
  {
    hide Count;
    assert channel + " :" + names == channel + " " + ([':'] + names);
    CountConcat(channel, [':'] + names);
    CountBehind(':', names);
  }

  /** Names behind a '#' of the client's nick are too many. */
  lemma {:induction false} TooManyNames(client: string, channel: string, members: seq<Member>, start: nat,
                                        names: string)
    requires start < |client|
    requires NamesParams(client, channel, members)[start..] == channel + " :" + names
    ensures Count(names) > |members| + 1
  {
    hide Count, NamesString;
    var left, inner := client[start..], channel + " :" + NamesString(members);
    assert channel + " :" + names == left + " " + ("=" + " " + inner);
    CountBehindChannel(channel, names);
    CountBehindChannel(channel, NamesString(members));
    CountConcat(left, "=" + " " + inner);
    CountConcat("=", inner);
    CountOne(left);
    CountOne("=");
    NamesCount(members);
  }

  /** The server's NAMES reply adds each listed member with its status, in order, and one entry
      without a nick for the space at the end, exactly when it is framed well and no member's name
      can be taken for another. */
  lemma {:induction false} NamesReply(client: string, channel: string, members: seq<Member>)
    ensures DecodeNames(NamesParams(client, channel, members))
              == MemberEntries(members, channel) + [Entry("", channel, 0)]
       <==> Framed(client, channel) && forall m | m in members :: Nameable(m)
  {
    hide DecodeNames, NamesParams, ListedIn, Nameable, Contains;
    var params, wanted := NamesParams(client, channel, members),
        MemberEntries(members, channel) + [Entry("", channel, 0)];
    NamesStringEntries(members, channel);
    if Framed(client, channel) {
      FramedNames(client, channel, members);
    } else if DecodeNames(params) == wanted {
      assert forall e | e in wanted :: e.channel == channel;
      var start, names := DecodedFrame(params, channel);
      ListedNames(names, channel);
      FrameOfClient(client, channel, members);
      assert '#' in client;
      HashInFront(client, params, start);
      TooManyNames(client, channel, members, start, names);
    }
  }

  lemma {:induction false} HashInFront(client: string, params: string, start: nat)
    requires client <= params && '#' in client && start <= |params| && '#' !in params[..start]
    ensures start < |client|
  {
    assert forall k | 0 <= k < |client| && k < start :: params[..start][k] == client[k];
  }

  lemma {:induction false} FrameOfClient(client: string, channel: string, members: seq<Member>)
    ensures client <= NamesParams(client, channel, members)
  {}

  lemma {:induction false} OneName(name: string, channel: string)
    requires ' ' !in name
    ensures ListedIn(name + " ", channel) == [EntryOf(name, channel), Entry("", channel, 0)]
  {
    hide ListedIn;
    assert name + " " + "" == name + " ";
    FirstListed(name, "", channel);
    CutMissing("", ' ');
    ListedAtSpace("", channel);
  }

  /** A member whose nick begins with '@' is taken for an operator of another name. */
  lemma {:induction false} PlainTakenForOperator()
    ensures DecodeNames(NamesParams("al", "#c", [Member("@bob", Plain)]))
        == [Entry("bob", "#c", OP), Entry("", "#c", 0)]
  {
    hide DecodeNames, NamesParams, ListedIn;
    var m := Member("@bob", Plain);
    forall k: nat ensures !OccursAt("#c", " :", k) { assert k == 0 ==> "#c"[0..2][0] == '#'; }
    FramedNames("al", "#c", [m]);
    assert [m][1..] == [] && NamesString([m]) == "@bob" + " " + "" == "@bob" + " ";
    OneName("@bob", "#c");
    assert "@bob"[1..] == "bob";
  }

  // ----- whom the client takes for an operator -----

  /** The status the server listed for this nick, the first if there are several. */
  function StatusOf(members: seq<Member>, nick: string): Option<Status> {
    if members == [] then None
    else if members[0].nick == nick then Some(members[0].status)
    else StatusOf(members[1..], nick)
  }

  lemma {:induction false} FlagsListed(members: seq<Member>, channel: string, nick: string)
    ensures var roster := MemberEntries(members, channel) + [Entry("", channel, 0)];
      && (FlagIn(roster, channel, nick, OP) <==> StatusOf(members, nick) == Some(Operator))
      && (FlagIn(roster, channel, nick, VOICE) <==> StatusOf(members, nick) == Some(Voiced))
    decreases |members|
  {
    var end := [Entry("", channel, 0)];
    var roster := MemberEntries(members, channel) + end;
    if members == [] {
      assert roster == end && end[1..] == [];
    } else {
      assert roster[0] == Entry(members[0].nick, channel, FlagsOf(members[0].status));
      assert roster[1..] == MemberEntries(members[1..], channel) + end;
      FlagsListed(members[1..], channel, nick);
    }
  }

  /** The list of a client after this reply alone. */
  function RosterOfReply(client: string, channel: string, members: seq<Member>): seq<Entry> {
    RosterAfter(false, [], [Names(NamesParams(client, channel, members))])
  }

  /** The client and the server agree on the status of a nick. */
  predicate Agreed(client: string, channel: string, members: seq<Member>, nick: string) {
    var roster := RosterOfReply(client, channel, members);
    && (FlagIn(roster, channel, nick, OP) <==> StatusOf(members, nick) == Some(Operator))
    && (FlagIn(roster, channel, nick, VOICE) <==> StatusOf(members, nick) == Some(Voiced))
  }

  lemma {:induction false} RosterIsReply(client: string, channel: string, members: seq<Member>)
    ensures RosterOfReply(client, channel, members) == DecodeNames(NamesParams(client, channel, members))
  {
    hide DecodeNames, NamesParams;
    var params := NamesParams(client, channel, members);
    var updates, decoded := [Names(params)], DecodeNames(params);
    assert updates[1..] == [] && [] + decoded == decoded;
    assert RosterAfter(false, [], updates) == RosterAfter(true, decoded, []);
  }

  /** So after such a reply a client has the same idea as the server of who is an operator and
      who has voice. */
  lemma {:induction false} FlagsAgree(client: string, channel: string, members: seq<Member>, nick: string)
    requires Framed(client, channel) && forall m | m in members :: Nameable(m)
    ensures Agreed(client, channel, members, nick)
  {
    hide DecodeNames, NamesParams, RosterOfReply, Framed, Nameable;
    RosterIsReply(client, channel, members);
    NamesReply(client, channel, members);
    FlagsListed(members, channel, nick);
  }

  // ----- and exactly when -----

  /** The nick the client reads off a member's name. */
  function ReadNick(m: Member): string { EntryOf(NameOf(m), "").nick }

  function ReadEntries(members: seq<Member>, channel: string): seq<Entry> {
    if members == [] then [] else [EntryOf(NameOf(members[0]), channel)] + ReadEntries(members[1..], channel)
  }

  lemma {:induction false} NamesAsRead(members: seq<Member>, channel: string)
    requires forall m | m in members :: ' ' !in m.nick
    ensures ListedIn(NamesString(members), channel) == ReadEntries(members, channel) + [Entry("", channel, 0)]
    decreases |members|
  {
    hide ListedIn, EntryOf, NameOf;
    if members == [] {
      EmptyName(channel);
      CutMissing("", ' ');
      ListedAtSpace("", channel);
    } else {
      SpaceInName(members[0]);
      FirstListed(NameOf(members[0]), NamesString(members[1..]), channel);
      NamesAsRead(members[1..], channel);
    }
  }

  ghost predicate LookDifferent(members: seq<Member>) {
    forall i, j | 0 <= i < j < |members| :: ReadNick(members[i]) != ReadNick(members[j])
  }

  lemma {:induction false} ReadAs(m: Member, channel: string)
    ensures var e := EntryOf(NameOf(m), channel); e.nick == ReadNick(m) && e.channel == channel
  {
    hide NameOf;
  }

  lemma {:induction false} RestLooksDifferent(members: seq<Member>, i: nat)
    requires LookDifferent(members) && 0 < i < |members|
    ensures LookDifferent(members[1..]) && ReadNick(members[0]) != ReadNick(members[i])
  {
    hide ReadNick;
    assert forall j | 0 <= j < |members[1..]| :: members[1..][j] == members[j+1];
  }

  lemma {:induction false} FlagRead(members: seq<Member>, channel: string, rest: seq<Entry>, i: nat, flag: bv8)
    requires LookDifferent(members) && i < |members|
    ensures FlagIn(ReadEntries(members, channel) + rest, channel, ReadNick(members[i]), flag)
       <==> IsSet(EntryOf(NameOf(members[i]), channel).flags, flag)
    decreases i
  {
    hide EntryOf, ReadNick, NameOf, LookDifferent, FlagIn, IsSet;
    var e, others := EntryOf(NameOf(members[0]), channel), ReadEntries(members[1..], channel) + rest;
    ReadAs(members[0], channel);
    assert ReadEntries(members, channel) + rest == [e] + others;
    hide ReadEntries;
    FlagOfFirst(e, others, channel, ReadNick(members[i]), flag);
    if i > 0 {
      RestLooksDifferent(members, i);
      assert members[1..][i-1] == members[i];
      FlagRead(members[1..], channel, rest, i - 1, flag);
    }
  }

  lemma {:induction false} FlagOfFirst(e: Entry, rest: seq<Entry>, channel: string, nick: string, flag: bv8)
    ensures FlagIn([e] + rest, channel, nick, flag) ==
      if e.channel == channel && e.nick == nick then IsSet(e.flags, flag) else FlagIn(rest, channel, nick, flag)
  {
    assert ([e] + rest)[1..] == rest;
  }

  lemma {:induction false} StatusFrom(members: seq<Member>, nick: string)
    ensures StatusOf(members, nick).Some? ==> Member(nick, StatusOf(members, nick).value) in members
    decreases |members|
  {
    if members != [] { StatusFrom(members[1..], nick); }
  }

  lemma {:induction false} MarkedRead(m: Member)
    ensures m.status == Operator || m.status == Voiced ==> ReadNick(m) == m.nick
    ensures ' ' !in m.nick && !Nameable(m) ==> m.status == Plain && EntryOf(NameOf(m), "").flags in {OP, VOICE}
  {
    assert m.status.Plain? || NameOf(m)[1..] == m.nick;
  }

  /** A member that is misread has the client disagree on the nick it is read as. */
  lemma {:induction false} MisreadDisagrees(client: string, channel: string, members: seq<Member>, i: nat)
    requires Framed(client, channel) && (forall m | m in members :: ' ' !in m.nick) && LookDifferent(members)
    requires i < |members| && !Nameable(members[i])
    ensures !Agreed(client, channel, members, ReadNick(members[i]))
  {
    hide DecodeNames, NamesParams, NamesString, ListedIn, RosterOfReply, ReadEntries, Framed, Nameable, NameOf;
    var m, x := members[i], ReadNick(members[i]);
    RosterIsReply(client, channel, members);
    FramedNames(client, channel, members);
    NamesAsRead(members, channel);
    FlagRead(members, channel, [Entry("", channel, 0)], i, OP);
    FlagRead(members, channel, [Entry("", channel, 0)], i, VOICE);
    MarkedRead(m);
    StatusFrom(members, x);
    if StatusOf(members, x).Some? {
      var n := Member(x, StatusOf(members, x).value);
      var j :| 0 <= j < |members| && members[j] == n;
      MarkedRead(n);
      assert n.status != Plain ==> j == i;
    }
  }

  /** When no two members look alike to the client, it agrees with the server on every nick exactly
      when no member's name can be taken for another. */
  lemma {:induction false} FlagsAgreeExactly(client: string, channel: string, members: seq<Member>)
    requires Framed(client, channel) && (forall m | m in members :: ' ' !in m.nick) && LookDifferent(members)
    ensures (forall nick :: Agreed(client, channel, members, nick)) <==> forall m | m in members :: Nameable(m)
  {
    hide Agreed, Framed, Nameable, LookDifferent;
    if m :| m in members && !Nameable(m) {
      var i :| 0 <= i < |members| && members[i] == m;
      MisreadDisagrees(client, channel, members, i);
    } else {
      forall nick ensures Agreed(client, channel, members, nick) { FlagsAgree(client, channel, members, nick); }
    }
  }
}
