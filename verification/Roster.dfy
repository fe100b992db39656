/** The client's channel roster: a linked list grown by NAMES and JOIN replies. */
module Roster {
  import opened Auxiliar
  import opened Wire

  const VOICE: bv8 := 1
  const OP: bv8 := 4

  predicate IsSet(flags: bv8, flag: bv8) { flags & flag != 0 }

  // ----- what a NAMES reply says -----

  datatype Entry = Entry(nick: string, channel: string, flags: bv8)

  /** One name of the list: a leading '@' or '+' becomes a flag. */
  function EntryOf(name: string, channel: string): Entry {
    if name != "" && name[0] == '@' then Entry(name[1..], channel, OP)
    else if name != "" && name[0] == '+' then Entry(name[1..], channel, VOICE)
    else Entry(name, channel, 0)
  }

  function EntriesOf(names: seq<string>, channel: string): (r: seq<Entry>)
    ensures |r| == |names|
    ensures forall i | 0 <= i < |names| :: r[i] == EntryOf(names[i], channel)
  {
    if names == [] then [] else [EntryOf(names[0], channel)] + EntriesOf(names[1..], channel)
  }

  function ListedIn(names: string, channel: string): seq<Entry> {
    EntriesOf(Split(names, " "), channel)
  }

  /** The channel begins at the first '#' and ends before " :"; the names follow. */
  function DecodeNames(params: string): seq<Entry> {
    match Find(params, "#")
    case None => []
    case Some(start) =>
      var text := params[start..];
      match Find(text, " :")
      case None => []
      case Some(end) => ListedIn(text[end+2..], text[..end])
  }

  datatype Update = Names(params: string) | Joined(nick: string, channel: string)

  /** The roster after a run of replies.  Before the first NAMES there is no list to join. */
  function RosterAfter(listed: bool, roster: seq<Entry>, updates: seq<Update>): seq<Entry>
    decreases |updates|
  {
    if updates == [] then roster
    else match updates[0]
      case Names(params) => RosterAfter(true, roster + DecodeNames(params), updates[1..])
      case Joined(nick, channel) =>
        RosterAfter(listed, if listed then roster + [Entry(nick, channel, 0)] else roster, updates[1..])
  }

  /** Whether there is a list by then. */
  predicate ListedAfter(listed: bool, updates: seq<Update>) {
    listed || exists u | u in updates :: u.Names?
  }

  /** Each reply adds its own entries behind those there are: a NAMES reply those decoded from it, and
      a JOIN one without flags if there is a list by then. */
  lemma {:induction false} EachReplyAdds(listed: bool, roster: seq<Entry>, updates: seq<Update>, u: Update)
    ensures RosterAfter(listed, roster, updates + [u])
         == RosterAfter(listed, roster, updates)
            + (match u
               case Names(params) => DecodeNames(params)
               case Joined(nick, channel) => if ListedAfter(listed, updates) then [Entry(nick, channel, 0)] else [])
    decreases |updates|
  {
    hide DecodeNames;
    var all := updates + [u];
    if updates == [] {
      assert all[1..] == [];
    } else {
      var first := updates[0];
      assert all[1..] == updates[1..] + [u];
      assert first in updates && forall x | x in updates[1..] :: x in updates;
      assert ListedAfter(listed || first.Names?, updates[1..]) == ListedAfter(listed, updates);
      match first {
        case Names(params) => EachReplyAdds(true, roster + DecodeNames(params), updates[1..], u);
        case Joined(nick, channel) =>
          EachReplyAdds(listed, if listed then roster + [Entry(nick, channel, 0)] else roster, updates[1..], u);
      }
    }
  }

  // ----- the list -----

  class ChannelUser {
    var nick: Option<string>
    var channel: Option<string>
    var flags: bv8
    var next: ChannelUser?

    constructor ()
      ensures nick == None && channel == None && flags == 0 && next == null
    {
      nick, channel, flags, next := None, None, 0, null;
    }

    predicate Filled()
      reads this
    {
      nick.Some? && channel.Some?
    }

    function View(): Entry
      reads this
    {
      if Filled() then Entry(nick.value, channel.value, flags) else Entry("", "", 0)
    }

    method Fill(name: string, channel: string)
      requires flags == 0
      modifies this
      ensures Filled() && View() == EntryOf(name, channel) && next == old(next)
    {
      var p := name;
      if p != "" && p[0] == '@' {
        flags := flags | OP;
        p := p[1..];
      } else if p != "" && p[0] == '+' {
        flags := flags | VOICE;
        p := p[1..];
      }
      nick := Some(p);
      this.channel := Some(channel);
    }
  }

  class List {
    var head: ChannelUser?
    ghost var spine: seq<ChannelUser>
    ghost var contents: seq<Entry>
    ghost var repr: set<ChannelUser>

    /** The nodes in order; the first |contents| of them are filled, with the contents. */
    ghost predicate Linked()
      reads this, repr
    {
      && (forall i | 0 <= i < |spine| :: spine[i] in repr)
      && (head == null <==> spine == [])
      && (spine != [] ==> spine[0] == head && spine[|spine|-1].next == null)
      && (forall i | 0 <= i < |spine| - 1 :: spine[i].next == spine[i+1])
      && (forall i, j | 0 <= i < j < |spine| :: spine[i] != spine[j])
      && |contents| <= |spine|
      && (forall i | 0 <= i < |contents| :: spine[i].Filled() && spine[i].View() == contents[i])
    }

    /** One node more than the contents, at the end, is free. */
    ghost predicate HasFree()
      reads this, repr
    {
      Linked() && |spine| == |contents| + 1 && var last := spine[|contents|]; last.nick.None? && last.flags == 0
    }

    /** No node is free, except that the list may be a single free node. */
    ghost predicate Valid()
      reads this, repr
    {
      Linked() && (|spine| == |contents| || (contents == [] && HasFree()))
    }

    constructor ()
      ensures Valid() && head == null && contents == []
    {
      head := null;
      spine := [];
      contents := [];
      repr := {};
    }

    /** A new free node behind the last one. */
    method Extend(last: ChannelUser) returns (cup: ChannelUser)
      requires Linked() && |spine| == |contents| > 0 && last == spine[|spine|-1]
      modifies this, repr
      ensures HasFree() && cup == spine[|contents|] && head == old(head) && contents == old(contents)
      ensures repr == old(repr) + {cup} && fresh(cup)
    {
      cup := new ChannelUser();
      last.next := cup;
      spine := spine + [cup];
      repr := repr + {cup};
    }

    /** Walks on from a node to the first one without a nick, adding one at the end if need be. */
    method FreeFrom(start: ChannelUser, ghost at: nat) returns (cup: ChannelUser)
      requires Valid() && at < |spine| && spine[at] == start
      modifies this, repr
      ensures HasFree() && cup == spine[|contents|] && head == old(head) && contents == old(contents)
      ensures fresh(repr - old(repr))
    {
      cup := start;
      ghost var k := at;
      while cup.nick.Some? && cup.next != null
        invariant k < |spine| && spine[k] == cup
        invariant cup.next == if k + 1 < |spine| then spine[k+1] else null
        decreases |spine| - k
      {
        cup := cup.next;
        k := k + 1;
      }
      if cup.nick.Some? {
        cup := Extend(cup);
      }
    }

    /** One more user, in the free node. */
    method FillFree(cup: ChannelUser, name: string, channel: string)
      requires HasFree() && cup == spine[|contents|]
      modifies this`contents, cup
      ensures head == old(head) && Valid() && contents == old(contents) + [EntryOf(name, channel)]
      ensures |spine| == |contents|
    {
      cup.Fill(name, channel);
      contents := contents + [EntryOf(name, channel)];
    }

    method Add(start: ChannelUser, ghost at: nat, name: string, channel: string) returns (cup: ChannelUser)
      requires Valid() && at < |spine| && spine[at] == start
      modifies this, repr
      ensures Valid() && contents == old(contents) + [EntryOf(name, channel)]
      ensures head == old(head) && |spine| == |contents| && cup == spine[|contents|-1]
      ensures fresh(repr - old(repr))
    {
      cup := FreeFrom(start, at);
      FillFree(cup, name, channel);
    }

    /** The names in p, one node each; the text behind the last space is a name too. */
    method AddNames(p: string, channel: string)
      requires Valid() && head != null
      modifies this, repr
      ensures Valid() && head == old(head) && fresh(repr - old(repr))
      ensures contents == old(contents) + ListedIn(p, channel)
    {
      hide List.Valid, List.Linked, List.HasFree, EntryOf, ListedIn;
      ghost var all := old(contents) + ListedIn(p, channel);
      var left := p;
      var cup := head;
      ghost var at: nat := 0;
      HeadFirst();
      while true
        invariant Valid() && head == old(head) && fresh(repr - old(repr))
        invariant at < |spine| && spine[at] == cup
        invariant contents + ListedIn(left, channel) == all
        decreases |left|
      {
        ListedAtSpace(left, channel);
        var space := Cut(left, ' ');
        cup := Add(cup, at, space.0, channel);
        if space.1.None? {
          break;
        }
        at := |contents| - 1;
        left := space.1.value;
      }
    }

    lemma {:induction false} HeadFirst()
      requires Valid() && head != null
      ensures |spine| > 0 && spine[0] == head
    {}

    /** The first reply begins the list with a free node. */
    method EnsureHead()
      requires Valid()
      modifies this
      ensures Valid() && head != null && contents == old(contents) && fresh(repr - old(repr))
    {
      if head == null {
        head := new ChannelUser();
        spine := [head];
        repr := repr + {head};
      }
    }

    /** Reply 353. */
    method OnNames(params: string)
      requires Valid()
      modifies this, repr
      ensures Valid() && head != null && contents == old(contents) + DecodeNames(params)
      ensures fresh(repr - old(repr))
    {
      hide List.Valid, List.Linked, List.HasFree, ListedIn, Find;
      EnsureHead();
      assert contents == contents + [];
      var start := Find(params, "#");
      if start.None? {
        return;
      }
      var text := params[start.value..];
      var end := Find(text, " :");
      if end.None? {
        return;
      }
      AddNames(text[end.value+2..], text[..end.value]);
    }

    method OnJoin(nick: string, channel: string)
      requires Valid()
      modifies this, repr
      ensures Valid() && head == old(head)
      ensures contents == old(contents) + (if head == null then [] else [Entry(nick, channel, 0)])
      ensures fresh(repr - old(repr))
    {
      if head != null {
        var cup := FreeFrom(head, 0);
        cup.channel := Some(channel);
        cup.nick := Some(nick);
        contents := contents + [Entry(nick, channel, 0)];
      }
    }

    /** Any run of replies. */
    method Receive(updates: seq<Update>)
      requires Valid()
      modifies this, repr
      ensures Valid() && contents == RosterAfter(old(head) != null, old(contents), updates)
    {
      var i := 0;
      assert updates[0..] == updates;
      while i < |updates|
        invariant i <= |updates| && Valid()
        invariant fresh(repr - old(repr))
        invariant RosterAfter(head != null, contents, updates[i..])
            == RosterAfter(old(head) != null, old(contents), updates)
        decreases |updates| - i
      {
        assert updates[i..][1..] == updates[i+1..];
        match updates[i] {
          case Names(params) => OnNames(params);
          case Joined(nick, channel) => OnJoin(nick, channel); assert contents == contents + [];
        }
        i := i + 1;
      }
    }

    /** The flag in the first entry for this user on this channel. */
    method HasFlag(channel: string, nick: string, flag: bv8) returns (b: bool)
      requires Valid() && (head != null ==> contents != [])
      ensures b <==> FlagIn(contents, channel, nick, flag)
    {
      hide FlagIn, IsSet;
      var cup := head;
      ghost var k := 0;
      while cup != null
        invariant k <= |spine| && cup == (if k < |spine| then spine[k] else null)
        invariant FlagIn(contents, channel, nick, flag) == FlagIn(contents[k..], channel, nick, flag)
        decreases |spine| - k
      {
        FlagInFrom(contents, k, channel, nick, flag);
        if cup.channel.value == channel && cup.nick.value == nick {
          return IsSet(cup.flags, flag);
        }
        cup := cup.next;
        k := k + 1;
      }
      assert contents[k..] == [];
      FlagInNothing(channel, nick, flag);
      return false;
    }
  }

  function FlagIn(roster: seq<Entry>, channel: string, nick: string, flag: bv8): bool {
    if roster == [] then false
    else if roster[0].channel == channel && roster[0].nick == nick then IsSet(roster[0].flags, flag)
    else FlagIn(roster[1..], channel, nick, flag)
  }

  lemma {:induction false} FlagInNothing(channel: string, nick: string, flag: bv8)
    ensures !FlagIn([], channel, nick, flag)
  {}

  lemma {:induction false} FlagInFrom(roster: seq<Entry>, k: nat, channel: string, nick: string, flag: bv8)
    requires k < |roster|
    ensures FlagIn(roster[k..], channel, nick, flag) ==
      if roster[k].channel == channel && roster[k].nick == nick then IsSet(roster[k].flags, flag)
      else FlagIn(roster[k+1..], channel, nick, flag)
  {
    hide IsSet;
    assert roster[k..][0] == roster[k] && roster[k..][1..] == roster[k+1..];
  }

  lemma {:induction false} SplitAtSpace(p: string)
    ensures match Cut(p, ' ')
            case (head, None) => Split(p, " ") == [p]
            case (head, Some(tail)) => |tail| < |p| && Split(p, " ") == [head] + Split(tail, " ")
  {
    assert [' '] == " ";
  }

  lemma {:induction false} ListedAtSpace(p: string, channel: string)
    ensures match Cut(p, ' ')
            case (head, None) => ListedIn(p, channel) == [EntryOf(head, channel)]
            case (head, Some(tail)) =>
              |tail| < |p| && ListedIn(p, channel) == [EntryOf(head, channel)] + ListedIn(tail, channel)
  {
    SplitAtSpace(p);
    hide Split;
    match Cut(p, ' ')
    case (head, None) => CutMissing(p, ' ');
    case (head, Some(tail)) => assert ([head] + Split(tail, " "))[1..] == Split(tail, " ");
  }
}
