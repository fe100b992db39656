/** The connection and user objects: fields that lines and timers change in place. */
module Clients {
  import opened Auxiliar
  import S = Scheduler
  import opened Dispatchers
  import Session

  type Events = Dispatcher<Session.Action>

  class User {
    const id: nat
    const born: nat
    var idleTime: nat
    var joinTime: nat
    var idleEvent: nat
    var joinEvent: nat

    ghost function View(): Session.User
      reads this
    {
      Session.User(idleTime, joinTime, idleEvent, joinEvent, born)
    }

    ghost function World(now: nat, dispatcher: Events): Session.World
      reads this, dispatcher
    {
      Session.World(now, dispatcher.state, map[], map[id := View()], [])
    }

    /** A user starts its two timers as it is made. */
    constructor (id: nat, now: nat, dispatcher: Events)
      requires dispatcher.Valid()
      modifies dispatcher
      ensures dispatcher.Valid() && fresh(dispatcher.tasks.Values - old(dispatcher.tasks.Values))
      ensures this.id == id
      ensures var s1 := Session.Add(old(dispatcher.state), now, 1, Session.AddEventIdle(id));
      var s2 := Session.Add(s1, now, 1, Session.AddEventJoin(id));
        dispatcher.state == s2 && View() == Session.User(0, 0, s1.id, s2.id, now)
    {
      hide S.Apply;
      this.id := id;
      born := now;
      idleTime, joinTime := 0, 0;
      idleEvent, joinEvent := 0, 0;
      new;
      idleEvent := dispatcher.AddEvent(now, 1, Session.AddEventIdle(id));
      joinEvent := dispatcher.AddEvent(now, 1, Session.AddEventJoin(id));
    }

    /** What the idle timer calls: asks for the next call, and counts. */
    method OnIdle(now: nat, dispatcher: Events)
      requires dispatcher.Valid()
      modifies this`idleTime, this`idleEvent, dispatcher
      ensures dispatcher.Valid() && fresh(dispatcher.tasks.Values - old(dispatcher.tasks.Values))
      ensures dispatcher.state
          == S.ApplyAll(old(dispatcher.state), now, Session.Callback(Session.AddEventIdle(id), None))
      ensures World(now, dispatcher)
        == Session.Fire(old(World(now, dispatcher)).(sched := dispatcher.state), Session.AddEventIdle(id),
            dispatcher.id)
    {
      idleTime := idleTime + 1;
      idleEvent := dispatcher.AddEvent(now, 1, Session.AddEventIdle(id));
      One(old(dispatcher.state), now, S.AddEvent(1, Session.AddEventIdle(id)));
    }

    method OnJoin(now: nat, dispatcher: Events)
      requires dispatcher.Valid()
      modifies this`joinTime, this`joinEvent, dispatcher
      ensures dispatcher.Valid() && fresh(dispatcher.tasks.Values - old(dispatcher.tasks.Values))
      ensures dispatcher.state
          == S.ApplyAll(old(dispatcher.state), now, Session.Callback(Session.AddEventJoin(id), None))
      ensures World(now, dispatcher)
        == Session.Fire(old(World(now, dispatcher)).(sched := dispatcher.state), Session.AddEventJoin(id),
            dispatcher.id)
    {
      joinTime := joinTime + 1;
      joinEvent := dispatcher.AddEvent(now, 1, Session.AddEventJoin(id));
      One(old(dispatcher.state), now, S.AddEvent(1, Session.AddEventJoin(id)));
    }

    /** Destruction takes both timers out. */
    method Destroy(now: nat, dispatcher: Events)
      requires dispatcher.Valid()
      modifies dispatcher, dispatcher.tasks.Values
      ensures dispatcher.Valid() && dispatcher.tasks.Values <= old(dispatcher.tasks.Values)
      ensures dispatcher.state == Session.Cancel(Session.Cancel(old(dispatcher.state), idleEvent), joinEvent)
    {
      dispatcher.StopEvent(now, idleEvent);
      dispatcher.StopEvent(now, joinEvent);
    }
  }

  lemma {:induction false} One(s: Session.Sched, now: nat, op: S.Op<Session.Action>)
    ensures S.ApplyAll(s, now, [op]) == S.Apply(s, now, op)
  {
    assert [op][1..] == [];
  }

  /** The pieces of a received line.  A carriage return anywhere costs the line its last character. */
  function Tokens(raw: string): (r: seq<string>)
    ensures |r| > 0
  {
    Split(if '\r' in raw then raw[..|raw|-1] else raw, " ")
  }

  /** A line with or without its carriage return has the same pieces; one that holds another before
      its end loses whatever character it ends in. */
  lemma {:induction false} ReturnDropped(line: string, last: char)
    ensures '\r' !in line ==> Tokens(line) == Split(line, " ") == Tokens(line + "\r")
    ensures '\r' in line ==> Tokens(line + [last]) == Split(line, " ")
  {
    assert (line + [last])[..|line|] == line == (line + "\r")[..|line|];
  }

  /** The words a client sends, with a space between any two and CR LF behind, are those handled
      exactly when none holds a space. */
  lemma {:induction false} WordsReceived(words: seq<string>)
    requires words != [] && forall w | w in words :: '\r' !in w
    ensures Tokens(Join(words, " ") + "\r") == words <==> forall w | w in words :: ' ' !in w
  {
    hide Split, Tokens;
    assert '\r' !in Join(words, " ") by { NoReturnIn(words); }
    ReturnDropped(Join(words, " "), ' ');
    SplitOfJoinBorderless(words, " ");
    assert " " == [' '];
    forall w | w in words ensures Contains(w, " ") <==> ' ' in w {
      SpaceIn(w);
    }
  }

  lemma {:induction false} NoReturnIn(words: seq<string>)
    requires words != [] && forall w | w in words :: '\r' !in w
    ensures '\r' !in Join(words, " ")
  {
    if |words| > 1 { NoReturnIn(words[1..]); }
  }

  lemma {:induction false} SpaceIn(w: string)
    ensures Contains(w, " ") <==> ' ' in w
  {
    if k: nat :| OccursAt(w, " ", k) { assert w[k] == w[k..k+1][0]; }
    if k: nat :| k < |w| && w[k] == ' ' { assert OccursAt(w, " ", k); }
  }

  class Client {
    const id: nat
    const dispatcher: Events
    var user: User?
    var sentUser: bool
    var sentNick: bool
    var sentCommon: bool
    var closed: bool
    var isConnecting: bool
    var reply: bool
    var eventId: nat
    var pongEvent: nat
    var lastPong: int
    var notPingReply: nat
    var open: bool
    var listening: bool
    var events: seq<Session.Event>   // what there was to be seen

    ghost function View(): Session.Client
      reads this
    {
      Session.Client(user != null, sentUser, sentNick, sentCommon, closed, isConnecting, reply, eventId, pongEvent,
                     lastPong, notPingReply, open, listening)
    }

    ghost function Users(): map<nat, Session.User>
      reads this`user, user
    {
      if user == null then map[] else map[id := user.View()]
    }

    ghost function Turn(): Session.Turn
      reads this, user, dispatcher
    {
      Session.Turn(View(), Users(), dispatcher.state, events)
    }

    ghost function World(now: nat): Session.World
      reads this, user, dispatcher
    {
      Session.World(now, dispatcher.state, map[id := View()], Users(), events)
    }

    ghost predicate Valid()
      reads this, dispatcher, dispatcher.tasks.Values
    {
      dispatcher.Valid()
    }

    constructor (id: nat, dispatcher: Events)
      requires dispatcher.Valid()
      ensures Valid() && View() == Session.NewClient() && user == null && events == []
      ensures this.id == id && this.dispatcher == dispatcher
    {
      this.id, this.dispatcher := id, dispatcher;
      user := null;
      sentUser, sentNick, sentCommon, closed, isConnecting, reply := false, false, false, false, true, false;
      eventId, pongEvent, lastPong, notPingReply := 0, 0, 0, 0;
      open, listening := true, false;
      events := [];
    }

    /** What the ping event calls. */
    method SendPing(ghost now: nat)
      modifies this`reply, this`lastPong, this`events
      ensures World(now) == Session.Fire(old(World(now)), Session.SendPing(id), dispatcher.id)
    {
      hide Client.Users;
      reply := false;
      events := events + [Session.PingSent(id)];
      lastPong := lastPong + 1;
      assert View() == old(View()).(reply := false, lastPong := old(lastPong) + 1);
      assert map[id := View()] == old(World(now)).clients[id := View()];
    }

    /** What a close timer calls. */
    method CloseConnection(ghost now: nat)
      modifies this`open, this`listening, this`events
      ensures World(now) == Session.Fire(old(World(now)), Session.CloseConnection(id), dispatcher.id)
      ensures Turn() == Session.Close(id, old(Turn()))
    {
      hide Client.Users;
      if open {
        events := events + [Session.Closed(id)];
        open := false;
        listening := false;
        assert View() == Session.Shut(old(View()));
      }
      assert map[id := View()] == old(World(now)).clients[id := View()];
    }

    /** A connection from a banned address is closed, and any other is waited on. */
    method Start(ghost now: nat, banned: bool)
      requires Valid()
      modifies this`open, this`listening, this`events
      ensures Valid() && World(now) ==
        if banned then Session.CloseIn(old(World(now)), id)
        else old(World(now)).(clients := map[id := old(View()).(listening := old(open))])
    {
      if banned {
        CloseConnection(now);
        return;
      }
      Receive();
    }

    /** What a read or a write that fails comes to. */
    method CloseWithError(ghost now: nat)
      requires Valid()
      modifies this`open, this`listening, this`events
      ensures Valid() && World(now) == Session.CloseIn(old(World(now)), id)
    {
      CloseConnection(now);
    }

    /** The end of the object: the events on record are cancelled. */
    method Destroy(now: nat)
      requires Valid()
      modifies dispatcher, dispatcher.tasks.Values
      ensures Valid() && dispatcher.tasks.Values <= old(dispatcher.tasks.Values)
      ensures dispatcher.state == Session.Release(old(dispatcher.state), View())
    {
      if eventId != 0 {
        dispatcher.StopEvent(now, eventId);
      }
      if pongEvent != 0 {
        dispatcher.StopEvent(now, pongEvent);
      }
    }

    method Receive()
      requires Valid()
      modifies this`listening
      ensures Valid() && Turn() == Session.Receive(old(Turn()))
    {
      listening := open;
    }

    method EnsureUser(now: nat)
      requires Valid()
      modifies this`user, dispatcher
      ensures Valid() && fresh(dispatcher.tasks.Values - old(dispatcher.tasks.Values))
      ensures old(user) == null ==> fresh(user)
      ensures old(user) != null ==> user == old(user)
      ensures Turn() == Session.EnsureUser(id, old(Turn()), now)
    {
      if user == null {
        user := new User(id, now, dispatcher);
      }
    }

    /** The request handler is outside this model but for what it does to the connection. */
    method HandleRequest(ghost now: nat, tokens: seq<string>)
      requires Valid()
      modifies this`open, this`listening, this`events
      ensures Valid() && Turn() == Session.HandleRequest(id, old(Turn()), tokens)
    {
      events := events + [Session.Request(id, tokens)];
      if tokens != [] && tokens[0] == "QUIT" {
        CloseConnection(now);
      }
    }

    method Add(now: nat, delay: nat, a: Session.Action) returns (e: nat)
      requires Valid()
      modifies dispatcher
      ensures Valid() && fresh(dispatcher.tasks.Values - old(dispatcher.tasks.Values))
      ensures Turn() == old(Turn()).(sched := Session.Add(old(dispatcher.state), now, delay, a))
      ensures e == Turn().sched.id
    {
      hide S.Apply;
      e := dispatcher.AddEvent(now, delay, a);
    }

    method Cancel(now: nat, e: nat)
      requires Valid()
      modifies dispatcher, dispatcher.tasks.Values
      ensures Valid() && dispatcher.tasks.Values <= old(dispatcher.tasks.Values)
      ensures Turn() == old(Turn()).(sched := Session.Cancel(old(dispatcher.state), e))
    {
      dispatcher.StopEvent(now, e);
    }

    method StartPing(now: nat)
      requires Valid()
      modifies this`pongEvent, dispatcher
      ensures Valid() && fresh(dispatcher.tasks.Values - old(dispatcher.tasks.Values))
      ensures Turn() == Session.StartPing(id, old(Turn()), now)
    {
      hide Session.Add, Client.Users, Dispatcher.Valid, Dispatcher.View;
      if pongEvent == 0 {
        pongEvent := Add(now, 0, Session.SendPing(id));
      }
    }

    method LetThrough(now: nat, tokens: seq<string>)
      requires Valid()
      modifies this`open, this`listening, this`events, this`closed, dispatcher, dispatcher.tasks.Values
      ensures Valid() && fresh(dispatcher.tasks.Values - old(dispatcher.tasks.Values))
      ensures Turn() == Session.LetThrough(id, old(Turn()), tokens)
    {
      hide Session.Cancel, Session.HandleRequest, Client.Users, Dispatcher.Valid, Dispatcher.View;
      Cancel(now, eventId);
      HandleRequest(now, tokens);
      closed := false;
    }

    method Greet()
      requires Valid()
      modifies this`sentCommon, this`isConnecting, this`events
      ensures Valid() && Turn() == Session.Greet(id, old(Turn()))
    {
      if !sentCommon {
        events := events + [Session.Welcome(id)];
        sentCommon := true;
        isConnecting := false;
      }
    }

    /** The part of the line handler that every line not turned away comes to. */
    method Finish(now: nat, tokens: seq<string>)
      requires Valid()
      modifies this`pongEvent, this`open, this`events, this`closed, this`sentCommon, this`isConnecting, this`listening
      modifies dispatcher, dispatcher.tasks.Values
      ensures Valid() && fresh(dispatcher.tasks.Values - old(dispatcher.tasks.Values))
      ensures Turn() == Session.Finish(id, old(Turn()), now, tokens)
    {
      hide Session.StartPing, Session.LetThrough, Session.Greet, Session.Receive;
      hide Client.Users, Dispatcher.Valid, Dispatcher.View;
      if sentUser && sentNick {
        StartPing(now);
        if reply {
          LetThrough(now, tokens);
          Greet();
        }
      }
      Receive();
    }

    /** The next ping is due in two minutes, and the close timer on record goes. */
    method NextPing(now: nat)
      requires Valid()
      modifies dispatcher, dispatcher.tasks.Values
      ensures Valid() && fresh(dispatcher.tasks.Values - old(dispatcher.tasks.Values))
      ensures var t := old(Turn()); var s := Session.Add(t.sched, now, 120, Session.SendPing(id));
        Turn() == t.(sched := if t.client.eventId != 0 then Session.Cancel(s, t.client.eventId) else s)
    {
      hide Session.Add, Session.Cancel, Client.Users, Dispatcher.Valid, Dispatcher.View;
      var _ := Add(now, 120, Session.SendPing(id));
      if eventId != 0 {
        Cancel(now, eventId);
      }
    }

    method Accept(now: nat)
      requires Valid()
      modifies this`lastPong, this`reply, this`events, dispatcher, dispatcher.tasks.Values
      ensures Valid() && fresh(dispatcher.tasks.Values - old(dispatcher.tasks.Values))
      ensures var t := old(Turn()); var s := Session.Add(t.sched, now, 120, Session.SendPing(id));
        Turn() == t.(client := t.client.(lastPong := 120, reply := true),
                     sched := if t.client.eventId != 0 then Session.Cancel(s, t.client.eventId) else s,
                     events := t.events + [Session.PongAccepted(id)])
    {
      hide Session.Add, Session.Cancel, Client.Users, Dispatcher.Valid, Dispatcher.View;
      NextPing(now);
      lastPong := 120;
      reply := true;
      events := events + [Session.PongAccepted(id)];
    }

    method Refuse(now: nat)
      requires Valid()
      modifies this`notPingReply, this`eventId, dispatcher
      ensures Valid() && fresh(dispatcher.tasks.Values - old(dispatcher.tasks.Values))
      ensures var t := old(Turn()); var s := Session.Add(t.sched, now, 120, Session.CloseConnection(id));
        Turn() == t.(client := t.client.(notPingReply := t.client.notPingReply + 1, eventId := s.id), sched := s)
    {
      hide Session.Add, Session.Cancel, Client.Users, Dispatcher.Valid, Dispatcher.View;
      notPingReply := notPingReply + 1;
      eventId := Add(now, 120, Session.CloseConnection(id));
    }

    method OnPong(now: nat, token: string)
      requires Valid()
      modifies this`lastPong, this`reply, this`events, this`notPingReply, this`eventId, dispatcher,
          dispatcher.tasks.Values
      ensures Valid() && fresh(dispatcher.tasks.Values - old(dispatcher.tasks.Values))
      ensures Turn() == Session.OnPong(id, old(Turn()), now, token)
    {
      hide Session.Add, Session.Cancel, Client.Users, Dispatcher.Valid, Dispatcher.View;
      if Session.IsAwaitedPong(token) && lastPong != 120 {
        Accept(now);
      } else {
        Refuse(now);
      }
    }

    method OnUserLine(now: nat, splited: seq<string>, env: Session.Env)
      requires Valid() && Session.Survivable(View(), splited) && splited[0] == "USER"
      modifies this, dispatcher, dispatcher.tasks.Values
      ensures Valid() && fresh(dispatcher.tasks.Values - old(dispatcher.tasks.Values))
      ensures Turn() == Session.OnLine(id, old(Turn()), now, splited, env)
    {
      hide S.Apply, Session.Add, Session.Receive, Session.HandleRequest, Session.Finish, Session.EnsureUser;
      hide Session.OnPong, Client.Users, Dispatcher.Valid, Dispatcher.View;
      if |splited| < 4 {
        Receive();
        return;
      }
      if sentUser && user != null {
        listening := false;
        return;
      }
      EnsureUser(now);
      sentUser := true;
      Finish(now, splited);
    }

    method OnNickLine(now: nat, splited: seq<string>, env: Session.Env)
      requires Valid() && Session.Survivable(View(), splited) && splited[0] == "NICK"
      modifies this, dispatcher, dispatcher.tasks.Values
      ensures Valid() && fresh(dispatcher.tasks.Values - old(dispatcher.tasks.Values))
      ensures Turn() == Session.OnLine(id, old(Turn()), now, splited, env)
    {
      hide S.Apply, Session.Add, Session.Receive, Session.HandleRequest, Session.Finish, Session.EnsureUser;
      hide Session.OnPong, Client.Users, Dispatcher.Valid, Dispatcher.View;
      if !isConnecting {
        HandleRequest(now, splited);
        Receive();
        return;
      }
      if env.nickTaken || env.nickForbidden {
        Receive();
        return;
      }
      EnsureUser(now);
      sentNick := true;
      Finish(now, splited);
    }

    method OnPongLine(now: nat, splited: seq<string>, env: Session.Env)
      requires Valid() && Session.Survivable(View(), splited) && splited[0] == "PONG"
      modifies this, dispatcher, dispatcher.tasks.Values
      ensures Valid() && fresh(dispatcher.tasks.Values - old(dispatcher.tasks.Values))
      ensures Turn() == Session.OnLine(id, old(Turn()), now, splited, env)
    {
      hide S.Apply, Session.Add, Session.Receive, Session.HandleRequest, Session.Finish, Session.EnsureUser;
      hide Session.OnPong, Client.Users, Dispatcher.Valid, Dispatcher.View;
      if !sentUser || !sentNick {
        Receive();
        return;
      }
      if |splited| > 1 {
        OnPong(now, splited[1]);
      }
      Finish(now, splited);
    }

    /** The registration timeout begins. */
    method Warn(now: nat)
      requires Valid()
      modifies this`eventId, this`closed, dispatcher
      ensures Valid() && fresh(dispatcher.tasks.Values - old(dispatcher.tasks.Values))
      ensures var t := old(Turn()); var s := Session.Add(t.sched, now, 40, Session.CloseConnection(id));
        Turn() == t.(client := t.client.(eventId := s.id, closed := true), sched := s)
    {
      hide Session.Add, Client.Users, Dispatcher.Valid, Dispatcher.View;
      eventId := Add(now, 40, Session.CloseConnection(id));
      closed := true;
    }

    method OnOtherLine(now: nat, splited: seq<string>, env: Session.Env)
      requires Valid() && Session.Survivable(View(), splited) && splited[0] !in ["USER", "NICK", "PONG"]
      modifies this, dispatcher, dispatcher.tasks.Values
      ensures Valid() && fresh(dispatcher.tasks.Values - old(dispatcher.tasks.Values))
      ensures Turn() == Session.OnLine(id, old(Turn()), now, splited, env)
    {
      hide S.Apply, Session.Add, Session.Receive, Session.HandleRequest, Session.Finish, Session.EnsureUser;
      hide Session.OnPong, Client.Users, Dispatcher.Valid, Dispatcher.View;
      if (!sentUser || user == null) && !closed {
        Warn(now);
      }
      Finish(now, splited);
    }

    /** One received line, from its raw text on. */
    method ReceiveFromSocket(now: nat, raw: string, env: Session.Env)
      requires Valid() && Session.Survivable(View(), Tokens(raw))
      modifies this, dispatcher, dispatcher.tasks.Values
      ensures Valid() && fresh(dispatcher.tasks.Values - old(dispatcher.tasks.Values))
      ensures Turn() == Session.OnLine(id, old(Turn()), now, Tokens(raw), env)
    {
      hide Session.OnLine, Split;
      var str := raw;
      if '\r' in str {
        str := str[..|str|-1];
      }
      var splited := SplitString(str, " ");
      if splited[0] == "USER" {
        OnUserLine(now, splited, env);
      } else if splited[0] == "NICK" {
        OnNickLine(now, splited, env);
      } else if splited[0] == "PONG" {
        OnPongLine(now, splited, env);
      } else {
        OnOtherLine(now, splited, env);
      }
    }
  }
}
