/** Connections and their users on one scheduler: registration, the ping exchange, and the
    timers that rearm themselves. */
module Session {
  import opened Auxiliar
  import S = Scheduler

  /** What an event of this server does when it fires. */
  datatype Action =
    | SendPing(client: nat)
    | CloseConnection(client: nat)
    | AddEventIdle(user: nat)
    | AddEventJoin(user: nat)
    | Elsewhere                   // belongs to neither a connection nor a user

  type Sched = S.Sched<Action>

  datatype Client = Client(
    hasUser: bool, sentUser: bool, sentNick: bool, sentCommon: bool, closed: bool, isConnecting: bool,
    reply: bool, eventId: nat, pongEvent: nat, lastPong: int, notPingReply: nat,
    open: bool,        // the socket
    listening: bool)   // a read is pending

  /** born: when the object was made; the program does not record it. */
  datatype User = User(idleTime: nat, joinTime: nat, idleEvent: nat, joinEvent: nat, born: nat)

  /** What can be seen happening to connection c. */
  datatype Event =
    | PingSent(c: nat)
    | PongAccepted(c: nat)
    | Request(c: nat, tokens: seq<string>)   // handed to the request handler
    | Welcome(c: nat)                        // the burst that greets a registered user
    | Closed(c: nat)

  /** A connection that has been accepted; it is read from once it is started. */
  function NewClient(): Client {
    Client(false, false, false, false, false, true, false, 0, 0, 0, 0, true, false)
  }

  /** A closed socket has no read pending. */
  function Shut(x: Client): Client { x.(open := false, listening := false) }

  // ----- one line -----

  /** What the line meets outside the connection: whether the nick is in use or not allowed. */
  datatype Env = Env(nickTaken: bool, nickForbidden: bool)

  /** A connection, the users and the scheduler in the middle of a line. */
  datatype Turn = Turn(client: Client, users: map<nat, User>, sched: Sched, events: seq<Event>)

  function Add(s: Sched, now: nat, delay: nat, a: Action): Sched { S.Apply(s, now, S.AddEvent(delay, a)) }

  function Cancel(s: Sched, id: nat): Sched { S.Apply(s, 0, S.StopEvent(id)) }

  /** A new user starts its two timers. */
  function MakeUser(c: nat, t: Turn, now: nat): Turn {
    var s1 := Add(t.sched, now, 1, AddEventIdle(c));
    var s2 := Add(s1, now, 1, AddEventJoin(c));
    t.(client := t.client.(hasUser := true), users := t.users[c := User(0, 0, s1.id, s2.id, now)], sched := s2)
  }

  function EnsureUser(c: nat, t: Turn, now: nat): Turn {
    if t.client.hasUser then t else MakeUser(c, t, now)
  }

  function Close(c: nat, t: Turn): Turn {
    if t.client.open then t.(client := Shut(t.client), events := t.events + [Closed(c)]) else t
  }

  /** The request handler, as far as connections and the scheduler can tell. */
  function HandleRequest(c: nat, t: Turn, tokens: seq<string>): Turn {
    var t1 := t.(events := t.events + [Request(c, tokens)]);
    if tokens != [] && tokens[0] == "QUIT" then Close(c, t1) else t1
  }

  /** Waiting for the next line, if the socket is still open. */
  function Receive(t: Turn): Turn { t.(client := t.client.(listening := t.client.open)) }

  /** The first ping is sent as soon as both halves of the registration are there. */
  function StartPing(c: nat, t: Turn, now: nat): Turn {
    if t.client.pongEvent != 0 then t
    else var s := Add(t.sched, now, 0, SendPing(c)); t.(client := t.client.(pongEvent := s.id), sched := s)
  }

  /** The close timer on record goes, and the line reaches the request handler. */
  function LetThrough(c: nat, t: Turn, tokens: seq<string>): Turn {
    var t1 := HandleRequest(c, t.(sched := Cancel(t.sched, t.client.eventId)), tokens);
    t1.(client := t1.client.(closed := false))
  }

  function Greet(c: nat, t: Turn): Turn {
    if t.client.sentCommon then t
    else t.(client := t.client.(sentCommon := true, isConnecting := false), events := t.events + [Welcome(c)])
  }

  /** The end of a line that was not turned away. */
  function Finish(c: nat, t: Turn, now: nat, tokens: seq<string>): Turn {
    if !(t.client.sentUser && t.client.sentNick) then Receive(t) else
    var t1 := StartPing(c, t, now);
    if !t1.client.reply then Receive(t1) else Receive(Greet(c, LetThrough(c, t1, tokens)))
  }

  /** The awaited text is empty, so an answer counts when nothing stands before its ':'. */
  predicate IsAwaitedPong(token: string) { token == "" || token[0] == ':' }

  function OnPong(c: nat, t: Turn, now: nat, token: string): Turn {
    if IsAwaitedPong(token) && t.client.lastPong != 120 then
      var s := Add(t.sched, now, 120, SendPing(c));
      t.(client := t.client.(lastPong := 120, reply := true),
         sched := if t.client.eventId != 0 then Cancel(s, t.client.eventId) else s,
         events := t.events + [PongAccepted(c)])
    else
      var s := Add(t.sched, now, 120, CloseConnection(c));
      t.(client := t.client.(notPingReply := t.client.notPingReply + 1, eventId := s.id), sched := s)
  }

  function OnLine(c: nat, t: Turn, now: nat, tokens: seq<string>, env: Env): Turn
    requires tokens != []
  {
    if tokens[0] == "USER" then
      if |tokens| < 4 then Receive(t)
      else if t.client.sentUser && t.client.hasUser then t.(client := t.client.(listening := false))
      else
        var t1 := EnsureUser(c, t, now);
        Finish(c, t1.(client := t1.client.(sentUser := true)), now, tokens)
    else if tokens[0] == "NICK" then
      if !t.client.isConnecting then Receive(HandleRequest(c, t, tokens))
      else if env.nickTaken || env.nickForbidden then Receive(t)
      else
        var t1 := EnsureUser(c, t, now);
        Finish(c, t1.(client := t1.client.(sentNick := true)), now, tokens)
    else if tokens[0] == "PONG" then
      if !(t.client.sentUser && t.client.sentNick) then Receive(t)
      else Finish(c, if |tokens| > 1 then OnPong(c, t, now, tokens[1]) else t, now, tokens)
    else if (!t.client.sentUser || !t.client.hasUser) && !t.client.closed then
      var s := Add(t.sched, now, 40, CloseConnection(c));
      Finish(c, t.(client := t.client.(eventId := s.id, closed := true), sched := s), now, tokens)
    else
      Finish(c, t, now, tokens)
  }

  /** Lines on which the program does not read past the end of the line or throw: it does on NICK
      without a name, on USER without a real name unless it is turned away, and on QUIT without a
      message when it reaches the request handler. */
  predicate Survivable(x: Client, tokens: seq<string>) {
    && tokens != []
    && (tokens[0] == "NICK" ==> |tokens| >= 2)
    && (tokens[0] == "QUIT" && x.sentUser && x.sentNick && x.reply ==> |tokens| >= 2)
    && (tokens[0] == "USER" && !(x.sentUser && x.hasUser) ==> |tokens| != 4)
  }

  // ----- the end of a connection object -----

  /** The two events on record are cancelled as the object goes. */
  function Release(s: Sched, x: Client): Sched {
    var s1 := if x.eventId != 0 then Cancel(s, x.eventId) else s;
    if x.pongEvent != 0 then Cancel(s1, x.pongEvent) else s1
  }

  // ----- the whole server -----

  datatype World = World(clock: nat, sched: Sched, clients: map<nat, Client>, users: map<nat, User>, trace: seq<Event>)

  datatype Step =
    | Connect(now: nat, c: nat, banned: bool)      // banned: the address is turned away at once
    | Line(now: nat, c: nat, tokens: seq<string>, env: Env)
    | Disconnect(now: nat, c: nat)     // a read or write fails, or somebody else closes it
    | Pass(now: nat, rearm: Option<nat>)     // rearm: how long until an event from elsewhere is due again
    | AddElsewhere(now: nat, delay: nat)
    | DestroyUser(now: nat, u: nat)

  function Empty(): World { World(0, S.Sched(map[], 0, true), map[], map[], []) }

  predicate Enabled(w: World, step: Step) {
    && w.clock <= step.now
    && match step
       case Connect(_, c, _) => c !in w.clients
       case Line(_, c, tokens, _) => c in w.clients && w.clients[c].listening && Survivable(w.clients[c], tokens)
       case Disconnect(_, c) => c in w.clients
       case DestroyUser(_, u) => u in w.users && u in w.clients && !w.clients[u].open
       case _ => true
  }

  /** A socket is closed once. */
  function CloseIn(w: World, c: nat): World
    requires c in w.clients
  {
    if w.clients[c].open
    then w.(clients := w.clients[c := Shut(w.clients[c])], trace := w.trace + [Closed(c)])
    else w
  }

  /** What the callback of an event asks of the scheduler. */
  function Callback(a: Action, rearm: Option<nat>): seq<S.Op<Action>> {
    match a
    case AddEventIdle(_) => [S.AddEvent(1, a)]
    case AddEventJoin(_) => [S.AddEvent(1, a)]
    case Elsewhere => (match rearm case None => [] case Some(delay) => [S.AddEvent(delay, a)])
    case _ => []
  }

  /** ... and what else it does. */
  function Fire(w: World, a: Action, id: nat): World {
    match a
    case SendPing(c) =>
      if c !in w.clients then w else
      var x := w.clients[c];
      w.(clients := w.clients[c := x.(reply := false, lastPong := x.lastPong + 1)], trace := w.trace + [PingSent(c)])
    case CloseConnection(c) => if c in w.clients then CloseIn(w, c) else w
    case AddEventIdle(u) =>
      if u !in w.users then w else
      var y := w.users[u]; w.(users := w.users[u := y.(idleTime := y.idleTime + 1, idleEvent := id)])
    case AddEventJoin(u) =>
      if u !in w.users then w else
      var y := w.users[u]; w.(users := w.users[u := y.(joinTime := y.joinTime + 1, joinEvent := id)])
    case Elsewhere => w
  }

  ghost function Take(w0: World, step: Step): World
    requires Enabled(w0, step)
  {
    var w := w0.(clock := step.now);
    match step
    case Connect(_, c, banned) =>
      if banned then CloseIn(w.(clients := w.clients[c := NewClient()]), c)
      else w.(clients := w.clients[c := NewClient().(listening := true)])
    case Disconnect(_, c) => CloseIn(w, c)
    case Line(now, c, tokens, env) =>
      var t := OnLine(c, Turn(w.clients[c], w.users, w.sched, []), now, tokens, env);
      w.(clients := w.clients[c := t.client], users := t.users, sched := t.sched, trace := w.trace + t.events)
    case Pass(now, rearm) =>
      (match S.LeastDue(w.sched, now)
       case None => w
       case Some(k) =>
         var a := w.sched.tasks[k].action;
         var s := S.PassOnce(w.sched, now, Callback(a, rearm));
         Fire(w.(sched := s), a, s.id))
    case AddElsewhere(now, delay) => w.(sched := Add(w.sched, now, delay, Elsewhere))
    case DestroyUser(_, u) =>
      w.(sched := Cancel(Cancel(w.sched, w.users[u].idleEvent), w.users[u].joinEvent), users := w.users - {u})
  }

  ghost predicate EnabledRun(w: World, steps: seq<Step>)
    decreases |steps|
  {
    steps == [] || (Enabled(w, steps[0]) && EnabledRun(Take(w, steps[0]), steps[1..]))
  }

  ghost function Run(w: World, steps: seq<Step>): World
    requires EnabledRun(w, steps)
    decreases |steps|
  {
    if steps == [] then w else Run(Take(w, steps[0]), steps[1..])
  }
}
