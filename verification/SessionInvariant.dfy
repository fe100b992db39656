/** What holds of every connection, every user and every pending event after every step. */
module SessionInvariant {
  import S = Scheduler
  import opened Session

  // ----- the invariant -----

  /** The event at k was issued, will fire, and belongs to somebody who exists. */
  predicate TaskOk(s: Sched, k: nat, clients: set<nat>, users: set<nat>) {
    k in s.tasks ==>
      && 1 <= k <= s.id && !s.tasks[k].stopped
      && match s.tasks[k].action
         case SendPing(c) => c in clients
         case CloseConnection(c) => c in clients
         case AddEventIdle(u) => u in users
         case AddEventJoin(u) => u in users
         case Elsewhere => true
  }

  ghost predicate SchedOk(s: Sched, clients: set<nat>, users: set<nat>) {
    forall k: nat :: TaskOk(s, k, clients, users)
  }

  function Pings(s: Sched, c: nat): set<nat> {
    set k | k in s.tasks && s.tasks[k].action == SendPing(c)
  }

  /** What the ping exchange keeps: n is the number of pings pending. */
  predicate PingsOk(x: Client, n: nat) {
    && (x.pongEvent == 0 ==> n == 0 && x.lastPong == 0)
    && (x.pongEvent != 0 && x.lastPong < 120 ==> x.lastPong >= 0 && n + x.lastPong == 1)
    && (x.lastPong >= 120 ==> x.pongEvent != 0 && 121 <= n + x.lastPong <= 122)
  }

  /** The close timer on record, if it is still pending, is one. */
  predicate TimerOk(s: Sched, c: nat, x: Client) {
    && x.eventId <= s.id
    && (x.eventId in s.tasks ==> s.tasks[x.eventId].action == CloseConnection(c))
  }

  /** In the middle of a line. */
  predicate MidOk(s: Sched, c: nat, x: Client) {
    && (x.hasUser <==> x.sentUser || x.sentNick)
    && (x.sentCommon <==> !x.isConnecting)
    && (x.sentCommon ==> x.lastPong >= 120)
    && (x.lastPong >= 120 && !x.sentCommon ==> x.reply)
    && (x.reply <==> x.lastPong == 120)
    && (x.pongEvent != 0 ==> x.sentUser && x.sentNick)
    && (x.listening ==> x.open)
    && TimerOk(s, c, x)
    && PingsOk(x, |Pings(s, c)|)
  }

  /** Between lines. */
  predicate ClientOk(s: Sched, c: nat, x: Client) {
    && MidOk(s, c, x)
    && (x.sentUser && x.sentNick ==> x.pongEvent != 0)
    && (x.lastPong >= 120 ==> x.sentCommon)
  }

  ghost predicate OnlyEvent(s: Sched, k: nat, a: Action) {
    && k in s.tasks && s.tasks[k].action == a
    && forall j | j in s.tasks && s.tasks[j].action == a :: j == k
  }

  /** Exactly one pending event of each kind, on record; the join counter is not ahead of time. */
  ghost predicate UserOk(s: Sched, u: nat, y: User, clock: nat) {
    && OnlyEvent(s, y.idleEvent, AddEventIdle(u))
    && OnlyEvent(s, y.joinEvent, AddEventJoin(u))
    && y.born + y.joinTime <= clock
    && y.born + y.joinTime + 1 <= s.tasks[y.joinEvent].when
  }

  ghost predicate ClientsOk(s: Sched, clients: map<nat, Client>, users: set<nat>) {
    forall c | c in clients :: ClientOk(s, c, clients[c]) && (clients[c].hasUser && clients[c].open ==> c in users)
  }

  ghost predicate UsersOk(s: Sched, clients: map<nat, Client>, users: map<nat, User>, clock: nat) {
    forall u | u in users :: u in clients && clients[u].hasUser && UserOk(s, u, users[u], clock)
  }

  ghost predicate WorldOk(w: World) {
    && SchedOk(w.sched, w.clients.Keys, w.users.Keys)
    && ClientsOk(w.sched, w.clients, w.users.Keys)
    && UsersOk(w.sched, w.clients, w.users, w.clock)
  }

  // ----- what one connection's line can do to the scheduler -----

  predicate MayAdd(a: Action, c: nat, newUser: bool) {
    match a
    case SendPing(d) => d == c
    case CloseConnection(d) => d == c
    case AddEventIdle(u) => newUser && u == c
    case AddEventJoin(u) => newUser && u == c
    case Elsewhere => true
  }

  ghost predicate EvolvesAt(s: Sched, s': Sched, c: nat, newUser: bool, k: nat) {
    && (k in s'.tasks ==>
        || (k in s.tasks && s'.tasks[k] == s.tasks[k])
        || (s.id < k <= s'.id && !s'.tasks[k].stopped && MayAdd(s'.tasks[k].action, c, newUser)))
    && (k in s.tasks && k !in s'.tasks ==> s.tasks[k].action == CloseConnection(c))
  }

  /** Entries of c are added behind all others, close timers of c are taken out, the rest stays. */
  ghost predicate Evolves(s: Sched, s': Sched, c: nat, newUser: bool) {
    s.id <= s'.id && forall k: nat :: EvolvesAt(s, s', c, newUser, k)
  }

  lemma {:induction false} EvolvesThen(a: Sched, b: Sched, d: Sched, c: nat, newUser: bool, cs: set<nat>, us: set<nat>)
    requires SchedOk(a, cs, us) && SchedOk(b, cs, us)
    requires Evolves(a, b, c, newUser) && Evolves(b, d, c, newUser)
    ensures Evolves(a, d, c, newUser)
  {
    forall k: nat ensures EvolvesAt(a, d, c, newUser, k) {
      assert EvolvesAt(a, b, c, newUser, k) && EvolvesAt(b, d, c, newUser, k);
      assert TaskOk(a, k, cs, us) && TaskOk(b, k, cs, us);
    }
  }

  lemma {:induction false} OthersUnmoved(s: Sched, s': Sched, c: nat, newUser: bool, cs: set<nat>, us: set<nat>,
                                         d: nat, x: Client)
    requires SchedOk(s, cs, us) && Evolves(s, s', c, newUser) && d != c && ClientOk(s, d, x)
    ensures ClientOk(s', d, x)
  {
    forall k: nat ensures k in Pings(s, d) <==> k in Pings(s', d) {
      assert EvolvesAt(s, s', c, newUser, k) && TaskOk(s, k, cs, us);
    }
    assert Pings(s, d) == Pings(s', d);
    assert EvolvesAt(s, s', c, newUser, x.eventId);
  }

  lemma {:induction false} UsersUnmoved(s: Sched, s': Sched, c: nat, newUser: bool, cs: set<nat>, us: set<nat>,
                                        u: nat, y: User, clock: nat)
    requires SchedOk(s, cs, us) && Evolves(s, s', c, newUser) && (u != c || !newUser) && UserOk(s, u, y, clock)
    ensures UserOk(s', u, y, clock)
  {
    OnlyEventUnmoved(s, s', c, newUser, cs, us, y.idleEvent, AddEventIdle(u));
    OnlyEventUnmoved(s, s', c, newUser, cs, us, y.joinEvent, AddEventJoin(u));
  }

  lemma {:induction false} OnlyEventUnmoved(s: Sched, s': Sched, c: nat, newUser: bool, cs: set<nat>, us: set<nat>,
                                            k: nat, a: Action)
    requires SchedOk(s, cs, us) && Evolves(s, s', c, newUser) && OnlyEvent(s, k, a) && !MayAdd(a, c, newUser)
    ensures OnlyEvent(s', k, a) && s'.tasks[k] == s.tasks[k]
  {
    assert EvolvesAt(s, s', c, newUser, k) && TaskOk(s, k, cs, us);
    forall j: nat | j in s'.tasks && s'.tasks[j].action == a ensures j == k {
      assert EvolvesAt(s, s', c, newUser, j);
    }
  }

  // ----- single operations -----

  lemma {:induction false} AddShape(s: Sched, now: nat, delay: nat, a: Action)
    requires s.id + 1 < S.ID_LIMIT && s.id + 1 !in s.tasks
    ensures Add(s, now, delay, a) == s.(id := s.id + 1, tasks := s.tasks[s.id + 1 := S.Task(now + delay, false, a)])
  {}

  lemma {:induction false} PingsAfterInsert(s: Sched, s': Sched, task: S.Task<Action>, d: nat)
    requires s'.id !in s.tasks && s'.tasks == s.tasks[s'.id := task]
    ensures |Pings(s', d)| == |Pings(s, d)| + (if task.action == SendPing(d) then 1 else 0)
  {
    if task.action == SendPing(d) {
      assert Pings(s', d) == Pings(s, d) + {s'.id};
    } else {
      assert Pings(s', d) == Pings(s, d);
    }
  }

  lemma {:induction false} AddFacts(s: Sched, now: nat, delay: nat, a: Action, c: nat, newUser: bool, cs: set<nat>,
                                    us: set<nat>)
    requires SchedOk(s, cs, us) && s.id + 1 < S.ID_LIMIT && MayAdd(a, c, newUser)
    requires c in cs && (newUser ==> c in us)
    ensures var s' := Add(s, now, delay, a);
      && s'.id == s.id + 1 && s'.tasks == s.tasks[s'.id := S.Task(now + delay, false, a)] && s'.id !in s.tasks
      && SchedOk(s', cs, us) && Evolves(s, s', c, newUser)
      && (forall d :: |Pings(s', d)| == |Pings(s, d)| + (if a == SendPing(d) then 1 else 0))
  {
    hide Add, Pings;
    assert TaskOk(s, s.id + 1, cs, us);
    AddShape(s, now, delay, a);
    var s' := Add(s, now, delay, a);
    forall k: nat ensures TaskOk(s', k, cs, us) && EvolvesAt(s, s', c, newUser, k) { assert TaskOk(s, k, cs, us); }
    forall d ensures |Pings(s', d)| == |Pings(s, d)| + (if a == SendPing(d) then 1 else 0) {
      PingsAfterInsert(s, s', S.Task(now + delay, false, a), d);
    }
  }

  lemma {:induction false} CancelFacts(s: Sched, c: nat, id: nat, cs: set<nat>, us: set<nat>)
    requires SchedOk(s, cs, us) && (id in s.tasks ==> s.tasks[id].action == CloseConnection(c))
    ensures var s' := Cancel(s, id);
      && SchedOk(s', cs, us) && Evolves(s, s', c, false) && Evolves(s, s', c, true)
      && id !in s'.tasks && s'.id == s.id
      && (forall d :: Pings(s', d) == Pings(s, d))
  {
    var s' := Cancel(s, id);
    forall k: nat ensures TaskOk(s', k, cs, us) && EvolvesAt(s, s', c, false, k) && EvolvesAt(s, s', c, true, k) {
      assert TaskOk(s, k, cs, us);
    }
    forall d ensures Pings(s', d) == Pings(s, d) {
      assert forall k :: k in Pings(s', d) <==> k in Pings(s, d);
    }
  }

  // ----- the parts of a line -----

  /** The server in the middle of a line of c. */
  ghost predicate TurnOk(c: nat, t: Turn, cs: set<nat>) {
    c in cs && SchedOk(t.sched, cs, t.users.Keys) && MidOk(t.sched, c, t.client)
  }

  lemma {:induction false} MakeUserOk(c: nat, t: Turn, now: nat, cs: set<nat>)
    requires TurnOk(c, t, cs) && c !in t.users && t.sched.id + 2 < S.ID_LIMIT
    ensures var t' := MakeUser(c, t, now);
      && t'.users.Keys == t.users.Keys + {c} && (forall u | u in t.users :: t'.users[u] == t.users[u])
      && t'.sched.id == t.sched.id + 2
      && SchedOk(t.sched, cs, t'.users.Keys) && SchedOk(t'.sched, cs, t'.users.Keys)
      && Evolves(t.sched, t'.sched, c, true)
      && UserOk(t'.sched, c, t'.users[c], now)
      && TimerOk(t'.sched, c, t.client)
      && |Pings(t'.sched, c)| == |Pings(t.sched, c)|
  {
    var us := t.users.Keys + {c};
    forall k: nat ensures TaskOk(t.sched, k, cs, us) { assert TaskOk(t.sched, k, cs, t.users.Keys); }
    var s1 := Add(t.sched, now, 1, AddEventIdle(c));
    var s2 := Add(s1, now, 1, AddEventJoin(c));
    AddFacts(t.sched, now, 1, AddEventIdle(c), c, true, cs, us);
    AddFacts(s1, now, 1, AddEventJoin(c), c, true, cs, us);
    EvolvesThen(t.sched, s1, s2, c, true, cs, us);
    forall j: nat | j in t.sched.tasks
      ensures t.sched.tasks[j].action != AddEventIdle(c) && t.sched.tasks[j].action != AddEventJoin(c)
    {
      assert TaskOk(t.sched, j, cs, t.users.Keys);
    }
    assert OnlyEvent(s2, s1.id, AddEventIdle(c));
    assert OnlyEvent(s2, s2.id, AddEventJoin(c));
  }

  lemma {:induction false} PongOk(c: nat, t: Turn, now: nat, token: string, cs: set<nat>)
    requires TurnOk(c, t, cs) && ClientOk(t.sched, c, t.client) && t.client.sentUser && t.client.sentNick
    requires t.sched.id + 1 < S.ID_LIMIT
    ensures var t' := OnPong(c, t, now, token);
      && TurnOk(c, t', cs) && Evolves(t.sched, t'.sched, c, false)
      && t'.sched.id == t.sched.id + 1
  {
    var us := t.users.Keys;
    if IsAwaitedPong(token) && t.client.lastPong != 120 {
      var s := Add(t.sched, now, 120, SendPing(c));
      AddFacts(t.sched, now, 120, SendPing(c), c, false, cs, us);
      if t.client.eventId != 0 {
        CancelFacts(s, c, t.client.eventId, cs, us);
        EvolvesThen(t.sched, s, Cancel(s, t.client.eventId), c, false, cs, us);
      }
    } else {
      AddFacts(t.sched, now, 120, CloseConnection(c), c, false, cs, us);
    }
  }

  lemma {:induction false} RequestOk(c: nat, t: Turn, tokens: seq<string>, cs: set<nat>)
    requires TurnOk(c, t, cs)
    ensures var t' := Receive(HandleRequest(c, t, tokens));
      && TurnOk(c, t', cs) && Evolves(t.sched, t'.sched, c, false)
      && (t'.client == t.client.(listening := t.client.open) || t'.client == Shut(t.client))
      && (t'.client.open ==> t.client.open) && t'.users == t.users
      && HandleRequest(c, t, tokens).sched == t'.sched == t.sched
  {
    hide Pings;
  }

  /** The end of a line leaves the connection as it is between lines. */
  lemma {:induction false} FinishOk(c: nat, t: Turn, now: nat, tokens: seq<string>, cs: set<nat>)
    requires TurnOk(c, t, cs) && t.sched.id + 1 < S.ID_LIMIT
    ensures var t' := Finish(c, t, now, tokens);
      && TurnOk(c, t', cs) && ClientOk(t'.sched, c, t'.client)
      && Evolves(t.sched, t'.sched, c, false)
      && t'.users == t.users && t'.client.hasUser == t.client.hasUser && (t'.client.open ==> t.client.open)
  {
    var us := t.users.Keys;
    if t.client.sentUser && t.client.sentNick {
      var s := Add(t.sched, now, 0, SendPing(c));
      AddFacts(t.sched, now, 0, SendPing(c), c, false, cs, us);
      var t1 := if t.client.pongEvent != 0 then t else t.(client := t.client.(pongEvent := s.id), sched := s);
      assert TurnOk(c, t1, cs) && Evolves(t.sched, t1.sched, c, false);
      if t1.client.reply {
        var t2 := t1.(sched := Cancel(t1.sched, t1.client.eventId));
        CancelFacts(t1.sched, c, t1.client.eventId, cs, us);
        assert TurnOk(c, t2, cs);
        EvolvesThen(t.sched, t1.sched, t2.sched, c, false, cs, us);
        RequestOk(c, t2, tokens, cs);
      }
    }
  }

  /** What a whole line leaves, for its own connection and for the rest. */
  ghost predicate LineResult(c: nat, t: Turn, t': Turn, now: nat, cs: set<nat>) {
    var made := !t.client.hasUser && t'.client.hasUser;
    && ClientOk(t'.sched, c, t'.client) && SchedOk(t'.sched, cs, t'.users.Keys)
    && SchedOk(t.sched, cs, t'.users.Keys)
    && Evolves(t.sched, t'.sched, c, made)
    && (t.client.hasUser ==> t'.client.hasUser) && (t'.client.open ==> t.client.open)
    && (if made then
          && t'.users.Keys == t.users.Keys + {c}
          && (forall u | u in t.users :: t'.users[u] == t.users[u])
          && UserOk(t'.sched, c, t'.users[c], now)
        else t'.users == t.users)
  }

  lemma {:induction false} EvolvesMore(s: Sched, s': Sched, c: nat)
    requires Evolves(s, s', c, false)
    ensures Evolves(s, s', c, true)
  {
    forall k: nat ensures EvolvesAt(s, s', c, true, k) { assert EvolvesAt(s, s', c, false, k); }
  }

  /** USER or NICK: the user is made if need be, the flag is set, and the line is finished. */
  lemma {:induction false} RegisterOk(c: nat, t: Turn, now: nat, tokens: seq<string>, cs: set<nat>, nick: bool)
    requires TurnOk(c, t, cs) && ClientOk(t.sched, c, t.client) && t.sched.id + 4 < S.ID_LIMIT
    requires c in t.users ==> t.client.hasUser
    ensures var t1 := EnsureUser(c, t, now);
      var x := if nick then t1.client.(sentNick := true) else t1.client.(sentUser := true);
      LineResult(c, t, Finish(c, t1.(client := x), now, tokens), now, cs)
  {
    var t1 := EnsureUser(c, t, now);
    var x := if nick then t1.client.(sentNick := true) else t1.client.(sentUser := true);
    var t2 := t1.(client := x);
    if t.client.hasUser {
      FinishOk(c, t2, now, tokens, cs);
    } else {
      MakeUserOk(c, t, now, cs);
      FinishOk(c, t2, now, tokens, cs);
      var t3 := Finish(c, t2, now, tokens);
      EvolvesMore(t2.sched, t3.sched, c);
      EvolvesThen(t.sched, t2.sched, t3.sched, c, true, cs, t2.users.Keys);
      UsersUnmoved(t2.sched, t3.sched, c, false, cs, t2.users.Keys, c, t2.users[c], now);
    }
  }

  lemma {:induction false} LineOk(c: nat, t: Turn, now: nat, tokens: seq<string>, env: Env, cs: set<nat>)
    requires TurnOk(c, t, cs) && ClientOk(t.sched, c, t.client) && tokens != []
    requires t.sched.id + 4 < S.ID_LIMIT && (c in t.users ==> t.client.hasUser)
    ensures LineResult(c, t, OnLine(c, t, now, tokens, env), now, cs)
  {
    hide OnLine, LineResult, TurnOk, ClientOk;
    if tokens[0] == "USER" || tokens[0] == "NICK" {
      RegistrationLineOk(c, t, now, tokens, env, cs);
    } else if tokens[0] == "PONG" {
      PongLineOk(c, t, now, tokens, env, cs);
    } else {
      OtherLineOk(c, t, now, tokens, env, cs);
    }
  }

  lemma {:induction false} RegistrationLineOk(c: nat, t: Turn, now: nat, tokens: seq<string>, env: Env, cs: set<nat>)
    requires TurnOk(c, t, cs) && ClientOk(t.sched, c, t.client) && tokens != []
    requires t.sched.id + 4 < S.ID_LIMIT && (c in t.users ==> t.client.hasUser)
    requires tokens[0] == "USER" || tokens[0] == "NICK"
    ensures LineResult(c, t, OnLine(c, t, now, tokens, env), now, cs)
  {
    hide Finish, EnsureUser, LineResult, TurnOk, ClientOk, HandleRequest;
    TurnedAwayOk(c, t, Receive(t), now, cs);
    if tokens[0] == "USER" {
      RegisterOk(c, t, now, tokens, cs, false);
      TurnedAwayOk(c, t, t.(client := t.client.(listening := false)), now, cs);
    } else {
      RegisterOk(c, t, now, tokens, cs, true);
      NickRequestOk(c, t, now, tokens, cs);
    }
  }

  lemma {:induction false} TurnedAwayOk(c: nat, t: Turn, t': Turn, now: nat, cs: set<nat>)
    requires TurnOk(c, t, cs) && ClientOk(t.sched, c, t.client)
    requires t' == t.(client := t.client.(listening := t'.client.listening)) && (t'.client.listening ==> t.client.open)
    ensures LineResult(c, t, t', now, cs)
  {}

  lemma {:induction false} NickRequestOk(c: nat, t: Turn, now: nat, tokens: seq<string>, cs: set<nat>)
    requires TurnOk(c, t, cs) && ClientOk(t.sched, c, t.client)
    ensures LineResult(c, t, Receive(HandleRequest(c, t, tokens)), now, cs)
  {
    RequestOk(c, t, tokens, cs);
  }

  lemma {:induction false} PongLineOk(c: nat, t: Turn, now: nat, tokens: seq<string>, env: Env, cs: set<nat>)
    requires TurnOk(c, t, cs) && ClientOk(t.sched, c, t.client) && tokens != []
    requires t.sched.id + 4 < S.ID_LIMIT && (c in t.users ==> t.client.hasUser)
    requires tokens[0] == "PONG"
    ensures LineResult(c, t, OnLine(c, t, now, tokens, env), now, cs)
  {
    TurnedAwayOk(c, t, Receive(t), now, cs);
    if t.client.sentUser && t.client.sentNick {
      var t1 := t;
      if |tokens| > 1 {
        PongOk(c, t, now, tokens[1], cs);
        PongKeeps(c, t, now, tokens[1]);
        t1 := OnPong(c, t, now, tokens[1]);
      }
      FinishOk(c, t1, now, tokens, cs);
      EvolvesThen(t.sched, t1.sched, Finish(c, t1, now, tokens).sched, c, false, cs, t.users.Keys);
    }
    hide Finish, OnPong, ClientOk;
  }

  lemma {:induction false} OtherLineOk(c: nat, t: Turn, now: nat, tokens: seq<string>, env: Env, cs: set<nat>)
    requires TurnOk(c, t, cs) && ClientOk(t.sched, c, t.client) && tokens != []
    requires t.sched.id + 4 < S.ID_LIMIT && (c in t.users ==> t.client.hasUser)
    requires tokens[0] != "USER" && tokens[0] != "NICK" && tokens[0] != "PONG"
    ensures LineResult(c, t, OnLine(c, t, now, tokens, env), now, cs)
  {
    hide Finish;
    var s := Add(t.sched, now, 40, CloseConnection(c));
    AddFacts(t.sched, now, 40, CloseConnection(c), c, false, cs, t.users.Keys);
    var t1 := if (!t.client.sentUser || !t.client.hasUser) && !t.client.closed
              then t.(client := t.client.(eventId := s.id, closed := true), sched := s) else t;
    FinishOk(c, t1, now, tokens, cs);
    EvolvesThen(t.sched, t1.sched, Finish(c, t1, now, tokens).sched, c, false, cs, t.users.Keys);
  }

  lemma {:induction false} PongKeeps(c: nat, t: Turn, now: nat, token: string)
    ensures var t' := OnPong(c, t, now, token);
      t'.users == t.users && t'.client.hasUser == t.client.hasUser && t'.client.open == t.client.open
  {}

  // ----- whole steps -----

  lemma {:induction false} AfterLineOk(w: World, c: nat, t': Turn, now: nat)
    requires WorldOk(w) && c in w.clients && w.clock <= now
    requires LineResult(c, Turn(w.clients[c], w.users, w.sched, []), t', now, w.clients.Keys)
    ensures WorldOk(World(now, t'.sched, w.clients[c := t'.client], t'.users, w.trace + t'.events))
  {
    hide MidOk, UserOk, SchedOk, Evolves, ClientOk;
    var made := !w.clients[c].hasUser && t'.client.hasUser;
    var clients := w.clients[c := t'.client];
    assert clients.Keys == w.clients.Keys;
    forall d | d in w.clients && d != c ensures ClientOk(t'.sched, d, clients[d]) {
      OthersUnmoved(w.sched, t'.sched, c, made, w.clients.Keys, w.users.Keys, d, w.clients[d]);
    }
    forall u | u in w.users ensures UserOk(t'.sched, u, t'.users[u], now) {
      LaterUserOk(w.sched, u, w.users[u], w.clock, now);
      UsersUnmoved(w.sched, t'.sched, c, made, w.clients.Keys, w.users.Keys, u, w.users[u], now);
    }
  }

  lemma {:induction false} LineStepOk(w: World, step: Step)
    requires WorldOk(w) && step.Line? && Enabled(w, step) && w.sched.id + 4 < S.ID_LIMIT
    ensures WorldOk(Take(w, step))
  {
    var t := Turn(w.clients[step.c], w.users, w.sched, []);
    LineOk(step.c, t, step.now, step.tokens, step.env, w.clients.Keys);
    AfterLineOk(w, step.c, OnLine(step.c, t, step.now, step.tokens, step.env), step.now);
    hide OnLine, WorldOk;
  }

  lemma {:induction false} LaterUserOk(s: Sched, u: nat, y: User, clock: nat, now: nat)
    requires UserOk(s, u, y, clock) && clock <= now
    ensures UserOk(s, u, y, now)
  {}

  // ----- firing -----

  function Without(s: Sched, k: nat): Sched { s.(tasks := s.tasks - {k}) }

  lemma {:induction false} WithoutSchedOk(s: Sched, k: nat, cs: set<nat>, us: set<nat>)
    requires SchedOk(s, cs, us)
    ensures SchedOk(Without(s, k), cs, us)
  {
    forall j: nat ensures TaskOk(Without(s, k), j, cs, us) { assert TaskOk(s, j, cs, us); }
  }

  lemma {:induction false} WithoutClientOk(s: Sched, k: nat, d: nat, x: Client)
    requires ClientOk(s, d, x) && k in s.tasks && s.tasks[k].action != SendPing(d)
    ensures ClientOk(Without(s, k), d, x)
  {
    assert Pings(Without(s, k), d) == Pings(s, d);
  }

  lemma {:induction false} WithoutUserOk(s: Sched, k: nat, u: nat, y: User, clock: nat)
    requires UserOk(s, u, y, clock) && k in s.tasks
    requires s.tasks[k].action != AddEventIdle(u) && s.tasks[k].action != AddEventJoin(u)
    ensures UserOk(Without(s, k), u, y, clock)
  {}

  /** The entry at k is gone; only the connection it pinged, if any, has to be looked at again. */
  lemma {:induction false} AfterFiring(w: World, k: nat, clients: map<nat, Client>, trace: seq<Event>)
    requires WorldOk(w) && k in w.sched.tasks && clients.Keys == w.clients.Keys
    requires !w.sched.tasks[k].action.AddEventIdle? && !w.sched.tasks[k].action.AddEventJoin?
    requires forall d | d in clients ::
      && clients[d].hasUser == w.clients[d].hasUser && (clients[d].open ==> w.clients[d].open)
      && ((clients[d] == w.clients[d]
          && w.sched.tasks[k].action != SendPing(d)) || ClientOk(Without(w.sched, k), d, clients[d]))
    ensures WorldOk(w.(sched := Without(w.sched, k), clients := clients, trace := trace))
  {
    hide ClientOk, UserOk, SchedOk;
    WithoutSchedOk(w.sched, k, w.clients.Keys, w.users.Keys);
    forall d | d in clients ensures ClientOk(Without(w.sched, k), d, clients[d]) {
      if clients[d] == w.clients[d] && w.sched.tasks[k].action != SendPing(d) {
        WithoutClientOk(w.sched, k, d, w.clients[d]);
      }
    }
    forall u | u in w.users ensures UserOk(Without(w.sched, k), u, w.users[u], w.clock) {
      WithoutUserOk(w.sched, k, u, w.users[u], w.clock);
    }
  }

  lemma {:induction false} OwnerExists(w: World, k: nat)
    requires WorldOk(w) && k in w.sched.tasks
    ensures match w.sched.tasks[k].action
            case SendPing(c) => c in w.clients
            case CloseConnection(c) => c in w.clients
            case AddEventIdle(u) => u in w.users
            case AddEventJoin(u) => u in w.users
            case Elsewhere => true
  {
    assert TaskOk(w.sched, k, w.clients.Keys, w.users.Keys);
  }

  lemma {:induction false} PingOfClient(s: Sched, k: nat, c: nat, x: Client, cs: set<nat>, us: set<nat>)
    requires SchedOk(s, cs, us) && ClientOk(s, c, x) && k in s.tasks && s.tasks[k].action == SendPing(c)
    ensures ClientOk(Without(s, k), c, x.(reply := false, lastPong := x.lastPong + 1))
  {
    assert k in Pings(s, c);
    assert Pings(Without(s, k), c) == Pings(s, c) - {k};
  }

  lemma {:induction false} WorldClient(w: World, c: nat)
    requires WorldOk(w) && c in w.clients
    ensures SchedOk(w.sched, w.clients.Keys, w.users.Keys) && ClientOk(w.sched, c, w.clients[c])
  {
    hide ClientOk, UserOk;
  }

  lemma {:induction false} WorldUser(w: World, u: nat)
    requires WorldOk(w) && u in w.users
    ensures UserOk(w.sched, u, w.users[u], w.clock)
  {
    hide SchedOk, ClientOk, UserOk;
  }

  lemma {:induction false} PingFires(w: World, k: nat, c: nat)
    requires WorldOk(w) && k in w.sched.tasks && w.sched.tasks[k].action == SendPing(c)
    ensures WorldOk(Fire(w.(sched := Without(w.sched, k)), SendPing(c), w.sched.id))
  {
    hide WorldOk, ClientOk, SchedOk;
    OwnerExists(w, k);
    WorldClient(w, c);
    PingOfClient(w.sched, k, c, w.clients[c], w.clients.Keys, w.users.Keys);
    var w' := Fire(w.(sched := Without(w.sched, k)), SendPing(c), w.sched.id);
    AfterFiring(w, k, w'.clients, w'.trace);
  }

  lemma {:induction false} ClosingClient(s: Sched, c: nat, x: Client)
    requires ClientOk(s, c, x)
    ensures ClientOk(s, c, Shut(x))
  {}

  lemma {:induction false} CloseInOk(w: World, c: nat)
    requires WorldOk(w) && c in w.clients
    ensures WorldOk(CloseIn(w, c))
  {
    ClosingClient(w.sched, c, w.clients[c]);
    hide ClientOk, UserOk, SchedOk;
    assert CloseIn(w, c).clients.Keys == w.clients.Keys;
  }

  lemma {:induction false} CloseFires(w: World, k: nat, c: nat)
    requires WorldOk(w) && k in w.sched.tasks && w.sched.tasks[k].action == CloseConnection(c)
    ensures WorldOk(Fire(w.(sched := Without(w.sched, k)), CloseConnection(c), w.sched.id))
  {
    OwnerExists(w, k);
    AfterFiring(w, k, w.clients, w.trace);
    CloseInOk(w.(sched := Without(w.sched, k)), c);
    hide WorldOk, CloseIn;
  }

  /** Adding an event from elsewhere disturbs nobody. */
  lemma {:induction false} ElsewhereAdded(w: World, now: nat, delay: nat)
    requires WorldOk(w) && w.sched.id + 1 < S.ID_LIMIT
    ensures WorldOk(w.(sched := Add(w.sched, now, delay, Elsewhere)))
  {
    var s, s' := w.sched, Add(w.sched, now, delay, Elsewhere);
    var cs, us := w.clients.Keys, w.users.Keys;
    if c: nat :| c in cs {
      AddFacts(s, now, delay, Elsewhere, c, false, cs, us);
      forall d | d in w.clients ensures ClientOk(s', d, w.clients[d]) {
        assert ClientOk(s, d, w.clients[d]);
        AddKeepsClient(s, now, delay, Elsewhere, d, w.clients[d], cs, us);
      }
      forall u | u in w.users ensures UserOk(s', u, w.users[u], w.clock) {
        UsersUnmoved(s, s', c, false, cs, us, u, w.users[u], w.clock);
      }
    } else {
      forall k: nat ensures TaskOk(s', k, cs, us) { assert TaskOk(s, k, cs, us); }
    }
  }

  /** An event that is neither ping nor close timer leaves a connection as it is. */
  lemma {:induction false} AddKeepsClient(s: Sched, now: nat, delay: nat, a: Action, d: nat, x: Client, cs: set<nat>,
                                          us: set<nat>)
    requires SchedOk(s, cs, us) && s.id + 1 < S.ID_LIMIT && ClientOk(s, d, x) && d in cs
    requires a == Elsewhere || (d in us && (a == AddEventIdle(d) || a == AddEventJoin(d)))
    ensures ClientOk(Add(s, now, delay, a), d, x)
  {
    AddFacts(s, now, delay, a, d, a != Elsewhere, cs, us);
  }

  function Ticked(y: User, join: bool, id: nat): User {
    if join then y.(joinTime := y.joinTime + 1, joinEvent := id) else y.(idleTime := y.idleTime + 1, idleEvent := id)
  }

  lemma {:induction false} TickedUserOk(w: World, k: nat, u: nat, join: bool, now: nat)
    requires WorldOk(w) && k in w.sched.tasks && w.clock == now && w.sched.tasks[k].when <= now
        && w.sched.id + 1 < S.ID_LIMIT
    requires w.sched.tasks[k].action == if join then AddEventJoin(u) else AddEventIdle(u)
    ensures u in w.users && Rearmed(w.sched, k, now).id == w.sched.id + 1
    ensures UserOk(Rearmed(w.sched, k, now), u, Ticked(w.users[u], join, w.sched.id + 1), now)
  {
    hide WorldOk, UserOk, Add;
    OwnerExists(w, k);
    NextIdFree(w);
    WorldUser(w, u);
    AddShape(w.sched, now, 1, w.sched.tasks[k].action);
    UserTimerMoves(w.sched, k, u, w.users[u], join, now);
  }

  /** A user's timer fires: its counter goes up and its next event replaces it. */
  lemma {:induction false} UserTimerFires(w: World, k: nat, u: nat, join: bool, now: nat)
    requires WorldOk(w) && k in w.sched.tasks && w.clock == now && w.sched.tasks[k].when <= now
        && w.sched.id + 1 < S.ID_LIMIT
    requires w.sched.tasks[k].action == if join then AddEventJoin(u) else AddEventIdle(u)
    ensures var s := Rearmed(w.sched, k, now);
      WorldOk(Fire(w.(sched := s), w.sched.tasks[k].action, s.id))
  {
    TickedUserOk(w, k, u, join, now);
    hide Rearmed, WorldOk, UserOk, Fire, Ticked;
    FireTicks(w.(sched := Rearmed(w.sched, k, now)), w.sched.tasks[k].action, u, join, w.sched.id + 1);
    AfterUserTimer(w, k, u, now, Ticked(w.users[u], join, w.sched.id + 1));
  }

  lemma {:induction false} FireTicks(w: World, a: Action, u: nat, join: bool, id: nat)
    requires u in w.users && a == if join then AddEventJoin(u) else AddEventIdle(u)
    ensures Fire(w, a, id) == w.(users := w.users[u := Ticked(w.users[u], join, id)])
  {}

  function Rearmed(s: Sched, k: nat, now: nat): Sched
    requires k in s.tasks
  {
    Without(Add(s, now, 1, s.tasks[k].action), k)
  }

  lemma {:induction false} RearmedClient(w: World, k: nat, u: nat, now: nat, d: nat)
    requires WorldOk(w) && k in w.sched.tasks && w.sched.id + 1 < S.ID_LIMIT && u in w.users
    requires w.sched.tasks[k].action == AddEventIdle(u) || w.sched.tasks[k].action == AddEventJoin(u)
    requires d in w.clients
    ensures ClientOk(Rearmed(w.sched, k, now), d, w.clients[d])
  {
    var a, cs, us := w.sched.tasks[k].action, w.clients.Keys, w.users.Keys;
    var s1 := Add(w.sched, now, 1, a);
    AddFacts(w.sched, now, 1, a, u, true, cs, us);
    hide SchedOk, Evolves, Add, ClientOk, UserOk;
    if d == u {
      AddKeepsClient(w.sched, now, 1, a, u, w.clients[u], cs, us);
    } else {
      OthersUnmoved(w.sched, s1, u, true, cs, us, d, w.clients[d]);
    }
    assert s1.tasks[k] == w.sched.tasks[k];
    WithoutClientOk(s1, k, d, w.clients[d]);
  }

  lemma {:induction false} RearmedUser(w: World, k: nat, u: nat, now: nat, v: nat)
    requires WorldOk(w) && k in w.sched.tasks && w.sched.id + 1 < S.ID_LIMIT && u in w.users
    requires w.sched.tasks[k].action == AddEventIdle(u) || w.sched.tasks[k].action == AddEventJoin(u)
    requires v in w.users && v != u
    ensures UserOk(Rearmed(w.sched, k, now), v, w.users[v], w.clock)
  {
    var a, cs, us := w.sched.tasks[k].action, w.clients.Keys, w.users.Keys;
    var s1 := Add(w.sched, now, 1, a);
    AddFacts(w.sched, now, 1, a, u, true, cs, us);
    hide SchedOk, Evolves, Add, ClientOk, UserOk;
    UsersUnmoved(w.sched, s1, u, true, cs, us, v, w.users[v], w.clock);
    assert s1.tasks[k] == w.sched.tasks[k];
    WithoutUserOk(s1, k, v, w.users[v], w.clock);
  }

  lemma {:induction false} RearmedSched(w: World, k: nat, u: nat, now: nat)
    requires WorldOk(w) && k in w.sched.tasks && w.sched.id + 1 < S.ID_LIMIT && u in w.users
    requires w.sched.tasks[k].action == AddEventIdle(u) || w.sched.tasks[k].action == AddEventJoin(u)
    ensures SchedOk(Rearmed(w.sched, k, now), w.clients.Keys, w.users.Keys)
  {
    var a, cs, us := w.sched.tasks[k].action, w.clients.Keys, w.users.Keys;
    AddFacts(w.sched, now, 1, a, u, true, cs, us);
    WithoutSchedOk(Add(w.sched, now, 1, a), k, cs, us);
  }

  lemma {:induction false} RearmedUsers(w: World, k: nat, u: nat, now: nat, y: User)
    requires WorldOk(w) && k in w.sched.tasks && w.sched.id + 1 < S.ID_LIMIT && u in w.users
    requires w.sched.tasks[k].action == AddEventIdle(u) || w.sched.tasks[k].action == AddEventJoin(u)
    requires UserOk(Rearmed(w.sched, k, now), u, y, w.clock)
    ensures UsersOk(Rearmed(w.sched, k, now), w.clients, w.users[u := y], w.clock)
  {
    hide UserOk, Rearmed;
    var users := w.users[u := y];
    forall v | v in users
      ensures v in w.clients && w.clients[v].hasUser && UserOk(Rearmed(w.sched, k, now), v, users[v], w.clock)
    {
      if v != u { RearmedUser(w, k, u, now, v); }
    }
  }

  lemma {:induction false} RearmedClients(w: World, k: nat, u: nat, now: nat)
    requires WorldOk(w) && k in w.sched.tasks && w.sched.id + 1 < S.ID_LIMIT && u in w.users
    requires w.sched.tasks[k].action == AddEventIdle(u) || w.sched.tasks[k].action == AddEventJoin(u)
    ensures ClientsOk(Rearmed(w.sched, k, now), w.clients, w.users.Keys)
  {
    hide ClientOk, Rearmed;
    forall d | d in w.clients ensures ClientOk(Rearmed(w.sched, k, now), d, w.clients[d]) {
      RearmedClient(w, k, u, now, d);
    }
  }

  lemma {:induction false} AfterUserTimer(w: World, k: nat, u: nat, now: nat, y: User)
    requires WorldOk(w) && k in w.sched.tasks && w.sched.id + 1 < S.ID_LIMIT && u in w.users
    requires w.sched.tasks[k].action == AddEventIdle(u) || w.sched.tasks[k].action == AddEventJoin(u)
    requires UserOk(Rearmed(w.sched, k, now), u, y, w.clock)
    ensures WorldOk(w.(sched := Rearmed(w.sched, k, now), users := w.users[u := y]))
  {
    RearmedSched(w, k, u, now);
    RearmedUsers(w, k, u, now, y);
    RearmedClients(w, k, u, now);
    assert w.users[u := y].Keys == w.users.Keys;
    hide Rearmed, UserOk, SchedOk, UsersOk, ClientsOk;
  }

  lemma {:induction false} NextIdFree(w: World)
    requires WorldOk(w)
    ensures w.sched.id + 1 !in w.sched.tasks
  {
    assert TaskOk(w.sched, w.sched.id + 1, w.clients.Keys, w.users.Keys);
  }

  lemma {:induction false} UserTimerMoves(s: Sched, k: nat, u: nat, y: User, join: bool, now: nat)
    requires UserOk(s, u, y, now) && k in s.tasks
    requires s.tasks[k].action == if join then AddEventJoin(u) else AddEventIdle(u)
    requires s.tasks[k].when <= now && s.id + 1 < S.ID_LIMIT && s.id + 1 !in s.tasks
    ensures UserOk(Rearmed(s, k, now), u, Ticked(y, join, s.id + 1), now)
  {}

  lemma {:induction false} PassStepOk(w: World, step: Step)
    requires WorldOk(w) && step.Pass? && Enabled(w, step) && w.sched.id + 4 < S.ID_LIMIT
    ensures WorldOk(Take(w, step))
  {
    var w1 := w.(clock := step.now);
    LaterOk(w, step.now);
    match S.LeastDue(w.sched, step.now)
    case None =>
    case Some(k) =>
      var a := w.sched.tasks[k].action;
      var ops := Callback(a, step.rearm);
      OneOp(w.sched, step.now, ops);
      assert S.IsDue(w.sched, step.now, k);
      hide WorldOk, Fire;
      match a {
        case SendPing(c) => PingFires(w1, k, c);
        case CloseConnection(c) => CloseFires(w1, k, c);
        case AddEventIdle(u) => UserTimerFires(w1, k, u, false, step.now);
        case AddEventJoin(u) => UserTimerFires(w1, k, u, true, step.now);
        case Elsewhere =>
          AfterFiring(w1, k, w1.clients, w1.trace);
          if step.rearm.Some? {
            ElsewhereAdded(w1.(sched := Without(w.sched, k)), step.now, step.rearm.value);
            AddWithoutCommute(w, step.now, step.rearm.value, k);
          }
          ElsewhereDoesNothing(Take(w, step), w.sched.id);
      }
  }

  lemma {:induction false} ElsewhereDoesNothing(w: World, id: nat)
    ensures forall v, i :: Fire(v, Elsewhere, i) == v
  {}

  lemma {:induction false} AddWithoutCommute(w: World, now: nat, delay: nat, k: nat)
    requires WorldOk(w) && k in w.sched.tasks && w.sched.id + 1 < S.ID_LIMIT
    ensures Without(Add(w.sched, now, delay, Elsewhere), k) == Add(Without(w.sched, k), now, delay, Elsewhere)
  {
    assert TaskOk(w.sched, k, w.clients.Keys, w.users.Keys);
    assert TaskOk(w.sched, w.sched.id + 1, w.clients.Keys, w.users.Keys);
  }

  lemma {:induction false} OneOp(s: Sched, now: nat, ops: seq<S.Op<Action>>)
    ensures ops == [] ==> S.ApplyAll(s, now, ops) == s
    ensures |ops| == 1 ==> S.ApplyAll(s, now, ops) == S.Apply(s, now, ops[0])
  {
    if |ops| == 1 { assert ops[1..] == []; }
  }

  lemma {:induction false} LaterOk(w: World, now: nat)
    requires WorldOk(w) && w.clock <= now
    ensures WorldOk(w.(clock := now))
  {
    forall u | u in w.users ensures UserOk(w.sched, u, w.users[u], now) {
      LaterUserOk(w.sched, u, w.users[u], w.clock, now);
    }
  }
}
