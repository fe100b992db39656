/** The close timers of a connection: how many there can be, and which are taken out. */
module SessionTimers {
  import opened Auxiliar
  import S = Scheduler
  import opened Session
  import opened SessionInvariant
  import opened SessionRuns
  import opened SessionTraces

  // ----- close timers -----

  function Timers(s: Sched, c: nat): set<nat> {
    set k | k in s.tasks && s.tasks[k].action == CloseConnection(c)
  }

  /** A PONG that comes while the last one still stands, or does not have the awaited text. */
  predicate Refused(x: Client, tokens: seq<string>) {
    |tokens| > 1 && tokens[0] == "PONG" && !Accepts(x, tokens)
  }

  /** No entry lies ahead of the id counter. */
  predicate IdsIssued(s: Sched) {
    forall k | k in s.tasks :: 0 < k <= s.id
  }

  lemma {:induction false} AllIssued(s: Sched, cs: set<nat>, us: set<nat>)
    requires SchedOk(s, cs, us)
    ensures IdsIssued(s)
  {
    forall k | k in s.tasks ensures 0 < k <= s.id { assert TaskOk(s, k, cs, us); }
  }

  lemma {:induction false} AddTimers(s: Sched, now: nat, delay: nat, a: Action, c: nat)
    requires s.id + 1 < S.ID_LIMIT && IdsIssued(s)
    ensures var s' := Add(s, now, delay, a);
      && s'.id == s.id + 1 && IdsIssued(s') && s'.id !in Timers(s, c)
      && Timers(s', c) == Timers(s, c) + (if a == CloseConnection(c) then {s'.id} else {})
  {
    AddShape(s, now, delay, a);
    var s' := Add(s, now, delay, a);
    assert forall k :: k in Timers(s', c) <==> k in Timers(s, c) || (k == s'.id && a == CloseConnection(c));
  }

  lemma {:induction false} CancelTimers(s: Sched, k: nat, c: nat)
    requires IdsIssued(s)
    ensures var s' := Cancel(s, k); s'.id == s.id && IdsIssued(s') && Timers(s', c) == Timers(s, c) - {k}
  {}

  lemma {:induction false} LetThroughKeeps(c: nat, t: Turn, tokens: seq<string>)
    ensures var t' := LetThrough(c, t, tokens);
      && t'.sched == Cancel(t.sched, t.client.eventId)
      && Undisturbed(t.client, t'.client) && !t'.client.closed
  {
    RequestKeeps(c, t.(sched := Cancel(t.sched, t.client.eventId)), tokens);
    hide HandleRequest, Cancel;
  }

  lemma {:induction false} StartPingKeeps(c: nat, t: Turn, now: nat)
    ensures var t' := StartPing(c, t, now);
      && t'.client == (if t.client.pongEvent != 0 then t.client else t.client.(pongEvent := t'.sched.id))
      && (t.sched.id + 1 < S.ID_LIMIT ==> t'.client.pongEvent != 0)
  {
    hide Add;
    if t.client.pongEvent == 0 && t.sched.id + 1 < S.ID_LIMIT {
      AddIds(t.sched, now, 0, SendPing(c));
    }
  }

  /** The end of a line: the first ping is added, and the timer on record goes. */
  lemma {:induction false} FinishSched(c: nat, t: Turn, now: nat, tokens: seq<string>)
    ensures var x := t.client; var t' := Finish(c, t, now, tokens); var x' := t'.client;
      && x'.notPingReply == x.notPingReply && x'.eventId == x.eventId && x'.reply == x.reply
      && (if !(x.sentUser && x.sentNick) then
            t'.sched == t.sched && x'.closed == x.closed && x'.pongEvent == x.pongEvent && x'.sentCommon == x.sentCommon
          else if !x.reply then
            t'.sched == StartPing(c, t, now).sched && x'.closed == x.closed && x'.sentCommon == x.sentCommon
          else
            t'.sched == Cancel(StartPing(c, t, now).sched, x.eventId) && !x'.closed)
      && (x.sentUser && x.sentNick ==> x'.pongEvent == StartPing(c, t, now).client.pongEvent)
      && (x.sentUser && x.sentNick && t.sched.id + 1 < S.ID_LIMIT ==> x'.pongEvent != 0)
  {
    StartPingKeeps(c, t, now);
    LetThroughKeeps(c, StartPing(c, t, now), tokens);
    hide StartPing, LetThrough, Cancel;
  }

  lemma {:induction false} StartPingTimers(c: nat, t: Turn, now: nat)
    requires t.sched.id + 1 < S.ID_LIMIT && IdsIssued(t.sched)
    ensures var s := StartPing(c, t, now).sched; IdsIssued(s) && Timers(s, c) == Timers(t.sched, c)
  {
    AddTimers(t.sched, now, 0, SendPing(c), c);
    hide Add, Timers;
  }

  /** A line that is let through takes the close timer on record out, or none at all when it is
      itself a refused PONG, which puts a new timer on record first. */
  lemma {:induction false} LineTimers(c: nat, t: Turn, now: nat, tokens: seq<string>, env: Env, cs: set<nat>)
    requires TurnOk(c, t, cs) && ClientOk(t.sched, c, t.client) && t.sched.id + 4 < S.ID_LIMIT
    requires tokens != [] && tokens[0] != "USER" && tokens[0] != "NICK"
    requires t.client.reply || Accepts(t.client, tokens)
    ensures Timers(OnLine(c, t, now, tokens, env).sched, c)
         == Timers(t.sched, c) - (if Refused(t.client, tokens) then {} else {t.client.eventId})
  {
    var x := t.client;
    AllIssued(t.sched, cs, t.users.Keys);
    assert 0 !in Timers(t.sched, c);
    assert x.sentUser && x.sentNick && x.hasUser;
    var m := Middle(c, t, now, tokens);
    if Accepts(x, tokens) {
      AcceptTimers(c, t, now, tokens[1]);
    } else if Refused(x, tokens) {
      RefuseTimers(c, t, now, tokens[1]);
    }
    FinishSched(c, m, now, tokens);
    StartPingTimers(c, m, now);
    CancelTimers(StartPing(c, m, now).sched, m.client.eventId, c);
    hide Finish, Timers, Add, Cancel, StartPing, MidOk, IdsIssued, SchedOk;
  }

  lemma {:induction false} AcceptTimers(c: nat, t: Turn, now: nat, token: string)
    requires t.sched.id + 1 < S.ID_LIMIT && IdsIssued(t.sched) && IsAwaitedPong(token) && t.client.lastPong != 120
    ensures var x := t.client; var t' := OnPong(c, t, now, token);
      && t'.client == x.(lastPong := 120, reply := true)
      && t'.sched.id == t.sched.id + 1 && IdsIssued(t'.sched) && Timers(t'.sched, c) == Timers(t.sched, c) - {x.eventId}
  {
    var s := Add(t.sched, now, 120, SendPing(c));
    AddTimers(t.sched, now, 120, SendPing(c), c);
    CancelTimers(s, t.client.eventId, c);
    assert 0 !in Timers(t.sched, c);
    hide Add, Cancel, Timers, IdsIssued;
  }

  lemma {:induction false} RefuseTimers(c: nat, t: Turn, now: nat, token: string)
    requires t.sched.id + 1 < S.ID_LIMIT && IdsIssued(t.sched) && !(IsAwaitedPong(token) && t.client.lastPong != 120)
    ensures var x := t.client; var t' := OnPong(c, t, now, token);
      && t'.client == x.(notPingReply := x.notPingReply + 1, eventId := t'.sched.id)
      && t'.sched.id == t.sched.id + 1 && IdsIssued(t'.sched) && t'.sched.id !in Timers(t.sched, c)
      && Timers(t'.sched, c) == Timers(t.sched, c) + {t'.sched.id}
  {
    AddTimers(t.sched, now, 120, CloseConnection(c), c);
    hide Add, Timers, IdsIssued;
  }

  // ----- how many close timers there can be -----

  /** One for each answer refused, and one more while a warning stands, which is then the one
      on record. */
  predicate TimersBounded(s: Sched, c: nat, x: Client) {
    var n := |Timers(s, c)|;
    && n <= x.notPingReply + (if x.closed then 1 else 0)
    && (n == x.notPingReply + 1 ==> x.eventId in Timers(s, c))
    && (x.pongEvent == 0 ==> x.notPingReply == 0)
    && (x.sentCommon ==> !x.closed)
  }

  ghost predicate TimersOk(w: World) {
    forall c | c in w.clients :: TimersBounded(w.sched, c, w.clients[c])
  }

  lemma {:induction false} OneLess(a: set<nat>, k: nat)
    ensures |a - {k}| == |a| - (if k in a then 1 else 0)
  {
    if k in a { assert a == (a - {k}) + {k}; } else { assert a - {k} == a; }
  }

  lemma {:induction false} FinishBounded(c: nat, t: Turn, now: nat, tokens: seq<string>)
    requires t.sched.id + 1 < S.ID_LIMIT && IdsIssued(t.sched) && TimersBounded(t.sched, c, t.client)
    ensures var t' := Finish(c, t, now, tokens); TimersBounded(t'.sched, c, t'.client)
  {
    FinishSched(c, t, now, tokens);
    StartPingTimers(c, t, now);
    CancelTimers(StartPing(c, t, now).sched, t.client.eventId, c);
    OneLess(Timers(t.sched, c), t.client.eventId);
    hide Finish, Timers, StartPing, Cancel, IdsIssued;
  }

  lemma {:induction false} MakeUserTimers(c: nat, t: Turn, now: nat)
    requires t.sched.id + 2 < S.ID_LIMIT && IdsIssued(t.sched)
    ensures var s := EnsureUser(c, t, now).sched;
      Timers(s, c) == Timers(t.sched, c) && s.id <= t.sched.id + 2 && IdsIssued(s)
  {
    AddTimers(t.sched, now, 1, AddEventIdle(c), c);
    AddTimers(Add(t.sched, now, 1, AddEventIdle(c)), now, 1, AddEventJoin(c), c);
    hide Add, Timers, IdsIssued;
  }

  lemma {:induction false} RegisteredBy(s: Sched, c: nat, x: Client)
    requires ClientOk(s, c, x)
    ensures x.reply || x.sentCommon ==> x.sentUser && x.sentNick && x.hasUser
    ensures x.sentUser && x.sentNick ==> x.pongEvent != 0
  {
    hide Pings, TimerOk;
  }

  // ----- the three kinds of line, up to their end -----

  /** The scheduler in the middle of a line is fit for what is still to be added. */
  predicate Ready(s: Sched) { s.id + 1 < S.ID_LIMIT && IdsIssued(s) }

  lemma {:induction false} RegistrationTimers(c: nat, t: Turn, now: nat, tokens: seq<string>)
    requires t.sched.id + 4 < S.ID_LIMIT && IdsIssued(t.sched) && tokens != [] && tokens[0] in ["USER", "NICK"]
    ensures var x, m := t.client, Middle(c, t, now, tokens);
      && Ready(m.sched) && Timers(m.sched, c) == Timers(t.sched, c)
      && m.client == if tokens[0] == "USER" then x.(hasUser := true, sentUser := true)
          else x.(hasUser := true, sentNick := true)
  {
    hide Timers, IdsIssued, EnsureUser;
    MakeUserTimers(c, t, now);
    EnsureUserEvents(c, t, now);
  }

  lemma {:induction false} AnswerTimers(c: nat, t: Turn, now: nat, tokens: seq<string>)
    requires t.sched.id + 4 < S.ID_LIMIT && IdsIssued(t.sched) && tokens != [] && tokens[0] == "PONG"
    requires t.client.sentUser && t.client.sentNick
    ensures var x, m := t.client, Middle(c, t, now, tokens);
      var before, after := Timers(t.sched, c), Timers(m.sched, c);
      && Ready(m.sched)
      && (if Accepts(x, tokens) then m.client == x.(lastPong := 120, reply := true) && after == before - {x.eventId}
          else if Refused(x, tokens) then
            && m.client == x.(notPingReply := x.notPingReply + 1, eventId := m.sched.id)
            && m.client.eventId !in before && after == before + {m.client.eventId}
          else m.client == x && after == before)
  {
    hide Timers, IdsIssued, OnPong;
    if Accepts(t.client, tokens) {
      AcceptTimers(c, t, now, tokens[1]);
    } else if |tokens| > 1 {
      RefuseTimers(c, t, now, tokens[1]);
    }
  }

  /** A connection that has not registered is warned once. */
  predicate Warns(x: Client) { (!x.sentUser || !x.hasUser) && !x.closed }

  lemma {:induction false} OtherTimers(c: nat, t: Turn, now: nat, tokens: seq<string>)
    requires t.sched.id + 4 < S.ID_LIMIT && IdsIssued(t.sched) && tokens != [] && tokens[0] !in ["USER", "NICK", "PONG"]
    ensures var x, m := t.client, Middle(c, t, now, tokens);
      var before, after := Timers(t.sched, c), Timers(m.sched, c);
      && Ready(m.sched)
      && (if Warns(x) then
            && m.client == x.(eventId := m.sched.id, closed := true)
            && m.client.eventId !in before && after == before + {m.client.eventId}
          else m.client == x && after == before)
  {
    hide Timers, IdsIssued, Add;
    AddTimers(t.sched, now, 40, CloseConnection(c), c);
  }

  /** What the bound looks at. */
  predicate SameTimerFields(x: Client, x': Client) {
    && x'.notPingReply == x.notPingReply && x'.eventId == x.eventId && x'.closed == x.closed
    && x'.pongEvent == x.pongEvent && x'.sentCommon == x.sentCommon
  }

  /** Fewer timers of an unchanged connection. */
  lemma {:induction false} FewerTimers(s: Sched, s': Sched, k: nat, c: nat, x: Client, x': Client)
    requires TimersBounded(s, c, x) && SameTimerFields(x, x')
    requires Timers(s', c) == Timers(s, c) || Timers(s', c) == Timers(s, c) - {k}
    ensures TimersBounded(s', c, x')
  {
    OneLess(Timers(s, c), k);
    hide Timers;
  }

  /** One timer more, now on record, for a warning or a refused answer. */
  lemma {:induction false} MoreTimers(s: Sched, s': Sched, c: nat, x: Client, x': Client)
    requires TimersBounded(s, c, x)
    requires x'.eventId !in Timers(s, c) && Timers(s', c) == Timers(s, c) + {x'.eventId}
    requires x'.pongEvent == x.pongEvent && x'.sentCommon == x.sentCommon
    requires if x'.closed == x.closed then x'.notPingReply == x.notPingReply + 1 && x.pongEvent != 0
             else !x.closed && !x.sentCommon && x'.notPingReply == x.notPingReply
    ensures TimersBounded(s', c, x')
  {
    hide Timers;
  }

  lemma {:induction false} MiddleBounded(c: nat, t: Turn, now: nat, tokens: seq<string>)
    requires ClientOk(t.sched, c, t.client) && t.sched.id + 4 < S.ID_LIMIT && tokens != [] && IdsIssued(t.sched)
    requires TimersBounded(t.sched, c, t.client) && (tokens[0] == "PONG" ==> t.client.sentUser && t.client.sentNick)
    ensures var t' := Middle(c, t, now, tokens); TimersBounded(t'.sched, c, t'.client) && Ready(t'.sched)
  {
    hide ClientOk, Timers, TimersBounded, Ready, IdsIssued, Middle, Accepts, Refused;
    var m, e := Middle(c, t, now, tokens), t.client.eventId;
    RegisteredBy(t.sched, c, t.client);
    if tokens[0] in ["USER", "NICK"] {
      RegistrationTimers(c, t, now, tokens);
      FewerTimers(t.sched, m.sched, e, c, t.client, m.client);
    } else if tokens[0] == "PONG" {
      AnswerTimers(c, t, now, tokens);
      if Accepts(t.client, tokens) || !Refused(t.client, tokens) {
        FewerTimers(t.sched, m.sched, e, c, t.client, m.client);
      } else {
        MoreTimers(t.sched, m.sched, c, t.client, m.client);
      }
    } else {
      OtherTimers(c, t, now, tokens);
      if Warns(t.client) {
        MoreTimers(t.sched, m.sched, c, t.client, m.client);
      } else {
        FewerTimers(t.sched, m.sched, e, c, t.client, m.client);
      }
    }
  }

  lemma {:induction false} OwnLineTimers(c: nat, t: Turn, now: nat, tokens: seq<string>, env: Env, cs: set<nat>)
    requires TurnOk(c, t, cs) && ClientOk(t.sched, c, t.client) && t.sched.id + 4 < S.ID_LIMIT && tokens != []
    requires TimersBounded(t.sched, c, t.client)
    ensures var t' := OnLine(c, t, now, tokens, env); TimersBounded(t'.sched, c, t'.client)
  {
    AllIssued(t.sched, cs, t.users.Keys);
    OnLineShape(c, t, now, tokens, env);
    RequestKeeps(c, t, tokens);
    hide OnLine, Timers, Finish, HandleRequest, Middle, MidOk, SchedOk;
    if tokens[0] == "PONG" ==> t.client.sentUser && t.client.sentNick {
      MiddleBounded(c, t, now, tokens);
      FinishBounded(c, Middle(c, t, now, tokens), now, tokens);
    }
  }

  lemma {:induction false} OthersTimers(s: Sched, s': Sched, c: nat, newUser: bool, d: nat, cs: set<nat>, us: set<nat>)
    requires SchedOk(s, cs, us) && Evolves(s, s', c, newUser) && d != c
    ensures Timers(s', d) == Timers(s, d)
  {
    forall k: nat ensures k in Timers(s, d) <==> k in Timers(s', d) {
      assert EvolvesAt(s, s', c, newUser, k) && TaskOk(s, k, cs, us);
    }
  }

  lemma {:induction false} LineTimersOk(w: World, step: Step)
    requires WorldOk(w) && TimersOk(w) && step.Line? && Enabled(w, step) && w.sched.id + 4 < S.ID_LIMIT
    ensures TimersOk(Take(w, step))
  {
    var c, t := step.c, Turn(w.clients[step.c], w.users, w.sched, []);
    LineOk(c, t, step.now, step.tokens, step.env, w.clients.Keys);
    OwnLineTimers(c, t, step.now, step.tokens, step.env, w.clients.Keys);
    var w' := Take(w, step);
    var made := !t.client.hasUser && w'.clients[c].hasUser;
    hide OnLine, ClientOk, UserOk, Timers;
    forall d | d in w'.clients ensures TimersBounded(w'.sched, d, w'.clients[d]) {
      if d != c { OthersTimers(w.sched, w'.sched, c, made, d, w.clients.Keys, w.users.Keys); }
    }
  }

  lemma {:induction false} PassTimers(s: Sched, now: nat, k: nat, rearm: Option<nat>, d: nat)
    requires IdsIssued(s) && s.id + 1 < S.ID_LIMIT && k in s.tasks
    ensures var s' := Without(S.ApplyAll(s, now, Callback(s.tasks[k].action, rearm)), k);
      Timers(s', d) == Timers(s, d) - {k}
  {
    var ops := Callback(s.tasks[k].action, rearm);
    OneOp(s, now, ops);
    if ops != [] {
      AddTimers(s, now, ops[0].delay, s.tasks[k].action, d);
    }
  }

  lemma {:induction false} PassTimersOk(w: World, step: Step)
    requires WorldOk(w) && TimersOk(w) && step.Pass? && Enabled(w, step) && w.sched.id + 4 < S.ID_LIMIT
    ensures TimersOk(Take(w, step))
  {
    var w' := Take(w, step);
    AllIssued(w.sched, w.clients.Keys, w.users.Keys);
    match S.LeastDue(w.sched, step.now)
    case None =>
    case Some(k) =>
      var a := w.sched.tasks[k].action;
      var s1 := Without(S.ApplyAll(w.sched, step.now, Callback(a, step.rearm)), k);
      FireKeeps(w.(clock := step.now, sched := s1), a, s1.id);
      hide Timers, WorldOk, Fire, TimersBounded;
      forall d | d in w'.clients ensures TimersBounded(w'.sched, d, w'.clients[d]) {
        PassTimers(w.sched, step.now, k, step.rearm, d);
        FewerTimers(w.sched, w'.sched, k, d, w.clients[d], w'.clients[d]);
      }
  }

  lemma {:induction false} FireKeeps(w: World, a: Action, id: nat)
    ensures var w' := Fire(w, a, id);
      w'.sched == w.sched && w'.clients.Keys == w.clients.Keys
    ensures forall d | d in w.clients :: SameTimerFields(w.clients[d], Fire(w, a, id).clients[d])
  {}

  lemma {:induction false} NoTimersYet(w: World, c: nat)
    requires WorldOk(w) && c !in w.clients
    ensures Timers(w.sched, c) == {}
  {
    forall k: nat ensures k !in Timers(w.sched, c) { assert TaskOk(w.sched, k, w.clients.Keys, w.users.Keys); }
  }

  lemma {:induction false} ElsewhereTimers(w: World, step: Step)
    requires WorldOk(w) && TimersOk(w) && Enabled(w, step) && w.sched.id + 4 < S.ID_LIMIT && step.AddElsewhere?
    ensures TimersOk(Take(w, step))
  {
    AllIssued(w.sched, w.clients.Keys, w.users.Keys);
    hide WorldOk, Timers, Add;
    forall d | d in w.clients ensures TimersBounded(Take(w, step).sched, d, w.clients[d]) {
      AddTimers(w.sched, step.now, step.delay, Elsewhere, d);
    }
  }

  lemma {:induction false} WorldIssued(w: World)
    requires WorldOk(w)
    ensures IdsIssued(w.sched)
  {
    AllIssued(w.sched, w.clients.Keys, w.users.Keys);
  }

  lemma {:induction false} DestroyTimers(w: World, step: Step)
    requires WorldOk(w) && TimersOk(w) && Enabled(w, step) && step.DestroyUser?
    ensures TimersOk(Take(w, step))
  {
    hide WorldOk, Timers, Cancel, TimersBounded;
    var y := w.users[step.u];
    var s1 := Cancel(w.sched, y.idleEvent);
    var s2 := Cancel(s1, y.joinEvent);
    WorldIssued(w);
    forall d | d in w.clients ensures TimersBounded(s2, d, w.clients[d]) {
      var x := w.clients[d];
      CancelTimers(w.sched, y.idleEvent, d);
      CancelTimers(s1, y.joinEvent, d);
      FewerTimers(w.sched, s1, y.idleEvent, d, x, x);
      FewerTimers(s1, s2, y.joinEvent, d, x, x);
    }
  }

  lemma {:induction false} StepTimersOk(w: World, step: Step)
    requires WorldOk(w) && TimersOk(w) && Enabled(w, step) && w.sched.id + 4 < S.ID_LIMIT
    ensures TimersOk(Take(w, step))
  {
    var w' := Take(w, step);
    match step
    case Line(_, _, _, _) => LineTimersOk(w, step);
    case Pass(_, _) => PassTimersOk(w, step);
    case AddElsewhere(now, delay) => ElsewhereTimers(w, step);
    case DestroyUser(now, u) => DestroyTimers(w, step);
    case Connect(_, c, _) =>
      NoTimersYet(w, c);
      hide WorldOk, Timers;
    case Disconnect(_, _) => hide WorldOk, Timers;
  }

  lemma {:induction false} RunTimersOk(w: World, steps: seq<Step>)
    requires WorldOk(w) && TimersOk(w) && EnabledRun(w, steps) && w.sched.id + 4 * |steps| < S.ID_LIMIT
    ensures TimersOk(Run(w, steps))
    decreases |steps|
  {
    if steps != [] {
      StepOk(w, steps[0]);
      StepIds(w, steps[0]);
      StepTimersOk(w, steps[0]);
      RunTimersOk(Take(w, steps[0]), steps[1..]);
    }
  }

  /** In every run a connection has at most one close timer for each answer it was refused, and
      one for the warning that stands.  One that was never refused has at most the timer on
      record, and none once it is welcomed. */
  lemma {:induction false} TimersInEveryRun(steps: seq<Step>, c: nat)
    requires EnabledRun(Empty(), steps) && 4 * |steps| < S.ID_LIMIT && c in Run(Empty(), steps).clients
    ensures var w := Run(Empty(), steps); var x := w.clients[c]; var timers := Timers(w.sched, c);
      && |timers| <= x.notPingReply + (if x.closed then 1 else 0)
      && (x.notPingReply == 0 ==> timers <= {x.eventId})
      && (x.sentCommon ==> |timers| <= x.notPingReply)
      && (!(x.sentUser && x.sentNick) ==> x.notPingReply == 0)
  {
    EmptyOk();
    RunOk(Empty(), steps);
    RunTimersOk(Empty(), steps);
    var w := Run(Empty(), steps);
    var x, timers := w.clients[c], Timers(w.sched, c);
    assert ClientOk(w.sched, c, x);
    assert TimersBounded(w.sched, c, x);
    hide Timers, Run, EnabledRun;
    if x.notPingReply == 0 && timers != {} {
      OneLess(timers, x.eventId);
      assert timers - {x.eventId} == {};
    }
  }

  // ----- a timer that is forgotten -----

  /** A connection that says something else first and then registers. */
  function Registering(env: Env): seq<Step> {
    [Connect(0, 0, false)] + [Line(0, 0, ["HELLO"], env)] + [Line(0, 0, ["USER", "a", "b", "c", ":d"], env)]
    + [Line(0, 0, ["NICK", "n"], env)]
  }

  /** The world after it has been warned. */
  ghost predicate Warned(w: World) {
    && w.clock == 0 && w.clients.Keys == {0} && w.users == map[] && w.trace == []
    && w.clients[0] == NewClient().(listening := true, eventId := 1, closed := true)
    && w.sched == S.Sched(map[1 := S.Task(40, false, CloseConnection(0))], 1, true)
  }

  lemma {:induction false} WarnedState(env: Env)
    ensures var steps := [Connect(0, 0, false)] + [Line(0, 0, ["HELLO"], env)];
      EnabledRun(Empty(), steps) && Warned(Run(Empty(), steps))
  {
    var connect, hello := Connect(0, 0, false), Line(0, 0, ["HELLO"], env);
    assert EnabledRun(Empty(), []) && Run(Empty(), []) == Empty();
    hide EnabledRun, Run;
    RunThen(Empty(), [], connect);
    assert [] + [connect] == [connect];
    RunThen(Empty(), [connect], hello);
  }

  /** ... and after it has registered. */
  ghost predicate Registered(w: World) {
    && w.clock == 0 && 0 in w.clients && w.trace == []
    && var x := w.clients[0];
    && x.sentUser && x.sentNick && !x.sentCommon && !x.reply && x.pongEvent == 4 && x.lastPong == 0 && x.open
        && x.listening
    && x.notPingReply == 0
    && w.sched.id == 4 && w.sched.tasks.Keys == {1, 2, 3, 4} && w.sched.tasks[1].action == CloseConnection(0)
  }

  lemma {:induction false} RegisteredState(env: Env)
    requires env == Env(false, false)
    ensures EnabledRun(Empty(), Registering(env)) && Registered(Run(Empty(), Registering(env)))
  {
    var steps := [Connect(0, 0, false)] + [Line(0, 0, ["HELLO"], env)];
    var user, nick := Line(0, 0, ["USER", "a", "b", "c", ":d"], env), Line(0, 0, ["NICK", "n"], env);
    WarnedState(env);
    hide EnabledRun, Run;
    var w2 := Run(Empty(), steps);
    RunThen(Empty(), steps, user);
    var w3 := Take(w2, user);
    assert w3.sched.id == 3 && w3.sched.tasks[1] == w2.sched.tasks[1] && w3.sched.tasks.Keys == {1, 2, 3};
    RunThen(Empty(), steps + [user], nick);
  }

  /** ... and after it has answered wrongly once. */
  ghost predicate Misanswered(w: World) {
    && w.clock == 0 && 0 in w.clients && w.trace == []
    && var x := w.clients[0];
    && x.sentUser && x.sentNick && !x.sentCommon && !x.reply && x.pongEvent == 4 && x.lastPong == 0 && x.open
        && x.listening
    && x.notPingReply == 1 && x.eventId == 5
    && w.sched.id == 5 && w.sched.tasks.Keys == {1, 2, 3, 4, 5} && w.sched.tasks[1].action == CloseConnection(0)
  }

  lemma {:induction false} WrongAnswer(w: World, env: Env)
    requires Registered(w)
    ensures var step := Line(0, 0, ["PONG", "x"], env); Enabled(w, step) && Misanswered(Take(w, step))
  {}

  lemma {:induction false} RightAnswer(w: World, env: Env)
    requires Misanswered(w)
    ensures var step := Line(0, 0, ["PONG", ":"], env); Enabled(w, step) && var w' := Take(w, step);
      Welcome(0) in w'.trace && 1 in Timers(w'.sched, 0) && 0 in w'.clients && w'.clients[0].notPingReply == 1
  {
    assert IsAwaitedPong(":");
  }

  /** Then, once it answers rightly, it is welcomed and still has its registration timeout ahead
      of it: the second timer took the place of the first on record. */
  lemma {:induction false} ForgottenTimer(env: Env)
    requires env == Env(false, false)
    ensures var steps := Registering(env) + [Line(0, 0, ["PONG", "x"], env)] + [Line(0, 0, ["PONG", ":"], env)];
      && EnabledRun(Empty(), steps)
      && var w := Run(Empty(), steps);
      && Welcome(0) in w.trace && 1 in Timers(w.sched, 0) && 0 in w.clients && w.clients[0].notPingReply == 1
  {
    var steps, wrong, right := Registering(env), Line(0, 0, ["PONG", "x"], env), Line(0, 0, ["PONG", ":"], env);
    RegisteredState(env);
    hide EnabledRun, Run, Registering, Take, Registered, Misanswered, Timers;
    WrongAnswer(Run(Empty(), steps), env);
    RunThen(Empty(), steps, wrong);
    RightAnswer(Run(Empty(), steps + [wrong]), env);
    RunThen(Empty(), steps + [wrong], right);
  }
}
