/** Runs of the server: the invariant at every point, and what can never be seen happening. */
module SessionRuns {
  import opened Auxiliar
  import S = Scheduler
  import opened Session
  import opened SessionInvariant

  // ----- the shape of a line -----

  /** What a line has done when it comes to its end. */
  function Middle(c: nat, t: Turn, now: nat, tokens: seq<string>): Turn
    requires tokens != []
  {
    if tokens[0] == "USER" then var t1 := EnsureUser(c, t, now); t1.(client := t1.client.(sentUser := true))
    else if tokens[0] == "NICK" then var t1 := EnsureUser(c, t, now); t1.(client := t1.client.(sentNick := true))
    else if tokens[0] == "PONG" then if |tokens| > 1 then OnPong(c, t, now, tokens[1]) else t
    else if (!t.client.sentUser || !t.client.hasUser) && !t.client.closed then
      var s := Add(t.sched, now, 40, CloseConnection(c));
      t.(client := t.client.(eventId := s.id, closed := true), sched := s)
    else t
  }

  /** A line is turned away, or is a NICK that is handled, or comes to its end. */
  lemma {:induction false} OnLineShape(c: nat, t: Turn, now: nat, tokens: seq<string>, env: Env)
    requires tokens != []
    ensures var t' := OnLine(c, t, now, tokens, env);
      || t' == Receive(t)
      || t' == t.(client := t.client.(listening := false))
      || (!t.client.isConnecting && t' == Receive(HandleRequest(c, t, tokens)))
      || ((tokens[0] == "PONG" ==> t.client.sentUser && t.client.sentNick)
          && t' == Finish(c, Middle(c, t, now, tokens), now, tokens))
    ensures tokens[0] != "USER" && tokens[0] != "NICK"
        && (tokens[0] == "PONG" ==> t.client.sentUser && t.client.sentNick)
      ==> OnLine(c, t, now, tokens, env) == Finish(c, Middle(c, t, now, tokens), now, tokens)
  {
    hide Finish, EnsureUser, OnPong, HandleRequest, Add, Receive;
  }

  // ----- few ids are used -----

  lemma {:induction false} AddIds(s: Sched, now: nat, delay: nat, a: Action)
    requires s.id + 1 < S.ID_LIMIT
    ensures Add(s, now, delay, a).id == s.id + 1
  {}

  /** All is as it was but for the socket and the warning. */
  predicate Undisturbed(x: Client, x': Client) {
    && x'.hasUser == x.hasUser && x'.sentUser == x.sentUser && x'.sentNick == x.sentNick
        && x'.sentCommon == x.sentCommon
    && x'.isConnecting == x.isConnecting && x'.reply == x.reply && x'.lastPong == x.lastPong
    && x'.eventId == x.eventId && x'.pongEvent == x.pongEvent && x'.notPingReply == x.notPingReply
  }

  lemma {:induction false} RequestKeeps(c: nat, t: Turn, tokens: seq<string>)
    ensures var t' := HandleRequest(c, t, tokens);
      t'.sched == t.sched && Undisturbed(t.client, t'.client) && t'.client.closed == t.client.closed
  {
    hide Close, Undisturbed;
    var t1 := t.(events := t.events + [Request(c, tokens)]);
    CloseKeeps(c, t1);
    assert t1.client == t.client;
    SameUndisturbed(t.client);
  }

  lemma {:induction false} SameUndisturbed(x: Client)
    ensures Undisturbed(x, x) && Undisturbed(x, Shut(x)) && Shut(x).closed == x.closed
  {}

  lemma {:induction false} CloseKeeps(c: nat, t: Turn)
    ensures var t' := Close(c, t);
      t'.sched == t.sched && Undisturbed(t.client, t'.client) && t'.client.closed == t.client.closed
  {
    hide Undisturbed, Shut;
    SameUndisturbed(t.client);
  }

  lemma {:induction false} FinishIds(c: nat, t: Turn, now: nat, tokens: seq<string>)
    requires t.sched.id + 1 < S.ID_LIMIT
    ensures Finish(c, t, now, tokens).sched.id <= t.sched.id + 1
  {
    hide Add, HandleRequest;
    AddIds(t.sched, now, 0, SendPing(c));
    var s := Add(t.sched, now, 0, SendPing(c));
    var t1 := if t.client.pongEvent != 0 then t else t.(client := t.client.(pongEvent := s.id), sched := s);
    RequestKeeps(c, t1.(sched := Cancel(t1.sched, t1.client.eventId)), tokens);
  }

  lemma {:induction false} EnsureUserIds(c: nat, t: Turn, now: nat)
    requires t.sched.id + 2 < S.ID_LIMIT
    ensures EnsureUser(c, t, now).sched.id <= t.sched.id + 2
  {}

  lemma {:induction false} PongIds(c: nat, t: Turn, now: nat, token: string)
    requires t.sched.id + 1 < S.ID_LIMIT
    ensures OnPong(c, t, now, token).sched.id <= t.sched.id + 1
  {}

  lemma {:induction false} LineIds(c: nat, t: Turn, now: nat, tokens: seq<string>, env: Env)
    requires tokens != [] && t.sched.id + 4 < S.ID_LIMIT
    ensures OnLine(c, t, now, tokens, env).sched.id <= t.sched.id + 4
  {
    hide Finish, EnsureUser, OnPong;
    EnsureUserIds(c, t, now);
    var t1 := EnsureUser(c, t, now);
    FinishIds(c, t1.(client := t1.client.(sentUser := true)), now, tokens);
    FinishIds(c, t1.(client := t1.client.(sentNick := true)), now, tokens);
    if |tokens| > 1 {
      PongIds(c, t, now, tokens[1]);
      FinishIds(c, OnPong(c, t, now, tokens[1]), now, tokens);
    }
    FinishIds(c, t, now, tokens);
    var s := Add(t.sched, now, 40, CloseConnection(c));
    FinishIds(c, t.(client := t.client.(eventId := s.id, closed := true), sched := s), now, tokens);
  }

  lemma {:induction false} StepIds(w: World, step: Step)
    requires Enabled(w, step) && w.sched.id + 4 < S.ID_LIMIT
    ensures Take(w, step).sched.id <= w.sched.id + 4
  {
    match step
    case Line(now, c, tokens, env) =>
      LineIds(c, Turn(w.clients[c], w.users, w.sched, []), now, tokens, env);
      hide OnLine;
    case Pass(now, rearm) =>
      if k :| S.LeastDue(w.sched, now) == Some(k) {
        OneOp(w.sched, now, Callback(w.sched.tasks[k].action, rearm));
      }
    case _ =>
  }

  // ----- the invariant -----

  lemma {:induction false} ConnectOk(w: World, now: nat, c: nat, x: Client)
    requires WorldOk(w) && w.clock <= now && c !in w.clients
        && (x == NewClient() || x == NewClient().(listening := true))
    ensures WorldOk(w.(clock := now, clients := w.clients[c := x]))
  {
    var cs, us := w.clients.Keys, w.users.Keys;
    forall k: nat ensures TaskOk(w.sched, k, cs + {c}, us) && k !in Pings(w.sched, c)
        && (k in w.sched.tasks ==> k > 0) {
      assert TaskOk(w.sched, k, cs, us);
    }
    assert Pings(w.sched, c) == {};
    LaterOk(w, now);
    hide UserOk;
    assert w.clients[c := x].Keys == cs + {c};
  }

  lemma {:induction false} ConnectStepOk(w: World, step: Step)
    requires WorldOk(w) && step.Connect? && Enabled(w, step)
    ensures WorldOk(Take(w, step))
  {
    var x := NewClient();
    ConnectOk(w, step.now, step.c, x);
    ConnectOk(w, step.now, step.c, x.(listening := true));
    CloseInOk(w.(clock := step.now, clients := w.clients[step.c := x]), step.c);
    hide WorldOk, CloseIn;
  }

  function WithoutUser(s: Sched, y: User): Sched {
    Without(Without(s, y.idleEvent), y.joinEvent)
  }

  lemma {:induction false} DestroyKeepsSched(s: Sched, u: nat, y: User, clock: nat, cs: set<nat>, us: set<nat>)
    requires SchedOk(s, cs, us) && UserOk(s, u, y, clock)
    ensures SchedOk(WithoutUser(s, y), cs, us - {u})
  {
    forall k: nat ensures TaskOk(WithoutUser(s, y), k, cs, us - {u}) { assert TaskOk(s, k, cs, us); }
  }

  lemma {:induction false} DestroyKeepsOther(s: Sched, u: nat, y: User, clock: nat)
    requires UserOk(s, u, y, clock)
    ensures forall d, x | ClientOk(s, d, x) :: ClientOk(WithoutUser(s, y), d, x)
    ensures forall v, z | v != u && UserOk(s, v, z, clock) :: UserOk(WithoutUser(s, y), v, z, clock)
  {
    var s1 := Without(s, y.idleEvent);
    assert y.joinEvent in s1.tasks && s1.tasks[y.joinEvent].action == AddEventJoin(u);
    assert s.tasks[y.idleEvent].action == AddEventIdle(u);
    hide ClientOk, UserOk;
    forall d, x | ClientOk(s, d, x) ensures ClientOk(WithoutUser(s, y), d, x) {
      WithoutClientOk(s, y.idleEvent, d, x);
      WithoutClientOk(s1, y.joinEvent, d, x);
    }
    forall v, z | v != u && UserOk(s, v, z, clock) ensures UserOk(WithoutUser(s, y), v, z, clock) {
      WithoutUserOk(s, y.idleEvent, v, z, clock);
      WithoutUserOk(s1, y.joinEvent, v, z, clock);
    }
  }

  lemma {:induction false} DestroyUserOk(w: World, now: nat, u: nat)
    requires WorldOk(w) && Enabled(w, DestroyUser(now, u))
    ensures WorldOk(Take(w, DestroyUser(now, u)))
  {
    hide ClientOk, UserOk, SchedOk;
    LaterOk(w, now);
    DestroyKeepsSched(w.sched, u, w.users[u], now, w.clients.Keys, w.users.Keys);
    DestroyKeepsOther(w.sched, u, w.users[u], now);
    var users := w.users - {u};
    assert Take(w, DestroyUser(now, u)) == w.(clock := now, sched := WithoutUser(w.sched, w.users[u]), users := users);
    hide WithoutUser;
    assert users.Keys == w.users.Keys - {u};
  }

  /** Nothing pending refers to a user who is not there, so nothing does after destruction. */
  lemma {:induction false} NothingRefersTo(w: World, u: nat)
    requires WorldOk(w) && u !in w.users
    ensures forall k | k in w.sched.tasks ::
      w.sched.tasks[k].action != AddEventIdle(u) && w.sched.tasks[k].action != AddEventJoin(u)
  {
    forall k | k in w.sched.tasks
      ensures w.sched.tasks[k].action != AddEventIdle(u) && w.sched.tasks[k].action != AddEventJoin(u)
    {
      assert TaskOk(w.sched, k, w.clients.Keys, w.users.Keys);
    }
  }

  lemma {:induction false} StepOk(w: World, step: Step)
    requires WorldOk(w) && Enabled(w, step) && w.sched.id + 4 < S.ID_LIMIT
    ensures WorldOk(Take(w, step))
  {
    match step
    case Connect(_, _, _) => ConnectStepOk(w, step);
    case Line(_, _, _, _) => LineStepOk(w, step);
    case Disconnect(now, c) =>
      LaterOk(w, now);
      CloseInOk(w.(clock := now), c);
    case Pass(_, _) => PassStepOk(w, step);
    case AddElsewhere(now, delay) =>
      LaterOk(w, now);
      ElsewhereAdded(w.(clock := now), now, delay);
    case DestroyUser(now, u) => DestroyUserOk(w, now, u);
  }

  /** Over every run with fewer than 2^32 events. */
  lemma {:induction false} RunOk(w: World, steps: seq<Step>)
    requires WorldOk(w) && EnabledRun(w, steps) && w.sched.id + 4 * |steps| < S.ID_LIMIT
    ensures WorldOk(Run(w, steps))
    ensures Run(w, steps).sched.id <= w.sched.id + 4 * |steps|
    decreases |steps|
  {
    if steps != [] {
      StepOk(w, steps[0]);
      StepIds(w, steps[0]);
      RunOk(Take(w, steps[0]), steps[1..]);
    }
  }

  lemma {:induction false} RunThen(w: World, steps: seq<Step>, step: Step)
    requires EnabledRun(w, steps) && Enabled(Run(w, steps), step)
    ensures EnabledRun(w, steps + [step]) && Run(w, steps + [step]) == Take(Run(w, steps), step)
    decreases |steps|
  {
    if steps == [] {
      assert [] + [step] == [step] && [step][1..] == [];
    } else {
      RunThen(Take(w, steps[0]), steps[1..], step);
      assert (steps + [step])[1..] == steps[1..] + [step];
    }
  }

  lemma {:induction false} EmptyOk()
    ensures WorldOk(Empty())
  {
    assert forall k: nat :: TaskOk(Empty().sched, k, {}, {});
  }
}
