/** What is and what is not seen happening over a run of the server. */
module SessionTraces {
  import opened Auxiliar
  import S = Scheduler
  import opened Session
  import opened SessionInvariant
  import opened SessionRuns

  // ----- what one line makes visible -----

  predicate Accepts(x: Client, tokens: seq<string>) {
    && |tokens| > 1 && tokens[0] == "PONG" && x.sentUser && x.sentNick
    && IsAwaitedPong(tokens[1]) && x.lastPong != 120
  }

  function LineEvents(c: nat, x: Client, tokens: seq<string>): seq<Event>
    requires tokens != []
  {
    if tokens[0] == "NICK" then
      if x.isConnecting then [] else [Request(c, tokens)]
    else if Accepts(x, tokens) then
      [PongAccepted(c)] + ([Request(c, tokens)] + (if x.sentCommon then [] else [Welcome(c)]))
    else if x.reply && tokens[0] != "USER" then
      [Request(c, tokens)] + (if tokens[0] == "QUIT" then [Closed(c)] else [])
    else []
  }

  function Requested(c: nat, tokens: seq<string>): seq<Event>
    requires tokens != []
  {
    [Request(c, tokens)] + (if tokens[0] == "QUIT" then [Closed(c)] else [])
  }

  lemma {:induction false} RequestEvents(c: nat, t: Turn, tokens: seq<string>)
    requires t.client.open && tokens != []
    ensures var t' := HandleRequest(c, t, tokens);
      t'.events == t.events + Requested(c, tokens) && Undisturbed(t.client, t'.client)
  {
    RequestKeeps(c, t, tokens);
    hide Undisturbed;
    assert t.events + [Request(c, tokens)] + [Closed(c)] == t.events + ([Request(c, tokens)] + [Closed(c)]);
  }

  lemma {:induction false} LetThroughEvents(c: nat, t: Turn, tokens: seq<string>)
    requires t.client.open && tokens != []
    ensures var t' := LetThrough(c, t, tokens);
      t'.events == t.events + Requested(c, tokens) && Undisturbed(t.client, t'.client)
  {
    hide Cancel, HandleRequest, Requested;
    RequestEvents(c, t.(sched := Cancel(t.sched, t.client.eventId)), tokens);
  }

  lemma {:induction false} StartPingEvents(c: nat, t: Turn, now: nat)
    ensures var x, t' := t.client, StartPing(c, t, now); var x' := t'.client;
      && t'.events == t.events
      && x'.open == x.open && x'.reply == x.reply && x'.lastPong == x.lastPong && x'.sentCommon == x.sentCommon
  {
    hide Add;
  }

  lemma {:induction false} FinishEvents(c: nat, t: Turn, now: nat, tokens: seq<string>)
    requires t.client.open && tokens != []
    ensures var x := t.client; var t' := Finish(c, t, now, tokens);
      && t'.client.reply == x.reply && t'.client.lastPong == x.lastPong
      && t'.events ==
           if x.sentUser && x.sentNick && x.reply
           then t.events + (Requested(c, tokens) + (if x.sentCommon then [] else [Welcome(c)]))
           else t.events
  {
    hide StartPing, LetThrough, Requested;
    StartPingEvents(c, t, now);
    LetThroughEvents(c, StartPing(c, t, now), tokens);
    Regroup(t.events, Requested(c, tokens), [Welcome(c)]);
    Regroup(t.events, Requested(c, tokens), []);
  }

  lemma {:induction false} Regroup(a: seq<Event>, b: seq<Event>, d: seq<Event>)
    ensures a + (b + d) == a + b + d
    ensures d == [] ==> a + (b + d) == a + b
  {}

  lemma {:induction false} EnsureUserEvents(c: nat, t: Turn, now: nat)
    ensures var t' := EnsureUser(c, t, now); t'.events == t.events && t'.client == t.client.(hasUser := true)
  {
    hide Add;
  }

  /** A line makes exactly these things visible, and moves the ping exchange on only by an
      accepted answer. */
  lemma {:induction false} LineSeen(c: nat, t: Turn, now: nat, tokens: seq<string>, env: Env)
    requires ClientOk(t.sched, c, t.client) && t.client.open && tokens != [] && t.events == []
    ensures var x := t.client; var t' := OnLine(c, t, now, tokens, env);
      && t'.events == LineEvents(c, x, tokens)
      && t'.client.reply == (x.reply || Accepts(x, tokens))
      && t'.client.lastPong == if Accepts(x, tokens) then 120 else x.lastPong
  {
    hide OnLine, ClientOk, LineEvents, Accepts;
    if tokens[0] == "USER" || tokens[0] == "NICK" {
      RegistrationSeen(c, t, now, tokens, env);
    } else if tokens[0] == "PONG" {
      PongSeen(c, t, now, tokens, env);
    } else {
      OtherSeen(c, t, now, tokens, env);
    }
  }

  lemma {:induction false} RegistrationSeen(c: nat, t: Turn, now: nat, tokens: seq<string>, env: Env)
    requires ClientOk(t.sched, c, t.client) && t.client.open && tokens != [] && t.events == []
    requires tokens[0] == "USER" || tokens[0] == "NICK"
    ensures var x := t.client; var t' := OnLine(c, t, now, tokens, env);
      && t'.events == LineEvents(c, x, tokens)
      && t'.client.reply == (x.reply || Accepts(x, tokens))
      && t'.client.lastPong == if Accepts(x, tokens) then 120 else x.lastPong
  {
    EnsureUserEvents(c, t, now);
    var t1 := EnsureUser(c, t, now);
    FinishEvents(c, t1.(client := t1.client.(sentUser := true)), now, tokens);
    FinishEvents(c, t1.(client := t1.client.(sentNick := true)), now, tokens);
    RequestEvents(c, t, tokens);
    hide Finish, EnsureUser, HandleRequest, Pings, PingsOk, TimerOk;
  }

  lemma {:induction false} PongSeen(c: nat, t: Turn, now: nat, tokens: seq<string>, env: Env)
    requires ClientOk(t.sched, c, t.client) && t.client.open && tokens != [] && t.events == []
    requires tokens[0] == "PONG"
    ensures var x := t.client; var t' := OnLine(c, t, now, tokens, env);
      && t'.events == LineEvents(c, x, tokens)
      && t'.client.reply == (x.reply || Accepts(x, tokens))
      && t'.client.lastPong == if Accepts(x, tokens) then 120 else x.lastPong
  {
    hide Finish, Pings, TimerOk, Add, Cancel;
    if t.client.sentUser && t.client.sentNick {
      var t1 := if |tokens| > 1 then OnPong(c, t, now, tokens[1]) else t;
      assert t1.client.open && t1.events == if Accepts(t.client, tokens) then [PongAccepted(c)] else [];
      FinishEvents(c, t1, now, tokens);
    }
  }

  lemma {:induction false} OtherSeen(c: nat, t: Turn, now: nat, tokens: seq<string>, env: Env)
    requires ClientOk(t.sched, c, t.client) && t.client.open && tokens != [] && t.events == []
    requires tokens[0] != "USER" && tokens[0] != "NICK" && tokens[0] != "PONG"
    ensures var x := t.client; var t' := OnLine(c, t, now, tokens, env);
      && t'.events == LineEvents(c, x, tokens)
      && t'.client.reply == (x.reply || Accepts(x, tokens))
      && t'.client.lastPong == if Accepts(x, tokens) then 120 else x.lastPong
  {
    var s := Add(t.sched, now, 40, CloseConnection(c));
    FinishEvents(c, t.(client := t.client.(eventId := s.id, closed := true), sched := s), now, tokens);
    FinishEvents(c, t, now, tokens);
    hide Finish, Pings, PingsOk, TimerOk, Add;
  }

  // ----- lawful traces -----

  /** The last thing of the ping exchange of c to be seen was an accepted answer. */
  function Answered(trace: seq<Event>, c: nat): bool
    decreases |trace|
  {
    if trace == [] then false
    else var e, before := trace[|trace|-1], trace[..|trace|-1];
      if e == PongAccepted(c) then true
      else if e == PingSent(c) then false
      else Answered(before, c)
  }

  /** An event may come next. */
  predicate MayFollow(trace: seq<Event>, e: Event) {
    match e
    // an answer is accepted only if a ping was sent since the one before
    case PongAccepted(c) => !Answered(trace, c)
    // while a ping is unanswered nothing but NICK reaches the request handler, and NICK only
    // once the connection has been welcomed
    case Request(c, tokens) =>
      tokens != [] && (if tokens[0] == "NICK" then Welcome(c) in trace else Answered(trace, c))
    // the welcome comes with the first answer accepted, and once
    case Welcome(c) =>
      && Welcome(c) !in trace
      && |trace| >= 2 && trace[|trace|-2] == PongAccepted(c) && PongAccepted(c) !in trace[..|trace|-2]
      && trace[|trace|-1].Request? && trace[|trace|-1].c == c
    case _ => true
  }

  ghost predicate Lawful(trace: seq<Event>) {
    forall i | 0 <= i < |trace| :: MayFollow(trace[..i], trace[i])
  }

  lemma {:induction false} LawfulSnoc(trace: seq<Event>, e: Event)
    requires Lawful(trace) && MayFollow(trace, e)
    ensures Lawful(trace + [e])
  {
    var t := trace + [e];
    forall i | 0 <= i < |t| ensures MayFollow(t[..i], t[i]) {
      assert t[..i] == trace[..i];
      if i == |trace| { assert trace[..i] == trace; }
    }
  }

  lemma {:induction false} AnsweredSnoc(trace: seq<Event>, e: Event, c: nat)
    ensures Answered(trace + [e], c) == (e == PongAccepted(c) || (e != PingSent(c) && Answered(trace, c)))
  {
    assert (trace + [e])[..|trace|] == trace;
  }

  /** The state of a connection mirrors its trace. */
  ghost predicate Mirrors(w: World, c: nat) {
    var answered, accepted := Answered(w.trace, c), PongAccepted(c) in w.trace;
    && (Welcome(c) in w.trace <==> accepted)
    && (if c in w.clients then
          answered == w.clients[c].reply && accepted == (w.clients[c].lastPong >= 120)
        else !answered && !accepted)
  }

  ghost predicate TraceOk(w: World) {
    Lawful(w.trace) && forall c: nat :: Mirrors(w, c)
  }

  /** One more event, about c, that is no part of the ping exchange. */
  lemma {:induction false} PlainEvent(trace: seq<Event>, e: Event)
    requires e.Request? || e.Closed? || e.Welcome?
    ensures forall c :: Answered(trace + [e], c) == Answered(trace, c)
    ensures forall c :: PongAccepted(c) in trace + [e] <==> PongAccepted(c) in trace
    ensures forall c :: Welcome(c) in trace + [e] <==> Welcome(c) in trace || e == Welcome(c)
  {
    forall c ensures Answered(trace + [e], c) == Answered(trace, c) { AnsweredSnoc(trace, e, c); }
  }

  /** What a trace has come to, for c and for the others. */
  ghost predicate Extends(trace: seq<Event>, trace': seq<Event>, c: nat, answered: bool, accepted: bool,
                          welcomed: bool) {
    && Lawful(trace')
    && Answered(trace', c) == answered
    && (PongAccepted(c) in trace' <==> accepted)
    && (Welcome(c) in trace' <==> welcomed)
    && (forall d | d != c :: Answered(trace', d) == Answered(trace, d)
          && (PongAccepted(d) in trace' <==> PongAccepted(d) in trace)
          && (Welcome(d) in trace' <==> Welcome(d) in trace))
  }

  lemma {:induction false} AnswerExtends(trace: seq<Event>, c: nat)
    requires Lawful(trace) && !Answered(trace, c)
    ensures Extends(trace, trace + [PongAccepted(c)], c, true, true, Welcome(c) in trace)
  {
    LawfulSnoc(trace, PongAccepted(c));
    forall d ensures Answered(trace + [PongAccepted(c)], d) == (d == c || Answered(trace, d)) {
      AnsweredSnoc(trace, PongAccepted(c), d);
    }
    hide Lawful, Answered;
  }

  lemma {:induction false} PlainExtends(trace: seq<Event>, c: nat, e: Event)
    requires Lawful(trace) && MayFollow(trace, e) && (e.Request? || e.Closed? || e.Welcome?) && e.c == c
    ensures Extends(trace, trace + [e], c, Answered(trace, c), PongAccepted(c) in trace, Welcome(c) in trace || e
        == Welcome(c))
  {
    LawfulSnoc(trace, e);
    PlainEvent(trace, e);
    hide Lawful, Answered;
  }

  lemma {:induction false} ExtendsThen(a: seq<Event>, b: seq<Event>, d: seq<Event>, c: nat,
                                       x: bool, y: bool, z: bool, x': bool, y': bool, z': bool)
    requires Extends(a, b, c, x, y, z) && Extends(b, d, c, x', y', z')
    ensures Extends(a, d, c, x', y', z')
  {
    hide Lawful, Answered;
  }

  lemma {:induction false} AcceptLawful(trace: seq<Event>, c: nat, tokens: seq<string>, welcome: bool)
    requires Lawful(trace) && !Answered(trace, c) && tokens != [] && tokens[0] == "PONG"
    requires welcome <==> PongAccepted(c) !in trace
    requires Welcome(c) in trace <==> PongAccepted(c) in trace
    ensures Extends(trace,
        trace + ([PongAccepted(c)] + ([Request(c, tokens)] + (if welcome then [Welcome(c)] else []))),
                    c, true, true, true)
  {
    hide Lawful, Answered;
    var p, r, v := PongAccepted(c), Request(c, tokens), Welcome(c);
    var t1 := trace + [p];
    var t2 := t1 + [r];
    AnswerExtends(trace, c);
    PlainExtends(t1, c, r);
    ExtendsThen(trace, t1, t2, c, true, true, v in trace, true, true, v in trace);
    if welcome {
      assert t2[..|t2|-2] == trace && t2[|t2|-2] == p && t2[|t2|-1] == r;
      PlainExtends(t2, c, v);
      ExtendsThen(trace, t2, t2 + [v], c, true, true, false, true, true, true);
      assert trace + ([p] + ([r] + [v])) == t2 + [v];
    } else {
      assert trace + ([p] + ([r] + [])) == t2;
    }
  }

  lemma {:induction false} RequestLawful(trace: seq<Event>, c: nat, tokens: seq<string>)
    requires Lawful(trace) && MayFollow(trace, Request(c, tokens))
    ensures Extends(trace, trace + Requested(c, tokens), c, Answered(trace, c), PongAccepted(c) in trace,
        Welcome(c) in trace)
  {
    hide Lawful, Answered, Extends;
    var r := Request(c, tokens);
    var answered, accepted, welcomed := Answered(trace, c), PongAccepted(c) in trace, Welcome(c) in trace;
    PlainExtends(trace, c, r);
    if tokens[0] == "QUIT" {
      ClosedExtends(trace, trace + [r], c, answered, accepted, welcomed);
      assert trace + Requested(c, tokens) == trace + [r] + [Closed(c)];
    } else {
      assert trace + Requested(c, tokens) == trace + [r];
    }
  }

  lemma {:induction false} ClosedExtends(trace: seq<Event>, trace': seq<Event>, c: nat, x: bool, y: bool, z: bool)
    requires Extends(trace, trace', c, x, y, z)
    ensures Extends(trace, trace' + [Closed(c)], c, x, y, z)
  {
    PlainExtends(trace', c, Closed(c));
    ExtendsThen(trace, trace', trace' + [Closed(c)], c, x, y, z, x, y, z);
  }

  lemma {:induction false} LineLawful(w: World, c: nat, tokens: seq<string>)
    requires TraceOk(w) && c in w.clients && ClientOk(w.sched, c, w.clients[c]) && tokens != []
    ensures var x := w.clients[c]; var accepted := x.lastPong >= 120 || Accepts(x, tokens);
      Extends(w.trace, w.trace + LineEvents(c, x, tokens), c, x.reply || Accepts(x, tokens), accepted, accepted)
  {
    var x := w.clients[c];
    assert Mirrors(w, c);
    hide Lawful, Answered, Extends, PingsOk, TimerOk, Pings;
    if Accepts(x, tokens) {
      AcceptLawful(w.trace, c, tokens, !x.sentCommon);
    } else if tokens[0] == "NICK" {
      if !x.isConnecting {
        assert Requested(c, tokens) == [Request(c, tokens)];
        RequestLawful(w.trace, c, tokens);
      } else {
        assert w.trace + [] == w.trace;
      }
    } else if x.reply && tokens[0] != "USER" {
      RequestLawful(w.trace, c, tokens);
    } else {
      assert w.trace + [] == w.trace;
    }
  }

  lemma {:induction false} StepTraceOk(w: World, step: Step)
    requires WorldOk(w) && TraceOk(w) && Enabled(w, step)
    ensures TraceOk(Take(w, step))
  {
    var w' := Take(w, step);
    match step
    case Line(now, c, tokens, env) =>
      LineTraceOk(w, now, c, tokens, env);
    case Pass(now, rearm) =>
      PassTraceOk(w, now, rearm);
    case Connect(now, c, banned) =>
      var w1 := w.(clock := now, clients := w.clients[c := NewClient()]);
      forall d: nat ensures Mirrors(w1, d) { assert Mirrors(w, d); }
      if banned {
        ClosedTrace(w1, c);
      } else {
        forall d: nat ensures Mirrors(w', d) { assert Mirrors(w, d); }
      }
    case Disconnect(now, c) =>
      forall d: nat ensures Mirrors(w.(clock := now), d) { assert Mirrors(w, d); }
      ClosedTrace(w.(clock := now), c);
    case _ =>
      assert w'.trace == w.trace;
      forall c: nat ensures Mirrors(w', c) { assert Mirrors(w, c); }
  }

  lemma {:induction false} LineTraceOk(w: World, now: nat, c: nat, tokens: seq<string>, env: Env)
    requires WorldOk(w) && TraceOk(w) && Enabled(w, Line(now, c, tokens, env))
    ensures TraceOk(Take(w, Line(now, c, tokens, env)))
  {
    var w' := Take(w, Line(now, c, tokens, env));
    LineSeen(c, Turn(w.clients[c], w.users, w.sched, []), now, tokens, env);
    LineLawful(w, c, tokens);
    hide OnLine, Lawful, LineEvents, Accepts, Answered, ClientOk, UserOk, SchedOk;
    forall d: nat ensures Mirrors(w', d) { assert Mirrors(w, d); }
  }

  lemma {:induction false} PassTraceOk(w: World, now: nat, rearm: Option<nat>)
    requires WorldOk(w) && TraceOk(w) && Enabled(w, Pass(now, rearm))
    ensures TraceOk(Take(w, Pass(now, rearm)))
  {
    var w' := Take(w, Pass(now, rearm));
    match S.LeastDue(w.sched, now)
    case None =>
      forall d: nat ensures Mirrors(w', d) { assert Mirrors(w, d); }
    case Some(k) =>
      var w1 := w.(clock := now, sched := S.PassOnce(w.sched, now, Callback(w.sched.tasks[k].action, rearm)));
      OwnerExists(w, k);
      forall d: nat ensures Mirrors(w1, d) { assert Mirrors(w, d); }
      match w.sched.tasks[k].action {
        case SendPing(c) =>
          assert ClientOk(w.sched, c, w.clients[c]);
          FiredPing(w1, c, w1.sched.id);
        case CloseConnection(c) =>
          ClosedTrace(w1, c);
        case _ =>
          forall d: nat ensures Mirrors(w', d) { assert Mirrors(w1, d); }
      }
  }

  lemma {:induction false} FiredPing(w: World, c: nat, id: nat)
    requires TraceOk(w) && c in w.clients && w.clients[c].lastPong != 119
    ensures TraceOk(Fire(w, SendPing(c), id))
  {
    var w' := Fire(w, SendPing(c), id);
    LawfulSnoc(w.trace, PingSent(c));
    forall d: nat ensures Mirrors(w', d) {
      assert Mirrors(w, d);
      AnsweredSnoc(w.trace, PingSent(c), d);
    }
  }

  lemma {:induction false} ClosedTrace(w: World, c: nat)
    requires TraceOk(w) && c in w.clients
    ensures TraceOk(CloseIn(w, c))
  {
    var w' := CloseIn(w, c);
    LawfulSnoc(w.trace, Closed(c));
    PlainEvent(w.trace, Closed(c));
    forall d: nat ensures Mirrors(w', d) { assert Mirrors(w, d); }
  }

  lemma {:induction false} RunTraceOk(w: World, steps: seq<Step>)
    requires WorldOk(w) && TraceOk(w) && EnabledRun(w, steps) && w.sched.id + 4 * |steps| < S.ID_LIMIT
    ensures WorldOk(Run(w, steps)) && TraceOk(Run(w, steps))
    decreases |steps|
  {
    if steps != [] {
      StepOk(w, steps[0]);
      StepIds(w, steps[0]);
      StepTraceOk(w, steps[0]);
      RunTraceOk(Take(w, steps[0]), steps[1..]);
    }
  }

  /** Every run of the server from its start. */
  lemma {:induction false} EveryRun(steps: seq<Step>)
    requires EnabledRun(Empty(), steps) && 4 * |steps| < S.ID_LIMIT
    ensures WorldOk(Run(Empty(), steps)) && TraceOk(Run(Empty(), steps))
  {
    var w := Empty();
    EmptyOk();
    assert forall c: nat :: Mirrors(w, c);
    RunTraceOk(w, steps);
  }

  // ----- what one step makes visible -----

  lemma {:induction false} LineTrace(w: World, step: Step)
    requires WorldOk(w) && step.Line? && Enabled(w, step)
    ensures Take(w, step).trace == w.trace + LineEvents(step.c, w.clients[step.c], step.tokens)
    ensures forall c | c in w.clients && c != step.c ::
      c in Take(w, step).clients && Take(w, step).clients[c] == w.clients[c]
  {
    assert ClientOk(w.sched, step.c, w.clients[step.c]);
    LineSeen(step.c, Turn(w.clients[step.c], w.users, w.sched, []), step.now, step.tokens, step.env);
    hide OnLine, LineEvents, Accepts, ClientOk, WorldOk;
  }

  function ClosingEvents(w: World, c: nat): seq<Event> {
    if c in w.clients && w.clients[c].open then [Closed(c)] else []
  }

  ghost function StepEvents(w: World, step: Step): seq<Event>
    requires Enabled(w, step)
  {
    match step
    case Line(_, c, tokens, _) => LineEvents(c, w.clients[c], tokens)
    case Connect(_, c, banned) => if banned then [Closed(c)] else []
    case Disconnect(_, c) => ClosingEvents(w, c)
    case Pass(now, _) =>
      (match S.LeastDue(w.sched, now)
       case None => []
       case Some(k) => FireEvents(w, w.sched.tasks[k].action))
    case _ => []
  }

  /** A step adds exactly these events to the trace. */
  lemma {:induction false} StepTrace(w: World, step: Step)
    requires WorldOk(w) && Enabled(w, step)
    ensures Take(w, step).trace == w.trace + StepEvents(w, step)
  {
    hide WorldOk, OnLine, LineEvents, Fire, CloseIn;
    match step
    case Line(_, _, _, _) => LineTrace(w, step);
    case Connect(now, c, banned) =>
      if banned { CloseTrace(w.(clock := now, clients := w.clients[c := NewClient()]), c); }
    case Disconnect(now, c) => CloseTrace(w.(clock := now), c);
    case Pass(now, rearm) =>
      if k :| S.LeastDue(w.sched, now) == Some(k) {
        var a := w.sched.tasks[k].action;
        var s := S.PassOnce(w.sched, now, Callback(a, rearm));
        FireTrace(w.(clock := now, sched := s), a, s.id);
      }
    case _ =>
  }

  lemma {:induction false} CloseTrace(w: World, c: nat)
    requires c in w.clients
    ensures CloseIn(w, c).trace == w.trace + ClosingEvents(w, c)
  {}

  function FireEvents(w: World, a: Action): seq<Event> {
    match a
    case SendPing(c) => if c in w.clients then [PingSent(c)] else []
    case CloseConnection(c) => ClosingEvents(w, c)
    case _ => []
  }

  lemma {:induction false} FireTrace(w: World, a: Action, id: nat)
    ensures Fire(w, a, id).trace == w.trace + FireEvents(w, a)
  {
    assert w.trace + [] == w.trace;
  }

  // ----- what every reachable connection and user looks like -----

  lemma {:induction false} ConnectionsInEveryRun(steps: seq<Step>, c: nat)
    requires EnabledRun(Empty(), steps) && 4 * |steps| < S.ID_LIMIT && c in Run(Empty(), steps).clients
    ensures var w := Run(Empty(), steps); var x := w.clients[c];
      && |Pings(w.sched, c)| <= 2
      && x.lastPong in {0, 1, 120, 121, 122}
      && (x.hasUser <==> x.sentUser || x.sentNick)
      && (x.reply ==> x.sentCommon) && (x.sentCommon <==> !x.isConnecting)
      && (Welcome(c) in w.trace <==> PongAccepted(c) in w.trace)
      && (x.sentCommon <==> Welcome(c) in w.trace)
  {
    EveryRun(steps);
    var w := Run(Empty(), steps);
    assert ClientOk(w.sched, c, w.clients[c]);
    assert Mirrors(w, c);
  }

  lemma {:induction false} UsersInEveryRun(steps: seq<Step>, u: nat)
    requires EnabledRun(Empty(), steps) && 4 * |steps| < S.ID_LIMIT && u in Run(Empty(), steps).users
    ensures var w := Run(Empty(), steps); var y := w.users[u];
      && OnlyEvent(w.sched, y.idleEvent, AddEventIdle(u))
      && OnlyEvent(w.sched, y.joinEvent, AddEventJoin(u))
      && y.joinTime <= w.clock - y.born
  {
    EveryRun(steps);
    assert UserOk(Run(Empty(), steps).sched, u, Run(Empty(), steps).users[u], Run(Empty(), steps).clock);
  }
}
