/** What each kind of line comes to, in terms of its words and of what it meets, and how the
    registration and the refusals of a connection add up over a run. */
module SessionLines {
  import opened Auxiliar
  import S = Scheduler
  import opened Session
  import opened SessionInvariant
  import opened SessionRuns
  import opened SessionTraces
  import opened SessionTimers
  import opened Wire

  // ----- registration -----

  /** USER is turned away when it is too short or repeated, and otherwise makes the user. */
  lemma {:induction false} UserJudged(c: nat, t: Turn, now: nat, tokens: seq<string>, env: Env)
    requires tokens != [] && tokens[0] == "USER"
    ensures var x, t' := t.client, OnLine(c, t, now, tokens, env);
      if |tokens| < 4 then t' == t.(client := x.(listening := x.open))
      else if x.sentUser && x.hasUser then t' == t.(client := x.(listening := false))
      else t'.client.hasUser && t'.client.sentUser && t'.client.sentNick == x.sentNick
  {
    hide Finish, EnsureUser;
    EnsureUserEvents(c, t, now);
    FinishFlags(c, Middle(c, t, now, tokens), now, tokens);
  }

  /** While connecting, a NICK that is in use or forbidden is turned away, and any other makes the
      user and is taken. */
  lemma {:induction false} NickJudged(c: nat, t: Turn, now: nat, tokens: seq<string>, env: Env)
    requires tokens != [] && tokens[0] == "NICK" && t.client.isConnecting
    ensures var x, t' := t.client, OnLine(c, t, now, tokens, env);
      if env.nickTaken || env.nickForbidden then t' == t.(client := x.(listening := x.open))
      else t'.client.hasUser && t'.client.sentNick && t'.client.sentUser == x.sentUser
  {
    hide Finish, EnsureUser;
    EnsureUserEvents(c, t, now);
    FinishFlags(c, Middle(c, t, now, tokens), now, tokens);
  }

  /** Once connected, NICK is a request like any other. */
  lemma {:induction false} NickHandled(c: nat, t: Turn, now: nat, tokens: seq<string>, env: Env)
    requires tokens != [] && tokens[0] == "NICK" && !t.client.isConnecting
    ensures OnLine(c, t, now, tokens, env) == Receive(HandleRequest(c, t, tokens))
  {
    hide Receive, HandleRequest, Finish, EnsureUser;
  }

  /** What the end of a line leaves alone. */
  predicate SameFlags(x: Client, x': Client) {
    && x'.hasUser == x.hasUser && x'.sentUser == x.sentUser && x'.sentNick == x.sentNick
    && x'.notPingReply == x.notPingReply
  }

  lemma {:induction false} StartPingFlags(c: nat, t: Turn, now: nat)
    ensures SameFlags(t.client, StartPing(c, t, now).client)
  {
    hide StartPing;
    StartPingKeeps(c, t, now);
  }

  lemma {:induction false} GreetFlags(c: nat, t: Turn)
    ensures SameFlags(t.client, Receive(Greet(c, t)).client) && SameFlags(t.client, Receive(t).client)
  {}

  lemma {:induction false} LetThroughFlags(c: nat, t: Turn, tokens: seq<string>)
    ensures SameFlags(t.client, LetThrough(c, t, tokens).client)
  {
    hide LetThrough;
    LetThroughKeeps(c, t, tokens);
  }

  lemma {:induction false} ThenFlags(x: Client, y: Client, z: Client)
    requires SameFlags(x, y) && SameFlags(y, z)
    ensures SameFlags(x, z)
  {}

  lemma {:induction false} FinishFlags(c: nat, t: Turn, now: nat, tokens: seq<string>)
    ensures SameFlags(t.client, Finish(c, t, now, tokens).client)
  {
    hide SameFlags, StartPing, LetThrough, Greet, Receive;
    var t1 := StartPing(c, t, now);
    var t2 := LetThrough(c, t1, tokens);
    StartPingFlags(c, t, now);
    LetThroughFlags(c, t1, tokens);
    GreetFlags(c, t);
    GreetFlags(c, t1);
    GreetFlags(c, t2);
    ThenFlags(t.client, t1.client, Receive(t1).client);
    ThenFlags(t.client, t1.client, t2.client);
    ThenFlags(t.client, t2.client, Receive(Greet(c, t2)).client);
  }

  /** The words and circumstances that register a connection, one half and the other. */
  predicate GivesUser(tokens: seq<string>) { |tokens| >= 4 && tokens[0] == "USER" }

  predicate GivesNick(x: Client, tokens: seq<string>, env: Env) {
    tokens != [] && tokens[0] == "NICK" && x.isConnecting && !env.nickTaken && !env.nickForbidden
  }

  /** An answer is refused unless nothing stands before its ':' and none stands already. */
  predicate IsRefused(x: Client, tokens: seq<string>) {
    && |tokens| >= 2 && tokens[0] == "PONG" && x.sentUser && x.sentNick
    && !(Cut(tokens[1], ':').0 == "" && x.lastPong != 120)
  }

  lemma {:induction false} AwaitedText(s: string)
    ensures IsAwaitedPong(s) <==> Cut(s, ':').0 == ""
  {
    if s != "" && s[0] == ':' {
      assert s == "" + [':'] + s[1..];
      CutFound(s, ':', "", s[1..]);
    } else {
      var (head, tail) := Cut(s, ':');
      if tail.Some? { CutFound(s, ':', head, tail.value); } else { CutMissing(s, ':'); }
    }
    hide Cut;
  }

  lemma {:induction false} AnswerFlags(c: nat, t: Turn, now: nat, token: string)
    ensures var x, x' := t.client, OnPong(c, t, now, token).client;
      && x'.sentUser == x.sentUser && x'.sentNick == x.sentNick
      && x'.notPingReply == x.notPingReply + (if Cut(token, ':').0 == "" && x.lastPong != 120 then 0 else 1)
  {
    hide Add, Cancel, Cut, IsAwaitedPong;
    AwaitedText(token);
  }

  lemma {:induction false} MiddleFlags(c: nat, t: Turn, now: nat, tokens: seq<string>)
    requires tokens != [] && (tokens[0] == "PONG" ==> t.client.sentUser && t.client.sentNick)
    ensures var x, x' := t.client, Middle(c, t, now, tokens).client;
      && x'.sentUser == (x.sentUser || tokens[0] == "USER") && x'.sentNick == (x.sentNick || tokens[0] == "NICK")
      && x'.notPingReply == x.notPingReply + (if IsRefused(x, tokens) then 1 else 0)
  {
    hide EnsureUser, OnPong, Add, Cut;
    if tokens[0] == "USER" || tokens[0] == "NICK" {
      EnsureUserEvents(c, t, now);
    } else if tokens[0] == "PONG" {
      if |tokens| > 1 { AnswerFlags(c, t, now, tokens[1]); }
    }
  }

  /** A line changes the registration and the count of refusals by exactly this. */
  lemma {:induction false} LineFlags(c: nat, t: Turn, now: nat, tokens: seq<string>, env: Env)
    requires tokens != []
    ensures var x, x' := t.client, OnLine(c, t, now, tokens, env).client;
      && x'.sentUser == (x.sentUser || GivesUser(tokens))
      && x'.sentNick == (x.sentNick || GivesNick(x, tokens, env))
      && x'.notPingReply == x.notPingReply + (if IsRefused(x, tokens) then 1 else 0)
  {
    hide OnLine, Finish, Middle, HandleRequest, Cut;
    OnLineShape(c, t, now, tokens, env);
    RequestKeeps(c, t, tokens);
    if tokens[0] == "USER" {
      UserJudged(c, t, now, tokens, env);
    } else if tokens[0] == "NICK" {
      if t.client.isConnecting { NickJudged(c, t, now, tokens, env); } else { NickHandled(c, t, now, tokens, env); }
    }
    if tokens[0] == "PONG" ==> t.client.sentUser && t.client.sentNick {
      MiddleFlags(c, t, now, tokens);
      FinishFlags(c, Middle(c, t, now, tokens), now, tokens);
    }
  }

  // ----- answers and warnings -----

  /** With none standing, an answer is accepted exactly when the text before its first ':' is
      empty; otherwise a close timer of two minutes goes on record. */
  lemma {:induction false} AnswerJudged(c: nat, t: Turn, now: nat, tokens: seq<string>, env: Env)
    requires ClientOk(t.sched, c, t.client) && t.client.open && t.events == []
    requires IdsIssued(t.sched) && t.sched.id + 4 < S.ID_LIMIT
    requires |tokens| >= 2 && tokens[0] == "PONG" && t.client.sentUser && t.client.sentNick && t.client.lastPong != 120
    ensures var x, t' := t.client, OnLine(c, t, now, tokens, env); var x' := t'.client;
      if Cut(tokens[1], ':').0 == "" then
        PongAccepted(c) in t'.events && x'.reply && x'.lastPong == 120
      else
        && PongAccepted(c) !in t'.events && !x'.reply && x'.eventId in t'.sched.tasks
        && t'.sched.tasks[x'.eventId] == S.Task(now + 120, false, CloseConnection(c))
  {
    hide Cut, Add, Cancel, IsAwaitedPong, HandleRequest, Pings, TimerOk;
    AwaitedText(tokens[1]);
    NoneStands(t.sched, c, t.client);
    LineSeen(c, t, now, tokens, env);
    if Cut(tokens[1], ':').0 != "" {
      AddShape(t.sched, now, 120, CloseConnection(c));
    }
  }

  lemma {:induction false} NoneStands(s: Sched, c: nat, x: Client)
    requires ClientOk(s, c, x)
    ensures x.lastPong != 120 ==> !x.reply
    ensures x.sentUser && x.sentNick ==> x.pongEvent != 0
    ensures x.sentUser ==> x.hasUser
  {
    hide Pings, TimerOk;
  }

  /** So PONG followed by a ':' and anything is accepted. */
  lemma {:induction false} ColonIsAccepted(c: nat, t: Turn, now: nat, s: string, env: Env)
    requires ClientOk(t.sched, c, t.client) && t.client.open && t.events == []
    requires IdsIssued(t.sched) && t.sched.id + 4 < S.ID_LIMIT
    requires t.client.sentUser && t.client.sentNick && t.client.lastPong != 120
    ensures PongAccepted(c) in OnLine(c, t, now, ["PONG", ":" + s], env).events
  {
    hide ClientOk, OnLine, Cut;
    CutFound(":" + s, ':', "", s);
    assert "" + [':'] + s == ":" + s;
    AnswerJudged(c, t, now, ["PONG", ":" + s], env);
  }

  /** Anything else said before USER starts the registration timeout, once. */
  lemma {:induction false} WarnedOnce(c: nat, t: Turn, now: nat, tokens: seq<string>, env: Env)
    requires ClientOk(t.sched, c, t.client) && IdsIssued(t.sched) && t.sched.id + 4 < S.ID_LIMIT
    requires tokens != [] && tokens[0] !in ["USER", "NICK", "PONG"]
    ensures var x, t' := t.client, OnLine(c, t, now, tokens, env); var x' := t'.client;
      if !x.sentUser && !x.closed then
        && x'.closed && x'.eventId in t'.sched.tasks
        && t'.sched.tasks[x'.eventId] == S.Task(now + 40, false, CloseConnection(c))
      else x'.eventId == x.eventId
  {
    hide Add, Finish, ClientOk;
    NoneStands(t.sched, c, t.client);
    AddShape(t.sched, now, 40, CloseConnection(c));
    var m := Middle(c, t, now, tokens);
    FinishSched(c, m, now, tokens);
  }

  // ----- over runs -----

  predicate StepGivesUser(step: Step, c: nat) { step.Line? && step.c == c && GivesUser(step.tokens) }

  predicate StepGivesNick(w: World, step: Step, c: nat) {
    step.Line? && step.c == c && c in w.clients && GivesNick(w.clients[c], step.tokens, step.env)
  }

  predicate StepIsRefused(w: World, step: Step, c: nat) {
    step.Line? && step.c == c && c in w.clients && IsRefused(w.clients[c], step.tokens)
  }

  /** Some line of c was a USER with enough words. */
  predicate RunGivesUser(steps: seq<Step>, c: nat) {
    exists i | 0 <= i < |steps| :: StepGivesUser(steps[i], c)
  }

  /** Some line of c was a NICK, while it was connecting, that was neither in use nor forbidden. */
  ghost predicate RunGivesNick(w: World, steps: seq<Step>, c: nat)
    requires EnabledRun(w, steps)
    decreases |steps|
  {
    steps != [] && (StepGivesNick(w, steps[0], c) || RunGivesNick(Take(w, steps[0]), steps[1..], c))
  }

  /** How many answers of c were refused. */
  ghost function RefusalsIn(w: World, steps: seq<Step>, c: nat): nat
    requires EnabledRun(w, steps)
    decreases |steps|
  {
    if steps == [] then 0
    else (if StepIsRefused(w, steps[0], c) then 1 else 0) + RefusalsIn(Take(w, steps[0]), steps[1..], c)
  }

  /** The fields in question, before there is a connection too. */
  function Flags(w: World, c: nat): (bool, bool, nat) {
    if c in w.clients then (w.clients[c].sentUser, w.clients[c].sentNick, w.clients[c].notPingReply)
        else (false, false, 0)
  }

  lemma {:induction false} FireFlags(w: World, a: Action, id: nat, c: nat)
    ensures Flags(Fire(w, a, id), c) == Flags(w, c)
  {}

  lemma {:induction false} StepFlags(w: World, step: Step, c: nat)
    requires Enabled(w, step)
    ensures var (user, nick, refusals) := Flags(w, c);
      Flags(Take(w, step), c)
        == (user || StepGivesUser(step, c), nick || StepGivesNick(w, step, c),
            refusals + (if StepIsRefused(w, step, c) then 1 else 0))
  {
    hide OnLine, Fire, IsRefused, GivesUser, GivesNick;
    match step
    case Line(_, _, _, _) => LineStepFlags(w, step, c);
    case Pass(now, rearm) =>
      if k :| S.LeastDue(w.sched, now) == Some(k) {
        var a := w.sched.tasks[k].action;
        var s := S.PassOnce(w.sched, now, Callback(a, rearm));
        FireFlags(w.(clock := now, sched := s), a, s.id, c);
      }
    case _ =>
  }

  lemma {:induction false} LineStepFlags(w: World, step: Step, c: nat)
    requires Enabled(w, step) && step.Line?
    ensures var (user, nick, refusals) := Flags(w, c);
      Flags(Take(w, step), c)
        == (user || StepGivesUser(step, c), nick || StepGivesNick(w, step, c),
            refusals + (if StepIsRefused(w, step, c) then 1 else 0))
  {
    hide OnLine, IsRefused, GivesUser, GivesNick;
    LineFlags(step.c, Turn(w.clients[step.c], w.users, w.sched, []), step.now, step.tokens, step.env);
  }

  lemma {:induction false} RunFlags(w: World, steps: seq<Step>, c: nat)
    requires EnabledRun(w, steps)
    ensures var (user, nick, refusals) := Flags(w, c);
      Flags(Run(w, steps), c)
        == (user || RunGivesUser(steps, c), nick || RunGivesNick(w, steps, c), refusals + RefusalsIn(w, steps, c))
    decreases |steps|
  {
    hide Flags, Take, Enabled, StepGivesUser, StepGivesNick, StepIsRefused;
    if steps != [] {
      StepFlags(w, steps[0], c);
      RunFlags(Take(w, steps[0]), steps[1..], c);
      assert forall i | 0 < i < |steps| :: steps[i] == steps[1..][i-1];
      assert RunGivesUser(steps, c) <==> StepGivesUser(steps[0], c) || RunGivesUser(steps[1..], c) by {
        if i :| 0 <= i < |steps[1..]| && StepGivesUser(steps[1..][i], c) { assert StepGivesUser(steps[i+1], c); }
      }
    }
  }

  /** In every run a connection has sent USER, or NICK, exactly when a line of it did that counts,
      and has as many refusals to its name as answers were refused. */
  lemma {:induction false} RegistrationInEveryRun(steps: seq<Step>, c: nat)
    requires EnabledRun(Empty(), steps) && c in Run(Empty(), steps).clients
    ensures var x := Run(Empty(), steps).clients[c];
      && (x.sentUser <==> RunGivesUser(steps, c))
      && (x.sentNick <==> RunGivesNick(Empty(), steps, c))
      && x.notPingReply == RefusalsIn(Empty(), steps, c)
  {
    RunFlags(Empty(), steps, c);
  }
}
