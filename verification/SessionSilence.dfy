/** Which connections the server goes on reading from. */
module SessionSilence {
  import opened Auxiliar
  import S = Scheduler
  import opened Session
  import opened SessionInvariant
  import opened SessionRuns
  import opened SessionTraces

  /** USER from a connection that has sent it before. */
  predicate RepeatsUser(x: Client, tokens: seq<string>) {
    |tokens| >= 4 && tokens[0] == "USER" && x.sentUser && x.hasUser
  }

  lemma {:induction false} ReceiveListens(t: Turn)
    ensures Receive(t).client.listening == Receive(t).client.open
  {}

  lemma {:induction false} FinishListens(c: nat, t: Turn, now: nat, tokens: seq<string>)
    ensures var x := Finish(c, t, now, tokens).client; x.listening == x.open
  {
    hide StartPing, LetThrough, Greet, Receive;
    forall t' ensures Receive(t').client.listening == Receive(t').client.open { ReceiveListens(t'); }
  }

  /** A line leaves its connection waiting for the next one exactly when the connection is open
      and the line is not a repeated USER. */
  lemma {:induction false} StillListening(c: nat, t: Turn, now: nat, tokens: seq<string>, env: Env)
    requires tokens != []
    ensures var x := OnLine(c, t, now, tokens, env).client;
      x.listening <==> x.open && !RepeatsUser(t.client, tokens)
  {
    hide Finish, EnsureUser, OnPong, HandleRequest, Add, Receive;
    forall t' ensures Receive(t').client.listening == Receive(t').client.open { ReceiveListens(t'); }
    forall t' ensures Finish(c, t', now, tokens).client.listening == Finish(c, t', now, tokens).client.open {
      FinishListens(c, t', now, tokens);
    }
  }

  // ----- over runs -----

  /** Open, but nothing is read from it. */
  predicate Deaf(w: World, c: nat) {
    c in w.clients && w.clients[c].open && !w.clients[c].listening
  }

  predicate StepRepeatsUser(w: World, step: Step, c: nat) {
    step.Line? && step.c == c && c in w.clients && RepeatsUser(w.clients[c], step.tokens)
  }

  /** Some line of the run is a repeated USER of c. */
  ghost predicate RunRepeatsUser(w: World, steps: seq<Step>, c: nat)
    requires EnabledRun(w, steps)
    decreases |steps|
  {
    steps != [] && (StepRepeatsUser(w, steps[0], c) || RunRepeatsUser(Take(w, steps[0]), steps[1..], c))
  }

  predicate IsOpen(w: World, c: nat) { c in w.clients && w.clients[c].open }

  lemma {:induction false} FireListens(w: World, a: Action, id: nat, c: nat)
    ensures var w' := Fire(w, a, id);
      && (c in w.clients <==> c in w'.clients) && (IsOpen(w', c) ==> IsOpen(w, c) && (Deaf(w', c) <==> Deaf(w, c)))
  {}

  lemma {:induction false} FinishOpen(c: nat, t: Turn, now: nat, tokens: seq<string>)
    ensures Finish(c, t, now, tokens).client.open ==> t.client.open
  {
    hide Add, Cancel;
  }

  lemma {:induction false} MiddleOpen(c: nat, t: Turn, now: nat, tokens: seq<string>)
    requires tokens != []
    ensures Middle(c, t, now, tokens).client.open == t.client.open
  {
    hide Add, EnsureUser, OnPong;
    if tokens[0] == "USER" || tokens[0] == "NICK" {
      EnsureUserEvents(c, t, now);
    } else if tokens[0] == "PONG" {
      if |tokens| > 1 { PongKeeps(c, t, now, tokens[1]); }
    }
  }

  lemma {:induction false} RequestOpen(c: nat, t: Turn, tokens: seq<string>)
    ensures HandleRequest(c, t, tokens).client.open ==> t.client.open
  {}

  lemma {:induction false} LineOpen(c: nat, t: Turn, now: nat, tokens: seq<string>, env: Env)
    requires tokens != []
    ensures OnLine(c, t, now, tokens, env).client.open ==> t.client.open
  {
    OnLineShape(c, t, now, tokens, env);
    MiddleOpen(c, t, now, tokens);
    FinishOpen(c, Middle(c, t, now, tokens), now, tokens);
    RequestOpen(c, t, tokens);
    hide OnLine, Finish, Middle, HandleRequest;
  }

  /** What a step does to whether c is open, and deaf. */
  lemma {:induction false} StepListens(w: World, step: Step, c: nat)
    requires Enabled(w, step)
    ensures var w' := Take(w, step);
      && (c in w.clients ==> c in w'.clients)
      && (c in w.clients && IsOpen(w', c) ==> IsOpen(w, c))
      && (StepRepeatsUser(w, step, c) ==> c in w'.clients)
      && (IsOpen(w', c) ==> (Deaf(w', c) <==> Deaf(w, c) || StepRepeatsUser(w, step, c)))
  {
    match step
    case Line(now, d, tokens, env) =>
      var t := Turn(w.clients[d], w.users, w.sched, []);
      StillListening(d, t, now, tokens, env);
      LineOpen(d, t, now, tokens, env);
      hide OnLine, RepeatsUser;
    case Pass(now, rearm) =>
      if k :| S.LeastDue(w.sched, now) == Some(k) {
        var a := w.sched.tasks[k].action;
        var s := S.PassOnce(w.sched, now, Callback(a, rearm));
        FireListens(w.(clock := now, sched := s), a, s.id, c);
        hide Fire;
      }
    case _ =>
  }

  lemma {:induction false} RunListens(w: World, steps: seq<Step>, c: nat)
    requires EnabledRun(w, steps)
    ensures var w' := Run(w, steps);
      && (c in w.clients ==> c in w'.clients)
      && (c in w.clients && IsOpen(w', c) ==> IsOpen(w, c))
      && (RunRepeatsUser(w, steps, c) ==> c in w'.clients)
      && (IsOpen(w', c) ==> (Deaf(w', c) <==> Deaf(w, c) || RunRepeatsUser(w, steps, c)))
    decreases |steps|
  {
    if steps != [] {
      var w1 := Take(w, steps[0]);
      StepListens(w, steps[0], c);
      RunListens(w1, steps[1..], c);
      hide Take, Enabled, StepRepeatsUser;
    }
  }

  /** In every run an open connection goes on being read from, unless it has repeated USER. */
  lemma {:induction false} DeafInEveryRun(steps: seq<Step>, c: nat)
    requires EnabledRun(Empty(), steps) && IsOpen(Run(Empty(), steps), c)
    ensures Run(Empty(), steps).clients[c].listening <==> !RunRepeatsUser(Empty(), steps, c)
  {
    RunListens(Empty(), steps, c);
  }

  /** The shortest run that leaves an open connection unread. */
  lemma {:induction false} RepeatedUser(env: Env)
    ensures var user := Line(0, 0, ["USER", "a", "b", "c", ":d"], env); var steps := [Connect(0, 0, false), user, user];
      EnabledRun(Empty(), steps) && Deaf(Run(Empty(), steps), 0)
  {
    var user := Line(0, 0, ["USER", "a", "b", "c", ":d"], env);
    var steps := [Connect(0, 0, false), user, user];
    assert EnabledRun(Empty(), []) && Run(Empty(), []) == Empty();
    hide Add, EnabledRun, Run;
    RunThen(Empty(), [], steps[0]);
    var w1 := Take(Empty(), steps[0]);
    var w2 := Take(w1, user);
    assert w2.clients[0].sentUser && w2.clients[0].hasUser && w2.clients[0].listening && w2.clients[0].open;
    RunThen(Empty(), [] + [steps[0]], user);
    RunThen(Empty(), [] + [steps[0]] + [user], user);
    assert [] + [steps[0]] + [user] + [user] == steps;
  }

  // ----- what is seen of a connection that is not read from -----

  /** Only pings and its closing are still seen of c. */
  predicate Quiet(c: nat, es: seq<Event>) {
    forall e | e in es && e.c == c :: e.PingSent? || e.Closed?
  }

  lemma {:induction false} EventsOf(c: nat, x: Client, tokens: seq<string>)
    requires tokens != []
    ensures forall e | e in LineEvents(c, x, tokens) :: e.c == c
  {}

  lemma {:induction false} StepQuiet(w: World, step: Step, c: nat)
    requires Enabled(w, step) && c in w.clients && !w.clients[c].listening
    ensures Quiet(c, StepEvents(w, step))
  {
    if step.Line? {
      EventsOf(step.c, w.clients[step.c], step.tokens);
    }
    hide LineEvents;
  }

  lemma {:induction false} StaysUnread(w: World, step: Step, c: nat)
    requires Enabled(w, step) && c in w.clients && !w.clients[c].listening
    ensures var w' := Take(w, step); c in w'.clients && !w'.clients[c].listening
  {
    match step
    case Pass(now, rearm) =>
      if k :| S.LeastDue(w.sched, now) == Some(k) {
        var a := w.sched.tasks[k].action;
        FireUnread(w.(clock := now, sched := S.PassOnce(w.sched, now, Callback(a, rearm))), a,
            Take(w, step).sched.id, c);
      }
    case _ => hide OnLine;
  }

  lemma {:induction false} FireUnread(w: World, a: Action, id: nat, c: nat)
    requires c in w.clients && !w.clients[c].listening
    ensures var w' := Fire(w, a, id); c in w'.clients && !w'.clients[c].listening && w'.sched == w.sched
  {}

  /** A registered connection that sends USER again is answered with an error and never read
      from again: no later line of it is handled, whatever else happens. */
  lemma {:induction false} SecondUserIsTheLastLine(w: World, step: Step, steps: seq<Step>)
    requires WorldOk(w) && w.sched.id + 4 * (|steps| + 1) < S.ID_LIMIT
    requires step.Line? && |step.tokens| >= 4 && step.tokens[0] == "USER" && step.c in w.clients
        && w.clients[step.c].sentUser
    requires EnabledRun(w, [step] + steps)
    ensures var w' := Run(w, [step] + steps);
      w.trace <= w'.trace && Quiet(step.c, w'.trace[|w.trace|..])
    ensures forall i | 0 <= i < |steps| && steps[i].Line? :: steps[i].c != step.c
  {
    assert ([step] + steps)[1..] == steps;
    assert ClientOk(w.sched, step.c, w.clients[step.c]);
    var w1 := Take(w, step);
    assert w1.trace == w.trace;
    StepOk(w, step);
    StepIds(w, step);
    DeafRun(w1, steps, step.c);
  }

  lemma {:induction false} QuietThen(c: nat, a: seq<Event>, b: seq<Event>, d: seq<Event>)
    requires a <= b <= d && Quiet(c, b[|a|..]) && Quiet(c, d[|b|..])
    ensures Quiet(c, d[|a|..])
  {
    assert d[|a|..] == b[|a|..] + d[|b|..];
  }

  lemma {:induction false} DeafStep(w: World, step: Step, c: nat)
    requires WorldOk(w) && Enabled(w, step) && c in w.clients && !w.clients[c].listening
    ensures var w' := Take(w, step);
      && c in w'.clients && !w'.clients[c].listening && w.trace <= w'.trace && Quiet(c, w'.trace[|w.trace|..])
      && (step.Line? ==> step.c != c)
  {
    StaysUnread(w, step, c);
    StepQuiet(w, step, c);
    StepTrace(w, step);
    hide WorldOk, Take, Quiet, StepEvents;
    assert (w.trace + StepEvents(w, step))[|w.trace|..] == StepEvents(w, step);
  }

  lemma {:induction false} DeafRun(w: World, steps: seq<Step>, c: nat)
    requires WorldOk(w) && w.sched.id + 4 * |steps| < S.ID_LIMIT && EnabledRun(w, steps)
    requires c in w.clients && !w.clients[c].listening
    ensures var w' := Run(w, steps); w.trace <= w'.trace && Quiet(c, w'.trace[|w.trace|..])
    ensures forall i | 0 <= i < |steps| && steps[i].Line? :: steps[i].c != c
    decreases |steps|
  {
    if steps != [] {
      var w1, w' := Take(w, steps[0]), Run(w, steps);
      DeafStep(w, steps[0], c);
      StepOk(w, steps[0]);
      StepIds(w, steps[0]);
      hide WorldOk, Take, Quiet, Enabled;
      DeafRun(w1, steps[1..], c);
      QuietThen(c, w.trace, w1.trace, w'.trace);
      forall i | 0 <= i < |steps| && steps[i].Line? ensures steps[i].c != c {
        if i > 0 { assert steps[i] == steps[1..][i-1]; }
      }
    }
  }
}
