/** Each socket that is closed is seen to close once, however it comes to be closed: by a line
    that quits, a close timer, a failed read or write, or a banned address.  None is opened
    again. */
module SessionClosings {
  import opened Auxiliar
  import S = Scheduler
  import opened Session
  import opened SessionRuns
  import opened SessionTraces
  import opened SessionSilence

  function Closings(events: seq<Event>, c: nat): nat { multiset(events)[Closed(c)] }

  lemma {:induction false} OneMore(events: seq<Event>, e: Event, d: nat)
    ensures Closings(events + [e], d) == Closings(events, d) + (if e == Closed(d) then 1 else 0)
  {}

  // ----- a line -----

  /** How often d was seen to close, beyond the once that there is for a closed socket. */
  function TurnExcess(c: nat, t: Turn, d: nat): int {
    Closings(t.events, d) - (if d == c && !t.client.open then 1 else 0)
  }

  lemma {:induction false} RequestExcess(c: nat, t: Turn, tokens: seq<string>, d: nat)
    ensures TurnExcess(c, HandleRequest(c, t, tokens), d) == TurnExcess(c, t, d)
  {
    hide Closings;
    OneMore(t.events, Request(c, tokens), d);
    OneMore(t.events + [Request(c, tokens)], Closed(c), d);
  }

  lemma {:induction false} LetThroughExcess(c: nat, t: Turn, tokens: seq<string>, d: nat)
    ensures TurnExcess(c, LetThrough(c, t, tokens), d) == TurnExcess(c, t, d)
  {
    hide Cancel, HandleRequest, Closings;
    RequestExcess(c, t.(sched := Cancel(t.sched, t.client.eventId)), tokens, d);
  }

  lemma {:induction false} GreetExcess(c: nat, t: Turn, d: nat)
    ensures TurnExcess(c, Receive(Greet(c, t)), d) == TurnExcess(c, Receive(t), d) == TurnExcess(c, t, d)
  {
    hide Closings;
    OneMore(t.events, Welcome(c), d);
  }

  lemma {:induction false} FinishExcess(c: nat, t: Turn, now: nat, tokens: seq<string>, d: nat)
    ensures TurnExcess(c, Finish(c, t, now, tokens), d) == TurnExcess(c, t, d)
  {
    hide Add, LetThrough, Greet, Receive, Closings;
    var t1 := StartPing(c, t, now);
    LetThroughExcess(c, t1, tokens, d);
    GreetExcess(c, t, d);
    GreetExcess(c, t1, d);
    GreetExcess(c, LetThrough(c, t1, tokens), d);
  }

  lemma {:induction false} AnswerExcess(c: nat, t: Turn, now: nat, token: string, d: nat)
    ensures TurnExcess(c, OnPong(c, t, now, token), d) == TurnExcess(c, t, d)
  {
    hide Add, Cancel, IsAwaitedPong, Closings;
    OneMore(t.events, PongAccepted(c), d);
  }

  lemma {:induction false} MiddleExcess(c: nat, t: Turn, now: nat, tokens: seq<string>, d: nat)
    requires tokens != []
    ensures TurnExcess(c, Middle(c, t, now, tokens), d) == TurnExcess(c, t, d)
  {
    hide Add, EnsureUser, OnPong, Closings;
    if tokens[0] == "USER" || tokens[0] == "NICK" {
      EnsureUserEvents(c, t, now);
    } else if tokens[0] == "PONG" {
      if |tokens| > 1 { AnswerExcess(c, t, now, tokens[1], d); }
    }
  }

  lemma {:induction false} LineExcess(c: nat, t: Turn, now: nat, tokens: seq<string>, env: Env, d: nat)
    requires tokens != []
    ensures TurnExcess(c, OnLine(c, t, now, tokens, env), d) == TurnExcess(c, t, d)
  {
    hide Finish, Middle, HandleRequest, OnLine, Closings;
    OnLineShape(c, t, now, tokens, env);
    RequestExcess(c, t, tokens, d);
    MiddleExcess(c, t, now, tokens, d);
    FinishExcess(c, Middle(c, t, now, tokens), now, tokens, d);
  }

  // ----- runs -----

  function Excess(w: World, c: nat): int {
    Closings(w.trace, c) - (if c in w.clients && !w.clients[c].open then 1 else 0)
  }

  lemma {:induction false} CloseExcess(w: World, d: nat, c: nat)
    requires d in w.clients
    ensures Excess(CloseIn(w, d), c) == Excess(w, c)
  {
    hide Closings;
    OneMore(w.trace, Closed(d), c);
  }

  lemma {:induction false} FireExcess(w: World, a: Action, id: nat, c: nat)
    ensures Excess(Fire(w, a, id), c) == Excess(w, c)
  {
    hide CloseIn, Closings;
    match a
    case SendPing(d) => OneMore(w.trace, PingSent(d), c);
    case CloseConnection(d) => if d in w.clients { CloseExcess(w, d, c); }
    case _ =>
  }

  lemma {:induction false} LineStepExcess(w: World, step: Step, c: nat)
    requires step.Line? && Enabled(w, step)
    ensures Excess(Take(w, step), c) == Excess(w, c)
  {
    hide OnLine;
    var t := Turn(w.clients[step.c], w.users, w.sched, []);
    LineExcess(step.c, t, step.now, step.tokens, step.env, c);
  }

  lemma {:induction false} StepExcess(w: World, step: Step, c: nat)
    requires Enabled(w, step)
    ensures Excess(Take(w, step), c) == Excess(w, c)
  {
    hide Fire, CloseIn, OnLine, Closings;
    match step
    case Line(_, _, _, _) => LineStepExcess(w, step, c);
    case Connect(now, d, banned) =>
      if banned { CloseExcess(w.(clock := now, clients := w.clients[d := NewClient()]), d, c); }
    case Disconnect(now, d) => CloseExcess(w.(clock := now), d, c);
    case Pass(now, rearm) =>
      if k :| S.LeastDue(w.sched, now) == Some(k) {
        var a := w.sched.tasks[k].action;
        var w1 := w.(clock := now, sched := S.PassOnce(w.sched, now, Callback(a, rearm)));
        FireExcess(w1, a, w1.sched.id, c);
      }
    case _ =>
  }

  lemma {:induction false} RunExcess(w: World, steps: seq<Step>, c: nat)
    requires EnabledRun(w, steps)
    ensures Excess(Run(w, steps), c) == Excess(w, c)
    decreases |steps|
  {
    hide Excess, Take, Enabled;
    if steps != [] {
      StepExcess(w, steps[0], c);
      RunExcess(Take(w, steps[0]), steps[1..], c);
    }
  }

  /** In every run a connection is seen to close once if its socket is closed, and else never. */
  lemma {:induction false} ClosedOnce(steps: seq<Step>, c: nat)
    requires EnabledRun(Empty(), steps)
    ensures multiset(Run(Empty(), steps).trace)[Closed(c)]
         == if c in Run(Empty(), steps).clients && !Run(Empty(), steps).clients[c].open then 1 else 0
  {
    RunExcess(Empty(), steps, c);
    hide Run, EnabledRun;
  }
}
