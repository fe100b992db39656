/** A user's counters count the firings of its two timers. */
module SessionTicks {
  import opened Auxiliar
  import S = Scheduler
  import opened Session
  import opened SessionInvariant
  import opened SessionRuns

  /** The step is a pass that fires such an event. */
  ghost predicate Fires(w: World, step: Step, a: Action) {
    step.Pass? &&
    match S.LeastDue(w.sched, step.now)
    case None => false
    case Some(k) => w.sched.tasks[k].action == a
  }

  ghost function FiresIn(w: World, steps: seq<Step>, a: Action): nat
    requires EnabledRun(w, steps)
    decreases |steps|
  {
    if steps == [] then 0
    else (if Fires(w, steps[0], a) then 1 else 0) + FiresIn(Take(w, steps[0]), steps[1..], a)
  }

  predicate Destroys(step: Step, u: nat) { step.DestroyUser? && step.u == u }

  /** The two counters; both begin at nothing. */
  function Counters(w: World, u: nat): (nat, nat) {
    if u in w.users then (w.users[u].idleTime, w.users[u].joinTime) else (0, 0)
  }

  lemma {:induction false} LineCounters(w: World, step: Step, u: nat)
    requires WorldOk(w) && step.Line? && Enabled(w, step) && w.sched.id + 4 < S.ID_LIMIT
    ensures Counters(Take(w, step), u) == Counters(w, u)
  {
    hide ClientOk, UserOk, SchedOk, Evolves, Finish, HandleRequest, Add, OnPong;
    var c, t := step.c, Turn(w.clients[step.c], w.users, w.sched, []);
    WorldClient(w, c);
    assert TurnOk(c, t, w.clients.Keys) by { OwnTurn(w, c); }
    LineOk(c, t, step.now, step.tokens, step.env, w.clients.Keys);
    LineUsers(c, t, step.now, step.tokens, step.env);
    hide OnLine;
  }

  lemma {:induction false} OwnTurn(w: World, c: nat)
    requires WorldOk(w) && c in w.clients
    ensures TurnOk(c, Turn(w.clients[c], w.users, w.sched, []), w.clients.Keys)
  {
    hide SchedOk, UserOk, Pings;
  }

  /** The only user a line makes is its own, with both counters at nothing. */
  lemma {:induction false} LineUsers(c: nat, t: Turn, now: nat, tokens: seq<string>, env: Env)
    requires tokens != []
    ensures var users := OnLine(c, t, now, tokens, env).users;
      || users == t.users
      || (c in users && users[c].idleTime == 0 && users[c].joinTime == 0 && users == t.users[c := users[c]])
  {
    hide Add, Cancel, Finish, HandleRequest, OnPong;
    OnLineShape(c, t, now, tokens, env);
    RequestUsers(c, t, tokens);
    MiddleUsers(c, t, now, tokens);
    FinishUsers(c, Middle(c, t, now, tokens), now, tokens);
    hide OnLine, Middle;
  }

  lemma {:induction false} RequestUsers(c: nat, t: Turn, tokens: seq<string>)
    ensures HandleRequest(c, t, tokens).users == t.users
  {}

  lemma {:induction false} FinishUsers(c: nat, t: Turn, now: nat, tokens: seq<string>)
    ensures Finish(c, t, now, tokens).users == t.users
  {
    hide Add, Cancel, HandleRequest;
    RequestUsers(c, StartPing(c, t, now).(sched := Cancel(StartPing(c, t, now).sched, t.client.eventId)), tokens);
  }

  lemma {:induction false} MiddleUsers(c: nat, t: Turn, now: nat, tokens: seq<string>)
    requires tokens != []
    ensures var users := Middle(c, t, now, tokens).users;
      || users == t.users
      || (c in users && users[c].idleTime == 0 && users[c].joinTime == 0 && users == t.users[c := users[c]])
  {
    hide Add, Cancel;
  }

  lemma {:induction false} FireCounters(w: World, a: Action, id: nat, u: nat)
    ensures var (idle, join) := Counters(w, u);
      Counters(Fire(w, a, id), u)
        == (if u in w.users && a == AddEventIdle(u) then idle + 1 else idle,
            if u in w.users && a == AddEventJoin(u) then join + 1 else join)
  {}

  /** A step counts for u exactly when it fires a timer of u. */
  lemma {:induction false} StepCounters(w: World, step: Step, u: nat)
    requires WorldOk(w) && Enabled(w, step) && w.sched.id + 4 < S.ID_LIMIT && !Destroys(step, u)
    ensures var (idle, join) := Counters(w, u);
      Counters(Take(w, step), u)
        == (idle + (if Fires(w, step, AddEventIdle(u)) then 1 else 0),
            join + (if Fires(w, step, AddEventJoin(u)) then 1 else 0))
  {
    hide WorldOk, OnLine;
    match step
    case Line(_, _, _, _) => LineCounters(w, step, u);
    case Pass(now, rearm) =>
      if k :| S.LeastDue(w.sched, now) == Some(k) {
        OwnerExists(w, k);
        var a := w.sched.tasks[k].action;
        var s := S.PassOnce(w.sched, now, Callback(a, rearm));
        FireCounters(w.(clock := now, sched := s), a, s.id, u);
        hide Fire;
      }
    case _ =>
  }

  lemma {:induction false} RunCounters(w: World, steps: seq<Step>, u: nat)
    requires WorldOk(w) && EnabledRun(w, steps) && w.sched.id + 4 * |steps| < S.ID_LIMIT
    requires forall step | step in steps :: !Destroys(step, u)
    ensures var (idle, join) := Counters(w, u);
      Counters(Run(w, steps), u)
          == (idle + FiresIn(w, steps, AddEventIdle(u)), join + FiresIn(w, steps, AddEventJoin(u)))
    decreases |steps|
  {
    hide WorldOk, Take, Enabled, Counters, Fires;
    if steps != [] {
      assert steps[0] in steps && forall step | step in steps[1..] :: step in steps;
      StepOk(w, steps[0]);
      StepIds(w, steps[0]);
      StepCounters(w, steps[0], u);
      RunCounters(Take(w, steps[0]), steps[1..], u);
    }
  }

  /** In every run the idle counter of a user who is not destroyed is the number of passes that
      fired its idle timer, and the join counter that of its join timer. */
  lemma {:induction false} CountersInEveryRun(steps: seq<Step>, u: nat)
    requires EnabledRun(Empty(), steps) && 4 * |steps| < S.ID_LIMIT && u in Run(Empty(), steps).users
    requires forall step | step in steps :: !Destroys(step, u)
    ensures var y := Run(Empty(), steps).users[u];
      && y.idleTime == FiresIn(Empty(), steps, AddEventIdle(u))
      && y.joinTime == FiresIn(Empty(), steps, AddEventJoin(u))
  {
    EmptyOk();
    RunCounters(Empty(), steps, u);
    hide FiresIn, Run, EnabledRun;
  }

  /** A timer that has fired is on record again, due in one second. */
  lemma {:induction false} NextTick(w: World, step: Step, u: nat, join: bool)
    requires WorldOk(w) && Enabled(w, step) && w.sched.id + 4 < S.ID_LIMIT
    requires Fires(w, step, if join then AddEventJoin(u) else AddEventIdle(u))
    ensures u in Take(w, step).users
    ensures var w' := Take(w, step); var id := if join then w'.users[u].joinEvent else w'.users[u].idleEvent;
      && id in w'.sched.tasks
      && w'.sched.tasks[id] == S.Task(step.now + 1, false, if join then AddEventJoin(u) else AddEventIdle(u))
  {
    hide WorldOk, Add;
    var k := S.LeastDue(w.sched, step.now).value;
    var a := w.sched.tasks[k].action;
    OwnerExists(w, k);
    NextIdFree(w);
    OneOp(w.sched, step.now, Callback(a, step.rearm));
    AddShape(w.sched, step.now, 1, a);
    IssuedBefore(w, k);
  }

  lemma {:induction false} IssuedBefore(w: World, k: nat)
    requires WorldOk(w) && k in w.sched.tasks
    ensures k <= w.sched.id
  {
    assert TaskOk(w.sched, k, w.clients.Keys, w.users.Keys);
  }
}
