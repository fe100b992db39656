/** The server only moves the scheduler by the scheduler's own steps, so what holds of every
    run of the scheduler holds of the server's events, and one of them that is due does not
    wait for ever. */
module SessionSchedule {
  import opened Auxiliar
  import S = Scheduler
  import opened Session
  import opened SessionInvariant
  import opened SessionRuns

  type Op = S.Op<Action>
  type Log = S.Log<Action>

  // ----- a line as operations -----

  lemma {:induction false} ApplyAllConcat(s: Sched, now: nat, a: seq<Op>, b: seq<Op>)
    ensures S.ApplyAll(s, now, a + b) == S.ApplyAll(S.ApplyAll(s, now, a), now, b)
    decreases |a|
  {
    if a == [] {
      assert a + b == b;
    } else {
      assert (a + b)[1..] == a[1..] + b;
      ApplyAllConcat(S.Apply(s, now, a[0]), now, a[1..], b);
    }
  }

  /** Events are added and cancelled only, and at most n are added. */
  ghost predicate Amounts(s: Sched, s': Sched, now: nat, ops: seq<Op>, n: nat) {
    && S.ApplyAll(s, now, ops) == s'
    && S.Adds(ops) <= n && S.Unnamed(ops) == 0 && S.Stop !in ops
  }

  lemma {:induction false} AmountsThen(a: Sched, b: Sched, c: Sched, now: nat, x: seq<Op>, m: nat, y: seq<Op>, n: nat)
    requires Amounts(a, b, now, x, m) && Amounts(b, c, now, y, n)
    ensures Amounts(a, c, now, x + y, m + n)
  {
    ApplyAllConcat(a, now, x, y);
    Counts(x, y);
  }

  lemma {:induction false} Counts(x: seq<Op>, y: seq<Op>)
    ensures S.Adds(x + y) == S.Adds(x) + S.Adds(y) && S.Unnamed(x + y) == S.Unnamed(x) + S.Unnamed(y)
    decreases |x|
  {
    if x == [] {
      assert x + y == y;
    } else {
      assert (x + y)[1..] == x[1..] + y;
      Counts(x[1..], y);
    }
  }

  lemma {:induction false} NoOps(s: Sched, now: nat)
    ensures Amounts(s, s, now, [], 0)
  {}

  lemma {:induction false} OneAdd(s: Sched, now: nat, delay: nat, a: Action)
    ensures Amounts(s, Add(s, now, delay, a), now, [S.AddEvent(delay, a)], 1)
  {
    OneOp(s, now, [S.AddEvent(delay, a)]);
    assert [S.AddEvent(delay, a)][1..] == [];
  }

  lemma {:induction false} OneCancel(s: Sched, now: nat, k: nat)
    ensures Amounts(s, Cancel(s, k), now, [S.StopEvent(k)], 0)
  {
    var op: Op := S.StopEvent(k);
    OneOp(s, now, [op]);
    assert [op][1..] == [];
  }

  lemma {:induction false} EnsureUserOps(c: nat, t: Turn, now: nat) returns (ops: seq<Op>)
    ensures Amounts(t.sched, EnsureUser(c, t, now).sched, now, ops, 2)
  {
    if t.client.hasUser {
      NoOps(t.sched, now);
      ops := [];
    } else {
      var s1 := Add(t.sched, now, 1, AddEventIdle(c));
      OneAdd(t.sched, now, 1, AddEventIdle(c));
      OneAdd(s1, now, 1, AddEventJoin(c));
      ops := [S.AddEvent(1, AddEventIdle(c))] + [S.AddEvent(1, AddEventJoin(c))];
      hide Add, Amounts;
      AmountsThen(t.sched, s1, Add(s1, now, 1, AddEventJoin(c)), now,
                  [S.AddEvent(1, AddEventIdle(c))], 1, [S.AddEvent(1, AddEventJoin(c))], 1);
    }
  }

  lemma {:induction false} PongOps(c: nat, t: Turn, now: nat, token: string) returns (ops: seq<Op>)
    ensures Amounts(t.sched, OnPong(c, t, now, token).sched, now, ops, 1)
  {
    if IsAwaitedPong(token) && t.client.lastPong != 120 {
      var s := Add(t.sched, now, 120, SendPing(c));
      OneAdd(t.sched, now, 120, SendPing(c));
      ops := [S.AddEvent(120, SendPing(c))];
      if t.client.eventId != 0 {
        OneCancel(s, now, t.client.eventId);
        AmountsThen(t.sched, s, Cancel(s, t.client.eventId), now, ops, 1, [S.StopEvent(t.client.eventId)], 0);
        ops := ops + [S.StopEvent(t.client.eventId)];
      }
    } else {
      OneAdd(t.sched, now, 120, CloseConnection(c));
      ops := [S.AddEvent(120, CloseConnection(c))];
    }
    hide Add, Cancel, Amounts;
  }

  lemma {:induction false} FinishOps(c: nat, t: Turn, now: nat, tokens: seq<string>) returns (ops: seq<Op>)
    ensures Amounts(t.sched, Finish(c, t, now, tokens).sched, now, ops, 1)
  {
    NoOps(t.sched, now);
    ops := [];
    if t.client.sentUser && t.client.sentNick {
      var t1 := StartPing(c, t, now);
      if t.client.pongEvent == 0 {
        OneAdd(t.sched, now, 0, SendPing(c));
        ops := [S.AddEvent(0, SendPing(c))];
      }
      assert Amounts(t.sched, t1.sched, now, ops, 1);
      if t1.client.reply {
        hide Amounts, Add, Cancel, StartPing;
        var last := LetThrough(c, t1, tokens).sched;
        RequestKeeps(c, t1.(sched := Cancel(t1.sched, t1.client.eventId)), tokens);
        assert last == Cancel(t1.sched, t1.client.eventId);
        OneCancel(t1.sched, now, t1.client.eventId);
        AmountsThen(t.sched, t1.sched, last, now, ops, 1, [S.StopEvent(t1.client.eventId)], 0);
        ops := ops + [S.StopEvent(t1.client.eventId)];
      }
    }
  }

  lemma {:induction false} LineOps(c: nat, t: Turn, now: nat, tokens: seq<string>, env: Env) returns (ops: seq<Op>)
    requires tokens != []
    ensures Amounts(t.sched, OnLine(c, t, now, tokens, env).sched, now, ops, 4)
  {
    hide Finish, EnsureUser, OnPong, HandleRequest, Add;
    var none: seq<Op> := [];
    NoOps(t.sched, now);
    var t' := OnLine(c, t, now, tokens, env);
    var middle, first := t, none;
    var n: nat := 0;
    if tokens[0] == "USER" || tokens[0] == "NICK" {
      first := EnsureUserOps(c, t, now);
      n := 2;
      middle := EnsureUser(c, t, now);
      middle := middle.(client := if tokens[0] == "USER" then middle.client.(sentUser := true)
          else middle.client.(sentNick := true));
    } else if tokens[0] == "PONG" {
      if |tokens| > 1 {
        first := PongOps(c, t, now, tokens[1]);
        n := 1;
        middle := OnPong(c, t, now, tokens[1]);
      }
    } else if (!t.client.sentUser || !t.client.hasUser) && !t.client.closed {
      OneAdd(t.sched, now, 40, CloseConnection(c));
      first := [S.AddEvent(40, CloseConnection(c))];
      n := 1;
      var s := Add(t.sched, now, 40, CloseConnection(c));
      middle := t.(client := t.client.(eventId := s.id, closed := true), sched := s);
    }
    assert Amounts(t.sched, middle.sched, now, first, n);
    if t' == Finish(c, middle, now, tokens) {
      var rest := FinishOps(c, middle, now, tokens);
      AmountsThen(t.sched, middle.sched, t'.sched, now, first, n, rest, 1);
      ops := first + rest;
    } else {
      RequestKeeps(c, t, tokens);
      ops := [];
    }
  }

  // ----- a run as a run of the scheduler -----

  function OutsideAll(now: nat, ops: seq<Op>): seq<S.Step<Action>> {
    if ops == [] then [] else [S.Outside(now, ops[0])] + OutsideAll(now, ops[1..])
  }

  /** The scheduler goes from l to l' by these steps, p of them passes, with at most n events added. */
  ghost predicate Schedules(l: Log, l': Log, ss: seq<S.Step<Action>>, p: nat, n: nat) {
    && S.AllowedRun(l, ss) && S.Run(l, ss) == l'
    && S.PassesIn(ss) == p && S.UnnamedIn(ss) == 0 && S.AddsIn(ss) <= n
  }

  lemma {:induction false} SchedulesThen(a: Log, b: Log, c: Log, x: seq<S.Step<Action>>, p: nat, m: nat,
                                         y: seq<S.Step<Action>>, q: nat, n: nat)
    requires Schedules(a, b, x, p, m) && Schedules(b, c, y, q, n)
    ensures Schedules(a, c, x + y, p + q, m + n)
    decreases |x|
  {
    if x == [] {
      assert x + y == y;
    } else {
      assert (x + y)[1..] == x[1..] + y;
      var first := if x[0].Pass? then 1 else 0;
      var adds := S.Adds(S.Ops(x[0]));
      SchedulesThen(S.Take(a, x[0]), b, c, x[1..], p - first, m - adds, y, q, n);
    }
  }

  lemma {:induction false} OutsideSchedules(l: Log, now: nat, ops: seq<Op>) returns (l': Log)
    requires l.clock <= now && S.Unnamed(ops) == 0
    ensures Schedules(l, l', OutsideAll(now, ops), 0, S.Adds(ops))
    ensures l'.s == S.ApplyAll(l.s, now, ops) && l'.clock <= now
    decreases |ops|
  {
    if ops == [] {
      l' := l;
    } else {
      var step := S.Outside(now, ops[0]);
      var l1 := S.Take(l, step);
      l' := OutsideSchedules(l1, now, ops[1..]);
      var ss := OutsideAll(now, ops);
      assert ss[1..] == OutsideAll(now, ops[1..]) && ss[0] == step && S.Ops(step) == [ops[0]];
      assert [ops[0]][1..] == [];
      assert S.Adds(S.Ops(step)) == if ops[0].AddEvent? then 1 else 0;
      assert S.Unnamed(S.Ops(step)) == if ops[0].AddTask? then 1 else 0;
    }
  }

  lemma {:induction false} StaysRunning(s: Sched, now: nat, ops: seq<Op>)
    requires s.running && S.Stop !in ops
    ensures S.ApplyAll(s, now, ops).running
    decreases |ops|
  {
    if ops != [] {
      assert ops[0] in ops && forall op | op in ops[1..] :: op in ops;
      StaysRunning(S.Apply(s, now, ops[0]), now, ops[1..]);
    }
  }

  /** The record l is that of the server's scheduler. */
  ghost predicate Records(l: Log, w: World) {
    l.s == w.sched && l.clock <= w.clock && w.sched.running
  }

  function Passes(steps: seq<Step>): nat {
    if steps == [] then 0 else (if steps[0].Pass? then 1 else 0) + Passes(steps[1..])
  }

  lemma {:induction false} OpsScheduled(w: World, l: Log, now: nat, ops: seq<Op>, s: Sched)
      returns (l': Log, ss: seq<S.Step<Action>>)
    requires Records(l, w) && w.clock <= now && Amounts(w.sched, s, now, ops, 4)
    ensures Schedules(l, l', ss, 0, 4) && l'.s == s && l'.clock <= now && s.running
  {
    l' := OutsideSchedules(l, now, ops);
    ss := OutsideAll(now, ops);
    StaysRunning(w.sched, now, ops);
  }

  lemma {:induction false} PassScheduled(w: World, l: Log, now: nat, rearm: Option<nat>)
      returns (l': Log, ss: seq<S.Step<Action>>)
    requires Records(l, w) && Enabled(w, Pass(now, rearm))
    ensures Schedules(l, l', ss, 1, 4) && l'.s == Take(w, Pass(now, rearm)).sched && l'.clock <= now && l'.s.running
  {
    var ops: seq<Op> := [];
    match S.LeastDue(w.sched, now)
    case None =>
      ss := [S.Pass(now, ops)];
      l' := S.Take(l, ss[0]);
      assert ss[1..] == [] && S.Ops(ss[0]) == ops;
    case Some(k) =>
      ops := Callback(w.sched.tasks[k].action, rearm);
      OneOp(w.sched, now, ops);
      ss := [S.Pass(now, ops)];
      l' := S.Take(l, ss[0]);
      assert ss[1..] == [];
      S.TakenState(l, ss[0]);
      if ops != [] { assert ops[1..] == []; }
      assert S.Ops(ss[0]) == ops && S.Adds(ops) <= 1 && S.Unnamed(ops) == 0;
  }

  lemma {:induction false} StepScheduled(w: World, step: Step, l: Log) returns (l': Log, ss: seq<S.Step<Action>>)
    requires Records(l, w) && Enabled(w, step)
    ensures Records(l', Take(w, step)) && Schedules(l, l', ss, if step.Pass? then 1 else 0, 4)
  {
    match step
    case Line(now, c, tokens, env) =>
      var t := Turn(w.clients[c], w.users, w.sched, []);
      var ops := LineOps(c, t, now, tokens, env);
      hide OnLine;
      l', ss := OpsScheduled(w, l, now, ops, OnLine(c, t, now, tokens, env).sched);
    case Pass(now, rearm) =>
      l', ss := PassScheduled(w, l, now, rearm);
    case AddElsewhere(now, delay) =>
      OneAdd(w.sched, now, delay, Elsewhere);
      l', ss := OpsScheduled(w, l, now, [S.AddEvent(delay, Elsewhere)], Add(w.sched, now, delay, Elsewhere));
    case DestroyUser(now, u) =>
      var y := w.users[u];
      var s1 := Cancel(w.sched, y.idleEvent);
      OneCancel(w.sched, now, y.idleEvent);
      OneCancel(s1, now, y.joinEvent);
      AmountsThen(w.sched, s1, Cancel(s1, y.joinEvent), now, [S.StopEvent(y.idleEvent)], 0,
          [S.StopEvent(y.joinEvent)], 0);
      l', ss := OpsScheduled(w, l, now, [S.StopEvent(y.idleEvent)] + [S.StopEvent(y.joinEvent)],
          Cancel(s1, y.joinEvent));
    case Connect(_, _, _) => l', ss := l, [];
    case Disconnect(_, _) => l', ss := l, [];
  }

  /** Every run of the server is a run of its scheduler, pass for pass. */
  lemma {:induction false} RunScheduled(w: World, steps: seq<Step>, l: Log) returns (l': Log, ss: seq<S.Step<Action>>)
    requires Records(l, w) && EnabledRun(w, steps)
    ensures Records(l', Run(w, steps)) && Schedules(l, l', ss, Passes(steps), 4 * |steps|)
    decreases |steps|
  {
    if steps == [] {
      l', ss := l, [];
    } else {
      var l1, x := StepScheduled(w, steps[0], l);
      hide Schedules, Records, Take, Enabled;
      var y;
      l', y := RunScheduled(Take(w, steps[0]), steps[1..], l1);
      ss := x + y;
      SchedulesThen(l, l1, l', x, if steps[0].Pass? then 1 else 0, 4, y, Passes(steps[1..]), 4 * |steps[1..]|);
    }
  }

  /** A due event of the server is gone after as many passes as there were events ahead of it,
      itself included, whatever else happened meanwhile. */
  lemma {:induction false} ServerServesDueEvents(before: seq<Step>, steps: seq<Step>, k: nat)
    requires EnabledRun(Empty(), before) && EnabledRun(Run(Empty(), before), steps)
    requires 4 * (|before| + |steps|) < S.ID_LIMIT
    requires S.IsDue(Run(Empty(), before).sched, Run(Empty(), before).clock, k)
    requires Passes(steps) >= |S.Ahead(Run(Empty(), before).sched, k)|
    ensures k !in Run(Run(Empty(), before), steps).sched.tasks
  {
    var w := Run(Empty(), before);
    var l0 := S.Take(S.Fresh<Action>(), S.Start(0));
    assert forall j: nat :: S.AccountedAt(l0, j);
    var l1, xs := RunScheduled(Empty(), before, l0);
    S.RunAccounted(l0, xs);
    EmptyOk();
    RunOk(Empty(), before);
    assert TaskOk(w.sched, k, w.clients.Keys, w.users.Keys);
    RunOk(w, steps);
    var l := l1.(clock := w.clock);
    forall j: nat ensures S.AccountedAt(l, j) { assert S.AccountedAt(l1, j); }
    var l2, ys := RunScheduled(w, steps, l);
    S.DueEventsAreServed(l, ys, k);
    S.RunAccounted(l, ys);
    var w' := Run(w, steps);
    assert TaskOk(w'.sched, k, w'.clients.Keys, w'.users.Keys);
    assert S.AccountedAt(l2, k) && S.AccountedAt(l, k) && S.GrowsAt(l, l2, k);
  }
}
