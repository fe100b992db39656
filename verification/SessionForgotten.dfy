/** Exactly when a close timer is forgotten: still pending, but no longer on record. */
module SessionForgotten {
  import opened Auxiliar
  import S = Scheduler
  import opened Session
  import opened SessionInvariant
  import opened SessionRuns
  import opened SessionTraces
  import opened SessionTimers
  import opened SessionSilence

  /** The line puts a close timer on record: the warning, or a refused answer. */
  predicate SetsTimer(x: Client, tokens: seq<string>) {
    && tokens != [] && tokens[0] != "USER" && tokens[0] != "NICK"
    && if tokens[0] == "PONG" then x.sentUser && x.sentNick && Refused(x, tokens)
       else Warns(x)
  }

  /** ... while the one on record is pending. */
  predicate StepForgets(w: World, step: Step, c: nat) {
    && step.Line? && step.c == c && c in w.clients
    && SetsTimer(w.clients[c], step.tokens) && w.clients[c].eventId in Timers(w.sched, c)
  }

  ghost predicate RunForgets(w: World, steps: seq<Step>, c: nat)
    requires EnabledRun(w, steps)
    decreases |steps|
  {
    steps != [] && (StepForgets(w, steps[0], c) || RunForgets(Take(w, steps[0]), steps[1..], c))
  }

  // ----- one line -----

  /** What the middle of a line makes of the timer on record and the others. */
  predicate RecordMoved(c: nat, t: Turn, m: Turn, sets: bool) {
    var x, before, after := t.client, Timers(t.sched, c), Timers(m.sched, c);
    && Ready(m.sched)
    && (x.reply ==> m.client.reply) && (m.client.reply ==> m.client.sentUser && m.client.sentNick)
    && (if sets then m.client.eventId !in before && after == before + {m.client.eventId}
        else m.client.eventId == x.eventId && after - {x.eventId} == before - {x.eventId})
  }

  lemma {:induction false} RegistrationRecord(c: nat, t: Turn, now: nat, tokens: seq<string>)
    requires t.sched.id + 4 < S.ID_LIMIT && IdsIssued(t.sched) && tokens != [] && tokens[0] in ["USER", "NICK"]
    requires t.client.reply ==> t.client.sentUser && t.client.sentNick
    ensures RecordMoved(c, t, Middle(c, t, now, tokens), false)
  {
    hide Timers, Ready, Middle;
    RegistrationTimers(c, t, now, tokens);
  }

  lemma {:induction false} AnswerRecord(c: nat, t: Turn, now: nat, tokens: seq<string>)
    requires t.sched.id + 4 < S.ID_LIMIT && IdsIssued(t.sched) && tokens != [] && tokens[0] == "PONG"
    requires t.client.sentUser && t.client.sentNick
    ensures RecordMoved(c, t, Middle(c, t, now, tokens), Refused(t.client, tokens))
  {
    hide Timers, Ready, Middle, Accepts;
    AnswerTimers(c, t, now, tokens);
  }

  lemma {:induction false} OtherRecord(c: nat, t: Turn, now: nat, tokens: seq<string>)
    requires t.sched.id + 4 < S.ID_LIMIT && IdsIssued(t.sched) && tokens != []
    requires tokens[0] !in ["USER", "NICK", "PONG"] && (t.client.reply ==> t.client.sentUser && t.client.sentNick)
    ensures RecordMoved(c, t, Middle(c, t, now, tokens), Warns(t.client))
  {
    hide Timers, Ready, Middle, Warns;
    OtherTimers(c, t, now, tokens);
  }

  lemma {:induction false} MiddleRecord(c: nat, t: Turn, now: nat, tokens: seq<string>)
    requires ClientOk(t.sched, c, t.client) && t.sched.id + 4 < S.ID_LIMIT && tokens != [] && IdsIssued(t.sched)
    requires tokens[0] == "PONG" ==> t.client.sentUser && t.client.sentNick
    ensures RecordMoved(c, t, Middle(c, t, now, tokens), SetsTimer(t.client, tokens))
  {
    hide ClientOk, Middle, RecordMoved, Refused, Warns;
    RegisteredBy(t.sched, c, t.client);
    if tokens[0] in ["USER", "NICK"] {
      RegistrationRecord(c, t, now, tokens);
    } else if tokens[0] == "PONG" {
      AnswerRecord(c, t, now, tokens);
    } else {
      OtherRecord(c, t, now, tokens);
    }
  }

  lemma {:induction false} FinishRecord(c: nat, t: Turn, now: nat, tokens: seq<string>)
    requires t.sched.id + 1 < S.ID_LIMIT && IdsIssued(t.sched)
    requires t.client.reply ==> t.client.sentUser && t.client.sentNick
    ensures var t' := Finish(c, t, now, tokens); var e := t.client.eventId;
      && t'.client.eventId == e && t'.client.reply == t.client.reply
      && Timers(t'.sched, c) - {e} == Timers(t.sched, c) - {e}
      && (t'.client.reply ==> e !in Timers(t'.sched, c))
  {
    hide Finish, Timers, StartPing, Cancel, IdsIssued;
    FinishSched(c, t, now, tokens);
    StartPingTimers(c, t, now);
    CancelTimers(StartPing(c, t, now).sched, t.client.eventId, c);
  }

  /** What a line does to the timer on record and to the others. */
  lemma {:induction false} LineRecord(c: nat, t: Turn, now: nat, tokens: seq<string>, env: Env, cs: set<nat>)
    requires TurnOk(c, t, cs) && ClientOk(t.sched, c, t.client) && t.sched.id + 4 < S.ID_LIMIT && tokens != []
    ensures var x, t' := t.client, OnLine(c, t, now, tokens, env);
      var before, after := Timers(t.sched, c), Timers(t'.sched, c);
      && (if SetsTimer(x, tokens) then t'.client.eventId !in before && after - {t'.client.eventId} == before
          else t'.client.eventId == x.eventId && after - {x.eventId} == before - {x.eventId})
      && ((x.reply ==> x.eventId !in before) && t'.client.reply ==> t'.client.eventId !in after)
  {
    hide OnLine, Timers, Finish, HandleRequest, Middle, MidOk, SchedOk, IdsIssued;
    AllIssued(t.sched, cs, t.users.Keys);
    OnLineShape(c, t, now, tokens, env);
    RequestKeeps(c, t, tokens);
    if tokens[0] == "PONG" ==> t.client.sentUser && t.client.sentNick {
      MiddleRecord(c, t, now, tokens);
      FinishRecord(c, Middle(c, t, now, tokens), now, tokens);
    }
  }

  // ----- over runs -----

  /** No close timer of c is pending but the one on record. */
  predicate OnRecord(w: World, c: nat) {
    c in w.clients ==> Timers(w.sched, c) <= {w.clients[c].eventId}
  }

  /** While an answer stands, not even that one is. */
  predicate ClearWhileAnswered(w: World, c: nat) {
    c in w.clients && w.clients[c].reply ==> w.clients[c].eventId !in Timers(w.sched, c)
  }

  lemma {:induction false} RecordArithmetic(before: set<nat>, after: set<nat>, e: nat, e': nat)
    ensures e' !in before && after - {e'} == before ==> (after <= {e'} <==> before <= {e} && e !in before)
    ensures after - {e} == before - {e} ==> (after <= {e} <==> before <= {e})
  {
    if e' !in before && after - {e'} == before {
      assert before == {} <==> before <= {e} && e !in before;
      assert after <= {e'} <==> after - {e'} == {};
    }
    assert after <= {e} <==> after - {e} == {};
    assert before <= {e} <==> before - {e} == {};
  }

  /** What a step changes for c. */
  ghost predicate RecordKept(w: World, w': World, step: Step, c: nat) {
    && (IsOpen(w', c) ==> (OnRecord(w', c) <==> OnRecord(w, c) && !StepForgets(w, step, c)))
    && (ClearWhileAnswered(w, c) ==> ClearWhileAnswered(w', c))
  }

  lemma {:induction false} OwnLineRecord(w: World, step: Step)
    requires WorldOk(w) && step.Line? && Enabled(w, step) && w.sched.id + 4 < S.ID_LIMIT
    ensures RecordKept(w, Take(w, step), step, step.c)
  {
    hide OnLine, Timers, ClientOk, UserOk, SchedOk, SetsTimer;
    var c, t := step.c, Turn(w.clients[step.c], w.users, w.sched, []);
    assert ClientOk(w.sched, c, w.clients[c]);
    assert TurnOk(c, t, w.clients.Keys) by { MidOfClient(w, c); }
    LineRecord(c, t, step.now, step.tokens, step.env, w.clients.Keys);
    var t' := OnLine(c, t, step.now, step.tokens, step.env);
    RecordArithmetic(Timers(w.sched, c), Timers(t'.sched, c), w.clients[c].eventId, t'.client.eventId);
  }

  lemma {:induction false} MidOfClient(w: World, c: nat)
    requires WorldOk(w) && c in w.clients
    ensures TurnOk(c, Turn(w.clients[c], w.users, w.sched, []), w.clients.Keys)
  {
    hide SchedOk, UserOk, Pings;
  }

  lemma {:induction false} OtherLineRecord(w: World, step: Step, c: nat)
    requires WorldOk(w) && step.Line? && Enabled(w, step) && w.sched.id + 4 < S.ID_LIMIT && c != step.c
    ensures RecordKept(w, Take(w, step), step, c)
  {
    hide OnLine, Timers, ClientOk, UserOk, SchedOk;
    var t := Turn(w.clients[step.c], w.users, w.sched, []);
    MidOfClient(w, step.c);
    LineOk(step.c, t, step.now, step.tokens, step.env, w.clients.Keys);
    var w' := Take(w, step);
    var made := !t.client.hasUser && w'.clients[step.c].hasUser;
    OthersTimers(w.sched, w'.sched, step.c, made, c, w.clients.Keys, w.users.Keys);
  }

  lemma {:induction false} FireRecord(w: World, a: Action, id: nat, c: nat)
    requires c in w.clients
    ensures var w' := Fire(w, a, id);
      && c in w'.clients && w'.sched == w.sched && w'.clients[c].eventId == w.clients[c].eventId
      && (w'.clients[c].reply ==> w.clients[c].reply) && (a == CloseConnection(c) ==> !w'.clients[c].open)
  {}

  lemma {:induction false} PassRecord(w: World, step: Step, c: nat)
    requires WorldOk(w) && step.Pass? && Enabled(w, step) && w.sched.id + 4 < S.ID_LIMIT && c in w.clients
    ensures RecordKept(w, Take(w, step), step, c)
  {
    WorldIssued(w);
    if k :| S.LeastDue(w.sched, step.now) == Some(k) {
      var a := w.sched.tasks[k].action;
      var s := Without(S.ApplyAll(w.sched, step.now, Callback(a, step.rearm)), k);
      assert k in Timers(w.sched, c) <==> a == CloseConnection(c);
      hide Timers, WorldOk, Fire, Callback;
      FireRecord(w.(clock := step.now, sched := s), a, s.id, c);
      PassTimers(w.sched, step.now, k, step.rearm, c);
    }
  }

  lemma {:induction false} UserEventsAreNoTimers(w: World, u: nat, c: nat)
    requires WorldOk(w) && u in w.users
    ensures w.users[u].idleEvent !in Timers(w.sched, c) && w.users[u].joinEvent !in Timers(w.sched, c)
  {
    hide SchedOk, ClientOk;
    assert UserOk(w.sched, u, w.users[u], w.clock);
  }

  lemma {:induction false} DestroyKeepsTimers(w: World, step: Step, c: nat)
    requires WorldOk(w) && Enabled(w, step) && step.DestroyUser?
    ensures Timers(Take(w, step).sched, c) == Timers(w.sched, c)
  {
    hide WorldOk, Timers, Cancel, IdsIssued;
    var y := w.users[step.u];
    WorldIssued(w);
    UserEventsAreNoTimers(w, step.u, c);
    CancelTimers(w.sched, y.idleEvent, c);
    CancelTimers(Cancel(w.sched, y.idleEvent), y.joinEvent, c);
  }

  lemma {:induction false} QuietRecord(w: World, step: Step, c: nat)
    requires WorldOk(w) && Enabled(w, step) && w.sched.id + 4 < S.ID_LIMIT && !step.Line? && !step.Pass?
        && c in w.clients
    ensures RecordKept(w, Take(w, step), step, c)
  {
    hide Timers, WorldOk, Add, Cancel, IdsIssued;
    if step.AddElsewhere? {
      WorldIssued(w);
      AddTimers(w.sched, step.now, step.delay, Elsewhere, c);
    } else if step.DestroyUser? {
      DestroyKeepsTimers(w, step, c);
    }
  }

  lemma {:induction false} StepRecord(w: World, step: Step, c: nat)
    requires WorldOk(w) && Enabled(w, step) && w.sched.id + 4 < S.ID_LIMIT
    ensures RecordKept(w, Take(w, step), step, c)
  {
    if step.Line? {
      if step.c == c { OwnLineRecord(w, step); } else { OtherLineRecord(w, step, c); }
    } else if c in w.clients {
      if step.Pass? { PassRecord(w, step, c); } else { QuietRecord(w, step, c); }
    } else {
      NewRecord(w, step, c);
    }
  }

  lemma {:induction false} NewRecord(w: World, step: Step, c: nat)
    requires WorldOk(w) && Enabled(w, step) && !step.Line? && c !in w.clients
    ensures RecordKept(w, Take(w, step), step, c)
  {
    NoTimersYet(w, c);
    hide WorldOk, Timers;
    match step
    case Pass(now, rearm) =>
      if k :| S.LeastDue(w.sched, now) == Some(k) {
        var a := w.sched.tasks[k].action;
        var s := S.PassOnce(w.sched, now, Callback(a, rearm));
        FireListens(w.(clock := now, sched := s), a, s.id, c);
        hide Fire;
      }
    case _ =>
  }

  lemma {:induction false} RunRecord(w: World, steps: seq<Step>, c: nat)
    requires WorldOk(w) && EnabledRun(w, steps) && w.sched.id + 4 * |steps| < S.ID_LIMIT
    ensures var w' := Run(w, steps);
      && (IsOpen(w', c) ==> (OnRecord(w', c) <==> OnRecord(w, c) && !RunForgets(w, steps, c)))
      && (ClearWhileAnswered(w, c) ==> ClearWhileAnswered(w', c))
    decreases |steps|
  {
    if steps != [] {
      var w1 := Take(w, steps[0]);
      StepOk(w, steps[0]);
      StepIds(w, steps[0]);
      StepRecord(w, steps[0], c);
      StepListens(w, steps[0], c);
      RunRecord(w1, steps[1..], c);
      RunListens(w1, steps[1..], c);
      hide Take, Enabled, StepForgets, WorldOk, OnRecord, ClearWhileAnswered;
      if c !in w1.clients { NotYetOnRecord(w, w1, steps[0], c); }
    }
  }

  lemma {:induction false} NotYetOnRecord(w: World, w1: World, step: Step, c: nat)
    requires c !in w1.clients && (c in w.clients ==> c in w1.clients)
    ensures OnRecord(w, c) && OnRecord(w1, c) && !StepForgets(w, step, c)
  {}

  /** In every run an open connection has no close timer pending but the one on record exactly
      when no line of it put a timer on record while the one before was pending. */
  lemma {:induction false} ForgottenInEveryRun(steps: seq<Step>, c: nat)
    requires EnabledRun(Empty(), steps) && 4 * |steps| < S.ID_LIMIT && IsOpen(Run(Empty(), steps), c)
    ensures var w := Run(Empty(), steps);
      Timers(w.sched, c) <= {w.clients[c].eventId} <==> !RunForgets(Empty(), steps, c)
  {
    EmptyOk();
    RunRecord(Empty(), steps, c);
    hide RunForgets, Run, EnabledRun, Timers;
  }

  /** And so while an answer stands nothing is about to close the connection exactly then. */
  lemma {:induction false} SafeWhileAnswered(steps: seq<Step>, c: nat)
    requires EnabledRun(Empty(), steps) && 4 * |steps| < S.ID_LIMIT && IsOpen(Run(Empty(), steps), c)
    requires Run(Empty(), steps).clients[c].reply
    ensures Timers(Run(Empty(), steps).sched, c) == {} <==> !RunForgets(Empty(), steps, c)
  {
    EmptyOk();
    RunRecord(Empty(), steps, c);
    hide RunForgets, Run, EnabledRun, Timers;
  }
}
