/** When the events that a line adds to the scheduler are due: a first ping at once, a ping
    after an accepted answer in two minutes, a close timer in 40 seconds before registration
    and in two minutes after it. */
module SessionDelays {
  import S = Scheduler
  import opened Session
  import opened SessionInvariant
  import opened SessionRuns
  import opened SessionTraces

  predicate IsDueAfter(e: S.Task<Action>, now: nat, ping: nat, close: nat) {
    match e.action
    case SendPing(_) => e.when == now + ping
    case CloseConnection(_) => e.when == now + close
    case _ => e.when == now + 1
  }

  predicate DueAt(s: Sched, s': Sched, k: nat, now: nat, ping: nat, close: nat) {
    k in s'.tasks ==> (k in s.tasks && s'.tasks[k] == s.tasks[k]) || IsDueAfter(s'.tasks[k], now, ping, close)
  }

  /** Every entry that s does not have is due after the delay of its kind. */
  ghost predicate NewAreDue(s: Sched, s': Sched, now: nat, ping: nat, close: nat) {
    forall k: nat :: DueAt(s, s', k, now, ping, close)
  }

  lemma {:induction false} NewAreDueThen(a: Sched, b: Sched, d: Sched, now: nat, ping: nat, close: nat)
    requires NewAreDue(a, b, now, ping, close) && NewAreDue(b, d, now, ping, close)
    ensures NewAreDue(a, d, now, ping, close)
  {
    forall k: nat ensures DueAt(a, d, k, now, ping, close) {
      assert DueAt(a, b, k, now, ping, close) && DueAt(b, d, k, now, ping, close);
    }
  }

  lemma {:induction false} AddDue(s: Sched, now: nat, delay: nat, a: Action, ping: nat, close: nat)
    requires IsDueAfter(S.Task(now + delay, false, a), now, ping, close)
    ensures NewAreDue(s, Add(s, now, delay, a), now, ping, close)
  {}

  lemma {:induction false} CancelDue(s: Sched, k: nat, now: nat, ping: nat, close: nat)
    ensures NewAreDue(s, Cancel(s, k), now, ping, close)
  {}

  lemma {:induction false} EnsureUserDue(c: nat, t: Turn, now: nat, ping: nat, close: nat)
    ensures NewAreDue(t.sched, EnsureUser(c, t, now).sched, now, ping, close)
  {
    var s1 := Add(t.sched, now, 1, AddEventIdle(c));
    AddDue(t.sched, now, 1, AddEventIdle(c), ping, close);
    AddDue(s1, now, 1, AddEventJoin(c), ping, close);
    hide Add;
    NewAreDueThen(t.sched, s1, Add(s1, now, 1, AddEventJoin(c)), now, ping, close);
  }

  lemma {:induction false} PongDue(c: nat, t: Turn, now: nat, token: string, ping: nat, close: nat)
    requires IsAwaitedPong(token) && t.client.lastPong != 120 ==> ping == 120
    requires !(IsAwaitedPong(token) && t.client.lastPong != 120) ==> close == 120
    ensures NewAreDue(t.sched, OnPong(c, t, now, token).sched, now, ping, close)
  {
    if IsAwaitedPong(token) && t.client.lastPong != 120 {
      var s := Add(t.sched, now, 120, SendPing(c));
      AddDue(t.sched, now, 120, SendPing(c), ping, close);
      CancelDue(s, t.client.eventId, now, ping, close);
      NewAreDueThen(t.sched, s, Cancel(s, t.client.eventId), now, ping, close);
    } else {
      AddDue(t.sched, now, 120, CloseConnection(c), ping, close);
    }
    hide Add, Cancel, NewAreDue;
  }

  lemma {:induction false} FinishDue(c: nat, t: Turn, now: nat, tokens: seq<string>, ping: nat, close: nat)
    requires t.client.pongEvent == 0 ==> ping == 0
    ensures NewAreDue(t.sched, Finish(c, t, now, tokens).sched, now, ping, close)
  {
    assert NewAreDue(t.sched, t.sched, now, ping, close);
    if t.client.sentUser && t.client.sentNick {
      if t.client.pongEvent == 0 { AddDue(t.sched, now, 0, SendPing(c), ping, close); }
      var s1 := StartPing(c, t, now).sched;
      var s2 := Cancel(s1, StartPing(c, t, now).client.eventId);
      CancelDue(s1, StartPing(c, t, now).client.eventId, now, ping, close);
      hide Add, Cancel, NewAreDue;
      NewAreDueThen(t.sched, s1, s2, now, ping, close);
    }
  }

  /** A ping is due at once when registration is complete and two minutes after an accepted
      answer; a close timer after forty seconds before registration, and after two minutes for
      a refused answer; everything else after one second. */
  lemma {:induction false} LineDelays(c: nat, t: Turn, now: nat, tokens: seq<string>, env: Env)
    requires ClientOk(t.sched, c, t.client) && tokens != []
    ensures NewAreDue(t.sched, OnLine(c, t, now, tokens, env).sched, now,
                      if Accepts(t.client, tokens) then 120 else 0,
                      if t.client.sentUser && t.client.sentNick then 120 else 40)
  {
    var x := t.client;
    var ping, close := if Accepts(x, tokens) then 120 else 0, if x.sentUser && x.sentNick then 120 else 40;
    assert NewAreDue(t.sched, t.sched, now, ping, close);
    OnLineShape(c, t, now, tokens, env);
    RequestKeeps(c, t, tokens);
    if (tokens[0] == "PONG" ==> x.sentUser && x.sentNick) {
      MiddleDue(c, t, now, tokens, ping, close);
      var m := Middle(c, t, now, tokens);
      FinishDue(c, m, now, tokens, ping, close);
      NewAreDueThen(t.sched, m.sched, Finish(c, m, now, tokens).sched, now, ping, close);
    }
    hide OnLine, Finish, HandleRequest, Middle, NewAreDue, MidOk;
  }

  lemma {:induction false} MiddleDue(c: nat, t: Turn, now: nat, tokens: seq<string>, ping: nat, close: nat)
    requires ClientOk(t.sched, c, t.client) && tokens != []
        && (tokens[0] == "PONG" ==> t.client.sentUser && t.client.sentNick)
    requires ping == if Accepts(t.client, tokens) then 120 else 0
    requires close == if t.client.sentUser && t.client.sentNick then 120 else 40
    ensures var t' := Middle(c, t, now, tokens);
      NewAreDue(t.sched, t'.sched, now, ping, close) && (t'.client.pongEvent == 0 ==> ping == 0)
  {
    assert NewAreDue(t.sched, t.sched, now, ping, close);
    EnsureUserDue(c, t, now, ping, close);
    EnsureUserEvents(c, t, now);
    if tokens[0] == "PONG" && |tokens| > 1 { PongDue(c, t, now, tokens[1], ping, close); }
    if close == 40 { AddDue(t.sched, now, 40, CloseConnection(c), ping, close); }
    hide NewAreDue, EnsureUser, Add, Cancel, PingsOk, TimerOk;
  }
}
