/** What the end of a connection object leaves in the scheduler: events that still name it. */
module SessionRelease {
  import opened Auxiliar
  import S = Scheduler
  import opened Session
  import opened SessionInvariant
  import opened SessionRuns
  import opened SessionTraces
  import opened SessionTimers
  import opened SessionSilence
  import opened SessionForgotten

  // ----- the pings of one line -----

  lemma {:induction false} AddPings(s: Sched, now: nat, delay: nat, a: Action, c: nat)
    requires s.id + 1 < S.ID_LIMIT && IdsIssued(s)
    ensures var s' := Add(s, now, delay, a);
      && s'.id == s.id + 1 && IdsIssued(s')
      && Pings(s', c) == Pings(s, c) + (if a == SendPing(c) then {s'.id} else {})
      && (a == SendPing(c) ==> s'.id in s'.tasks && s'.tasks[s'.id] == S.Task(now + delay, false, a))
      && (forall k | k in Pings(s, c) :: k <= s.id)
  {
    AddShape(s, now, delay, a);
    var s' := Add(s, now, delay, a);
    assert forall k :: k in Pings(s', c) <==> k in Pings(s, c) || (k == s'.id && a == SendPing(c));
  }

  lemma {:induction false} CancelPings(s: Sched, k: nat, c: nat)
    requires IdsIssued(s)
    ensures var s' := Cancel(s, k); s'.id == s.id && IdsIssued(s') && Pings(s', c) == Pings(s, c) - {k}
  {}

  /** The timer on record is not a ping. */
  predicate Apart(s: Sched, c: nat, x: Client) { x.eventId <= s.id && x.eventId !in Pings(s, c) }

  /** What the middle of a line makes of the pings. */
  predicate PingsMoved(c: nat, t: Turn, m: Turn, asked: bool) {
    && Ready(m.sched) && Apart(m.sched, c, m.client) && m.client.pongEvent == t.client.pongEvent
    && t.sched.id <= m.sched.id && Pings(m.sched, c) == Pings(t.sched, c) + (if asked then {t.sched.id + 1} else {})
  }

  lemma {:induction false} RegistrationPings(c: nat, t: Turn, now: nat, tokens: seq<string>)
    requires t.sched.id + 4 < S.ID_LIMIT && IdsIssued(t.sched) && Apart(t.sched, c, t.client)
    requires tokens != [] && tokens[0] in ["USER", "NICK"]
    ensures PingsMoved(c, t, Middle(c, t, now, tokens), false)
  {
    hide Pings, IdsIssued, Add;
    AddPings(t.sched, now, 1, AddEventIdle(c), c);
    AddPings(Add(t.sched, now, 1, AddEventIdle(c)), now, 1, AddEventJoin(c), c);
  }

  lemma {:induction false} AcceptedPings(c: nat, t: Turn, now: nat, token: string)
    requires t.sched.id + 4 < S.ID_LIMIT && IdsIssued(t.sched) && Apart(t.sched, c, t.client)
    requires IsAwaitedPong(token) && t.client.lastPong != 120
    ensures PingsMoved(c, t, OnPong(c, t, now, token), true)
  {
    hide Pings, IdsIssued, Add, Cancel;
    AddPings(t.sched, now, 120, SendPing(c), c);
    CancelPings(Add(t.sched, now, 120, SendPing(c)), t.client.eventId, c);
  }

  lemma {:induction false} RefusedPings(c: nat, t: Turn, now: nat, token: string)
    requires t.sched.id + 4 < S.ID_LIMIT && IdsIssued(t.sched) && Apart(t.sched, c, t.client)
    requires !(IsAwaitedPong(token) && t.client.lastPong != 120)
    ensures PingsMoved(c, t, OnPong(c, t, now, token), false)
  {
    hide Pings, IdsIssued, Add;
    AddPings(t.sched, now, 120, CloseConnection(c), c);
  }

  lemma {:induction false} WarningPings(c: nat, t: Turn, now: nat, tokens: seq<string>)
    requires t.sched.id + 4 < S.ID_LIMIT && IdsIssued(t.sched) && Apart(t.sched, c, t.client)
    requires tokens != [] && tokens[0] !in ["USER", "NICK", "PONG"]
    ensures PingsMoved(c, t, Middle(c, t, now, tokens), false)
  {
    hide Pings, IdsIssued, Add;
    AddPings(t.sched, now, 40, CloseConnection(c), c);
  }

  lemma {:induction false} Unmoved(c: nat, t: Turn)
    requires t.sched.id + 4 < S.ID_LIMIT && IdsIssued(t.sched) && Apart(t.sched, c, t.client)
    ensures PingsMoved(c, t, t, false)
  {
    hide Pings, IdsIssued;
  }

  lemma {:induction false} MiddlePings(c: nat, t: Turn, now: nat, tokens: seq<string>)
    requires t.sched.id + 4 < S.ID_LIMIT && IdsIssued(t.sched) && Apart(t.sched, c, t.client) && tokens != []
    requires tokens[0] == "PONG" ==> t.client.sentUser && t.client.sentNick
    ensures PingsMoved(c, t, Middle(c, t, now, tokens), Accepts(t.client, tokens))
  {
    hide PingsMoved, OnPong, EnsureUser, Add;
    if tokens[0] in ["USER", "NICK"] {
      RegistrationPings(c, t, now, tokens);
    } else if tokens[0] != "PONG" {
      WarningPings(c, t, now, tokens);
    } else if Accepts(t.client, tokens) {
      AcceptedPings(c, t, now, tokens[1]);
    } else if |tokens| > 1 {
      RefusedPings(c, t, now, tokens[1]);
    } else {
      Unmoved(c, t);
    }
  }

  lemma {:induction false} FinishPings(c: nat, t: Turn, now: nat, tokens: seq<string>)
    requires Ready(t.sched) && Apart(t.sched, c, t.client)
    ensures var x, t' := t.client, Finish(c, t, now, tokens); var x' := t'.client;
      if x.sentUser && x.sentNick && x.pongEvent == 0 then
        && x'.pongEvent == t.sched.id + 1 && Pings(t'.sched, c) == Pings(t.sched, c) + {x'.pongEvent}
        && x'.pongEvent in t'.sched.tasks && t'.sched.tasks[x'.pongEvent] == S.Task(now, false, SendPing(c))
      else x'.pongEvent == x.pongEvent && Pings(t'.sched, c) == Pings(t.sched, c)
  {
    hide Finish, Pings, IdsIssued, Add;
    FinishSched(c, t, now, tokens);
    AddPings(t.sched, now, 0, SendPing(c), c);
    CancelPings(StartPing(c, t, now).sched, t.client.eventId, c);
  }

  /** A line adds a ping when it is an accepted answer or completes the registration, and takes
      none out. */
  predicate LineMoves(c: nat, t: Turn, t': Turn, now: nat, asked: bool) {
    var x, x', before, after := t.client, t'.client, Pings(t.sched, c), Pings(t'.sched, c);
    if asked then x'.pongEvent == x.pongEvent != 0 && after == before + {t.sched.id + 1}
    else if x'.pongEvent == x.pongEvent then after == before
    else
      && x.pongEvent == 0 && t.sched.id < x'.pongEvent && after == before + {x'.pongEvent}
      && x'.pongEvent in t'.sched.tasks && t'.sched.tasks[x'.pongEvent] == S.Task(now, false, SendPing(c))
  }

  lemma {:induction false} FinishMoves(c: nat, t: Turn, m: Turn, now: nat, tokens: seq<string>, asked: bool)
    requires PingsMoved(c, t, m, asked) && (asked ==> t.client.pongEvent != 0)
    ensures LineMoves(c, t, Finish(c, m, now, tokens), now, asked)
  {
    hide Finish, Pings, Apart, Ready;
    FinishPings(c, m, now, tokens);
  }

  lemma {:induction false} TurnedAway(c: nat, t: Turn, t': Turn, now: nat)
    requires t'.client.pongEvent == t.client.pongEvent && t'.sched == t.sched
    ensures LineMoves(c, t, t', now, false)
  {}

  lemma {:induction false} LinePings(c: nat, t: Turn, now: nat, tokens: seq<string>, env: Env, cs: set<nat>)
    requires TurnOk(c, t, cs) && ClientOk(t.sched, c, t.client) && t.sched.id + 4 < S.ID_LIMIT && tokens != []
    ensures LineMoves(c, t, OnLine(c, t, now, tokens, env), now, Accepts(t.client, tokens))
  {
    hide OnLine, Finish, HandleRequest, Middle, SchedOk, MidOk, ClientOk, Apart, LineMoves, PingsMoved, IdsIssued;
    var t' := OnLine(c, t, now, tokens, env);
    TimerIsNoPing(t.sched, c, t.client);
    AllIssued(t.sched, cs, t.users.Keys);
    OnLineShape(c, t, now, tokens, env);
    RequestKeeps(c, t, tokens);
    RegisteredBy(t.sched, c, t.client);
    if t' == Finish(c, Middle(c, t, now, tokens), now, tokens)
       && (tokens[0] == "PONG" ==> t.client.sentUser && t.client.sentNick) {
      MiddlePings(c, t, now, tokens);
      FinishMoves(c, t, Middle(c, t, now, tokens), now, tokens, Accepts(t.client, tokens));
    } else {
      TurnedAway(c, t, t', now);
    }
  }

  lemma {:induction false} TimerIsNoPing(s: Sched, c: nat, x: Client)
    requires ClientOk(s, c, x)
    ensures Apart(s, c, x)
  {}

  // ----- pings asked for, sent and pending -----

  function Seen(trace: seq<Event>, e: Event): nat { multiset(trace)[e] }

  lemma {:induction false} SeenMore(trace: seq<Event>, es: seq<Event>, e: Event)
    ensures Seen(trace + es, e) == Seen(trace, e) + Seen(es, e)
    ensures e !in es ==> Seen(es, e) == 0
  {}

  /** The first ping, while it is pending, is due and comes before any other. */
  ghost predicate FirstPingOk(s: Sched, c: nat, x: Client, clock: nat) {
    && x.pongEvent <= s.id
    && (x.pongEvent in s.tasks ==> s.tasks[x.pongEvent].action == SendPing(c) && s.tasks[x.pongEvent].when <= clock)
    && (forall k | k in Pings(s, c) :: x.pongEvent <= k)
  }

  /** One ping is asked for when the registration is complete and one by each accepted answer;
      each has been sent or is pending. */
  ghost predicate CountsOk(s: Sched, c: nat, x: Client, sent: nat, answered: nat) {
    && |Pings(s, c)| + sent == answered + (if x.pongEvent != 0 then 1 else 0)
    && (x.pongEvent in Pings(s, c) ==> sent == 0)
    && (answered == 0 ==> Pings(s, c) <= {x.pongEvent})
    && (x.pongEvent == 0 ==> answered == 0)
    && (x.reply ==> answered > 0)
  }

  ghost predicate LedgerOk(w: World, c: nat) {
    var sent, answered := Seen(w.trace, PingSent(c)), Seen(w.trace, PongAccepted(c));
    if c in w.clients then
      FirstPingOk(w.sched, c, w.clients[c], w.clock) && CountsOk(w.sched, c, w.clients[c], sent, answered)
    else sent == 0 && answered == 0
  }

  lemma {:induction false} SeenOfLine(c: nat, x: Client, tokens: seq<string>, d: nat)
    requires tokens != []
    ensures var es := LineEvents(c, x, tokens);
      && Seen(es, PingSent(d)) == 0
      && Seen(es, PongAccepted(d)) == if d == c && Accepts(x, tokens) then 1 else 0
  {
    hide Accepts;
    var es := LineEvents(c, x, tokens);
    EventsOf(c, x, tokens);
    if Accepts(x, tokens) {
      var rest := [Request(c, tokens)] + (if x.sentCommon then [] else [Welcome(c)]);
      assert tokens[0] != "NICK" by { AcceptedIsPong(x, tokens); }
      assert es == [PongAccepted(c)] + rest;
      SeenMore([PongAccepted(c)], rest, PongAccepted(d));
      SeenMore([PongAccepted(c)], rest, PingSent(d));
    }
  }

  lemma {:induction false} AcceptedIsPong(x: Client, tokens: seq<string>)
    requires Accepts(x, tokens)
    ensures tokens[0] == "PONG"
  {}

  lemma {:induction false} OneMorePing(a: set<nat>, k: nat)
    ensures |a + {k}| == |a| + (if k in a then 0 else 1)
  {
    if k in a { assert a + {k} == a; }
  }

  /** What a line of c makes of its ledger. */
  lemma {:induction false} CountsAfterLine(s: Sched, s': Sched, c: nat, x: Client, x': Client, accepts: bool,
                                           added: nat,
                                           sent: nat, answered: nat)
    requires CountsOk(s, c, x, sent, answered) && (x.pongEvent == 0 ==> Pings(s, c) == {})
    requires x'.reply ==> x.reply || accepts
    requires added !in Pings(s, c) && added != x.pongEvent
    requires if accepts then x'.pongEvent == x.pongEvent != 0 && Pings(s', c) == Pings(s, c) + {added}
             else if x'.pongEvent == x.pongEvent then Pings(s', c) == Pings(s, c)
             else x.pongEvent == 0 && x'.pongEvent == added && added != 0 && Pings(s', c) == Pings(s, c) + {added}
    ensures CountsOk(s', c, x', sent, if accepts then answered + 1 else answered)
  {
    hide Pings;
    OneMorePing(Pings(s, c), added);
  }

  lemma {:induction false} FirstAfterLine(s: Sched, s': Sched, c: nat, x: Client, x': Client, added: nat, clock: nat,
                                          now: nat,
                                          made: bool, cs: set<nat>, us: set<nat>)
    requires SchedOk(s, cs, us) && FirstPingOk(s, c, x, clock) && clock <= now && Evolves(s, s', c, made)
    requires Pings(s', c) == Pings(s, c) || (s.id < added && Pings(s', c) == Pings(s, c) + {added})
    requires x'.pongEvent == x.pongEvent
      || (Pings(s, c) == {} && x'.pongEvent == added && added <= s'.id
          && added in s'.tasks && s'.tasks[added] == S.Task(now, false, SendPing(c)))
    ensures FirstPingOk(s', c, x', now)
  {
    hide Pings;
    assert EvolvesAt(s, s', c, made, x.pongEvent);
  }

  lemma {:induction false} NoPingYet(s: Sched, c: nat, x: Client)
    requires ClientOk(s, c, x)
    ensures x.pongEvent == 0 ==> Pings(s, c) == {}
  {}

  lemma {:induction false} IssuedInside(s: Sched, c: nat, added: nat)
    requires IdsIssued(s) && s.id < added
    ensures added !in Pings(s, c)
  {}

  lemma {:induction false} OwnLineLedger(w: World, step: Step)
    requires WorldOk(w) && step.Line? && Enabled(w, step) && w.sched.id + 4 < S.ID_LIMIT && LedgerOk(w, step.c)
    ensures LedgerOk(Take(w, step), step.c)
  {
    hide OnLine, Pings, ClientOk, UserOk, SchedOk, Evolves, LineEvents, Accepts, FirstPingOk, CountsOk, Seen, IdsIssued;
    var c, tokens := step.c, step.tokens;
    var t, x := Turn(w.clients[c], w.users, w.sched, []), w.clients[c];
    var t' := OnLine(c, t, step.now, tokens, step.env);
    var made := !x.hasUser && t'.client.hasUser;
    MidOfClient(w, c);
    LineOk(c, t, step.now, tokens, step.env, w.clients.Keys);
    LinePings(c, t, step.now, tokens, step.env, w.clients.Keys);
    LineSeen(c, t, step.now, tokens, step.env);
    LineTrace(w, step);
    SeenOfLine(c, x, tokens, c);
    SeenMore(w.trace, LineEvents(c, x, tokens), PingSent(c));
    SeenMore(w.trace, LineEvents(c, x, tokens), PongAccepted(c));
    NoPingYet(w.sched, c, x);
    WorldIssued(w);
    var added := if Accepts(x, tokens) then w.sched.id + 1
               else if t'.client.pongEvent != x.pongEvent then t'.client.pongEvent else w.sched.id + 1;
    IssuedInside(w.sched, c, added);
    FirstIssued(w.sched, c, x, w.clock);
    CountsAfterLine(w.sched, t'.sched, c, x, t'.client, Accepts(x, tokens), added,
                    Seen(w.trace, PingSent(c)), Seen(w.trace, PongAccepted(c)));
    if t'.client.pongEvent != x.pongEvent { PingIssued(w, step, added); }
    FirstAfterLine(w.sched, t'.sched, c, x, t'.client, added, w.clock, step.now, made, w.clients.Keys, w.users.Keys);
  }

  lemma {:induction false} FirstIssued(s: Sched, c: nat, x: Client, clock: nat)
    requires FirstPingOk(s, c, x, clock)
    ensures x.pongEvent <= s.id
  {
    hide Pings;
  }

  lemma {:induction false} PingIssued(w: World, step: Step, k: nat)
    requires WorldOk(w) && Enabled(w, step) && w.sched.id + 4 < S.ID_LIMIT && k in Take(w, step).sched.tasks
    ensures k <= Take(w, step).sched.id
  {
    StepOk(w, step);
    WorldIssued(Take(w, step));
  }

  // ----- the other steps -----

  ghost predicate FiresPing(w: World, step: Step, c: nat) {
    step.Pass? &&
    match S.LeastDue(w.sched, step.now)
    case None => false
    case Some(k) => w.sched.tasks[k].action == SendPing(c)
  }

  lemma {:induction false} SeenOfStep(w: World, step: Step, c: nat)
    requires WorldOk(w) && Enabled(w, step) && !(step.Line? && step.c == c) && !FiresPing(w, step, c)
    ensures Seen(Take(w, step).trace, PingSent(c)) == Seen(w.trace, PingSent(c))
    ensures Seen(Take(w, step).trace, PongAccepted(c)) == Seen(w.trace, PongAccepted(c))
  {
    hide Seen, WorldOk, Take, LineEvents, Accepts;
    StepTrace(w, step);
    SeenMore(w.trace, StepEvents(w, step), PingSent(c));
    SeenMore(w.trace, StepEvents(w, step), PongAccepted(c));
    if step.Line? {
      SeenOfLine(step.c, w.clients[step.c], step.tokens, c);
    } else {
      assert PingSent(c) !in StepEvents(w, step) && PongAccepted(c) !in StepEvents(w, step);
    }
  }

  /** Nothing the ledger of c looks at is different but the time. */
  ghost predicate Still(w: World, w': World, c: nat) {
    && c in w.clients && c in w'.clients
    && var x, x' := w.clients[c], w'.clients[c];
    && x'.pongEvent == x.pongEvent && (x'.reply ==> x.reply)
    && Pings(w'.sched, c) == Pings(w.sched, c) && w.sched.id <= w'.sched.id && w.clock <= w'.clock
    && (x.pongEvent <= w.sched.id && x.pongEvent in w'.sched.tasks ==>
          x.pongEvent in w.sched.tasks && w'.sched.tasks[x.pongEvent] == w.sched.tasks[x.pongEvent])
  }

  lemma {:induction false} StillLedger(w: World, step: Step, c: nat)
    requires WorldOk(w) && Enabled(w, step) && LedgerOk(w, c) && Still(w, Take(w, step), c)
    requires !(step.Line? && step.c == c) && !FiresPing(w, step, c)
    ensures LedgerOk(Take(w, step), c)
  {
    hide Take, Pings, WorldOk, Seen, FiresPing;
    SeenOfStep(w, step, c);
  }

  lemma {:induction false} OtherLineStill(w: World, step: Step, c: nat)
    requires WorldOk(w) && step.Line? && Enabled(w, step) && w.sched.id + 4 < S.ID_LIMIT && c != step.c
        && c in w.clients
    ensures Still(w, Take(w, step), c)
  {
    hide OnLine, ClientOk, UserOk;
    var t := Turn(w.clients[step.c], w.users, w.sched, []);
    MidOfClient(w, step.c);
    LineOk(step.c, t, step.now, step.tokens, step.env, w.clients.Keys);
    var s' := Take(w, step).sched;
    var made := !t.client.hasUser && Take(w, step).clients[step.c].hasUser;
    forall k: nat ensures k in Pings(w.sched, c) <==> k in Pings(s', c) {
      assert EvolvesAt(w.sched, s', step.c, made, k) && TaskOk(w.sched, k, w.clients.Keys, w.users.Keys);
    }
    assert EvolvesAt(w.sched, s', step.c, made, w.clients[c].pongEvent);
  }

  lemma {:induction false} PassPings(s: Sched, now: nat, k: nat, rearm: Option<nat>, c: nat)
    requires IdsIssued(s) && s.id + 1 < S.ID_LIMIT && k in s.tasks
    ensures var s' := Without(S.ApplyAll(s, now, Callback(s.tasks[k].action, rearm)), k);
      && Pings(s', c) == Pings(s, c) - {k} && s.id <= s'.id
      && (forall j | j <= s.id && j in s'.tasks :: j in s.tasks && s'.tasks[j] == s.tasks[j] && j != k)
  {
    var ops := Callback(s.tasks[k].action, rearm);
    OneOp(s, now, ops);
    if ops != [] {
      AddPings(s, now, ops[0].delay, s.tasks[k].action, c);
      AddShape(s, now, ops[0].delay, s.tasks[k].action);
    }
  }

  lemma {:induction false} FirePings(w: World, a: Action, id: nat, c: nat)
    requires c in w.clients
    ensures var w' := Fire(w, a, id);
      && c in w'.clients && w'.sched == w.sched && w'.clock == w.clock
          && w'.clients[c].pongEvent == w.clients[c].pongEvent
      && (w'.clients[c].reply ==> w.clients[c].reply)
      && (a == SendPing(c) ==> !w'.clients[c].reply && w'.trace == w.trace + [PingSent(c)])
  {}

  lemma {:induction false} PassLedger(w: World, step: Step, c: nat)
    requires WorldOk(w) && step.Pass? && Enabled(w, step) && w.sched.id + 4 < S.ID_LIMIT && c in w.clients
        && LedgerOk(w, c)
    ensures LedgerOk(Take(w, step), c)
  {
    hide Pings, WorldOk, Fire, Callback, CountsOk, FirstPingOk, Seen, IdsIssued, LedgerOk;
    WorldIssued(w);
    if k :| S.LeastDue(w.sched, step.now) == Some(k) {
      var a := w.sched.tasks[k].action;
      var s := Without(S.ApplyAll(w.sched, step.now, Callback(a, step.rearm)), k);
      FirePings(w.(clock := step.now, sched := s), a, s.id, c);
      PassPings(w.sched, step.now, k, step.rearm, c);
      PingsAre(w.sched, k, c);
      if a == SendPing(c) {
        SentLedger(w, Take(w, step), step.now, k, c);
      } else {
        StillLedger(w, step, c);
      }
    } else {
      StillLedger(w, step, c);
    }
  }

  lemma {:induction false} PingsAre(s: Sched, k: nat, c: nat)
    requires k in s.tasks
    ensures k in Pings(s, c) <==> s.tasks[k].action == SendPing(c)
  {}

  /** The first ping goes out before any other, being due and having the least id. */
  lemma {:induction false} SentLedger(w: World, w': World, now: nat, k: nat, c: nat)
    requires WorldOk(w) && c in w.clients && LedgerOk(w, c) && w.clock <= now == w'.clock
    requires S.IsLeastDue(w.sched, now, k) && w.sched.tasks[k].action == SendPing(c)
    requires c in w'.clients && w'.clients[c].pongEvent == w.clients[c].pongEvent && !w'.clients[c].reply
    requires Pings(w'.sched, c) == Pings(w.sched, c) - {k} && w.sched.id <= w'.sched.id
    requires forall j | j <= w.sched.id && j in w'.sched.tasks ::
      j in w.sched.tasks && w'.sched.tasks[j] == w.sched.tasks[j] && j != k
    requires w'.trace == w.trace + [PingSent(c)]
    ensures LedgerOk(w', c)
  {
    var x := w.clients[c];
    SeenMore(w.trace, [PingSent(c)], PingSent(c));
    SeenMore(w.trace, [PingSent(c)], PongAccepted(c));
    PingsAre(w.sched, k, c);
    OneLess(Pings(w.sched, c), k);
    if x.pongEvent in w.sched.tasks {
      assert TaskOk(w.sched, x.pongEvent, w.clients.Keys, w.users.Keys);
      assert S.IsDue(w.sched, now, x.pongEvent);
      assert k == x.pongEvent;
    }
    hide Pings, WorldOk;
  }

  lemma {:induction false} QuietStill(w: World, step: Step, c: nat)
    requires WorldOk(w) && Enabled(w, step) && w.sched.id + 4 < S.ID_LIMIT && !step.Line? && !step.Pass?
        && c in w.clients
    ensures Still(w, Take(w, step), c)
  {
    hide Pings, WorldOk, Add, Cancel, IdsIssued;
    if step.AddElsewhere? {
      WorldIssued(w);
      AddPings(w.sched, step.now, step.delay, Elsewhere, c);
      AddedEntries(w.sched, step.now, step.delay);
    } else if step.DestroyUser? {
      DestroyKeepsPings(w, step, c);
    }
  }

  lemma {:induction false} AddedEntries(s: Sched, now: nat, delay: nat)
    requires IdsIssued(s) && s.id + 1 < S.ID_LIMIT
    ensures forall j | j <= s.id && j in Add(s, now, delay, Elsewhere).tasks ::
      j in s.tasks && Add(s, now, delay, Elsewhere).tasks[j] == s.tasks[j]
  {
    AddShape(s, now, delay, Elsewhere);
  }

  lemma {:induction false} DestroyKeepsPings(w: World, step: Step, c: nat)
    requires WorldOk(w) && Enabled(w, step) && step.DestroyUser?
    ensures var s' := Take(w, step).sched;
      && Pings(s', c) == Pings(w.sched, c) && s'.id == w.sched.id
      && forall j | j in s'.tasks :: j in w.sched.tasks && s'.tasks[j] == w.sched.tasks[j]
  {
    hide SchedOk, ClientOk;
    assert UserOk(w.sched, step.u, w.users[step.u], w.clock);
    assert forall k :: k in Pings(Take(w, step).sched, c) <==> k in Pings(w.sched, c);
  }

  lemma {:induction false} NobodyFires(w: World, step: Step, c: nat)
    requires WorldOk(w) && Enabled(w, step) && c !in w.clients
    ensures !FiresPing(w, step, c) && !(step.Line? && step.c == c)
  {
    if step.Pass? && S.LeastDue(w.sched, step.now).Some? {
      OwnerExists(w, S.LeastDue(w.sched, step.now).value);
    }
    hide WorldOk;
  }

  lemma {:induction false} BlankLedger(s: Sched, c: nat, x: Client, clock: nat)
    requires Pings(s, c) == {} && 0 !in s.tasks && x.pongEvent == 0 && !x.reply
    ensures FirstPingOk(s, c, x, clock) && CountsOk(s, c, x, 0, 0)
  {}

  lemma {:induction false} NewLedger(w: World, step: Step, c: nat)
    requires WorldOk(w) && Enabled(w, step) && c !in w.clients && LedgerOk(w, c)
    ensures LedgerOk(Take(w, step), c)
  {
    hide WorldOk, Seen, Take, Pings, FirstPingOk, CountsOk, FiresPing;
    NobodyFires(w, step, c);
    SeenOfStep(w, step, c);
    var w' := Take(w, step);
    if c in w'.clients {
      NoPingsYet(w, c);
      NewComer(w, step, c);
      BlankLedger(w'.sched, c, w'.clients[c], w'.clock);
    }
  }

  lemma {:induction false} NoPingsYet(w: World, c: nat)
    requires WorldOk(w) && c !in w.clients
    ensures Pings(w.sched, c) == {} && 0 !in w.sched.tasks
  {
    forall k: nat ensures k !in Pings(w.sched, c) && (k in w.sched.tasks ==> k > 0) {
      assert TaskOk(w.sched, k, w.clients.Keys, w.users.Keys);
    }
  }

  lemma {:induction false} NewComer(w: World, step: Step, c: nat)
    requires Enabled(w, step) && c !in w.clients && c in Take(w, step).clients
    ensures var w' := Take(w, step); var x := w'.clients[c];
      w'.sched == w.sched && x.pongEvent == 0 && !x.reply
  {
    hide OnLine;
    if step.Pass? && S.LeastDue(w.sched, step.now).Some? {
      var a := w.sched.tasks[S.LeastDue(w.sched, step.now).value].action;
      var s := S.PassOnce(w.sched, step.now, Callback(a, step.rearm));
      FireListens(w.(clock := step.now, sched := s), a, s.id, c);
      hide Fire;
    }
  }

  lemma {:induction false} StepLedger(w: World, step: Step, c: nat)
    requires WorldOk(w) && Enabled(w, step) && w.sched.id + 4 < S.ID_LIMIT && LedgerOk(w, c)
    ensures LedgerOk(Take(w, step), c)
  {
    hide LedgerOk, WorldOk, Take, Still;
    if c !in w.clients {
      NewLedger(w, step, c);
    } else if step.Pass? {
      PassLedger(w, step, c);
    } else if step.Line? && step.c == c {
      OwnLineLedger(w, step);
    } else {
      if step.Line? { OtherLineStill(w, step, c); } else { QuietStill(w, step, c); }
      StillLedger(w, step, c);
    }
  }

  lemma {:induction false} EmptyLedger(c: nat)
    ensures LedgerOk(Empty(), c)
  {}

  lemma {:induction false} RunLedger(w: World, steps: seq<Step>, c: nat)
    requires WorldOk(w) && EnabledRun(w, steps) && w.sched.id + 4 * |steps| < S.ID_LIMIT && LedgerOk(w, c)
    ensures LedgerOk(Run(w, steps), c)
    decreases |steps|
  {
    hide WorldOk, LedgerOk, Take, Enabled;
    if steps != [] {
      StepOk(w, steps[0]);
      StepIds(w, steps[0]);
      StepLedger(w, steps[0], c);
      RunLedger(Take(w, steps[0]), steps[1..], c);
    }
  }

  // ----- over every run -----

  /** In every run each ping asked for, by completing the registration or by an accepted answer,
      has been sent or is pending. */
  lemma {:induction false} PingsBalance(steps: seq<Step>, c: nat)
    requires EnabledRun(Empty(), steps) && 4 * |steps| < S.ID_LIMIT && c in Run(Empty(), steps).clients
    ensures var w := Run(Empty(), steps); var x := w.clients[c];
      |Pings(w.sched, c)| + Seen(w.trace, PingSent(c))
        == Seen(w.trace, PongAccepted(c)) + (if x.sentUser && x.sentNick then 1 else 0)
  {
    hide Run, EnabledRun, Pings, SchedOk, UserOk;
    EmptyOk();
    EmptyLedger(c);
    RunOk(Empty(), steps);
    RunLedger(Empty(), steps, c);
    var w := Run(Empty(), steps);
    assert ClientOk(w.sched, c, w.clients[c]);
  }

  /** The events that name c. */
  function Naming(s: Sched, c: nat): set<nat> { Pings(s, c) + Timers(s, c) }

  lemma {:induction false} OwnEvents(s: Sched, c: nat, x: Client, clock: nat, d: nat)
    requires ClientOk(s, c, x) && IdsIssued(s) && FirstPingOk(s, c, x, clock)
    ensures x.eventId !in Pings(s, d) && x.pongEvent !in Timers(s, d) && 0 !in Pings(s, d) && 0 !in Timers(s, d)
    ensures d != c ==> x.eventId !in Timers(s, d) && x.pongEvent !in Pings(s, d)
  {
    hide PingsOk;
  }

  lemma {:induction false} ReleaseLeaves(s: Sched, c: nat, x: Client, clock: nat, d: nat)
    requires ClientOk(s, c, x) && IdsIssued(s) && FirstPingOk(s, c, x, clock)
    ensures d == c ==> Naming(Release(s, x), d) == (Pings(s, c) - {x.pongEvent}) + (Timers(s, c) - {x.eventId})
    ensures d != c ==> Naming(Release(s, x), d) == Naming(s, d)
  {
    hide ClientOk, FirstPingOk, IdsIssued, Pings, Timers, Cancel;
    OwnEvents(s, c, x, clock, d);
    var s1 := if x.eventId != 0 then Cancel(s, x.eventId) else s;
    CancelPings(s, x.eventId, d);
    CancelTimers(s, x.eventId, d);
    CancelPings(s1, x.pongEvent, d);
    CancelTimers(s1, x.pongEvent, d);
  }

  /** When a connection object goes away in any run, the scheduler is left with the pings but the
      first and the close timers but the one on record.  Some ping is left while an answer stands.
      Nothing that names the object is left exactly when no answer was accepted or every ping asked
      for has been sent, and no timer is off the record, which for an open connection is to say
      that none was forgotten. */
  lemma {:induction false} LeftBehind(steps: seq<Step>, c: nat)
    requires EnabledRun(Empty(), steps) && 4 * |steps| < S.ID_LIMIT && c in Run(Empty(), steps).clients
    ensures var w := Run(Empty(), steps); var x := w.clients[c]; var left := Naming(Release(w.sched, x), c);
      var sent, answered := Seen(w.trace, PingSent(c)), Seen(w.trace, PongAccepted(c));
      && left == (Pings(w.sched, c) - {x.pongEvent}) + (Timers(w.sched, c) - {x.eventId})
      && (x.reply ==> Pings(w.sched, c) - {x.pongEvent} != {})
      && (left == {} <==> (answered == 0 || sent == answered + 1) && Timers(w.sched, c) <= {x.eventId})
      && (x.open && left == {} <==>
            x.open && (answered == 0 || sent == answered + 1) && !RunForgets(Empty(), steps, c))
  {
    hide Run, EnabledRun, SchedOk, UserOk, Timers, Pings, Release, Naming, Seen, IdsIssued;
    EmptyOk();
    EmptyLedger(c);
    RunOk(Empty(), steps);
    RunLedger(Empty(), steps, c);
    var w := Run(Empty(), steps);
    var x := w.clients[c];
    assert ClientOk(w.sched, c, x);
    WorldIssued(w);
    ReleaseLeaves(w.sched, c, x, w.clock, c);
    PingsLeft(w.sched, c, x, Seen(w.trace, PingSent(c)), Seen(w.trace, PongAccepted(c)));
    hide WorldOk, LedgerOk;
    assert Timers(w.sched, c) - {x.eventId} == {} <==> Timers(w.sched, c) <= {x.eventId};
    hide RunForgets;
    if x.open { ForgottenInEveryRun(steps, c); }
  }

  lemma {:induction false} PingsLeft(s: Sched, c: nat, x: Client, sent: nat, answered: nat)
    requires ClientOk(s, c, x) && CountsOk(s, c, x, sent, answered)
    ensures x.reply ==> Pings(s, c) - {x.pongEvent} != {}
    ensures Pings(s, c) - {x.pongEvent} == {} <==> answered == 0 || sent == answered + 1
  {
    hide Pings, TimerOk;
    OneLess(Pings(s, c), x.pongEvent);
  }
}
