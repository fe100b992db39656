/** In which order requests, answers, pings and the welcome are seen, over every run. */
module SessionOrder {
  import S = Scheduler
  import opened Session
  import opened SessionInvariant
  import opened SessionRuns
  import opened SessionTraces

  // ----- what comes right behind an accepted answer -----

  predicate IsPongRequest(e: Event, c: nat) {
    e.Request? && e.c == c && e.tokens != [] && e.tokens[0] == "PONG"
  }

  predicate FirstAnswer(trace: seq<Event>, c: nat, j: nat) {
    j < |trace| && trace[j] == PongAccepted(c) && PongAccepted(c) !in trace[..j]
  }

  /** Behind an accepted answer its own line is handled, and behind that the welcome is sent
      if the answer was the first. */
  predicate FollowedAt(trace: seq<Event>, j: nat) {
    j < |trace| && trace[j].PongAccepted? ==>
      && j + 1 < |trace| && IsPongRequest(trace[j+1], trace[j].c)
      && (FirstAnswer(trace, trace[j].c, j) ==> j + 2 < |trace| && trace[j+2] == Welcome(trace[j].c))
  }

  ghost predicate Followed(trace: seq<Event>) {
    forall j: nat :: FollowedAt(trace, j)
  }

  lemma {:induction false} FollowedBefore(trace: seq<Event>, es: seq<Event>, j: nat)
    requires FollowedAt(trace, j) && j < |trace|
    ensures FollowedAt(trace + es, j)
  {
    assert (trace + es)[..j] == trace[..j];
  }

  lemma {:induction false} PlainFollows(trace: seq<Event>, es: seq<Event>)
    requires Followed(trace) && forall e | e in es :: !e.PongAccepted?
    ensures Followed(trace + es)
  {
    forall j: nat ensures FollowedAt(trace + es, j) {
      if j < |trace| {
        FollowedBefore(trace, es, j);
      } else if j < |trace + es| {
        assert (trace + es)[j] in es;
      }
    }
  }

  lemma {:induction false} AnswerFollows(trace: seq<Event>, c: nat, tokens: seq<string>, welcome: bool)
    requires Followed(trace) && tokens != [] && tokens[0] == "PONG" && (welcome <==> PongAccepted(c) !in trace)
    ensures Followed(trace + ([PongAccepted(c)] + ([Request(c, tokens)] + (if welcome then [Welcome(c)] else []))))
  {
    var es := [PongAccepted(c)] + ([Request(c, tokens)] + (if welcome then [Welcome(c)] else []));
    forall j: nat ensures FollowedAt(trace + es, j) {
      if j < |trace| {
        FollowedBefore(trace, es, j);
      } else {
        assert (trace + es)[..|trace|] == trace;
      }
    }
  }

  lemma {:induction false} LineFollows(w: World, c: nat, tokens: seq<string>)
    requires WorldOk(w) && TraceOk(w) && Followed(w.trace) && c in w.clients && tokens != []
    ensures Followed(w.trace + LineEvents(c, w.clients[c], tokens))
  {
    var x := w.clients[c];
    assert ClientOk(w.sched, c, x) && Mirrors(w, c);
    hide WorldOk, TraceOk, Followed, PingsOk, TimerOk, Pings, Answered;
    if Accepts(x, tokens) {
      AnswerFollows(w.trace, c, tokens, !x.sentCommon);
    } else {
      PlainFollows(w.trace, LineEvents(c, x, tokens));
    }
  }

  lemma {:induction false} StepFollows(w: World, step: Step)
    requires WorldOk(w) && TraceOk(w) && Followed(w.trace) && Enabled(w, step)
    ensures Followed(Take(w, step).trace)
  {
    StepTrace(w, step);
    if step.Line? {
      LineFollows(w, step.c, step.tokens);
    } else {
      PlainFollows(w.trace, StepEvents(w, step));
    }
    hide WorldOk, TraceOk, Followed, Take, LineEvents;
  }

  lemma {:induction false} RunFollows(w: World, steps: seq<Step>)
    requires WorldOk(w) && TraceOk(w) && Followed(w.trace) && EnabledRun(w, steps)
    requires w.sched.id + 4 * |steps| < S.ID_LIMIT
    ensures Followed(Run(w, steps).trace)
    decreases |steps|
  {
    if steps != [] {
      StepOk(w, steps[0]);
      StepIds(w, steps[0]);
      StepTraceOk(w, steps[0]);
      StepFollows(w, steps[0]);
      RunFollows(Take(w, steps[0]), steps[1..]);
    }
  }

  // ----- over every run -----

  /** The welcome is sent exactly behind the request that carried the first accepted answer,
      and so at most once. */
  lemma {:induction false} WelcomeOnce(steps: seq<Step>, c: nat)
    requires EnabledRun(Empty(), steps) && 4 * |steps| < S.ID_LIMIT
    ensures var trace := Run(Empty(), steps).trace;
      && (forall j: nat :: FirstAnswer(trace, c, j) <==> j + 2 < |trace| && trace[j+2] == Welcome(c))
      && (forall j: nat :: FirstAnswer(trace, c, j) ==> IsPongRequest(trace[j+1], c))
      && (forall i | 0 <= i < |trace| && trace[i] == Welcome(c) :: i >= 2)
      && (forall i, k | 0 <= i < k < |trace| && trace[i] == Welcome(c) :: trace[k] != Welcome(c))
  {
    var trace := Run(Empty(), steps).trace;
    EveryRun(steps);
    EmptyOk();
    assert forall d: nat :: Mirrors(Empty(), d);
    RunFollows(Empty(), steps);
    hide WorldOk, Run, EnabledRun, Mirrors;
    assert Lawful(trace);
    forall i | 0 <= i < |trace| && trace[i] == Welcome(c) ensures i >= 2 && FirstAnswer(trace, c, i - 2) {
      assert MayFollow(trace[..i], trace[i]);
      assert trace[..i][..i-2] == trace[..i-2];
    }
    forall j: nat | FirstAnswer(trace, c, j)
      ensures j + 2 < |trace| && trace[j+2] == Welcome(c) && IsPongRequest(trace[j+1], c)
    {
      assert FollowedAt(trace, j);
    }
    forall j: nat | j + 2 < |trace| && trace[j+2] == Welcome(c) ensures FirstAnswer(trace, c, j) {
      assert FirstAnswer(trace, c, j + 2 - 2);
    }
    forall i, k | 0 <= i < k < |trace| && trace[i] == Welcome(c) ensures trace[k] != Welcome(c) {
      assert MayFollow(trace[..k], trace[k]);
      assert trace[..k][i] == trace[i];
    }
  }

  /** An answer of c was accepted at i, and no ping was sent to c from then on. */
  predicate StandsFrom(trace: seq<Event>, c: nat, i: nat) {
    i < |trace| && trace[i] == PongAccepted(c) && PingSent(c) !in trace[i+1..]
  }

  lemma {:induction false} AnsweredMeans(trace: seq<Event>, c: nat)
    ensures Answered(trace, c) <==> exists i: nat :: StandsFrom(trace, c, i)
    decreases |trace|
  {
    if trace != [] {
      var n := |trace| - 1;
      var before := trace[..n];
      AnsweredMeans(before, c);
      if trace[n] == PongAccepted(c) {
        assert StandsFrom(trace, c, n);
      } else if trace[n] == PingSent(c) {
        forall i: nat ensures !StandsFrom(trace, c, i) {
          if i < n { assert trace[i+1..][n-i-1] == trace[n]; }
        }
      } else {
        forall i: nat ensures StandsFrom(trace, c, i) <==> StandsFrom(before, c, i) {
          if i < n { assert trace[i+1..] == before[i+1..] + [trace[n]]; }
        }
      }
    }
  }

  /** Between two accepted answers of a connection a ping was sent to it. */
  lemma {:induction false} PingBetweenAnswers(steps: seq<Step>, c: nat, i: nat, j: nat)
    requires EnabledRun(Empty(), steps) && 4 * |steps| < S.ID_LIMIT
    requires i < j < |Run(Empty(), steps).trace|
        && Run(Empty(), steps).trace[i] == Run(Empty(), steps).trace[j] == PongAccepted(c)
    ensures exists k | i < k < j :: Run(Empty(), steps).trace[k] == PingSent(c)
  {
    EveryRun(steps);
    var trace := Run(Empty(), steps).trace;
    var before := trace[..j];
    hide WorldOk, Run, EnabledRun, Mirrors;
    assert MayFollow(before, trace[j]);
    AnsweredMeans(before, c);
    assert !StandsFrom(before, c, i);
    var k :| 0 <= k < |before[i+1..]| && before[i+1..][k] == PingSent(c);
    assert trace[i+1+k] == PingSent(c);
  }

  /** A request other than NICK is handled only while the last ping sent stands answered, and
      NICK only once the connection has been welcomed. */
  lemma {:induction false} RequestsAreAnswered(steps: seq<Step>, c: nat, tokens: seq<string>, i: nat)
    requires EnabledRun(Empty(), steps) && 4 * |steps| < S.ID_LIMIT
    requires i < |Run(Empty(), steps).trace| && Run(Empty(), steps).trace[i] == Request(c, tokens)
    ensures tokens != []
    ensures var before := Run(Empty(), steps).trace[..i];
      if tokens[0] == "NICK" then Welcome(c) in before else exists j: nat :: StandsFrom(before, c, j)
  {
    EveryRun(steps);
    var trace := Run(Empty(), steps).trace;
    hide WorldOk, Run, EnabledRun, Mirrors;
    assert MayFollow(trace[..i], trace[i]);
    AnsweredMeans(trace[..i], c);
  }

  lemma {:induction false} RequestOfLine(s: Sched, d: nat, x: Client, line: seq<string>, c: nat, tokens: seq<string>)
    requires ClientOk(s, d, x) && line != [] && Request(c, tokens) in LineEvents(d, x, line)
    ensures d == c && line == tokens && x.hasUser
  {
    hide Pings, TimerOk;
  }

  /** A request is only handed over by a line of its connection, which has its user by then. */
  lemma {:induction false} RequestsHaveUser(before: seq<Step>, step: Step, c: nat, tokens: seq<string>)
    requires EnabledRun(Empty(), before) && Enabled(Run(Empty(), before), step) && 4 * |before| < S.ID_LIMIT
    requires Request(c, tokens) in Take(Run(Empty(), before), step).trace[|Run(Empty(), before).trace|..]
    ensures step.Line? && step.c == c && step.tokens == tokens && Run(Empty(), before).clients[c].hasUser
  {
    EveryRun(before);
    var w := Run(Empty(), before);
    StepTrace(w, step);
    var es := StepEvents(w, step);
    assert (w.trace + es)[|w.trace|..] == es;
    hide Run, EnabledRun, Take, TraceOk, LineEvents, ClientOk, SchedOk, UsersOk;
    if step.Line? {
      RequestOfLine(w.sched, step.c, w.clients[step.c], step.tokens, c, tokens);
    }
  }
}
