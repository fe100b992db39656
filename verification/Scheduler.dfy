/** The event scheduler as a state machine: its operations, its firing pass, and what
    holds over every run of them, whatever the callbacks do. */
module Scheduler {
  import opened Auxiliar

  const ID_LIMIT: nat := 0x1_0000_0000

  datatype Task<+A> = Task(when: nat, stopped: bool, action: A)

  datatype Sched<+A> = Sched(tasks: map<nat, Task<A>>, id: nat, running: bool)

  /** What a caller, or a callback, can ask of the scheduler. */
  datatype Op<+A> =
    | AddEvent(delay: nat, action: A)
    | AddTask(delay: nat, action: A)
    | StopEvent(id: nat)
    | Stop

  function NextId(id: nat): nat { (id + 1) % ID_LIMIT }

  /** Inserting never replaces an entry. */
  function Insert<A>(tasks: map<nat, Task<A>>, k: nat, t: Task<A>): map<nat, Task<A>> {
    if k in tasks then tasks else tasks[k := t]
  }

  function Apply<A>(s: Sched<A>, now: nat, op: Op<A>): Sched<A> {
    match op
    case AddEvent(delay, a) =>
      s.(id := NextId(s.id), tasks := Insert(s.tasks, NextId(s.id), Task(now + delay, false, a)))
    case AddTask(delay, a) => s.(tasks := Insert(s.tasks, 0, Task(now + delay, false, a)))
    case StopEvent(k) => s.(tasks := s.tasks - {k})
    case Stop => s.(running := false, tasks := map k | k in s.tasks :: s.tasks[k].(stopped := true))
  }

  function ApplyAll<A>(s: Sched<A>, now: nat, ops: seq<Op<A>>): Sched<A>
    decreases |ops|
  {
    if ops == [] then s else ApplyAll(Apply(s, now, ops[0]), now, ops[1..])
  }

  predicate IsDue<A>(s: Sched<A>, now: nat, k: nat) {
    k in s.tasks && !s.tasks[k].stopped && s.tasks[k].when <= now
  }

  ghost predicate IsLeastDue<A>(s: Sched<A>, now: nat, k: nat) {
    IsDue(s, now, k) && forall x: nat | x < k :: !IsDue(s, now, x)
  }

  /** The event a pass fires, if any. */
  ghost function LeastDue<A>(s: Sched<A>, now: nat): (r: Option<nat>)
    ensures r.Some? ==> IsLeastDue(s, now, r.value)
    ensures r.None? ==> forall k: nat :: !IsDue(s, now, k)
  {
    if k: nat :| IsDue(s, now, k) then
      LeastDueExists(s, now, k);
      var m: nat :| IsLeastDue(s, now, m);
      Some(m)
    else None
  }

  lemma {:induction false} LeastDueExists<A>(s: Sched<A>, now: nat, k: nat)
    requires IsDue(s, now, k)
    ensures exists m: nat :: IsLeastDue(s, now, m)
    decreases k
  {
    if x: nat :| x < k && IsDue(s, now, x) {
      LeastDueExists(s, now, x);
    } else {
      assert IsLeastDue(s, now, k);
    }
  }

  lemma {:induction false} LeastDueIs<A>(s: Sched<A>, now: nat, k: nat)
    requires IsLeastDue(s, now, k)
    ensures LeastDue(s, now) == Some(k)
  {}

  /** One pass of a running scheduler: the least due event fires, its callback performs
      `ops` while the event is still in the table, and then the event is removed. */
  ghost function PassOnce<A>(s: Sched<A>, now: nat, ops: seq<Op<A>>): Sched<A> {
    match LeastDue(s, now)
    case None => s
    case Some(k) => var s' := ApplyAll(s, now, ops); s'.(tasks := s'.tasks - {k})
  }

  // ----- runs, with a record of what happened -----

  /** due: when each issued id may fire; fired: the ids fired, in order; firedAt: when. */
  datatype Log<A> = Log(s: Sched<A>, clock: nat, due: map<nat, nat>,
                        fired: seq<nat>, firedAt: map<nat, nat>, cancelled: set<nat>)

  datatype Step<+A> =
    | Outside(now: nat, op: Op<A>)
    | Start(now: nat)
    | Pass(now: nat, ops: seq<Op<A>>)

  function Fresh<A>(): Log<A> {
    Log(Sched(map[], 0, false), 0, map[], [], map[], {})
  }

  function Note<A>(l: Log<A>, op: Op<A>): Log<A> {
    var l' := l.(s := Apply(l.s, l.clock, op));
    match op
    case AddEvent(delay, _) => l'.(due := l.due[NextId(l.s.id) := l.clock + delay])
    case StopEvent(k) => if k in l.s.tasks then l'.(cancelled := l.cancelled + {k}) else l'
    case _ => l'
  }

  function NoteAll<A>(l: Log<A>, ops: seq<Op<A>>): Log<A>
    decreases |ops|
  {
    if ops == [] then l else NoteAll(Note(l, ops[0]), ops[1..])
  }

  ghost function Take<A>(l0: Log<A>, step: Step<A>): Log<A> {
    var l := l0.(clock := step.now);
    match step
    case Outside(_, op) => Note(l, op)
    case Start(_) => l.(s := l.s.(running := true))
    case Pass(now, ops) =>
      if !l.s.running then l else
      match LeastDue(l.s, now)
      case None => l
      case Some(k) =>
        var l' := NoteAll(l, ops);
        l'.(s := l'.s.(tasks := l'.s.tasks - {k}), fired := l'.fired + [k], firedAt := l'.firedAt[k := now])
  }

  lemma {:induction false} NotedState<A>(l: Log<A>, ops: seq<Op<A>>)
    ensures NoteAll(l, ops).s == ApplyAll(l.s, l.clock, ops) && NoteAll(l, ops).clock == l.clock
    decreases |ops|
  {
    if ops != [] {
      NotedState(Note(l, ops[0]), ops[1..]);
    }
  }

  /** Keeping the record changes nothing: whatever a callback does, a step moves the scheduler
      by the operation, or by the pass, that its methods perform. */
  lemma {:induction false} TakenState<A>(l: Log<A>, step: Step<A>)
    ensures Take(l, step).s ==
      match step
      case Outside(now, op) => Apply(l.s, now, op)
      case Start(_) => l.s.(running := true)
      case Pass(now, ops) => if l.s.running then PassOnce(l.s, now, ops) else l.s
    ensures Take(l, step).clock == step.now
  {
    if step.Pass? {
      NotedState(l.(clock := step.now), step.ops);
    }
  }

  lemma {:induction false} TakenFired<A>(l: Log<A>, step: Step<A>)
    ensures Take(l, step).fired ==
      if step.Pass? && l.s.running && LeastDue(l.s, step.now).Some? then l.fired + [LeastDue(l.s, step.now).value]
          else l.fired
  {
    if step.Pass? {
      NotedFired(l.(clock := step.now), step.ops);
    }
  }

  lemma {:induction false} NotedFired<A>(l: Log<A>, ops: seq<Op<A>>)
    ensures NoteAll(l, ops).fired == l.fired
    decreases |ops|
  {
    if ops != [] {
      NotedFired(Note(l, ops[0]), ops[1..]);
    }
  }

  /** A stopped scheduler's passes do nothing. */
  lemma {:induction false} StandsStill<A>(l: Log<A>, passes: seq<Step<A>>)
    requires !l.s.running || passes == []
    requires forall p | p in passes :: p.Pass?
    ensures Run(l, passes).s == l.s && Run(l, passes).fired == l.fired
    decreases |passes|
  {
    if passes != [] {
      assert passes[0] in passes && forall p | p in passes[1..] :: p in passes;
      StandsStill(Take(l, passes[0]), passes[1..]);
    }
  }

  /** Time does not run backwards, and a callback does not cancel the event it runs for. */
  ghost predicate Allowed<A>(l: Log<A>, step: Step<A>) {
    && l.clock <= step.now
    && (step.Pass? && l.s.running ==>
        match LeastDue(l.s, step.now) case None => true case Some(k) => StopEvent(k) !in step.ops)
  }

  ghost predicate AllowedRun<A>(l: Log<A>, steps: seq<Step<A>>)
    decreases |steps|
  {
    steps == [] || (Allowed(l, steps[0]) && AllowedRun(Take(l, steps[0]), steps[1..]))
  }

  ghost function Run<A>(l: Log<A>, steps: seq<Step<A>>): Log<A>
    decreases |steps|
  {
    if steps == [] then l else Run(Take(l, steps[0]), steps[1..])
  }

  function Ops<A>(step: Step<A>): seq<Op<A>> {
    match step
    case Outside(_, op) => [op]
    case Start(_) => []
    case Pass(_, ops) => ops
  }

  function Adds<A>(ops: seq<Op<A>>): nat {
    if ops == [] then 0 else (if ops[0].AddEvent? then 1 else 0) + Adds(ops[1..])
  }

  function Unnamed<A>(ops: seq<Op<A>>): nat {
    if ops == [] then 0 else (if ops[0].AddTask? then 1 else 0) + Unnamed(ops[1..])
  }

  function AddsIn<A>(steps: seq<Step<A>>): nat {
    if steps == [] then 0 else Adds(Ops(steps[0])) + AddsIn(steps[1..])
  }

  function UnnamedIn<A>(steps: seq<Step<A>>): nat {
    if steps == [] then 0 else Unnamed(Ops(steps[0])) + UnnamedIn(steps[1..])
  }

  function PassesIn<A>(steps: seq<Step<A>>): nat {
    if steps == [] then 0 else (if steps[0].Pass? then 1 else 0) + PassesIn(steps[1..])
  }

  // ----- every id is pending, fired or cancelled -----

  /** Where id k stands.  Id 0 belongs to the tasks added without an id; the record is about
      the others. */
  ghost predicate AccountedAt<A>(l: Log<A>, k: nat) {
    && (k in l.due <==> 1 <= k <= l.s.id)
    && (k in l.due ==>
        // exactly one of the three
        && (k in l.s.tasks || k in l.fired || k in l.cancelled)
        && !(k in l.s.tasks && k in l.fired)
        && !(k in l.s.tasks && k in l.cancelled)
        && !(k in l.fired && k in l.cancelled)
        && (k in l.s.tasks ==> l.s.tasks[k].when == l.due[k])
        && (k in l.fired ==> k in l.firedAt && l.due[k] <= l.firedAt[k] <= l.clock))
    && (k > 0 && k !in l.due ==> k !in l.s.tasks && k !in l.fired && k !in l.cancelled)
  }

  ghost predicate FiredOnce(fired: seq<nat>) {
    forall i, j | 0 <= i < j < |fired| :: fired[i] == fired[j] ==> fired[i] == 0
  }

  ghost predicate Accounted<A>(l: Log<A>) {
    l.s.id < ID_LIMIT && FiredOnce(l.fired) && forall k: nat :: AccountedAt(l, k)
  }

  /** What happens to id k between two records: nothing is taken back, an entry that has gone
      or is stopped does not return to life, and an id already issued is not issued again. */
  ghost predicate GrowsAt<A>(l: Log<A>, l': Log<A>, k: nat) {
    && (k in l.cancelled ==> k in l'.cancelled)
    && (k in l.due ==> k in l'.due && l'.due[k] == l.due[k])
    && (0 < k <= l.s.id && k in l'.s.tasks ==>
        k in l.s.tasks && (l.s.tasks[k].stopped ==> l'.s.tasks[k].stopped))
  }

  ghost predicate Grows<A>(l: Log<A>, l': Log<A>) {
    l.s.id <= l'.s.id && l.fired <= l'.fired && forall k: nat :: GrowsAt(l, l', k)
  }

  lemma {:induction false} NoteAccounted<A>(l: Log<A>, op: Op<A>)
    requires Accounted(l) && (op.AddEvent? ==> l.s.id + 1 < ID_LIMIT)
    ensures Accounted(Note(l, op)) && Grows(l, Note(l, op))
    ensures Note(l, op).s.id == l.s.id + (if op.AddEvent? then 1 else 0)
  {
    var l' := Note(l, op);
    forall k: nat ensures AccountedAt(l', k) && GrowsAt(l, l', k) {
      assert AccountedAt(l, k);
    }
  }

  lemma {:induction false} NoteAllAccounted<A>(l: Log<A>, ops: seq<Op<A>>)
    requires Accounted(l) && l.s.id + Adds(ops) < ID_LIMIT
    ensures var l' := NoteAll(l, ops);
      && Accounted(l') && Grows(l, l')
      && l'.s.id == l.s.id + Adds(ops)
      && l'.fired == l.fired && l'.firedAt == l.firedAt && l'.clock == l.clock
    decreases |ops|
  {
    if ops != [] {
      NoteAccounted(l, ops[0]);
      NoteAllAccounted(Note(l, ops[0]), ops[1..]);
      GrowsOn(l, Note(l, ops[0]), NoteAll(l, ops));
    }
  }

  lemma {:induction false} GrowsOn<A>(a: Log<A>, b: Log<A>, c: Log<A>)
    requires Grows(a, b) && Grows(b, c)
    ensures Grows(a, c)
  {
    forall k: nat ensures GrowsAt(a, c, k) {
      assert GrowsAt(a, b, k) && GrowsAt(b, c, k);
    }
  }

  lemma {:induction false} StaysDuringCallback<A>(l: Log<A>, ops: seq<Op<A>>, k: nat)
    requires k in l.s.tasks && StopEvent(k) !in ops
    ensures var tasks := NoteAll(l, ops).s.tasks; k in tasks && tasks[k].when == l.s.tasks[k].when
    decreases |ops|
  {
    if ops != [] {
      assert ops[0] in ops;
      StaysDuringCallback(Note(l, ops[0]), ops[1..], k);
    }
  }

  lemma {:induction false} TakeAccounted<A>(l: Log<A>, step: Step<A>)
    requires Accounted(l) && Allowed(l, step) && l.s.id + Adds(Ops(step)) < ID_LIMIT
    ensures Accounted(Take(l, step)) && Grows(l, Take(l, step))
    ensures Take(l, step).s.id <= l.s.id + Adds(Ops(step))
    ensures Take(l, step).clock == step.now
  {
    var l1 := l.(clock := step.now);
    forall k: nat ensures AccountedAt(l1, k) && GrowsAt(l, l1, k) { assert AccountedAt(l, k); }
    var l' := Take(l, step);
    match step
    case Outside(_, op) =>
      assert [op][1..] == [];
      NoteAccounted(l1, op);
      GrowsOn(l, l1, l');
    case Start(_) =>
      forall k: nat ensures AccountedAt(l', k) && GrowsAt(l, l', k) { assert AccountedAt(l, k); }
    case Pass(now, ops) =>
      var e := LeastDue(l1.s, now);
      if l1.s.running && e.Some? {
        var l2 := NoteAll(l1, ops);
        NoteAllAccounted(l1, ops);
        StaysDuringCallback(l1, ops, e.value);
        FiringAccounted(l2, e.value, now);
        forall k: nat ensures GrowsAt(l, l', k) { assert GrowsAt(l1, l2, k); }
      }
  }

  /** Moving a pending, due event to the fired ones. */
  lemma {:induction false} FiringAccounted<A>(l: Log<A>, e: nat, now: nat)
    requires Accounted(l) && e in l.s.tasks && l.s.tasks[e].when <= now == l.clock
    ensures Accounted(l.(s := l.s.(tasks := l.s.tasks - {e}), fired := l.fired + [e], firedAt := l.firedAt[e := now]))
  {
    var l' := l.(s := l.s.(tasks := l.s.tasks - {e}), fired := l.fired + [e], firedAt := l.firedAt[e := now]);
    forall k: nat ensures AccountedAt(l', k) { assert AccountedAt(l, k); }
    assert AccountedAt(l, e);
  }

  /** Over every run: each id issued is in exactly one of pending, fired and cancelled, fires
      at most once and never early, and the record only grows. */
  lemma {:induction false} RunAccounted<A>(l: Log<A>, steps: seq<Step<A>>)
    requires Accounted(l) && AllowedRun(l, steps) && l.s.id + AddsIn(steps) < ID_LIMIT
    ensures Accounted(Run(l, steps)) && Grows(l, Run(l, steps))
    decreases |steps|
  {
    if steps != [] {
      TakeAccounted(l, steps[0]);
      RunAccounted(Take(l, steps[0]), steps[1..]);
      GrowsOn(l, Take(l, steps[0]), Run(l, steps));
    }
  }

  /** A run from the start, with fewer than 2^32 events in all. */
  lemma {:induction false} EveryRun<A>(steps: seq<Step<A>>)
    requires AllowedRun(Fresh(), steps) && AddsIn(steps) < ID_LIMIT
    ensures Accounted(Run(Fresh(), steps))
  {
    assert forall k: nat :: AccountedAt(Fresh<A>(), k);
    RunAccounted(Fresh(), steps);
  }

  // ----- events that have been stopped or cancelled -----

  /** Id k will not fire: it is gone, or its entry is stopped. */
  predicate Inert<A>(s: Sched<A>, k: nat) {
    k in s.tasks ==> s.tasks[k].stopped
  }

  lemma {:induction false} NeverFiresFrom<A>(l: Log<A>, steps: seq<Step<A>>, k: nat)
    requires Accounted(l) && AllowedRun(l, steps) && l.s.id + AddsIn(steps) < ID_LIMIT
    requires 0 < k <= l.s.id && Inert(l.s, k)
    ensures Inert(Run(l, steps).s, k)
    ensures l.fired <= Run(l, steps).fired
    ensures k !in Run(l, steps).fired[|l.fired|..]
    decreases |steps|
  {
    if steps != [] {
      var l1 := Take(l, steps[0]);
      TakeAccounted(l, steps[0]);
      assert GrowsAt(l, l1, k);
      assert k !in l1.fired[|l.fired|..] by { FiredInTake(l, steps[0]); }
      NeverFiresFrom(l1, steps[1..], k);
      var l' := Run(l, steps);
      RunAccounted(l1, steps[1..]);
      assert l'.fired[|l.fired|..] == l1.fired[|l.fired|..] + l'.fired[|l1.fired|..];
    }
  }

  lemma {:induction false} FiredInTake<A>(l: Log<A>, step: Step<A>)
    requires Accounted(l) && Allowed(l, step) && l.s.id + Adds(Ops(step)) < ID_LIMIT
    ensures l.fired <= Take(l, step).fired
    ensures forall x | x in Take(l, step).fired[|l.fired|..] :: step.Pass? && IsLeastDue(l.s, step.now, x)
  {
    var l1 := l.(clock := step.now);
    forall k: nat ensures AccountedAt(l1, k) { assert AccountedAt(l, k); }
    if step.Pass? {
      NoteAllAccounted(l1, step.ops);
    }
  }

  /** A cancelled event never fires, and neither does one that was in the table when the
      scheduler was stopped. */
  lemma {:induction false} CancelledOrStoppedNeverFires<A>(l: Log<A>, now: nat, op: Op<A>, k: nat, steps: seq<Step<A>>)
    requires Accounted(l) && 0 < k <= l.s.id
    requires op == StopEvent(k) || op == Stop
    requires AllowedRun(l, [Outside(now, op)] + steps) && l.s.id + AddsIn([Outside(now, op)] + steps) < ID_LIMIT
    ensures l.fired <= Run(l, [Outside(now, op)] + steps).fired
    ensures k !in Run(l, [Outside(now, op)] + steps).fired[|l.fired|..]
  {
    var all := [Outside(now, op)] + steps;
    assert all[1..] == steps && [op][1..] == [];
    TakeAccounted(l, all[0]);
    NeverFiresFrom(Take(l, all[0]), steps, k);
  }

  // ----- bounded waiting -----

  /** The live entries up to k: the only ones a pass can prefer to k. */
  function Ahead<A>(s: Sched<A>, k: nat): set<nat> {
    set x | x in s.tasks && x <= k && !s.tasks[x].stopped
  }

  lemma {:induction false} AheadAfterOps<A>(l: Log<A>, ops: seq<Op<A>>, k: nat)
    requires Accounted(l) && k <= l.s.id && l.s.id + Adds(ops) < ID_LIMIT
    ensures Ahead(NoteAll(l, ops).s, k) <= Ahead(l.s, k) + (if Unnamed(ops) > 0 then {0} else {})
    decreases |ops|
  {
    if ops != [] {
      NoteAccounted(l, ops[0]);
      AheadAfterOps(Note(l, ops[0]), ops[1..], k);
    }
  }

  lemma {:induction false} AheadAfterTake<A>(l: Log<A>, step: Step<A>, k: nat)
    requires Accounted(l) && Allowed(l, step) && l.s.id + Adds(Ops(step)) < ID_LIMIT
    requires 0 < k <= l.s.id && l.s.running && k in l.s.tasks && !l.s.tasks[k].stopped
    requires l.s.tasks[k].when <= l.clock
    ensures |Ahead(Take(l, step).s, k)| + PassesIn([step]) <= |Ahead(l.s, k)| + Unnamed(Ops(step))
  {
    var l1 := l.(clock := step.now);
    forall x: nat ensures AccountedAt(l1, x) { assert AccountedAt(l, x); }
    var l' := Take(l, step);
    var before, after := Ahead(l.s, k), Ahead(l'.s, k);
    assert [step][1..] == [];
    match step
    case Outside(_, op) =>
      assert [op][1..] == [] && NoteAll(l1, [op]) == l';
      AheadAfterOps(l1, [op], k);
      WithinPlusOne(after, before, 0);
      CardinalityUpTo(after, before);
    case Start(_) =>
      assert after == before;
    case Pass(now, ops) =>
      assert IsDue(l1.s, now, k);
      var e := LeastDue(l1.s, now).value;
      assert e <= k && e in before;
      AheadAfterOps(l1, ops, k);
      assert Ahead(l'.s, k) == Ahead(NoteAll(l1, ops).s, k) - {e};
      var rest := before - {e};
      if Unnamed(ops) > 0 {
        WithinPlusOne(after, rest, 0);
      } else {
        CardinalityUpTo(after, rest);
      }
  }

  lemma {:induction false} CardinalityUpTo(a: set<nat>, b: set<nat>)
    ensures a <= b ==> |a| <= |b|
  {
    if a <= b { assert b == a + (b - a); }
  }

  lemma {:induction false} WithinPlusOne(a: set<nat>, b: set<nat>, x: nat)
    ensures a <= b + {x} ==> |a| <= |b| + 1
  {
    CardinalityUpTo(a, b + {x});
  }

  /** While a due event k is live, each pass of the run was spent on a live entry up to k,
      and the entries up to k only grow by the tasks added without an id. */
  lemma {:induction false} BoundedWaiting<A>(l: Log<A>, steps: seq<Step<A>>, k: nat)
    requires Accounted(l) && AllowedRun(l, steps) && l.s.id + AddsIn(steps) < ID_LIMIT
    requires 0 < k <= l.s.id && l.s.running && k in l.s.tasks && !l.s.tasks[k].stopped
    requires l.s.tasks[k].when <= l.clock
    requires !Inert(Run(l, steps).s, k)
    ensures |Ahead(Run(l, steps).s, k)| + PassesIn(steps) <= |Ahead(l.s, k)| + UnnamedIn(steps)
    decreases |steps|
  {
    if steps != [] {
      var step := steps[0];
      var l1 := Take(l, step);
      TakeAccounted(l, step);
      assert !Inert(l1.s, k) by {
        if Inert(l1.s, k) { NeverFiresFrom(l1, steps[1..], k); }
      }
      StillRunning(l, step, k);
      assert AccountedAt(l, k) && AccountedAt(l1, k) && GrowsAt(l, l1, k);
      AheadAfterTake(l, step, k);
      assert [step][1..] == [];
      BoundedWaiting(l1, steps[1..], k);
    }
  }

  lemma {:induction false} StillRunning<A>(l: Log<A>, step: Step<A>, k: nat)
    requires l.s.running && !Inert(Take(l, step).s, k) && 0 < k
    requires Accounted(l) && Allowed(l, step) && l.s.id + Adds(Ops(step)) < ID_LIMIT && k <= l.s.id
    ensures Take(l, step).s.running
  {
    var l1 := l.(clock := step.now);
    forall x: nat ensures AccountedAt(l1, x) { assert AccountedAt(l, x); }
    if step.Pass? {
      RunningUnlessInert(l1, step.ops, k);
    }
  }

  lemma {:induction false} RunningUnlessInert<A>(l: Log<A>, ops: seq<Op<A>>, k: nat)
    requires Accounted(l) && l.s.id + Adds(ops) < ID_LIMIT && 0 < k <= l.s.id
    requires l.s.running || Inert(l.s, k)
    ensures NoteAll(l, ops).s.running || Inert(NoteAll(l, ops).s, k)
    decreases |ops|
  {
    if ops != [] {
      NoteAccounted(l, ops[0]);
      assert GrowsAt(l, Note(l, ops[0]), k);
      RunningUnlessInert(Note(l, ops[0]), ops[1..], k);
    }
  }

  /** Hence a due event has fired, or has been cancelled or stopped, once there have been as
      many passes as there were live entries up to it plus tasks added without an id. */
  lemma {:induction false} DueEventsAreServed<A>(l: Log<A>, steps: seq<Step<A>>, k: nat)
    requires Accounted(l) && AllowedRun(l, steps) && l.s.id + AddsIn(steps) < ID_LIMIT
    requires 0 < k <= l.s.id && l.s.running && k in l.s.tasks && !l.s.tasks[k].stopped
    requires l.s.tasks[k].when <= l.clock
    requires PassesIn(steps) >= |Ahead(l.s, k)| + UnnamedIn(steps)
    ensures var l' := Run(l, steps);
      k in l'.fired || k in l'.cancelled || (k in l'.s.tasks && l'.s.tasks[k].stopped)
  {
    var l' := Run(l, steps);
    if !Inert(l'.s, k) {
      assert k in Ahead(l'.s, k);
      BoundedWaiting(l, steps, k);
    }
    RunAccounted(l, steps);
    assert AccountedAt(l, k) && AccountedAt(l', k) && GrowsAt(l, l', k);
  }
}
