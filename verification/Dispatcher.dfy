/** The dispatcher object: a table of task objects in id order, changed in place. */
module Dispatchers {
  import opened Auxiliar
  import Scheduler

  /** A task object; only its stop flag changes after it is made. */
  class Task<A> {
    const when: nat
    const action: A
    var stopped: bool

    constructor (now: nat, delay: nat, action: A)
      ensures when == now + delay && this.action == action && !stopped
    {
      this.when := now + delay;
      this.action := action;
      stopped := false;
    }

    method SetStopped(stopped: bool)
      modifies this`stopped
      ensures this.stopped == stopped
    {
      this.stopped := stopped;
    }

    ghost function View(): Scheduler.Task<A>
      reads this
    {
      Scheduler.Task(when, stopped, action)
    }
  }

  class Dispatcher<A> {
    var tasks: map<nat, Task<A>>
    var id: nat
    var running: bool
    ghost var state: Scheduler.Sched<A>

    /** No task object is in the table twice. */
    ghost predicate Distinct()
      reads this
    {
      forall j, k | j in tasks && k in tasks && j != k :: tasks[j] != tasks[k]
    }

    /** `state` is what the fields and task objects amount to. */
    ghost predicate Valid()
      reads this, tasks.Values
    {
      Distinct() && state == View()
    }

    ghost function View(): Scheduler.Sched<A>
      reads this, tasks.Values
    {
      Scheduler.Sched(map k | k in tasks :: tasks[k].View(), id, running)
    }

    constructor ()
      ensures Valid() && state == Scheduler.Sched(map[], 0, false) && tasks == map[]
    {
      tasks := map[];
      id := 0;
      running := false;
      state := Scheduler.Sched(map[], 0, false);
    }

    /** Starting a scheduler that runs already does nothing. */
    method Start()
      requires Valid()
      modifies this`running, this`state
      ensures Valid() && state == old(state).(running := true)
    {
      if !running {
        running := true;
        state := View();
      }
    }

    /** An id that is taken keeps its entry. */
    method Insert(k: nat, task: Task<A>)
      requires Distinct() && task !in tasks.Values
      modifies this`tasks, this`state
      ensures Valid() && tasks.Values <= old(tasks.Values) + {task}
      ensures state == old(View()).(tasks := Scheduler.Insert(old(View()).tasks, k, task.View()))
    {
      if k !in tasks {
        tasks := tasks[k := task];
      }
      state := View();
    }

    method AddEvent(now: nat, delay: nat, action: A) returns (eventId: nat)
      requires Valid()
      modifies this
      ensures Valid() && fresh(tasks.Values - old(tasks.Values))
      ensures state == Scheduler.Apply(old(state), now, Scheduler.AddEvent(delay, action))
      ensures eventId == id == state.id
    {
      var task := new Task<A>(now, delay, action);
      hide Scheduler.NextId, Scheduler.Insert;
      eventId := Scheduler.NextId(id);
      id := eventId;
      assert View() == old(View()).(id := eventId);
      Insert(eventId, task);
    }

    method AddTask(now: nat, delay: nat, action: A)
      requires Valid()
      modifies this
      ensures Valid() && fresh(tasks.Values - old(tasks.Values))
      ensures state == Scheduler.Apply(old(state), now, Scheduler.AddTask(delay, action))
      ensures state.tasks == if 0 in old(tasks) then old(state).tasks
                             else old(state).tasks[0 := Scheduler.Task(now + delay, false, action)]
    {
      var task := new Task<A>(now, delay, action);
      Insert(0, task);
    }

    method StopEvent(now: nat, eventId: nat)
      requires Valid()
      modifies this, tasks.Values
      ensures Valid() && tasks.Values <= old(tasks.Values)
      ensures state == Scheduler.Apply(old(state), now, Scheduler.StopEvent(eventId))
    {
      if eventId !in tasks {
        return;
      }
      tasks[eventId].SetStopped(true);
      Erase(eventId);
    }

    /** Stopping leaves every entry in the table, marked. */
    method Stop(now: nat)
      requires Valid()
      modifies this, tasks.Values
      ensures Valid() && tasks == old(tasks)
      ensures state == Scheduler.Apply(old(state), now, Scheduler.Stop)
    {
      running := false;
      MarkAll();
      state := View();
    }

    method MarkAll()
      modifies tasks.Values
      ensures forall k | k in tasks :: tasks[k].stopped
    {
      ghost var left := tasks.Keys;
      var it := LowerBound(0);
      while it.Some?
        invariant it.Some? ==> it.value in tasks && it.value in left
        invariant forall k | k in tasks && it.Some? && it.value <= k :: k in left
        invariant forall k | k in tasks :: (it.Some? ==> k < it.value) ==> tasks[k].stopped
        decreases left
      {
        tasks[it.value].SetStopped(true);
        left := left - {it.value};
        it := LowerBound(it.value + 1);
      }
    }

    /** The first id of the table that is not below `from`. */
    method LowerBound(from: nat) returns (k: Option<nat>)
      ensures k.Some? ==> k.value in tasks && from <= k.value
      ensures forall x | x in tasks && from <= x :: k.Some? && k.value <= x
    {
      var rest := set x | x in tasks && from <= x;
      k := None;
      while rest != {}
        invariant k.Some? ==> k.value in tasks && from <= k.value
        invariant forall x | x in tasks && from <= x :: x in rest || (k.Some? && k.value <= x)
        decreases rest
      {
        var x :| x in rest;
        if k.None? || x < k.value {
          k := Some(x);
        }
        rest := rest - {x};
      }
    }

    method Perform(now: nat, ops: seq<Scheduler.Op<A>>)
      requires Valid()
      modifies this, tasks.Values
      ensures Valid() && fresh(tasks.Values - old(tasks.Values))
      ensures state == Scheduler.ApplyAll(old(state), now, ops)
    {
      var i := 0;
      while i < |ops|
        invariant i <= |ops| && Valid() && fresh(tasks.Values - old(tasks.Values))
        invariant Scheduler.ApplyAll(state, now, ops[i..]) == Scheduler.ApplyAll(old(state), now, ops)
        decreases |ops| - i
      {
        match ops[i] {
          case AddEvent(delay, a) => var _ := AddEvent(now, delay, a);
          case AddTask(delay, a) => AddTask(now, delay, a);
          case StopEvent(k) => StopEvent(now, k);
          case Stop => Stop(now);
        }
        assert ops[i..][1..] == ops[i+1..];
        i := i + 1;
      }
    }

    /** One trip over the table.  The first live entry whose time has come is called, which
        performs `ops`, and is erased afterwards; the trip ends there. */
    method Pass(now: nat, ops: seq<Scheduler.Op<A>>) returns (fired: Option<nat>)
      requires Valid()
      modifies this, tasks.Values
      ensures Valid() && fresh(tasks.Values - old(tasks.Values))
      ensures fired == Scheduler.LeastDue(old(state), now)
      ensures state == Scheduler.PassOnce(old(state), now, ops)
    {
      ghost var view := state;
      ghost var left := tasks.Keys;
      var it := LowerBound(0);
      while it.Some?
        invariant unchanged(this) && Valid() && state == view
        invariant it.Some? ==> it.value in tasks && it.value in left
        invariant forall k | k in tasks && it.Some? && it.value <= k :: k in left
        invariant forall k: nat | it.Some? ==> k < it.value :: !Scheduler.IsDue(view, now, k)
        decreases left
      {
        var task := tasks[it.value];
        assert view.tasks[it.value] == task.View();
        if !task.stopped && now >= task.when {
          Scheduler.LeastDueIs(view, now, it.value);
          Perform(now, ops);
          Erase(it.value);
          return it;
        }
        left := left - {it.value};
        it := LowerBound(it.value + 1);
      }
      return None;
    }

    method Erase(k: nat)
      requires Distinct()
      modifies this`tasks, this`state
      ensures Valid() && tasks.Values <= old(tasks.Values)
      ensures state == old(View()).(tasks := old(View()).tasks - {k})
    {
      tasks := tasks - {k};
      state := View();
    }

    lemma {:induction false} RunningIs()
      requires Valid()
      ensures running == state.running
    {}

    /** The firing loop: trip after trip until it is stopped, here for as many as there are given
        a time and the operations of the callback. */
    method DispatcherThread(passes: seq<Scheduler.Step<A>>, ghost log: Scheduler.Log<A>) returns (fired: seq<nat>)
      requires Valid() && state == log.s && forall p | p in passes :: p.Pass?
      modifies this, tasks.Values
      ensures Valid() && fresh(tasks.Values - old(tasks.Values))
      ensures var end := Scheduler.Run(log, passes); state == end.s && log.fired + fired == end.fired
    {
      hide Scheduler.Take, Scheduler.PassOnce, Dispatcher.Valid, Dispatcher.View, Dispatcher.Distinct;
      ghost var l := log;
      fired := [];
      var i := 0;
      assert passes[0..] == passes;
      RunningIs();
      while running && i < |passes|
        invariant i <= |passes| && Valid() && fresh(tasks.Values - old(tasks.Values))
        invariant state == l.s && running == state.running && log.fired + fired == l.fired
        invariant Scheduler.Run(l, passes[i..]) == Scheduler.Run(log, passes)
        decreases |passes| - i
      {
        Scheduler.TakenState(l, passes[i]);
        Scheduler.TakenFired(l, passes[i]);
        assert passes[i..][0] == passes[i] && passes[i..][1..] == passes[i+1..];
        l := Scheduler.Take(l, passes[i]);
        var k := Pass(passes[i].now, passes[i].ops);
        fired := fired + if k.Some? then [k.value] else [];
        RunningIs();
        i := i + 1;
      }
      Scheduler.StandsStill(l, passes[i..]);
    }
  }
}
