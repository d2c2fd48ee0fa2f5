/**
 * The supervisors' bookkeeping, reduced to the states of their futures. A
 * supervisor starts one worker per active source (or device), keeps the
 * snapshot of that first list, and on every tick compares the current active
 * list with the snapshot, tries to drop failed workers, starts workers for the
 * newcomers and ends when every worker is done. `K` is what the supervisor
 * compares: a source or a device.
 */
module Reconciliation {

  /** The observable state of a future. */
  datatype TaskState = Running | Completed | Failed | Cancelled

  /** `isDone`: anything but running. */
  predicate IsDone(s: TaskState) {
    s != Running
  }

  /** `isCompletedExceptionally`: failed or cancelled. */
  predicate IsExceptional(s: TaskState) {
    s == Failed || s == Cancelled
  }

  /** A worker future and the item it serves. */
  datatype Task<K> = Task(item: K, state: TaskState)

  /**
   * The items of `current` that are not in the snapshot, each once as the hash
   * set of the difference holds it (at its last position in the list).
   */
  function Added<K(==)>(snapshot: set<K>, current: seq<K>): (r: seq<K>)
    ensures forall x | x in r :: x in current && x !in snapshot
    ensures forall x | x in current && x !in snapshot :: x in r
    ensures forall i, j | 0 <= i < j < |r| :: r[i] != r[j]
    ensures |r| <= |current|
    ensures r == [] <==> forall x | x in current :: x in snapshot
  {
    if current == [] then []
    else
      var rest := Added(snapshot, current[1..]);
      assert forall x | x in current :: x == current[0] || x in current[1..];
      if current[0] in snapshot || current[0] in current[1..] then rest
      else
        assert current[0] !in rest;
        [current[0]] + rest
  }

  /** The snapshot's items that are no longer in the current list. */
  function Removed<K(==)>(snapshot: set<K>, current: seq<K>): (r: set<K>)
    ensures r <= snapshot
    ensures forall x | x in current :: x !in r
  {
    set x | x in snapshot && x !in current
  }

  /** An item stays in the snapshot exactly when it is still current. */
  lemma RemovedExactly<K>(snapshot: set<K>, current: seq<K>, x: K)
    requires x in snapshot
    ensures x in Removed(snapshot, current) <==> x !in current
  {
  }

  /** A fresh running future for each item, in order. */
  function Spawn<K>(items: seq<K>): (ts: seq<Task<K>>)
    ensures |ts| == |items|
    ensures forall i | 0 <= i < |ts| :: ts[i] == Task(items[i], Running)
  {
    seq(|items|, i requires 0 <= i < |items| => Task(items[i], Running))
  }

  /** Some future completed exceptionally: the removal filter would drop it. */
  predicate AnyExceptional<K>(tasks: seq<Task<K>>) {
    exists i | 0 <= i < |tasks| :: IsDone(tasks[i].state) && IsExceptional(tasks[i].state)
  }

  /** `allMatch(isDone)`. */
  predicate AllDone<K>(tasks: seq<Task<K>>) {
    forall i | 0 <= i < |tasks| :: IsDone(tasks[i].state)
  }

  /**
   * How a tick ends. `Throws`: the removal filter found a future to remove,
   * and removing from the list it is streaming over throws, so the supervisor
   * leaves through its cleanup. `Completes`: every future is done.
   */
  datatype TickOutcome<K> = Continue(tasks: seq<Task<K>>) | Completes(tasks: seq<Task<K>>) | Throws(tasks: seq<Task<K>>)

  /** One pass of the supervisor's loop body, after the loop condition held. */
  function Tick<K(==)>(snapshot: set<K>, current: seq<K>, tasks: seq<Task<K>>): (o: TickOutcome<K>)
    ensures o.Throws? <==> Removed(snapshot, current) != {} && AnyExceptional(tasks)
    ensures !o.Throws? ==> o.tasks == tasks + Spawn(Added(snapshot, current))
    ensures o.Throws? ==> o.tasks == tasks
    ensures o.Completes? <==> !o.Throws? && AllDone(o.tasks)
  {
    if Removed(snapshot, current) != {} && AnyExceptional(tasks) then Throws(tasks)
    else
      var ts := tasks + Spawn(Added(snapshot, current));
      if AllDone(ts) then Completes(ts) else Continue(ts)
  }

  /**
   * The snapshot is never refreshed: an item active now and absent from the
   * snapshot gets one more running future on every tick that does not abort,
   * however many it already has, so such a tick never finishes.
   */
  lemma NewcomerRespawnedEveryTick<K>(snapshot: set<K>, current: seq<K>, tasks: seq<Task<K>>, x: K)
    requires x in current && x !in snapshot
    requires !Tick(snapshot, current, tasks).Throws?
    ensures Tick(snapshot, current, tasks).Continue?
    ensures exists i | |tasks| <= i < |Tick(snapshot, current, tasks).tasks| ::
              Tick(snapshot, current, tasks).tasks[i] == Task(x, Running)
  {
    var added := Added(snapshot, current);
    var k :| 0 <= k < |added| && added[k] == x;
    var ts := Tick(snapshot, current, tasks).tasks;
    assert ts[|tasks| + k] == Task(x, Running);
  }

  /**
   * The removal filter ignores which item left: when no future failed, the
   * futures of removed items all stay in the list.
   */
  lemma RemovalKeepsFuturesOfRemovedItems<K>(snapshot: set<K>, current: seq<K>, tasks: seq<Task<K>>)
    requires !AnyExceptional(tasks)
    ensures Tick(snapshot, current, tasks).tasks[..|tasks|] == tasks
  {
  }

  /** `task.cancel(true)` on every future: the running ones become cancelled, the done ones keep their state. */
  function CancelAll<K>(tasks: seq<Task<K>>): (r: seq<Task<K>>)
    ensures |r| == |tasks| && AllDone(r)
    ensures forall i | 0 <= i < |r| :: r[i].item == tasks[i].item
    ensures forall i | 0 <= i < |r| && IsDone(tasks[i].state) :: r[i] == tasks[i]
  {
    seq(|tasks|, i requires 0 <= i < |tasks| =>
      if IsDone(tasks[i].state) then tasks[i] else Task(tasks[i].item, Cancelled))
  }

  /**
   * What the other threads did since the previous tick: whether the loop's
   * flag still holds, the active list the supervisor reads, and the futures
   * (by position) that completed meanwhile and how.
   */
  datatype Observation<K> = Observation(flag: bool, active: seq<K>, settled: map<nat, TaskState>)

  /** Futures that were running take the state observed for them; done futures never change. */
  function Settle<K>(tasks: seq<Task<K>>, settled: map<nat, TaskState>): (r: seq<Task<K>>)
    ensures |r| == |tasks|
    ensures forall i | 0 <= i < |r| :: r[i].item == tasks[i].item
    ensures forall i | 0 <= i < |r| && IsDone(tasks[i].state) :: r[i] == tasks[i]
  {
    seq(|tasks|, i requires 0 <= i < |tasks| =>
      if !IsDone(tasks[i].state) && i in settled then Task(tasks[i].item, settled[i]) else tasks[i])
  }

  /** How a supervisor's run over the observations ends. */
  datatype Exit = StillRunning | Stopped | Finished | Aborted

  /** The supervisor's futures and flag after a run. */
  datatype SupervisorRun<K> = SupervisorRun(exit: Exit, tasks: seq<Task<K>>, flag: bool)

  /**
   * The supervisor's loop over the ticks described by `env`, starting from
   * `tasks` with the loop flag set. `guarded` says whether the loop tests the
   * flag (the charging supervisor does, the device supervisor loops forever).
   * Every way out cancels the futures and clears the flag.
   */
  function Supervise<K(==)>(snapshot: set<K>, tasks: seq<Task<K>>, guarded: bool, env: seq<Observation<K>>): (r: SupervisorRun<K>)
    ensures r.exit == StillRunning <==> r.flag
    ensures r.exit != StillRunning ==> AllDone(r.tasks)
    ensures r.exit == Stopped ==> guarded
    decreases |env|
  {
    if env == [] then SupervisorRun(StillRunning, tasks, true)
    else
      var obs := env[0];
      if guarded && !obs.flag then SupervisorRun(Stopped, CancelAll(tasks), false)
      else
        match Tick(snapshot, obs.active, Settle(tasks, obs.settled))
        case Continue(ts) => Supervise(snapshot, ts, guarded, env[1..])
        case Completes(ts) => SupervisorRun(Finished, CancelAll(ts), false)
        case Throws(ts) => SupervisorRun(Aborted, CancelAll(ts), false)
  }

  /** Cancelling futures that are all done changes nothing, so a finished supervisor cancels nothing. */
  lemma CancelAllOfDone<K>(tasks: seq<Task<K>>)
    requires AllDone(tasks)
    ensures CancelAll(tasks) == tasks
  {
  }

  /** With no newcomer and every future done, a tick that does not abort finishes. */
  lemma NoNewcomerFinishes<K>(snapshot: set<K>, current: seq<K>, tasks: seq<Task<K>>)
    requires forall x | x in current :: x in snapshot
    requires AllDone(tasks) && !Tick(snapshot, current, tasks).Throws?
    ensures Tick(snapshot, current, tasks).Completes?
  {
  }

  /**
   * An item that stays active without being in the snapshot keeps the
   * supervisor from ever finishing: it can only still run, be stopped or abort.
   */
  lemma {:induction false} NewcomerPreventsFinish<K>(snapshot: set<K>, tasks: seq<Task<K>>, guarded: bool,
                                                      env: seq<Observation<K>>, x: K)
    requires x !in snapshot
    requires forall i | 0 <= i < |env| :: x in env[i].active
    ensures Supervise(snapshot, tasks, guarded, env).exit != Finished
    decreases |env|
  {
    if env != [] && !(guarded && !env[0].flag) {
      var ts := Settle(tasks, env[0].settled);
      if !Tick(snapshot, env[0].active, ts).Throws? {
        NewcomerRespawnedEveryTick(snapshot, env[0].active, ts, x);
        NewcomerPreventsFinish(snapshot, Tick(snapshot, env[0].active, ts).tasks, guarded, env[1..], x);
      }
    }
  }
}
