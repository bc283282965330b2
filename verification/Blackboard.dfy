/** Tasks, unit ownership and controllers: the blackboard of `src/blackboard.cpp`
    with the controller tasks of `src/controller.cpp`.

    The list iterators of the source become task ids. Game data and the decisions
    of controllers (which units to keep, whether they are done) are part of an
    update event. An event that is not possible leaves the state alone, so a run
    is any sequence of events. */
module Blackboard {

  type Unit = nat
  type TaskId = int
  type Owner = nat

  /** A controller: with a task of its own, or shared by several tasks. */
  datatype Controller = Own(n: nat) | Shared(n: nat)

  datatype Status = Ongoing | Success | Cancelled | Failure

  datatype Task = Task(controller: Controller, units: set<Unit>, status: Status, owner: Owner, autoRemove: bool) {
    predicate Finished() { status.Success? || status.Failure? || status.Cancelled? }
  }

  type Control = map<Unit, TaskId>

  datatype State = State(
    tasks: map<TaskId, Task>,              // tasksById_
    tasksByUnit: map<Unit, TaskId>,
    tasksByModule: set<(Owner, TaskId)>,
    toBeRemoved: seq<TaskId>,
    controllers: map<Controller, Control>  // the units_ of every controller
  ) {
    function Controls(c: Controller): Control {
      if c in controllers then controllers[c] else map[]
    }

    /** The board assigns `u` to task `id`. */
    predicate Assigned(u: Unit, id: TaskId) {
      u in tasksByUnit && tasksByUnit[u] == id
    }

    predicate Has(id: TaskId, u: Unit) {
      id in tasks && u in tasks[id].units
    }

    predicate ControlledBy(c: Controller, u: Unit, id: TaskId) {
      u in Controls(c) && Controls(c)[u] == id
    }
  }

  const INIT := State(map[], map[], {}, [], map[])

  /** What an update sees: the units that died, the units each controller would
      keep, and the verdicts of single-task controllers. */
  datatype Frame = Frame(died: set<Unit>, kept: set<(Controller, Unit)>, verdict: map<TaskId, Status>)

  datatype Event =
    | Post(id: TaskId, controller: Controller, units: set<Unit>, owner: Owner, autoRemove: bool)
    | Cancel(id: TaskId)
    | MarkForRemoval(id: TaskId)
    | Update(frame: Frame)

  function AddUnits(control: Control, units: set<Unit>, id: TaskId): Control {
    map u | u in control.Keys + units :: if u in units then id else control[u]
  }

  /** removeUnit for the units that are controlled with `id`. */
  function RemoveUnits(control: Control, units: set<Unit>, id: TaskId): Control {
    map u | u in control && !(u in units && control[u] == id) :: control[u]
  }

  /** Builds a controller task and posts it; posting under an id that is on the
      board is refused. */
  function DoPost(s: State, id: TaskId, c: Controller, units: set<Unit>, owner: Owner, autoRemove: bool): State {
    if id in s.tasks then s
    else s.(tasks := s.tasks[id := Task(c, units, Ongoing, owner, autoRemove)],
            tasksByUnit := AddUnits(s.tasksByUnit, units, id),
            tasksByModule := s.tasksByModule + {(owner, id)},
            controllers := s.controllers[c := AddUnits(s.Controls(c), units, id)])
  }

  function DoCancel(s: State, id: TaskId): State {
    if id !in s.tasks || !s.tasks[id].status.Ongoing? then s
    else
      var t := s.tasks[id];
      s.(tasks := s.tasks[id := t.(units := {}, status := Cancelled)],
         controllers := s.controllers[t.controller := RemoveUnits(s.Controls(t.controller), t.units, id)])
  }

  /** The board without the assignments to the given tasks. */
  function Unassign(byUnit: map<Unit, TaskId>, ids: set<TaskId>): map<Unit, TaskId> {
    map u | u in byUnit && byUnit[u] !in ids :: byUnit[u]
  }

  /** First part of an update: drops the tasks that are due, then dead units. */
  function RemovePending(s: State, died: set<Unit>): State {
    var gone := set id | id in s.toBeRemoved && id in s.tasks;
    s.(tasks := s.tasks - gone,
       tasksByUnit := Unassign(s.tasksByUnit, gone) - died,
       tasksByModule := (set p | p in s.tasksByModule && p.1 !in gone),
       toBeRemoved := [])
  }

  /** The units an ongoing task keeps: still assigned to it, and wanted. */
  function Keeps(s: State, id: TaskId, t: Task, kept: set<(Controller, Unit)>): set<Unit> {
    set u | u in t.units && s.Assigned(u, id) && (t.controller, u) in kept
  }

  /** How an ongoing task stands after its update. */
  function NewStatus(t: Task, units: set<Unit>, id: TaskId, verdict: map<TaskId, Status>): Status {
    if t.controller.Shared? then (if units == {} then Failure else Ongoing)
    else if id in verdict && (verdict[id].Success? || verdict[id].Failure?) then verdict[id]
    else Ongoing
  }

  /** What a controller task does in its update. */
  function UpdateTask(s: State, id: TaskId, f: Frame): State
    requires id in s.tasks
  {
    var t := s.tasks[id];
    if !t.status.Ongoing? then s
    else
      var units := Keeps(s, id, t, f.kept);
      s.(tasks := s.tasks[id := t.(units := units, status := NewStatus(t, units, id, f.verdict))],
         controllers := s.controllers[t.controller := RemoveUnits(s.Controls(t.controller), t.units - units, id)])
  }

  /** The board's part: re-registers a task's units, schedules its removal. */
  function Register(s: State, id: TaskId): State
    requires id in s.tasks
  {
    var t := s.tasks[id];
    s.(tasksByUnit := AddUnits(Unassign(s.tasksByUnit, {id}), t.units, id),
       toBeRemoved := if t.autoRemove && t.Finished() then s.toBeRemoved + [id] else s.toBeRemoved)
  }

  /** Updates the tasks one after the other. */
  function UpdateAll(s: State, ids: seq<TaskId>, f: Frame): State
    requires forall i :: 0 <= i < |ids| ==> ids[i] in s.tasks
    decreases |ids|
  {
    if ids == [] then s
    else
      var s' := Register(UpdateTask(s, ids[0], f), ids[0]);
      UpdateAll(s', ids[1..], f)
  }

  /** All ids, the most recent first. */
  ghost predicate NewestFirst(ids: seq<TaskId>, all: set<TaskId>) {
    && (forall i :: 0 <= i < |ids| ==> ids[i] in all)
    && (forall id :: id in all ==> id in ids)
    && (forall i, j :: 0 <= i < j < |ids| ==> ids[i] > ids[j])
  }

  predicate IsNewest(m: TaskId, ids: set<TaskId>) {
    m in ids && forall i :: i in ids ==> i <= m
  }

  lemma {:induction false} NewestExists(ids: set<TaskId>, x: TaskId) returns (m: TaskId)
    requires x in ids
    ensures IsNewest(m, ids)
    decreases ids
  {
    m := x;
    if y :| y in ids && y > x {
      m := NewestExists(ids - {x}, y);
      assert forall i :: i in ids ==> i == x || i in ids - {x};
    }
  }

  ghost function Descending(ids: set<TaskId>): (r: seq<TaskId>)
    ensures NewestFirst(r, ids)
  {
    if m :| IsNewest(m, ids) then [m] + Descending(ids - {m})
    else
      assert forall x :: x !in ids by {
        forall x | x in ids ensures false {
          var m := NewestExists(ids, x);
        }
      }
      []
  }

  ghost function DoUpdate(s: State, f: Frame): State {
    var s1 := RemovePending(s, f.died);
    UpdateAll(s1, Descending(s1.tasks.Keys), f)
  }

  ghost function Apply(s: State, e: Event): State {
    match e
    case Post(id, c, units, owner, autoRemove) => DoPost(s, id, c, units, owner, autoRemove)
    case Cancel(id) => DoCancel(s, id)
    case MarkForRemoval(id) => s.(toBeRemoved := s.toBeRemoved + [id])
    case Update(f) => DoUpdate(s, f)
  }

  ghost function Run(es: seq<Event>): State
    decreases |es|
  {
    if es == [] then INIT else Apply(Run(es[..|es| - 1]), es[|es| - 1])
  }

  /** The unit index is exactly the tasks' unit sets. */
  ghost predicate Exact(s: State) {
    forall u, id :: s.Assigned(u, id) <==> s.Has(id, u)
  }

  ghost predicate Disjoint(s: State) {
    forall a, b :: a in s.tasks && b in s.tasks && a != b ==> s.tasks[a].units !! s.tasks[b].units
  }

  lemma ExactIsDisjoint(s: State)
    requires Exact(s)
    ensures Disjoint(s)
  {
    forall a, b | a in s.tasks && b in s.tasks && a != b ensures s.tasks[a].units !! s.tasks[b].units {
      forall u | u in s.tasks[a].units ensures u !in s.tasks[b].units {
        assert s.Has(a, u) && s.Assigned(u, a);
        assert s.Has(b, u) ==> s.Assigned(u, b);
      }
    }
  }

  /** A unit is assigned to a task on the board, and an ongoing task has it. */
  ghost predicate AssignedOk(s: State, u: Unit)
    requires u in s.tasksByUnit
  {
    var id := s.tasksByUnit[u];
    id in s.tasks && (s.tasks[id].status.Ongoing? ==> u in s.tasks[id].units)
  }

  ghost predicate BoardInv(s: State) {
    && (forall u :: u in s.tasksByUnit ==> AssignedOk(s, u))
    && s.tasksByModule == Owners(s.tasks)
  }

  function Owners(tasks: map<TaskId, Task>): set<(Owner, TaskId)> {
    set id | id in tasks :: (tasks[id].owner, id)
  }

  // ---------------------------------------------------------------------
  // One turn, for one unit
  // ---------------------------------------------------------------------

  function Turn(s: State, id: TaskId, f: Frame): State
    requires id in s.tasks
  {
    Register(UpdateTask(s, id, f), id)
  }

  /** A finished task that is still on the board has the unit. */
  ghost predicate LeftoverHas(s: State, l: TaskId, u: Unit) {
    s.Has(l, u) && !s.tasks[l].status.Ongoing?
  }

  /** An ongoing task has the unit, is assigned it, and its controller keeps it. */
  ghost predicate Claims(s: State, o: TaskId, u: Unit, f: Frame) {
    s.Has(o, u) && s.tasks[o].status.Ongoing? && s.Assigned(u, o) && (s.tasks[o].controller, u) in f.kept
  }

  ghost predicate Takes(s: State, id: TaskId, u: Unit, f: Frame) {
    LeftoverHas(s, id, u) || Claims(s, id, u, f)
  }

  /** Everything but units, status and assignments is the same. */
  ghost predicate SameTasks(s: State, s': State) {
    && s'.tasks.Keys == s.tasks.Keys && s'.tasksByModule == s.tasksByModule
    && forall o :: o in s.tasks ==>
         && s'.tasks[o].owner == s.tasks[o].owner && s'.tasks[o].controller == s.tasks[o].controller
         && s'.tasks[o].autoRemove == s.tasks[o].autoRemove
  }

  /** One turn: the task has the unit if it takes it, and then the unit is its own,
      whoever else has it. */
  lemma TurnMeans(s: State, id: TaskId, f: Frame, u: Unit)
    requires id in s.tasks
    ensures var s' := Turn(s, id, f);
            && SameTasks(s, s') && (forall o :: o in s.tasks && o != id ==> s'.tasks[o] == s.tasks[o])
            && (s'.Has(id, u) <==> Takes(s, id, u, f))
            && (forall o :: s'.Assigned(u, o) <==> if Takes(s, id, u, f) then o == id else o != id && s.Assigned(u, o))
  {
  }

  /** What a turn means for the claims of the other tasks. */
  lemma TurnOfOther(s: State, id: TaskId, f: Frame, o: TaskId, u: Unit)
    requires id in s.tasks && o != id
    ensures var s' := Turn(s, id, f);
            && (LeftoverHas(s', o, u) <==> LeftoverHas(s, o, u))
            && (Claims(s', o, u, f) <==> Claims(s, o, u, f) && !LeftoverHas(s, id, u))
  {
    TurnMeans(s, id, f, u);
    hide Turn;
  }

  // ---------------------------------------------------------------------
  // All turns, for one unit
  // ---------------------------------------------------------------------

  ghost predicate Decreasing(ids: seq<TaskId>) {
    forall i, j :: 0 <= i < j < |ids| ==> ids[i] > ids[j]
  }

  ghost predicate AnyLeftover(s: State, ids: seq<TaskId>, u: Unit) {
    exists l :: l in ids && LeftoverHas(s, l, u)
  }

  ghost predicate NewerLeftover(s: State, ids: seq<TaskId>, o: TaskId, u: Unit) {
    exists l :: l in ids && l > o && LeftoverHas(s, l, u)
  }

  ghost predicate OlderLeftover(s: State, ids: seq<TaskId>, o: TaskId, u: Unit) {
    exists l :: l in ids && l < o && LeftoverHas(s, l, u)
  }

  /** The tasks that have yet to turn look at the same leftovers. */
  lemma LeftoversOfRest(s: State, ids: seq<TaskId>, f: Frame, o: TaskId, u: Unit)
    requires ids != [] && Decreasing(ids) && forall i :: 0 <= i < |ids| ==> ids[i] in s.tasks
    ensures var s1, rest := Turn(s, ids[0], f), ids[1..];
            && (AnyLeftover(s, ids, u) <==> LeftoverHas(s, ids[0], u) || AnyLeftover(s1, rest, u))
            && (NewerLeftover(s, ids, o, u) <==>
                  (ids[0] > o && LeftoverHas(s, ids[0], u)) || NewerLeftover(s1, rest, o, u))
            && (OlderLeftover(s, ids, o, u) <==>
                  (ids[0] < o && LeftoverHas(s, ids[0], u)) || OlderLeftover(s1, rest, o, u))
  {
    var s1, rest := Turn(s, ids[0], f), ids[1..];
    assert forall l :: l in ids <==> l == ids[0] || l in rest;
    forall l | l in rest ensures l != ids[0] && (LeftoverHas(s1, l, u) <==> LeftoverHas(s, l, u)) {
      TurnOfOther(s, ids[0], f, l, u);
    }
    hide Turn, LeftoverHas;
  }

  lemma RestReady(s: State, ids: seq<TaskId>, f: Frame)
    requires ids != [] && Decreasing(ids) && forall i :: 0 <= i < |ids| ==> ids[i] in s.tasks
    ensures var s1, rest := Turn(s, ids[0], f), ids[1..];
            && Decreasing(rest) && (forall i :: 0 <= i < |rest| ==> rest[i] in s1.tasks) && ids[0] !in rest
            && (forall o :: o in ids && o != ids[0] ==> o in rest && o < ids[0])
            && SameTasks(s, s1) && UpdateAll(s, ids, f) == UpdateAll(s1, rest, f)
  {
    TurnMeans(s, ids[0], f, 0);
  }

  lemma {:induction false} TurnsKeepTasks(s: State, ids: seq<TaskId>, f: Frame)
    requires Decreasing(ids) && forall i :: 0 <= i < |ids| ==> ids[i] in s.tasks
    ensures SameTasks(s, UpdateAll(s, ids, f))
    decreases |ids|
  {
    if ids != [] {
      hide Turn;
      RestReady(s, ids, f);
      TurnsKeepTasks(Turn(s, ids[0], f), ids[1..], f);
    }
  }

  /** A task without a turn loses a unit exactly to a leftover task. */
  lemma {:induction false} AfterTurnsOfOthers(s: State, ids: seq<TaskId>, f: Frame, o: TaskId, u: Unit)
    requires Decreasing(ids) && (forall i :: 0 <= i < |ids| ==> ids[i] in s.tasks) && o !in ids
    ensures var s' := UpdateAll(s, ids, f);
            && (s'.Has(o, u) <==> s.Has(o, u))
            && (s'.Assigned(u, o) <==> s.Assigned(u, o) && !AnyLeftover(s, ids, u))
    decreases |ids|
  {
    if ids != [] {
      var s1 := Turn(s, ids[0], f);
      RestReady(s, ids, f);
      TurnMeans(s, ids[0], f, u);
      LeftoversOfRest(s, ids, f, o, u);
      hide Turn, AnyLeftover, SameTasks, Decreasing;
      AfterTurnsOfOthers(s1, ids[1..], f, o, u);
    }
  }

  /** A task with a turn has the unit afterwards exactly if it is a leftover task
      that has it, or it claims it and no newer leftover task has it; and the unit
      is its own exactly if, besides, no older leftover task has it. */
  lemma {:induction false} AfterTurns(s: State, ids: seq<TaskId>, f: Frame, o: TaskId, u: Unit)
    requires Decreasing(ids) && (forall i :: 0 <= i < |ids| ==> ids[i] in s.tasks) && o in ids
    ensures var s' := UpdateAll(s, ids, f);
            && (s'.Has(o, u) <==> LeftoverHas(s, o, u) || (Claims(s, o, u, f) && !NewerLeftover(s, ids, o, u)))
            && (s'.Assigned(u, o) <==> s'.Has(o, u) && !OlderLeftover(s, ids, o, u))
    decreases |ids|
  {
    var s1, rest := Turn(s, ids[0], f), ids[1..];
    RestReady(s, ids, f);
    LeftoversOfRest(s, ids, f, o, u);
    if o == ids[0] {
      TurnMeans(s, o, f, u);
      AfterTurnsOfOthers(s1, rest, f, o, u);
      assert forall l :: l in rest ==> l < o;
    } else {
      TurnOfOther(s, ids[0], f, o, u);
      hide Turn, LeftoverHas, Claims;
      AfterTurns(s1, rest, f, o, u);
    }
  }

  // ---------------------------------------------------------------------
  // A whole update
  // ---------------------------------------------------------------------

  /** What is left after the first part of an update keeps the invariant. */
  lemma PendingRemoved(s: State, died: set<Unit>)
    requires BoardInv(s)
    ensures BoardInv(RemovePending(s, died))
  {
    var s' := RemovePending(s, died);
    forall u | u in s'.tasksByUnit ensures AssignedOk(s', u) {
      assert AssignedOk(s, u);
    }
    forall p | p in s.tasksByModule && p.1 in s'.tasks ensures p in Owners(s'.tasks) {
      assert p == (s'.tasks[p.1].owner, p.1);
    }
  }

  /** A finished task that is on the board, and newer than `o`, has the unit. */
  ghost predicate Newer(s: State, o: TaskId, u: Unit) {
    exists l :: l > o && LeftoverHas(s, l, u)
  }

  /** ... or older. */
  ghost predicate Older(s: State, o: TaskId, u: Unit) {
    exists l :: l < o && LeftoverHas(s, l, u)
  }

  /** Who has a unit after an update, and whose it is, from the board before the
      turns: for every board, with or without automatic removal. */
  lemma UpdateMeans(s: State, f: Frame, o: TaskId, u: Unit)
    requires BoardInv(s)
    ensures var s1, s' := RemovePending(s, f.died), DoUpdate(s, f);
            && (s'.Has(o, u) <==> LeftoverHas(s1, o, u) || (Claims(s1, o, u, f) && !Newer(s1, o, u)))
            && (s'.Assigned(u, o) <==> s'.Has(o, u) && !Older(s1, o, u))
  {
    PendingRemoved(s, f.died);
    var s1 := RemovePending(s, f.died);
    hide RemovePending;
    var ids := Descending(s1.tasks.Keys);
    hide Descending;
    assert forall l :: LeftoverHas(s1, l, u) ==> l in ids;
    if o in ids {
      AfterTurns(s1, ids, f, o, u);
    } else {
      AfterTurnsOfOthers(s1, ids, f, o, u);
      assert u in s1.tasksByUnit ==> AssignedOk(s1, u);
    }
  }

  lemma UpdateKeepsTasks(s: State, f: Frame)
    ensures SameTasks(RemovePending(s, f.died), DoUpdate(s, f))
  {
    hide RemovePending, Descending;
    var s1 := RemovePending(s, f.died);
    TurnsKeepTasks(s1, Descending(s1.tasks.Keys), f);
  }

  lemma UpdateKeeps(s: State, f: Frame)
    requires BoardInv(s)
    ensures BoardInv(DoUpdate(s, f))
  {
    var s1, s' := RemovePending(s, f.died), DoUpdate(s, f);
    PendingRemoved(s, f.died);
    UpdateKeepsTasks(s, f);
    hide RemovePending, DoUpdate;
    forall u | u in s'.tasksByUnit ensures AssignedOk(s', u) {
      UpdateMeans(s, f, s'.tasksByUnit[u], u);
      assert s'.Assigned(u, s'.tasksByUnit[u]);
    }
    assert Owners(s'.tasks) == Owners(s1.tasks);
  }

  /** No finished task that stays on the board shares a unit with another such
      task, nor with a newer task that claims the unit. */
  ghost predicate NoConflict(s: State, f: Frame) {
    && (forall a, b, u :: LeftoverHas(s, a, u) && LeftoverHas(s, b, u) ==> a == b)
    && (forall o, l, u :: Claims(s, o, u, f) && LeftoverHas(s, l, u) ==> o < l)
  }

  /** The index is exact after an update, and the unit sets are disjoint, exactly if
      there is no such conflict when the turns begin. */
  lemma ExactExactly(s: State, f: Frame)
    requires BoardInv(s)
    ensures var s' := DoUpdate(s, f);
            (Exact(s') <==> NoConflict(RemovePending(s, f.died), f)) && (Disjoint(s') <==> Exact(s'))
  {
    hide RemovePending, DoUpdate, BoardInv, LeftoverHas, Claims;
    var s1, s' := RemovePending(s, f.died), DoUpdate(s, f);
    if NoConflict(s1, f) {
      forall u, id ensures s'.Assigned(u, id) <==> s'.Has(id, u) {
        UpdateMeans(s, f, id, u);
      }
      ExactIsDisjoint(s');
    } else {
      var a, b, u := ConflictShares(s, f);
      assert !(s'.tasks[a].units !! s'.tasks[b].units) by { assert s'.Has(a, u) && s'.Has(b, u); }
      if Exact(s') {
        ExactIsDisjoint(s');
      }
    }
  }

  /** In a conflict two tasks have the unit afterwards. */
  lemma ConflictShares(s: State, f: Frame) returns (a: TaskId, b: TaskId, u: Unit)
    requires BoardInv(s) && !NoConflict(RemovePending(s, f.died), f)
    ensures var s' := DoUpdate(s, f); a != b && s'.Has(a, u) && s'.Has(b, u)
  {
    hide RemovePending, DoUpdate, BoardInv;
    var s1 := RemovePending(s, f.died);
    if x, y, v :| LeftoverHas(s1, x, v) && LeftoverHas(s1, y, v) && x != y {
      a, b, u := x, y, v;
    } else {
      var o, l, v :| Claims(s1, o, v, f) && LeftoverHas(s1, l, v) && !(o < l);
      a, b, u := o, l, v;
      assert !Newer(s1, o, v);
    }
    UpdateMeans(s, f, a, u);
    UpdateMeans(s, f, b, u);
  }

  lemma OwnersUpdate(tasks: map<TaskId, Task>, id: TaskId, t: Task)
    requires id in tasks ==> tasks[id].owner == t.owner
    ensures Owners(tasks[id := t]) == Owners(tasks) + {(t.owner, id)}
  {
    var tasks' := tasks[id := t];
    forall p | p in Owners(tasks) + {(t.owner, id)} ensures p in Owners(tasks') {
      assert p.1 in tasks' && p == (tasks'[p.1].owner, p.1);
    }
  }

  lemma PostKeeps(s: State, id: TaskId, c: Controller, units: set<Unit>, owner: Owner, autoRemove: bool)
    requires BoardInv(s)
    ensures BoardInv(DoPost(s, id, c, units, owner, autoRemove))
  {
    var s' := DoPost(s, id, c, units, owner, autoRemove);
    forall u | u in s'.tasksByUnit ensures AssignedOk(s', u) {
      assert u in s.tasksByUnit ==> AssignedOk(s, u);
    }
    if id !in s.tasks {
      OwnersUpdate(s.tasks, id, s'.tasks[id]);
    }
  }

  lemma CancelKeeps(s: State, id: TaskId)
    requires BoardInv(s)
    ensures BoardInv(DoCancel(s, id))
  {
    var s' := DoCancel(s, id);
    forall u | u in s'.tasksByUnit ensures AssignedOk(s', u) {
      assert u in s.tasksByUnit ==> AssignedOk(s, u);
    }
    if id in s.tasks {
      OwnersUpdate(s.tasks, id, s'.tasks[id]);
      assert (s.tasks[id].owner, id) in Owners(s.tasks);
    }
  }

  lemma MarkKeeps(s: State, id: TaskId)
    requires BoardInv(s)
    ensures BoardInv(s.(toBeRemoved := s.toBeRemoved + [id]))
  {
    var s' := s.(toBeRemoved := s.toBeRemoved + [id]);
    forall u | u in s'.tasksByUnit ensures AssignedOk(s', u) {
      assert u in s.tasksByUnit ==> AssignedOk(s, u);
    }
  }

  lemma ApplyKeeps(s: State, e: Event)
    requires BoardInv(s)
    ensures BoardInv(Apply(s, e))
  {
    hide BoardInv, DoPost, DoCancel, DoUpdate;
    match e
    case Post(id, c, units, owner, autoRemove) => PostKeeps(s, id, c, units, owner, autoRemove);
    case Cancel(id) => CancelKeeps(s, id);
    case MarkForRemoval(id) => MarkKeeps(s, id);
    case Update(f) => UpdateKeeps(s, f);
  }

  lemma {:induction false} Reachable(es: seq<Event>)
    ensures BoardInv(Run(es))
    decreases |es|
  {
    if es != [] {
      Reachable(es[..|es| - 1]);
      hide BoardInv, Apply;
      ApplyKeeps(Run(es[..|es| - 1]), es[|es| - 1]);
    }
  }

  /** After every update of every run: the board assigns a unit to a task exactly
      when that task has it, and no two tasks share a unit, exactly if there was no
      conflict with a leftover task when the turns began. */
  lemma OwnershipAfterUpdate(es: seq<Event>, f: Frame)
    ensures var s, s' := Run(es), Run(es + [Update(f)]);
            && (Exact(s') <==> NoConflict(RemovePending(s, f.died), f))
            && (Disjoint(s') <==> NoConflict(RemovePending(s, f.died), f))
  {
    hide Run, BoardInv, Exact, Disjoint, NoConflict, RemovePending, DoUpdate;
    Reachable(es);
    ExactExactly(Run(es), f);
    var all := Then(es, Update(f));
    UpdateApplies(Run(es), f);
  }

  /** A finished task is about to be removed, or has no units. */
  ghost predicate Harmless(s: State, id: TaskId)
    requires id in s.tasks
  {
    var t := s.tasks[id];
    t.autoRemove && (t.status.Ongoing? || t.units == {} || id in s.toBeRemoved)
  }

  ghost predicate AllHarmless(s: State) {
    forall id :: id in s.tasks ==> Harmless(s, id)
  }

  lemma TurnHarmless(s: State, id: TaskId, f: Frame)
    requires id in s.tasks && AllHarmless(s)
    ensures AllHarmless(Turn(s, id, f))
  {
    var s' := Turn(s, id, f);
    forall o | o in s'.tasks ensures Harmless(s', o) {
      assert Harmless(s, o);
    }
  }

  lemma {:induction false} TurnsHarmless(s: State, ids: seq<TaskId>, f: Frame)
    requires AllHarmless(s) && Decreasing(ids) && forall i :: 0 <= i < |ids| ==> ids[i] in s.tasks
    ensures AllHarmless(UpdateAll(s, ids, f))
    decreases |ids|
  {
    if ids != [] {
      hide Turn, AllHarmless;
      TurnHarmless(s, ids[0], f);
      RestReady(s, ids, f);
      TurnsHarmless(Turn(s, ids[0], f), ids[1..], f);
    }
  }

  /** When the turns begin no harmless task is left over with a unit. */
  lemma PendingHarmless(s: State, f: Frame)
    requires AllHarmless(s)
    ensures AllHarmless(RemovePending(s, f.died)) && NoConflict(RemovePending(s, f.died), f)
  {
    var s1 := RemovePending(s, f.died);
    forall id | id in s1.tasks
      ensures s1.tasks[id].autoRemove && (s1.tasks[id].status.Ongoing? || s1.tasks[id].units == {})
    {
      assert Harmless(s, id);
    }
    assert forall l, u :: !LeftoverHas(s1, l, u);
  }

  lemma UpdateHarmless(s: State, f: Frame)
    requires AllHarmless(s)
    ensures AllHarmless(DoUpdate(s, f))
  {
    PendingHarmless(s, f);
    hide RemovePending, AllHarmless, Descending;
    var s1 := RemovePending(s, f.died);
    TurnsHarmless(s1, Descending(s1.tasks.Keys), f);
  }

  /** All tasks are posted with automatic removal. */
  ghost predicate AutoRemoved(es: seq<Event>) {
    forall i :: 0 <= i < |es| && es[i].Post? ==> es[i].autoRemove
  }

  lemma {:induction false} HarmlessReachable(es: seq<Event>)
    requires AutoRemoved(es)
    ensures AllHarmless(Run(es))
    decreases |es|
  {
    if es != [] {
      var s, e := Run(es[..|es| - 1]), es[|es| - 1];
      HarmlessReachable(es[..|es| - 1]);
      if e.Update? {
        UpdateHarmless(s, e.frame);
      } else {
        hide DoUpdate;
        forall o | o in Apply(s, e).tasks ensures Harmless(Apply(s, e), o) {
          assert o in s.tasks ==> Harmless(s, o);
        }
      }
    }
  }

  /** With automatic removal there is never a conflict. */
  lemma AutoRemovedIsExact(es: seq<Event>, f: Frame)
    requires AutoRemoved(es)
    ensures Exact(Run(es + [Update(f)])) && Disjoint(Run(es + [Update(f)]))
  {
    hide Run, AllHarmless, Exact, Disjoint, NoConflict, RemovePending;
    HarmlessReachable(es);
    PendingHarmless(Run(es), f);
    OwnershipAfterUpdate(es, f);
  }

  /** A finished task that stays on the board takes its units back from a newer
      task that was posted for them since: both have them then. */
  lemma LeftoverTaskStealsBack(s: State, f: Frame, l: TaskId, o: TaskId, u: Unit)
    requires BoardInv(s)
    requires var s1 := RemovePending(s, f.died);
             l < o && LeftoverHas(s1, l, u) && Claims(s1, o, u, f) && forall x :: LeftoverHas(s1, x, u) ==> x == l
    ensures var s' := DoUpdate(s, f);
            s'.Has(l, u) && s'.Has(o, u) && s'.Assigned(u, l) && !Exact(s') && !Disjoint(s')
  {
    ExactExactly(s, f);
    UpdateMeans(s, f, l, u);
    UpdateMeans(s, f, o, u);
    hide RemovePending, DoUpdate, BoardInv;
  }

  /** Events that leave alone who holds `u`, if that is task `id`. */
  predicate Leaves(e: Event, id: TaskId, u: Unit) {
    match e
    case Post(_, _, units, _, _) => u !in units
    case Cancel(o) => o != id
    case MarkForRemoval(o) => o != id
    case Update(_) => false
  }

  ghost predicate Holds(s: State, id: TaskId, c: Controller, u: Unit) {
    && id in s.tasks && s.tasks[id].status.Ongoing? && s.tasks[id].controller == c && id !in s.toBeRemoved
    && s.Assigned(u, id)
  }

  lemma {:induction false} HoldsUntilUpdate(es: seq<Event>, between: seq<Event>, id: TaskId, c: Controller, u: Unit)
    requires Holds(Run(es), id, c, u)
    requires forall i :: 0 <= i < |between| ==> Leaves(between[i], id, u)
    ensures Holds(Run(es + between), id, c, u)
    decreases |between|
  {
    if between == [] {
      assert es + between == es;
    } else {
      var n := |between| - 1;
      HoldsUntilUpdate(es, between[..n], id, c, u);
      assert (es + between)[..|es| + n] == es + between[..n];
      assert Leaves(between[n], id, u);
    }
  }

  /** The task has the unit, the unit is its own, and no other task has it. */
  ghost predicate Owns(s: State, id: TaskId, u: Unit) {
    s.Assigned(u, id) && s.Has(id, u) && forall o :: o != id ==> !s.Has(o, u)
  }

  /** A task that holds a unit has it to itself after an update, exactly if no
      leftover task has the unit. */
  lemma HolderKeeps(s: State, f: Frame, id: TaskId, c: Controller, u: Unit)
    requires BoardInv(s) && Holds(s, id, c, u) && u !in f.died && (c, u) in f.kept
    ensures Owns(DoUpdate(s, f), id, u) <==> forall l :: !LeftoverHas(RemovePending(s, f.died), l, u)
  {
    HolderClaims(s, f, id, c, u);
    hide DoUpdate, BoardInv, RemovePending, LeftoverHas, Claims;
    var s1, s' := RemovePending(s, f.died), DoUpdate(s, f);
    UpdateMeans(s, f, id, u);
    forall o ensures s'.Has(o, u) <==> LeftoverHas(s1, o, u) || (Claims(s1, o, u, f) && !Newer(s1, o, u)) {
      UpdateMeans(s, f, o, u);
    }
  }

  lemma HolderClaims(s: State, f: Frame, id: TaskId, c: Controller, u: Unit)
    requires BoardInv(s) && Holds(s, id, c, u) && u !in f.died && (c, u) in f.kept
    ensures var s1 := RemovePending(s, f.died);
            Claims(s1, id, u, f) && !LeftoverHas(s1, id, u) && forall o :: Claims(s1, o, u, f) ==> o == id
  {
    assert AssignedOk(s, u);
  }

  /** The last poster of a unit has it to itself after the next update, whoever
      held it before, exactly if no finished task that stays on the board has it. */
  lemma LastPosterKeeps(es: seq<Event>, post: Event, between: seq<Event>, f: Frame, u: Unit)
    requires post.Post? && post.id !in Run(es).tasks && post.id !in Run(es).toBeRemoved
    requires u in post.units && forall i :: 0 <= i < |between| ==> Leaves(between[i], post.id, u)
    requires u !in f.died && (post.controller, u) in f.kept
    ensures var s := Run(es + [post] + between);
            Owns(Run(es + [post] + between + [Update(f)]), post.id, u) <==>
            forall l :: !LeftoverHas(RemovePending(s, f.died), l, u)
  {
    PosterHolds(es, post, u);
    HoldsUntilUpdate(es + [post], between, post.id, post.controller, u);
    Reachable(es + [post] + between);
    hide Run, BoardInv, Holds, Owns, LeftoverHas, RemovePending, DoUpdate;
    var s := Run(es + [post] + between);
    HolderKeeps(s, f, post.id, post.controller, u);
    var all := Then(es + [post] + between, Update(f));
    UpdateApplies(s, f);
  }

  lemma PosterHolds(es: seq<Event>, post: Event, u: Unit)
    requires post.Post? && post.id !in Run(es).tasks && post.id !in Run(es).toBeRemoved && u in post.units
    ensures Holds(Run(es + [post]), post.id, post.controller, u)
  {
    var posted := Then(es, post);
  }

  lemma UpdateApplies(s: State, f: Frame)
    ensures Apply(s, Update(f)) == DoUpdate(s, f)
  {
  }

  /** What shared controllers know, between updates. */
  ghost predicate ControlOk(s: State, c: Controller, u: Unit)
    requires u in s.Controls(c)
  {
    var id := s.Controls(c)[u];
    s.Has(id, u) && s.tasks[id].controller == c
  }

  ghost predicate AssignmentControlled(s: State, u: Unit)
    requires u in s.tasksByUnit
  {
    var id := s.tasksByUnit[u];
    && id in s.tasks
    && (s.tasks[id].status.Ongoing? && s.tasks[id].controller.Shared? ==> s.ControlledBy(s.tasks[id].controller, u, id))
  }

  ghost predicate SharedInv(s: State) {
    && (forall c: Controller, u :: c.Shared? && u in s.Controls(c) ==> ControlOk(s, c, u))
    && (forall u :: u in s.tasksByUnit ==> AssignmentControlled(s, u))
    && (forall id :: id in s.tasks && s.tasks[id].controller.Shared? && !s.tasks[id].status.Ongoing? ==>
          s.tasks[id].units == {})
    && (forall id :: id in s.toBeRemoved ==> id in s.tasks && !s.tasks[id].status.Ongoing?)
  }

  lemma PostControl(s: State, e: Event, c: Controller, u: Unit)
    requires SharedInv(s) && e.Post? && e.id !in s.tasks && c.Shared? && u in Apply(s, e).Controls(c)
    ensures ControlOk(Apply(s, e), c, u)
  {
    hide AssignmentControlled, DoUpdate;
    assert u in s.Controls(c) ==> ControlOk(s, c, u);
  }

  lemma PostAssignment(s: State, e: Event, u: Unit)
    requires SharedInv(s) && e.Post? && e.id !in s.tasks && u in Apply(s, e).tasksByUnit
    ensures AssignmentControlled(Apply(s, e), u)
  {
    hide ControlOk, DoUpdate;
    assert u in s.tasksByUnit ==> AssignmentControlled(s, u);
  }

  lemma PostKeepsShared(s: State, e: Event)
    requires SharedInv(s) && e.Post?
    ensures SharedInv(Apply(s, e))
  {
    hide ControlOk, AssignmentControlled, DoUpdate;
    var s' := Apply(s, e);
    if e.id !in s.tasks {
      forall c: Controller, u | c.Shared? && u in s'.Controls(c) ensures ControlOk(s', c, u) {
        PostControl(s, e, c, u);
      }
      forall u | u in s'.tasksByUnit ensures AssignmentControlled(s', u) {
        PostAssignment(s, e, u);
      }
    }
  }

  lemma CancelKeepsShared(s: State, id: TaskId)
    requires SharedInv(s)
    ensures SharedInv(DoCancel(s, id))
  {
    var s' := DoCancel(s, id);
    forall o: Controller, u | o.Shared? && u in s'.Controls(o) ensures ControlOk(s', o, u) {
      assert ControlOk(s, o, u);
    }
    forall u | u in s'.tasksByUnit ensures AssignmentControlled(s', u) {
      assert AssignmentControlled(s, u);
    }
  }

  lemma PendingKeepsShared(s: State, died: set<Unit>)
    requires SharedInv(s)
    ensures SharedInv(RemovePending(s, died))
  {
    var s' := RemovePending(s, died);
    forall o: Controller, u | o.Shared? && u in s'.Controls(o) ensures ControlOk(s', o, u) {
      assert ControlOk(s, o, u);
    }
    forall u | u in s'.tasksByUnit ensures AssignmentControlled(s', u) {
      assert AssignmentControlled(s, u);
    }
  }

  lemma TurnControl(s: State, id: TaskId, f: Frame, c: Controller, u: Unit)
    requires SharedInv(s) && id in s.tasks && c.Shared? && u in Turn(s, id, f).Controls(c)
    ensures ControlOk(Turn(s, id, f), c, u)
  {
    hide AssignmentControlled;
    assert ControlOk(s, c, u);
  }

  lemma TurnAssignment(s: State, id: TaskId, f: Frame, u: Unit)
    requires SharedInv(s) && id in s.tasks && u in Turn(s, id, f).tasksByUnit
    ensures AssignmentControlled(Turn(s, id, f), u)
  {
    hide ControlOk;
    assert u in s.tasksByUnit ==> AssignmentControlled(s, u);
  }

  lemma TurnKeepsShared(s: State, id: TaskId, f: Frame)
    requires SharedInv(s) && id in s.tasks
    ensures SharedInv(Turn(s, id, f))
  {
    hide ControlOk, AssignmentControlled;
    var s' := Turn(s, id, f);
    forall c: Controller, u | c.Shared? && u in s'.Controls(c) ensures ControlOk(s', c, u) {
      TurnControl(s, id, f, c, u);
    }
    forall u | u in s'.tasksByUnit ensures AssignmentControlled(s', u) {
      TurnAssignment(s, id, f, u);
    }
  }

  lemma {:induction false} TurnsKeepShared(s: State, ids: seq<TaskId>, f: Frame)
    requires SharedInv(s) && Decreasing(ids) && forall i :: 0 <= i < |ids| ==> ids[i] in s.tasks
    ensures SharedInv(UpdateAll(s, ids, f))
    decreases |ids|
  {
    if ids != [] {
      hide Turn, SharedInv;
      TurnKeepsShared(s, ids[0], f);
      RestReady(s, ids, f);
      TurnsKeepShared(Turn(s, ids[0], f), ids[1..], f);
    }
  }

  lemma UpdateKeepsShared(s: State, f: Frame)
    requires SharedInv(s)
    ensures SharedInv(DoUpdate(s, f))
  {
    hide SharedInv, RemovePending, Descending;
    PendingKeepsShared(s, f.died);
    var s1 := RemovePending(s, f.died);
    TurnsKeepShared(s1, Descending(s1.tasks.Keys), f);
  }

  /** Tasks leave the board only by finishing or being cancelled. */
  ghost predicate NeverMarked(es: seq<Event>) {
    forall i :: 0 <= i < |es| ==> !es[i].MarkForRemoval?
  }

  lemma {:induction false} SharedReachable(es: seq<Event>)
    requires NeverMarked(es)
    ensures SharedInv(Run(es))
    decreases |es|
  {
    if es != [] {
      var before := es[..|es| - 1];
      var s, e := Run(before), es[|es| - 1];
      assert NeverMarked(before);
      SharedReachable(before);
      hide SharedInv;
      match e
      case Post(_, _, _, _, _) => PostKeepsShared(s, e);
      case Cancel(id) => CancelKeepsShared(s, id);
      case Update(f) => UpdateKeepsShared(s, f);
    }
  }

  /** A turn lets a controller forget a unit only together with its task. */
  lemma TurnKeepsControl(s: State, x: TaskId, f: Frame, c: Controller, u: Unit, id: TaskId)
    requires x in s.tasks && s.ControlledBy(c, u, id) && Turn(s, x, f).Has(id, u)
    ensures Turn(s, x, f).ControlledBy(c, u, id)
  {
  }

  lemma NothingGained(s: State, ids: seq<TaskId>, f: Frame, o: TaskId, u: Unit)
    requires Decreasing(ids) && (forall i :: 0 <= i < |ids| ==> ids[i] in s.tasks) && UpdateAll(s, ids, f).Has(o, u)
    ensures s.Has(o, u)
  {
    if o in ids {
      AfterTurns(s, ids, f, o, u);
    } else {
      AfterTurnsOfOthers(s, ids, f, o, u);
    }
  }

  lemma {:induction false} TurnsKeepControl(s: State, ids: seq<TaskId>, f: Frame, c: Controller, u: Unit, id: TaskId)
    requires Decreasing(ids) && (forall i :: 0 <= i < |ids| ==> ids[i] in s.tasks)
    requires s.ControlledBy(c, u, id) && UpdateAll(s, ids, f).Has(id, u)
    ensures UpdateAll(s, ids, f).ControlledBy(c, u, id)
    decreases |ids|
  {
    if ids != [] {
      hide Turn;
      RestReady(s, ids, f);
      NothingGained(Turn(s, ids[0], f), ids[1..], f, id, u);
      TurnKeepsControl(s, ids[0], f, c, u, id);
      TurnsKeepControl(Turn(s, ids[0], f), ids[1..], f, c, u, id);
    }
  }

  /** A claim that no newer leftover task takes away is still controlled. */
  lemma ClaimIsControlled(s: State, f: Frame, c: Controller, u: Unit, id: TaskId)
    requires BoardInv(s) && SharedInv(s) && c.Shared?
    requires var s1 := RemovePending(s, f.died);
             Claims(s1, id, u, f) && s1.tasks[id].controller == c && !Newer(s1, id, u)
    ensures DoUpdate(s, f).ControlledBy(c, u, id)
  {
    PendingKeepsShared(s, f.died);
    UpdateMeans(s, f, id, u);
    hide RemovePending, Descending, BoardInv;
    var s1 := RemovePending(s, f.died);
    assert AssignmentControlled(s1, u);
    hide SharedInv;
    TurnsKeepControl(s1, Descending(s1.tasks.Keys), f, c, u, id);
  }

  /** The controller maps the unit to the task exactly when the board assigns it to
      that task and that task is the controller's. */
  ghost predicate Agree(s: State, c: Controller, u: Unit, id: TaskId) {
    s.ControlledBy(c, u, id) <==> s.Assigned(u, id) && id in s.tasks && s.tasks[id].controller == c
  }

  /** A shared task of `c` claims the unit, and only an older leftover task has it. */
  ghost predicate StolenLater(s: State, f: Frame, c: Controller, u: Unit, id: TaskId) {
    Claims(s, id, u, f) && s.tasks[id].controller == c && !Newer(s, id, u) && Older(s, id, u)
  }

  lemma AgreeExactly(s: State, f: Frame, c: Controller, u: Unit, id: TaskId)
    requires BoardInv(s) && SharedInv(s) && c.Shared?
    ensures Agree(DoUpdate(s, f), c, u, id) <==> !StolenLater(RemovePending(s, f.died), f, c, u, id)
  {
    UpdateKeepsShared(s, f);
    PendingKeepsShared(s, f.died);
    UpdateMeans(s, f, id, u);
    UpdateKeepsTasks(s, f);
    var s1, s' := RemovePending(s, f.died), DoUpdate(s, f);
    if Claims(s1, id, u, f) && s1.tasks[id].controller == c && !Newer(s1, id, u) {
      ClaimIsControlled(s, f, c, u, id);
    }
    hide RemovePending, DoUpdate, BoardInv, Newer, Older;
    assert u in s'.Controls(c) ==> ControlOk(s', c, u);
    assert u in s'.tasksByUnit ==> AssignmentControlled(s', u);
  }

  /** After every update a shared controller and the board agree about a unit and a
      task, exactly unless an older leftover task takes the unit after that task
      kept it. */
  lemma SharedAgreement(es: seq<Event>, f: Frame, c: Controller, u: Unit, id: TaskId)
    requires NeverMarked(es) && c.Shared?
    ensures Agree(Run(es + [Update(f)]), c, u, id) <==> !StolenLater(RemovePending(Run(es), f.died), f, c, u, id)
  {
    hide Run, Agree, StolenLater, BoardInv, SharedInv, DoUpdate, RemovePending;
    Reachable(es);
    SharedReachable(es);
    AgreeExactly(Run(es), f, c, u, id);
    var all := Then(es, Update(f));
    UpdateApplies(Run(es), f);
  }

  lemma Then(es: seq<Event>, e: Event) returns (r: seq<Event>)
    ensures r == es + [e] && Run(r) == Apply(Run(es), e)
  {
    r := es + [e];
    assert r[..|es|] == es;
  }

  lemma OneDescending(a: TaskId)
    ensures Descending({a}) == [a]
  {
    assert IsNewest(a, {a}) && {a} - {a} == {};
    assert forall m :: IsNewest(m, {a}) ==> m == a;
    DescendingEmpty();
    assert Descending({a}) == [a] + Descending({a} - {a});
  }

  /** A conflict is reachable: a task posted without automatic removal succeeds,
      and a newer one is posted for its unit. */
  lemma LeftoverReachable(u: Unit) returns (es: seq<Event>, f: Frame)
    ensures !AutoRemoved(es) && !Exact(Run(es + [Update(f)])) && !Disjoint(Run(es + [Update(f)]))
  {
    hide Run, Apply;
    var g := Frame({}, {(Own(0), u)}, map[1 := Success]);
    es := [];
    es := Then(es, Post(1, Own(0), {u}, 0, false));
    es := Then(es, Update(g));
    es := Then(es, Post(2, Own(1), {u}, 0, true));
    assert Run([]) == INIT by { EmptyRun(); }
    LeftoverStates(g, u);
    assert es[0] == Post(1, Own(0), {u}, 0, false);
    f := Frame({}, {(Own(1), u)}, map[]);
    LeftoverConflict(Run(es), f, u);
    hide RemovePending, NoConflict;
    OwnershipAfterUpdate(es, f);
  }

  lemma LeftoverConflict(s: State, f: Frame, u: Unit)
    requires f == Frame({}, {(Own(1), u)}, map[]) && LeftoverBoard(s, u)
    ensures !NoConflict(RemovePending(s, f.died), f)
  {
    var s1 := RemovePending(s, f.died);
    assert s1.tasks == s.tasks;
    assert Claims(s1, 2, u, f) && LeftoverHas(s1, 1, u);
  }

  ghost predicate LeftoverBoard(s: State, u: Unit) {
    && s.tasks.Keys == {2, 1} && s.toBeRemoved == []
    && s.tasks[1].status.Success? && u in s.tasks[1].units
    && s.tasks[2].status.Ongoing? && s.tasks[2].controller == Own(1) && u in s.tasks[2].units && s.Assigned(u, 2)
  }

  lemma EmptyRun()
    ensures Run([]) == INIT
  {
  }

  lemma LeftoverStates(f: Frame, u: Unit)
    requires f == Frame({}, {(Own(0), u)}, map[1 := Success])
    ensures var s := Apply(Apply(INIT, Post(1, Own(0), {u}, 0, false)), Update(f));
            LeftoverBoard(Apply(s, Post(2, Own(1), {u}, 0, true)), u)
  {
    var s1 := Apply(INIT, Post(1, Own(0), {u}, 0, false));
    assert s1.tasks == map[1 := Task(Own(0), {u}, Ongoing, 0, false)];
    UpdateOfOne(s1, 1, f);
    var r := RemovePending(s1, {});
    var s2 := Turn(r, 1, f);
    assert s2.tasks[1] == Task(Own(0), {u}, Success, 0, false) by {
      assert Keeps(r, 1, r.tasks[1], f.kept) == {u};
    }
    assert s2 == Apply(s1, Update(f));
  }

  lemma UpdateOfOne(s: State, id: TaskId, f: Frame)
    requires s.tasks.Keys == {id} && s.toBeRemoved == [] && f.died == {}
    ensures RemovePending(s, {}).tasks == s.tasks
    ensures DoUpdate(s, f) == Turn(RemovePending(s, {}), id, f)
  {
    var r := RemovePending(s, {});
    assert r.tasks == s.tasks;
    hide RemovePending, Turn;
    OneDescending(id);
    hide Descending;
    assert [id][1..] == [] && UpdateAll(r, [id], f) == UpdateAll(Turn(r, id, f), [], f);
  }

  /** The board and its methods. */
  class Board {
    var tasks: map<TaskId, Task>
    var tasksByUnit: map<Unit, TaskId>
    var tasksByModule: set<(Owner, TaskId)>
    var toBeRemoved: seq<TaskId>
    var controllers: map<Controller, Control>

    ghost function View(): State
      reads this
    {
      State(tasks, tasksByUnit, tasksByModule, toBeRemoved, controllers)
    }

    ghost predicate Valid()
      reads this
    {
      BoardInv(View())
    }

    constructor ()
      ensures Valid() && View() == INIT
    {
      tasks, tasksByUnit, tasksByModule, toBeRemoved, controllers := map[], map[], {}, [], map[];
      new;
      Reachable([]);
    }

    /** Enters every unit with its task id, in whatever order. */
    static method AddAll(control: Control, units: set<Unit>, id: TaskId) returns (r: Control)
      ensures r == AddUnits(control, units, id)
    {
      r := control;
      var rest := units;
      while rest != {}
        invariant rest <= units && r == AddUnits(control, units - rest, id)
        decreases rest
      {
        var u :| u in rest;
        r := r[u := id];
        ghost var before := units - rest;
        rest := rest - {u};
        assert units - rest == before + {u};
      }
      assert units - {} == units;
    }

    /** The constructor of a controller task, then postTask; false stands for the
        exception about an existing task, which leaves the board as it is. */
    method PostTask(id: TaskId, c: Controller, units: set<Unit>, owner: Owner, autoRemove: bool) returns (ok: bool)
      requires Valid()
      modifies this
      ensures Valid() && View() == Apply(old(View()), Post(id, c, units, owner, autoRemove))
      ensures ok <==> id !in old(tasks)
    {
      hide BoardInv;
      PostKeeps(View(), id, c, units, owner, autoRemove);
      if id in tasks {
        return false;
      }
      var control := if c in controllers then controllers[c] else map[];
      control := AddAll(control, units, id);
      controllers := controllers[c := control];
      tasksByUnit := AddAll(tasksByUnit, units, id);
      tasks := tasks[id := Task(c, units, Ongoing, owner, autoRemove)];
      tasksByModule := tasksByModule + {(owner, id)};
      return true;
    }

    /** Which task has a unit: on a board that has just been updated, exactly
        the one whose unit set contains it. */
    method TaskWithUnit(u: Unit) returns (found: bool, id: TaskId)
      requires Valid()
      ensures found ==> id in tasks && View().Assigned(u, id)
      ensures Exact(View()) ==> (found <==> exists o :: View().Has(o, u))
      ensures Exact(View()) && found ==> forall o :: View().Has(o, u) <==> o == id
    {
      if u !in tasksByUnit {
        assert forall o :: !View().Assigned(u, o);
        return false, 0;
      }
      assert AssignedOk(View(), u);
      assert View().Assigned(u, tasksByUnit[u]);
      return true, tasksByUnit[u];
    }

    /** The update of one controller task: gives up units that went to another
        task or that the controller does not keep. */
    method UpdateControllerTask(id: TaskId, f: Frame)
      requires id in tasks
      modifies this`tasks, this`controllers
      ensures View() == UpdateTask(old(View()), id, f) && id in tasks
    {
      var t := tasks[id];
      if !t.status.Ongoing? {
        return;
      }
      ghost var s := View();
      ghost var keeps := Keeps(s, id, t, f.kept);
      var control := if t.controller in controllers then controllers[t.controller] else map[];
      var units, rest := t.units, t.units;
      while rest != {}
        invariant rest <= units <= t.units && units == rest + keeps && View() == s
        invariant control == RemoveUnits(s.Controls(t.controller), t.units - units, id)
        decreases rest
      {
        var u :| u in rest;
        rest := rest - {u};
        var remove := false;
        if u !in tasksByUnit || tasksByUnit[u] != id {
          remove := true;
        } else if (t.controller, u) !in f.kept {
          remove := true;
        }
        if remove {
          ghost var before := units;
          if u in control && control[u] == id {
            control := control - {u};
          }
          units := units - {u};
          assert t.units - units == (t.units - before) + {u};
        }
      }
      assert units == keeps;
      controllers := controllers[t.controller := control];
      tasks := tasks[id := t.(units := units, status := NewStatus(t, units, id, f.verdict))];
    }

    method CancelTask(id: TaskId)
      requires Valid()
      modifies this
      ensures Valid() && View() == Apply(old(View()), Cancel(id))
      ensures old(id in tasks && tasks[id].status.Ongoing?) ==>
                && id in tasks && tasks[id].status == Cancelled && tasks[id].units == {}
                && forall u :: u in old(tasks[id].units) ==> !View().ControlledBy(tasks[id].controller, u, id)
    {
      hide BoardInv;
      CancelKeeps(View(), id);
      if id !in tasks || !tasks[id].status.Ongoing? {
        return;
      }
      var t := tasks[id];
      var control := if t.controller in controllers then controllers[t.controller] else map[];
      controllers := controllers[t.controller := RemoveUnits(control, t.units, id)];
      tasks := tasks[id := t.(units := {}, status := Cancelled)];
    }

    /** Marks a task for removal; it stays until the next update. */
    method MarkTaskForRemoval(id: TaskId)
      requires Valid()
      modifies this`toBeRemoved
      ensures Valid() && View() == Apply(old(View()), MarkForRemoval(id))
      ensures toBeRemoved == old(toBeRemoved) + [id]
    {
      hide BoardInv;
      MarkKeeps(View(), id);
      toBeRemoved := toBeRemoved + [id];
    }

    /** Drops the tasks that are due for removal, one after the other; ids that
        are not on the board are skipped. */
    method RemoveDueTasks()
      modifies this
      ensures View() == RemovePending(old(View()), {})
    {
      ghost var s := View();
      ghost var gone: set<TaskId> := {};
      for i := 0 to |toBeRemoved|
        invariant toBeRemoved == s.toBeRemoved
        invariant forall id :: id in gone <==> id in s.tasks && id in toBeRemoved[..i]
        invariant tasks == s.tasks - gone && tasksByUnit == Unassign(s.tasksByUnit, gone)
        invariant tasksByModule == (set p | p in s.tasksByModule && p.1 !in gone)
        invariant controllers == s.controllers
      {
        var id := toBeRemoved[i];
        assert toBeRemoved[..i + 1] == toBeRemoved[..i] + [id];
        if id in tasks {
          tasksByModule := set p | p in tasksByModule && p.1 != id;
          tasksByUnit := Unassign(tasksByUnit, {id});
          tasks := tasks - {id};
          gone := gone + {id};
        }
      }
      assert toBeRemoved[..|toBeRemoved|] == toBeRemoved;
      assert forall id :: id in gone <==> id in s.toBeRemoved && id in s.tasks;
      assert gone == set id | id in s.toBeRemoved && id in s.tasks;
      toBeRemoved := [];
      assert Unassign(s.tasksByUnit, gone) - {} == Unassign(s.tasksByUnit, gone);
    }

    /** One update of the board: due removals, dead units, then every task from
        the newest to the oldest. Afterwards the unit index is exact, exactly if
        there was no conflict with a leftover task. */
    method UpdateBoard(f: Frame)
      requires Valid()
      modifies this
      ensures Valid() && View() == Apply(old(View()), Update(f))
      ensures Exact(View()) <==> old(NoConflict(RemovePending(View(), f.died), f))
    {
      hide BoardInv, UpdateTask, Register, Descending, Exact, NoConflict;
      UpdateKeeps(View(), f);
      ExactExactly(View(), f);
      RemoveDueTasks();
      tasksByUnit := tasksByUnit - f.died;
      ghost var s1 := View();
      RemoveDied(old(View()), f.died);
      var rest := tasks.Keys;
      while rest != {}
        invariant rest <= tasks.Keys
        invariant UpdateAll(View(), Descending(rest), f) == UpdateAll(s1, Descending(s1.tasks.Keys), f)
        decreases rest
      {
        NonEmptyHasNewest(rest);
        var id :| IsNewest(id, rest);
        DescendingStep(View(), rest, id, f);
        UpdateControllerTask(id, f);
        RegisterTask(id);
        rest := rest - {id};
      }
      DescendingEmpty();
    }

    method RegisterTask(id: TaskId)
      requires id in tasks
      modifies this`tasksByUnit, this`toBeRemoved
      ensures View() == Register(old(View()), id)
    {
      var t := tasks[id];
      tasksByUnit := Unassign(tasksByUnit, {id});
      tasksByUnit := AddAll(tasksByUnit, t.units, id);
      if t.autoRemove && t.Finished() {
        toBeRemoved := toBeRemoved + [id];
      }
    }
  }

  lemma RemoveDied(s: State, died: set<Unit>)
    ensures RemovePending(s, {}).(tasksByUnit := RemovePending(s, {}).tasksByUnit - died) == RemovePending(s, died)
  {
    var gone := set id | id in s.toBeRemoved && id in s.tasks;
    assert Unassign(s.tasksByUnit, gone) - {} == Unassign(s.tasksByUnit, gone);
  }

  lemma NonEmptyHasNewest(ids: set<TaskId>)
    requires ids != {}
    ensures exists m :: IsNewest(m, ids)
  {
    assert (forall x :: x !in ids) ==> ids == {};
    var x :| x in ids;
    var m := NewestExists(ids, x);
  }

  lemma DescendingEmpty()
    ensures Descending({}) == []
  {
    assert forall m :: !IsNewest(m, {});
  }

  /** The newest of the remaining tasks has its turn. */
  lemma DescendingStep(s: State, ids: set<TaskId>, id: TaskId, f: Frame)
    requires ids <= s.tasks.Keys && IsNewest(id, ids)
    ensures id in s.tasks
    ensures ids - {id} <= Turn(s, id, f).tasks.Keys
    ensures UpdateAll(s, Descending(ids), f) == UpdateAll(Turn(s, id, f), Descending(ids - {id}), f)
  {
    assert forall m :: IsNewest(m, ids) ==> m == id;
    var ds := Descending(ids);
    assert ds == [id] + Descending(ids - {id});
    assert ds[1..] == Descending(ids - {id});
  }
}
