/** What the events of the blackboard do, one by one: posting, cancelling and marking a
    task, and what an update does besides moving units (src/blackboard.cpp,
    src/controller.cpp). */
module BoardEvents {
  import opened Blackboard

  /** Posting enters the task with its units, on the board and at its controller; a post
      under an id that is on the board is refused. */
  lemma PostExactly(s: State, id: TaskId, c: Controller, units: set<Unit>, owner: Owner, autoRemove: bool)
    ensures var s' := Apply(s, Post(id, c, units, owner, autoRemove));
            if id in s.tasks then s' == s
            else
              && s'.tasks == s.tasks[id := Task(c, units, Ongoing, owner, autoRemove)]
              && s'.tasksByModule == s.tasksByModule + {(owner, id)} && s'.toBeRemoved == s.toBeRemoved
              && (forall u, o :: s'.Assigned(u, o) <==> if u in units then o == id else s.Assigned(u, o))
              && (forall d, u, o :: s'.ControlledBy(d, u, o) <==>
                    if d == c && u in units then o == id else s.ControlledBy(d, u, o))
  {
  }

  /** Cancelling an ongoing task takes its units from it and its controller, and changes
      nothing else; cancelling any other changes nothing. */
  lemma CancelExactly(s: State, id: TaskId)
    ensures var s' := Apply(s, Cancel(id));
            if id !in s.tasks || !s.tasks[id].status.Ongoing? then s' == s
            else
              && s'.tasks == s.tasks[id := s.tasks[id].(units := {}, status := Cancelled)]
              && s'.tasksByUnit == s.tasksByUnit && s'.tasksByModule == s.tasksByModule
              && s'.toBeRemoved == s.toBeRemoved
              && (forall c, u, o :: s'.ControlledBy(c, u, o) <==>
                    s.ControlledBy(c, u, o) && !(c == s.tasks[id].controller && o == id && u in s.tasks[id].units))
  {
  }

  // ---------------------------------------------------------------------
  // An update
  // ---------------------------------------------------------------------

  /** The first part of an update: exactly the tasks that are due leave the board and
      its indices, and dead units are assigned to none. */
  lemma PendingExactly(s: State, died: set<Unit>)
    ensures var s1 := RemovePending(s, died);
            && (forall o :: o in s1.tasks <==> o in s.tasks && o !in s.toBeRemoved)
            && (forall o :: o in s1.tasks ==> s1.tasks[o] == s.tasks[o])
            && (forall u, o :: s1.Assigned(u, o) <==>
                  s.Assigned(u, o) && u !in died && !(o in s.tasks && o in s.toBeRemoved))
            && s1.toBeRemoved == [] && s1.controllers == s.controllers
  {
  }

  /** How a task stands after its turn: a finished one is left alone, a shared one fails
      without units, and any other follows its controller. */
  ghost predicate StatusRule(t: Task, t': Task, id: TaskId, f: Frame) {
    if !t.status.Ongoing? then t' == t
    else if t.controller.Shared? then t'.status == if t'.units == {} then Failure else Ongoing
    else if id in f.verdict && (f.verdict[id].Success? || f.verdict[id].Failure?) then t'.status == f.verdict[id]
    else t'.status == Ongoing
  }

  lemma TurnStatus(s: State, id: TaskId, f: Frame)
    requires id in s.tasks
    ensures var s' := Turn(s, id, f);
            && s'.tasks.Keys == s.tasks.Keys && StatusRule(s.tasks[id], s'.tasks[id], id, f)
            && (forall o :: o in s.tasks && o != id ==> s'.tasks[o] == s.tasks[o])
            && s'.toBeRemoved ==
               s.toBeRemoved + if s'.tasks[id].autoRemove && !s'.tasks[id].status.Ongoing? then [id] else []
  {
  }

  lemma {:induction false} TurnsStatus(s: State, ids: seq<TaskId>, f: Frame, o: TaskId)
    requires Decreasing(ids) && (forall i :: 0 <= i < |ids| ==> ids[i] in s.tasks) && o in s.tasks
    ensures var s' := UpdateAll(s, ids, f);
            && o in s'.tasks
            && (if o in ids then StatusRule(s.tasks[o], s'.tasks[o], o, f) else s'.tasks[o] == s.tasks[o])
            && (o in s'.toBeRemoved <==>
                  o in s.toBeRemoved || (o in ids && s'.tasks[o].autoRemove && !s'.tasks[o].status.Ongoing?))
    decreases |ids|
  {
    if ids != [] {
      RestReady(s, ids, f);
      TurnStatus(s, ids[0], f);
      hide Turn, StatusRule;
      TurnsStatus(Turn(s, ids[0], f), ids[1..], f, o);
    }
  }

  /** How the tasks stand after an update, and which of them are due in the next one. */
  lemma StatusAfterUpdate(s: State, f: Frame, o: TaskId)
    requires o in s.tasks && o !in s.toBeRemoved
    ensures var s' := Apply(s, Update(f));
            && o in s'.tasks && StatusRule(s.tasks[o], s'.tasks[o], o, f)
            && (o in s'.toBeRemoved <==> s'.tasks[o].autoRemove && !s'.tasks[o].status.Ongoing?)
  {
    PendingExactly(s, f.died);
    var s1 := RemovePending(s, f.died);
    hide RemovePending, Descending, StatusRule;
    TurnsStatus(s1, Descending(s1.tasks.Keys), f, o);
  }

  lemma TurnControls(s: State, x: TaskId, f: Frame, c: Controller, u: Unit, o: TaskId)
    requires x in s.tasks
    ensures var s' := Turn(s, x, f);
            s'.ControlledBy(c, u, o) <==>
            s.ControlledBy(c, u, o) && !(x == o && s.tasks[o].status.Ongoing? && s.tasks[o].controller == c
                                         && s.Has(o, u) && !s'.Has(o, u))
  {
  }

  lemma {:induction false} TurnsControl(s: State, ids: seq<TaskId>, f: Frame, c: Controller, u: Unit, o: TaskId)
    requires Decreasing(ids) && forall i :: 0 <= i < |ids| ==> ids[i] in s.tasks
    ensures var s' := UpdateAll(s, ids, f);
            s'.ControlledBy(c, u, o) <==>
            s.ControlledBy(c, u, o) && !(o in ids && s.tasks[o].status.Ongoing? && s.tasks[o].controller == c
                                         && s.Has(o, u) && !s'.Has(o, u))
    decreases |ids|
  {
    if ids != [] {
      var s1 := Turn(s, ids[0], f);
      RestReady(s, ids, f);
      TurnControls(s, ids[0], f, c, u, o);
      TurnStatus(s, ids[0], f);
      if o == ids[0] {
        AfterTurnsOfOthers(s1, ids[1..], f, o, u);
      }
      hide Turn, StatusRule;
      TurnsControl(s1, ids[1..], f, c, u, o);
    }
  }

  /** In an update a controller lets go of exactly the units that its tasks give up. */
  lemma ControlAfterUpdate(s: State, f: Frame, c: Controller, u: Unit, o: TaskId)
    ensures var s' := Apply(s, Update(f));
            s'.ControlledBy(c, u, o) <==>
            s.ControlledBy(c, u, o) && !(o in s.tasks && o !in s.toBeRemoved && s.tasks[o].status.Ongoing?
                                         && s.tasks[o].controller == c && s.Has(o, u) && !s'.Has(o, u))
  {
    PendingExactly(s, f.died);
    var s1 := RemovePending(s, f.died);
    hide RemovePending, Descending;
    TurnsControl(s1, Descending(s1.tasks.Keys), f, c, u, o);
  }

  lemma UpdateTasks(s: State, f: Frame, o: TaskId)
    ensures o in Apply(s, Update(f)).tasks <==> o in s.tasks && o !in s.toBeRemoved
  {
    UpdateKeepsTasks(s, f);
    PendingExactly(s, f.died);
    hide RemovePending, DoUpdate;
  }

  // ---------------------------------------------------------------------
  // Runs
  // ---------------------------------------------------------------------

  lemma After(es: seq<Event>, e: Event)
    ensures Run(es + [e]) == Apply(Run(es), e)
  {
    assert (es + [e])[..|es|] == es;
  }

  ghost predicate NoUpdate(es: seq<Event>) {
    forall i :: 0 <= i < |es| ==> !es[i].Update?
  }

  lemma {:induction false} DueStays(es: seq<Event>, between: seq<Event>, id: TaskId)
    requires NoUpdate(between) && id in Run(es).toBeRemoved
    ensures id in Run(es + between).toBeRemoved
    decreases |between|
  {
    if between == [] {
      assert es + between == es;
    } else {
      var front, e := between[..|between| - 1], between[|between| - 1];
      DueStays(es, front, id);
      assert es + between == es + front + [e];
      After(es + front, e);
      hide Run, DoPost, DoCancel;
      if e.Post? {
        PostExactly(Run(es + front), e.id, e.controller, e.units, e.owner, e.autoRemove);
      } else if e.Cancel? {
        CancelExactly(Run(es + front), e.id);
      }
    }
  }

  /** A task that was marked is off the board after the next update, whatever happened in
      between, and no unit is assigned to it. */
  lemma MarkedIsRemoved(es: seq<Event>, id: TaskId, between: seq<Event>, f: Frame)
    requires NoUpdate(between)
    ensures var s' := Run(es + [MarkForRemoval(id)] + between + [Update(f)]);
            id !in s'.tasks && (forall u :: !s'.Assigned(u, id)) && forall m :: (m, id) !in s'.tasksByModule
  {
    After(es, MarkForRemoval(id));
    DueStays(es + [MarkForRemoval(id)], between, id);
    var all := es + [MarkForRemoval(id)] + between;
    After(all, Update(f));
    UpdateTasks(Run(all), f, id);
    Reachable(all + [Update(f)]);
    hide Run, Apply;
    var s' := Run(all + [Update(f)]);
    forall u ensures !s'.Assigned(u, id) {
      assert u in s'.tasksByUnit ==> AssignedOk(s', u);
    }
  }

  /** A cancelled task that has no units. */
  ghost predicate Bare(s: State, id: TaskId) {
    id in s.tasks && s.tasks[id].status.Cancelled? && s.tasks[id].units == {}
  }

  lemma {:induction false} BareStays(es: seq<Event>, between: seq<Event>, id: TaskId)
    requires NoUpdate(between) && Bare(Run(es), id)
    ensures Bare(Run(es + between), id)
    ensures Run(es + between).tasks[id].autoRemove == Run(es).tasks[id].autoRemove
    decreases |between|
  {
    if between == [] {
      assert es + between == es;
    } else {
      var front, e := between[..|between| - 1], between[|between| - 1];
      BareStays(es, front, id);
      assert es + between == es + front + [e];
      After(es + front, e);
      hide Run, DoPost, DoCancel;
      if e.Post? {
        PostExactly(Run(es + front), e.id, e.controller, e.units, e.owner, e.autoRemove);
      } else if e.Cancel? {
        CancelExactly(Run(es + front), e.id);
      }
    }
  }

  /** After an update nothing is assigned to such a task, and with automatic removal it is
      due, unless it is off the board already. */
  lemma BareUpdate(s: State, f: Frame, id: TaskId)
    requires BoardInv(s) && Bare(s, id)
    ensures var s' := Apply(s, Update(f));
            && (forall u :: !s'.Assigned(u, id) && !s'.Has(id, u))
            && (s.tasks[id].autoRemove ==> id !in s'.tasks || id in s'.toBeRemoved)
  {
    UpdateTasks(s, f, id);
    PendingExactly(s, f.died);
    forall u ensures var s' := Apply(s, Update(f)); !s'.Assigned(u, id) && !s'.Has(id, u) {
      UpdateMeans(s, f, id, u);
      hide RemovePending, DoUpdate;
    }
    if id !in s.toBeRemoved {
      StatusAfterUpdate(s, f, id);
    }
  }

  lemma {:induction false} AbsentStays(es: seq<Event>, between: seq<Event>, id: TaskId)
    requires NoUpdate(between) && id !in Run(es).tasks
    requires forall i :: 0 <= i < |between| ==> !(between[i].Post? && between[i].id == id)
    ensures id !in Run(es + between).tasks
    decreases |between|
  {
    if between == [] {
      assert es + between == es;
    } else {
      var front, e := between[..|between| - 1], between[|between| - 1];
      AbsentStays(es, front, id);
      assert es + between == es + front + [e];
      After(es + front, e);
      hide Run, DoPost, DoCancel;
      if e.Post? {
        PostExactly(Run(es + front), e.id, e.controller, e.units, e.owner, e.autoRemove);
      } else if e.Cancel? {
        CancelExactly(Run(es + front), e.id);
      }
    }
  }

  /** A cancelled task has no unit and is assigned none after the next update, and with
      automatic removal it is off the board after the one that follows. */
  lemma CancelledLeaves(es: seq<Event>, id: TaskId, a: seq<Event>, f: Frame, b: seq<Event>, g: Frame)
    requires id in Run(es).tasks && Run(es).tasks[id].status.Ongoing? && NoUpdate(a) && NoUpdate(b)
    requires forall i :: 0 <= i < |b| ==> !(b[i].Post? && b[i].id == id)
    ensures var s' := Run(es + [Cancel(id)] + a + [Update(f)]); forall u :: !s'.Assigned(u, id) && !s'.Has(id, u)
    ensures Run(es).tasks[id].autoRemove ==> id !in Run(es + [Cancel(id)] + a + [Update(f)] + b + [Update(g)]).tasks
  {
    After(es, Cancel(id));
    CancelExactly(Run(es), id);
    hide Run, Apply;
    var first := es + [Cancel(id)];
    BareStays(first, a, id);
    Reachable(first + a);
    After(first + a, Update(f));
    BareUpdate(Run(first + a), f, id);
    var next := first + a + [Update(f)];
    After(next + b, Update(g));
    UpdateTasks(Run(next + b), g, id);
    if Run(es).tasks[id].autoRemove {
      if id in Run(next).toBeRemoved {
        DueStays(next, b, id);
      } else {
        AbsentStays(next, b, id);
      }
    }
  }

  // ---------------------------------------------------------------------
  // Controllers, if no id is used twice
  // ---------------------------------------------------------------------

  ghost predicate FreshIds(es: seq<Event>) {
    forall i, j :: 0 <= i < j < |es| && es[i].Post? && es[j].Post? ==> es[i].id != es[j].id
  }

  ghost predicate Posted(es: seq<Event>, id: TaskId) {
    exists i :: 0 <= i < |es| && es[i].Post? && es[i].id == id
  }

  /** A controller knows a unit under the id of its own task, and an ongoing one has it. */
  ghost predicate OwnControl(s: State, c: Controller, u: Unit, o: TaskId) {
    s.ControlledBy(c, u, o) && o in s.tasks ==>
      s.tasks[o].controller == c && (s.tasks[o].status.Ongoing? ==> s.Has(o, u))
  }

  lemma {:induction false} PostedOnly(es: seq<Event>, c: Controller, u: Unit, o: TaskId)
    ensures Run(es).ControlledBy(c, u, o) || o in Run(es).tasks ==> Posted(es, o)
    decreases |es|
  {
    if es != [] {
      var before, e := es[..|es| - 1], es[|es| - 1];
      PostedOnly(before, c, u, o);
      assert es == before + [e];
      After(before, e);
      var s := Run(before);
      if Posted(before, o) {
        var i :| 0 <= i < |before| && before[i].Post? && before[i].id == o;
        assert es[i] == before[i];
      }
      hide Run, Apply;
      match e
      case Post(id, d, units, owner, autoRemove) =>
        PostExactly(s, id, d, units, owner, autoRemove);
        assert es[|es| - 1].id == id;
      case Cancel(id) => CancelExactly(s, id);
      case MarkForRemoval(id) => MarkExactly(s, id);
      case Update(f) =>
        ControlAfterUpdate(s, f, c, u, o);
        UpdateTasks(s, f, o);
    }
  }

  /** Marking notes the id for the next update. */
  lemma MarkExactly(s: State, id: TaskId)
    ensures Apply(s, MarkForRemoval(id)) == s.(toBeRemoved := s.toBeRemoved + [id])
  {
  }

  lemma {:induction false} OwnControlStays(es: seq<Event>, c: Controller, u: Unit, o: TaskId)
    requires FreshIds(es)
    ensures OwnControl(Run(es), c, u, o)
    decreases |es|
  {
    if es != [] {
      var before, e := es[..|es| - 1], es[|es| - 1];
      assert FreshIds(before) by {
        forall i, j | 0 <= i < j < |before| && before[i].Post? && before[j].Post? ensures before[i].id != before[j].id {
          assert es[i] == before[i] && es[j] == before[j];
        }
      }
      OwnControlStays(before, c, u, o);
      PostedOnly(before, c, u, o);
      assert es == before + [e];
      After(before, e);
      var s := Run(before);
      if Posted(before, o) {
        var i :| 0 <= i < |before| && before[i].Post? && before[i].id == o;
        assert es[i] == before[i] && (e.Post? ==> es[|es| - 1] == e && e.id != o);
      }
      hide Run, Apply, FreshIds;
      match e
      case Post(id, d, units, owner, autoRemove) => PostExactly(s, id, d, units, owner, autoRemove);
      case Cancel(id) => CancelExactly(s, id);
      case MarkForRemoval(id) => MarkExactly(s, id);
      case Update(f) =>
        ControlAfterUpdate(s, f, c, u, o);
        UpdateTasks(s, f, o);
        if o in s.tasks && o !in s.toBeRemoved {
          StatusAfterUpdate(s, f, o);
          UpdateController(s, f, o);
        }
    }
  }

  lemma UpdateController(s: State, f: Frame, o: TaskId)
    requires o in s.tasks && o !in s.toBeRemoved
    ensures var s' := Apply(s, Update(f)); o in s'.tasks && s'.tasks[o].controller == s.tasks[o].controller
  {
    UpdateKeepsTasks(s, f);
    PendingExactly(s, f.died);
    hide RemovePending, DoUpdate;
  }

  /** Once an ongoing task is cancelled, no controller knows any unit under its id, if no id
      is posted twice. */
  lemma CancelLetsGo(es: seq<Event>, id: TaskId, c: Controller, u: Unit)
    requires FreshIds(es) && id in Run(es).tasks && Run(es).tasks[id].status.Ongoing?
    ensures !Run(es + [Cancel(id)]).ControlledBy(c, u, id)
  {
    After(es, Cancel(id));
    OwnControlStays(es, c, u, id);
    CancelExactly(Run(es), id);
    hide Run, Apply;
  }

  /** It can happen otherwise: a task that is marked leaves the board, but not the map of
      its controller; posted again under the same id and cancelled, it takes only its
      present unit away. */
  lemma StaleEntryStays(id: TaskId, c: Controller, u: Unit, v: Unit) returns (es: seq<Event>)
    requires u != v
    ensures id in Run(es).tasks && Run(es).tasks[id].status.Ongoing?
    ensures Run(es + [Cancel(id)]).ControlledBy(c, u, id)
  {
    var f := Frame({}, {}, map[]);
    es := [Post(id, c, {u}, 0, false)];
    assert es == [] + [Post(id, c, {u}, 0, false)];
    After([], Post(id, c, {u}, 0, false));
    PostExactly(INIT, id, c, {u}, 0, false);
    var s := Run(es);
    After(es, MarkForRemoval(id));
    MarkExactly(s, id);
    es := es + [MarkForRemoval(id)];
    After(es, Update(f));
    ControlAfterUpdate(Run(es), f, c, u, id);
    UpdateTasks(Run(es), f, id);
    hide Apply;
    es := es + [Update(f)];
    After(es, Post(id, c, {v}, 0, false));
    PostExactly(Run(es), id, c, {v}, 0, false);
    es := es + [Post(id, c, {v}, 0, false)];
    After(es, Cancel(id));
    CancelExactly(Run(es), id);
  }
}
