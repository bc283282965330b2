/** The boot and heartbeat protocol of `cpid/cpid2kworker.cpp` over Redis.

    Any number of processes run under one worker id, so they share the boot, dead
    and heartbeat keys. Every event is one Redis command as the server executes
    it, by one of the processes or by some other client; an event that is not
    possible leaves the state alone, so a run is any sequence of events. */
module HeartBeat {

  type Proc = nat

  datatype Key = BootKey | DeadKey

  /** How far a process has got. */
  datatype Phase =
    | Starting      // has not touched Redis
    | BootWatched   // WATCH boot was executed
    | BootSeen      // EXISTS boot returned 1
    | Beating       // at the top of the heartbeat loop
    | DeadWatched   // WATCH dead was executed
    | DeadUnseen    // EXISTS dead returned 0
    | Stopped       // boot() threw, or the loop was left

  /** A process and its connection: the keys it watches and whether one of them
      has been written since. */
  datatype Conn = Conn(phase: Phase, watched: set<Key>, dirty: bool)

  datatype WriteKind = FromBoot | FromLoop

  /** A heartbeat that took effect, and whether the dead key was set then. */
  datatype Write = Write(proc: Proc, kind: WriteKind, dead: bool)

  /** `booted` are the processes whose boot transaction was executed. */
  datatype State = State(
    boot: bool, dead: bool, conns: map<Proc, Conn>, creations: nat, booted: seq<Proc>, log: seq<Write>) {

    function At(p: Proc): Conn {
      if p in conns then conns[p] else Conn(Starting, {}, false)
    }

    function With(p: Proc, c: Conn): State {
      this.(conns := conns[p := c])
    }

    /** A write to `k` fails every later EXEC of the connections that watch it. */
    function Touch(k: Key): State {
      this.(conns := map p | p in conns :: if k in conns[p].watched then conns[p].(dirty := true) else conns[p])
    }
  }

  /** How an EXEC went for the client: answered, answered with an error for its
      one command, or executed but the reply was lost. */
  datatype Outcome = Answered | CommandFailed | ReplyLost

  datatype Event =
    | WatchBoot(p: Proc)
    | ExistsBoot(p: Proc)
    | ExecBoot(p: Proc, outcome: Outcome)
    | WatchDead(p: Proc)
    | ExistsDead(p: Proc)
    | ExecBeat(p: Proc, outcome: Outcome)
    | Disconnect(p: Proc)   // an exception with the connection gone: reconnect
    | Retry(p: Proc)        // an exception with the connection still up
    | GiveUp(p: Proc)       // too long without a successful heartbeat
    | CreateBoot            // the scheduler starts the worker (again)
    | DeleteBoot
    | SetDead
    | ClearDead

  const INIT := State(false, false, map[], 0, [], [])

  function Apply(s: State, e: Event): State {
    match e
    case WatchBoot(p) =>
      var c := s.At(p);
      if c.phase.Starting? then s.With(p, c.(phase := BootWatched, watched := c.watched + {BootKey})) else s
    case ExistsBoot(p) =>
      var c := s.At(p);
      if c.phase.BootWatched? then s.With(p, c.(phase := if s.boot then BootSeen else Stopped)) else s
    case ExecBoot(p, outcome) =>
      var c := s.At(p);
      if !c.phase.BootSeen? then s
      else if c.dirty then s.With(p, Conn(Stopped, {}, false))
      else
        var next := if outcome.ReplyLost? then Stopped else Beating;
        // boot() does not look at the reply to its PSETEX.
        s.With(p, Conn(next, {}, false)).Touch(BootKey).(
          boot := false, booted := s.booted + [p],
          log := if outcome.CommandFailed? then s.log else s.log + [Write(p, FromBoot, s.dead)])
    case WatchDead(p) =>
      var c := s.At(p);
      if c.phase.Beating? then s.With(p, c.(phase := DeadWatched, watched := c.watched + {DeadKey})) else s
    case ExistsDead(p) =>
      var c := s.At(p);
      if c.phase.DeadWatched? then s.With(p, c.(phase := if s.dead then Stopped else DeadUnseen)) else s
    case ExecBeat(p, outcome) =>
      var c := s.At(p);
      if !c.phase.DeadUnseen? then s
      else if c.dirty then s.With(p, Conn(Stopped, {}, false))
      else if outcome.CommandFailed? then s.With(p, Conn(Stopped, {}, false))
      else s.With(p, Conn(Beating, {}, false)).(log := s.log + [Write(p, FromLoop, s.dead)])
    case Disconnect(p) =>
      var c := s.At(p);
      if c.phase.Beating? || c.phase.DeadWatched? || c.phase.DeadUnseen? then s.With(p, Conn(Beating, {}, false))
      else s.With(p, Conn(Stopped, {}, false))
    case Retry(p) =>
      var c := s.At(p);
      if c.phase.Beating? || c.phase.DeadWatched? || c.phase.DeadUnseen? then s.With(p, c.(phase := Beating))
      else s.With(p, c.(phase := Stopped))
    case GiveUp(p) => s.With(p, s.At(p).(phase := Stopped))
    case CreateBoot => s.Touch(BootKey).(boot := true, creations := s.creations + 1)
    case DeleteBoot => s.Touch(BootKey).(boot := false)
    case SetDead => s.Touch(DeadKey).(dead := true)
    case ClearDead => s.Touch(DeadKey).(dead := false)
  }

  function Run(s: State, es: seq<Event>): State
    decreases |es|
  {
    if es == [] then s else Apply(Run(s, es[..|es| - 1]), es[|es| - 1])
  }

  /** A clean connection guards what its process last saw of the key. */
  ghost predicate Guarded(s: State, p: Proc) {
    var c := s.At(p);
    && (c.phase.BootWatched? ==> BootKey in c.watched)
    && (c.phase.BootSeen? ==> BootKey in c.watched && (c.dirty || s.boot))
    && (c.phase.DeadWatched? ==> DeadKey in c.watched)
    && (c.phase.DeadUnseen? ==> DeadKey in c.watched && (c.dirty || !s.dead))
  }

  ghost predicate Inv(s: State) {
    forall p: Proc :: Guarded(s, p)
  }

  /** Steps of boot(). */
  lemma BootKeepsGuard(s: State, e: Event, p: Proc)
    requires Guarded(s, p) && (e.WatchBoot? || e.ExistsBoot? || e.ExecBoot?)
    ensures Guarded(Apply(s, e), p)
  {
  }

  /** Steps of the loop. */
  lemma LoopKeepsGuard(s: State, e: Event, p: Proc)
    requires Guarded(s, p) && (e.WatchDead? || e.ExistsDead? || e.ExecBeat?)
    ensures Guarded(Apply(s, e), p)
  {
  }

  lemma ErrorKeepsGuard(s: State, e: Event, p: Proc)
    requires Guarded(s, p) && (e.Disconnect? || e.Retry? || e.GiveUp?)
    ensures Guarded(Apply(s, e), p)
  {
  }

  /** Steps of other clients. */
  lemma OthersKeepGuard(s: State, e: Event, p: Proc)
    requires Guarded(s, p) && (e.CreateBoot? || e.DeleteBoot? || e.SetDead? || e.ClearDead?)
    ensures Guarded(Apply(s, e), p)
  {
  }

  lemma KeepsGuard(s: State, e: Event, p: Proc)
    requires Guarded(s, p)
    ensures Guarded(Apply(s, e), p)
  {
    hide Guarded, Apply;
    if e.WatchBoot? || e.ExistsBoot? || e.ExecBoot? {
      BootKeepsGuard(s, e, p);
    } else if e.WatchDead? || e.ExistsDead? || e.ExecBeat? {
      LoopKeepsGuard(s, e, p);
    } else if e.Disconnect? || e.Retry? || e.GiveUp? {
      ErrorKeepsGuard(s, e, p);
    } else {
      OthersKeepGuard(s, e, p);
    }
  }

  lemma KeepsInv(s: State, e: Event)
    requires Inv(s)
    ensures Inv(Apply(s, e))
  {
    hide Guarded, Apply;
    forall p: Proc ensures Guarded(Apply(s, e), p) {
      KeepsGuard(s, e, p);
    }
  }

  lemma {:induction false} Reachable(es: seq<Event>)
    ensures Inv(Run(INIT, es))
    decreases |es|
  {
    if es != [] {
      Reachable(es[..|es| - 1]);
      KeepsInv(Run(INIT, es[..|es| - 1]), es[|es| - 1]);
    }
  }

  /** A write from the heartbeat loop takes effect only while the dead key is
      absent, whatever happened between the check and the write. */
  lemma LoopWritesWhileAlive(s: State, e: Event)
    requires Inv(s)
    ensures s.log <= Apply(s, e).log && s.booted <= Apply(s, e).booted
    ensures s.dead ==> |Apply(s, e).log| - |s.log| <= |Apply(s, e).booted| - |s.booted|
    ensures forall i :: |s.log| <= i < |Apply(s, e).log| ==>
              var w := Apply(s, e).log[i]; w.dead == s.dead && (w.kind.FromLoop? ==> !s.dead)
  {
    if e.ExecBeat? {
      assert Guarded(s, e.p);
    }
  }

  lemma {:induction false} AfterDeath(s: State, es: seq<Event>)
    requires Inv(s) && s.dead && ClearDead !in es
    ensures var s' := Run(s, es);
            && Inv(s') && s'.dead && s.log <= s'.log && |s'.log| - |s.log| <= |s'.booted| - |s.booted|
            && forall i :: |s.log| <= i < |s'.log| ==> s'.log[i].kind.FromBoot?
    decreases |es|
  {
    if es != [] {
      var before := Run(s, es[..|es| - 1]);
      AfterDeath(s, es[..|es| - 1]);
      KeepsInv(before, es[|es| - 1]);
      LoopWritesWhileAlive(before, es[|es| - 1]);
    }
  }

  lemma {:induction false} RunSplit(s: State, a: seq<Event>, b: seq<Event>)
    ensures Run(s, a + b) == Run(Run(s, a), b)
    decreases |b|
  {
    if b == [] {
      assert a + b == a;
    } else {
      RunSplit(s, a, b[..|b| - 1]);
      assert (a + b)[..|a + b| - 1] == a + b[..|b| - 1];
    }
  }

  /** Once the dead key is set and stays set, no heartbeat of the loop is written
      any more, in any run. */
  lemma DeadStaysSilent(a: seq<Event>, b: seq<Event>)
    requires Run(INIT, a).dead && ClearDead !in b
    ensures var s, s' := Run(INIT, a), Run(INIT, a + b);
            && s.log <= s'.log
            && forall i :: |s.log| <= i < |s'.log| ==> s'.log[i].kind.FromBoot?
  {
    Reachable(a);
    AfterDeath(Run(INIT, a), b);
    RunSplit(INIT, a, b);
  }

  /** boot() does not look at the dead key: its first heartbeat can be written
      while the worker is declared dead. */
  lemma BootIgnoresDead() returns (es: seq<Event>)
    ensures es == [CreateBoot, SetDead, WatchBoot(0), ExistsBoot(0), ExecBoot(0, Answered)]
    ensures Run(INIT, es).dead && Run(INIT, es).log == [Write(0, FromBoot, true)]
  {
    es := [];
    assert Run(INIT, es) == INIT;
    hide Run;
    es := Push(INIT, es, CreateBoot);
    es := Push(INIT, es, SetDead);
    var s := Run(INIT, es);
    assert s.boot && s.dead && s.log == [] && s.At(0) == INIT.At(0);
    UndisturbedSucceeds(s, 0);
    hide Apply;
    es := Push(INIT, es, WatchBoot(0));
    es := Push(INIT, es, ExistsBoot(0));
    es := Push(INIT, es, ExecBoot(0, Answered));
  }

  /** Writing a key, by whomever, sets it and spoils every transaction that watches it. */
  lemma KeyWritten(s: State, e: Event, p: Proc)
    requires e.CreateBoot? || e.DeleteBoot? || e.SetDead? || e.ClearDead?
    ensures var s' := Apply(s, e);
            var key := if e.CreateBoot? || e.DeleteBoot? then BootKey else DeadKey;
            && s'.boot == (if e.CreateBoot? then true else if e.DeleteBoot? then false else s.boot)
            && s'.dead == (if e.SetDead? then true else if e.ClearDead? then false else s.dead)
            && s'.creations == s.creations + (if e.CreateBoot? then 1 else 0)
            && s'.log == s.log && s'.booted == s.booted
            && s'.At(p) == if key in s.At(p).watched then s.At(p).(dirty := true) else s.At(p)
  {
  }

  /** An exception ends boot(), but not the heartbeat loop, which starts anew: on a new
      connection without watched keys, or on the old one; a process that gives up stops. */
  lemma ExceptionExactly(s: State, e: Event, p: Proc)
    requires (e.Disconnect? || e.Retry? || e.GiveUp?) && e.p == p
    ensures var c, s' := s.At(p), Apply(s, e);
            var beating := c.phase.Beating? || c.phase.DeadWatched? || c.phase.DeadUnseen?;
            && s'.At(p).phase == (if beating && !e.GiveUp? then Beating else Stopped)
            && (e.Disconnect? ==> s'.At(p).watched == {} && !s'.At(p).dirty)
            && (!e.Disconnect? ==> s'.At(p).watched == c.watched && s'.At(p).dirty == c.dirty)
            && s'.boot == s.boot && s'.dead == s.dead && s'.log == s.log && s'.booted == s.booted
            && forall q :: q != p ==> s'.At(q) == s.At(q)
  {
  }

  /** What a process sees: it stops exactly if the boot key is absent when it boots, and
      exactly if the dead key is there when it is about to beat. */
  lemma LooksExactly(s: State, p: Proc)
    ensures s.At(p).phase.BootWatched? ==>
              (Apply(s, ExistsBoot(p)).At(p).phase == if s.boot then BootSeen else Stopped)
    ensures s.At(p).phase.DeadWatched? ==>
              (Apply(s, ExistsDead(p)).At(p).phase == if s.dead then Stopped else DeadUnseen)
  {
  }

  /** A spoiled transaction writes nothing and ends the process. */
  lemma SpoiledWritesNothing(s: State, p: Proc, outcome: Outcome)
    requires s.At(p).dirty && (s.At(p).phase.BootSeen? || s.At(p).phase.DeadUnseen?)
    ensures var s' := Apply(s, if s.At(p).phase.BootSeen? then ExecBoot(p, outcome) else ExecBeat(p, outcome));
            s'.At(p).phase.Stopped? && s'.log == s.log && s'.boot == s.boot && s'.booted == s.booted
  {
  }

  lemma Push(s: State, es: seq<Event>, e: Event) returns (r: seq<Event>)
    ensures r == es + [e] && Run(s, r) == Apply(Run(s, es), e)
  {
    r := es + [e];
    assert r[..|es|] == es;
  }

  /** Boots that have happened or still can. */
  function BootsPossible(s: State): nat {
    |s.booted| + if s.boot then 1 else 0
  }

  /** Only creating the boot key makes another boot possible. */
  lemma BootsStep(s: State, e: Event)
    requires Inv(s)
    ensures BootsPossible(Apply(s, e)) <= BootsPossible(s) + if e.CreateBoot? then 1 else 0
  {
    if e.ExecBoot? {
      assert Guarded(s, e.p);
    }
  }

  lemma OnlyCreationCounts(s: State, e: Event)
    ensures Apply(s, e).creations == s.creations + if e.CreateBoot? then 1 else 0
  {
  }

  /** Each creation of the boot key lets at most one process through boot(). */
  lemma {:induction false} BootsBounded(es: seq<Event>)
    ensures BootsPossible(Run(INIT, es)) <= Run(INIT, es).creations
    decreases |es|
  {
    if es != [] {
      BootsBounded(es[..|es| - 1]);
      Reachable(es[..|es| - 1]);
      hide Inv;
      OnlyCreationCounts(Run(INIT, es[..|es| - 1]), es[|es| - 1]);
      BootsStep(Run(INIT, es[..|es| - 1]), es[|es| - 1]);
    }
  }

  lemma {:induction false} BootsWithoutCreation(s: State, es: seq<Event>)
    requires Inv(s) && CreateBoot !in es
    ensures Inv(Run(s, es)) && BootsPossible(Run(s, es)) <= BootsPossible(s)
    decreases |es|
  {
    if es != [] {
      BootsWithoutCreation(s, es[..|es| - 1]);
      KeepsInv(Run(s, es[..|es| - 1]), es[|es| - 1]);
      BootsStep(Run(s, es[..|es| - 1]), es[|es| - 1]);
    }
  }

  /** Of any number of processes, at most one gets through boot() while the boot
      key is not created again. */
  lemma OneBootPerCreation(a: seq<Event>, b: seq<Event>)
    requires CreateBoot !in b
    ensures |Run(INIT, a + b).booted| <= |Run(INIT, a).booted| + 1
  {
    Reachable(a);
    BootsWithoutCreation(Run(INIT, a), b);
    RunSplit(INIT, a, b);
  }

  predicate Beats(c: Conn) {
    c.phase.Beating? || c.phase.DeadWatched? || c.phase.DeadUnseen?
  }

  lemma BeaterBootedStep(s: State, e: Event, p: Proc)
    requires Beats(s.At(p)) ==> p in s.booted
    ensures Beats(Apply(s, e).At(p)) ==> p in Apply(s, e).booted
  {
  }

  /** A process in the heartbeat loop has passed boot(); so as long as the boot key
      was created once, all processes in the loop are one. */
  lemma {:induction false} BeatersBooted(es: seq<Event>, p: Proc)
    requires Beats(Run(INIT, es).At(p))
    ensures p in Run(INIT, es).booted
    decreases |es|
  {
    if es != [] {
      var was, e := es[..|es| - 1], es[|es| - 1];
      hide Apply;
      if Beats(Run(INIT, was).At(p)) {
        BeatersBooted(was, p);
      }
      BeaterBootedStep(Run(INIT, was), e, p);
    }
  }

  lemma OneBeater(es: seq<Event>, p: Proc, q: Proc)
    requires Run(INIT, es).creations <= 1 && Beats(Run(INIT, es).At(p)) && Beats(Run(INIT, es).At(q))
    ensures p == q
  {
    hide Run;
    BeatersBooted(es, p);
    BeatersBooted(es, q);
    BootsBounded(es);
  }

  /** A dead worker is silent for good exactly if the boot key is absent too: else
      a process that has yet to start still writes once. */
  lemma SilentExactly(a: seq<Event>, p: Proc)
    requires Run(INIT, a).dead && Run(INIT, a).At(p) == Conn(Starting, {}, false)
    ensures (forall b :: ClearDead !in b && CreateBoot !in b ==> Run(INIT, a + b).log == Run(INIT, a).log) <==>
            !Run(INIT, a).boot
  {
    var s := Run(INIT, a);
    if s.boot {
      var b := [WatchBoot(p), ExistsBoot(p), ExecBoot(p, Answered)];
      RunSplit(INIT, a, b);
      BootRun(s, p);
      assert Run(INIT, a + b).log != s.log;
    } else {
      forall b | ClearDead !in b && CreateBoot !in b ensures Run(INIT, a + b).log == s.log {
        StaysSilent(a, b);
      }
    }
  }

  lemma BootRun(s: State, p: Proc)
    requires s.boot && s.At(p) == Conn(Starting, {}, false)
    ensures |Run(s, [WatchBoot(p), ExistsBoot(p), ExecBoot(p, Answered)]).log| == |s.log| + 1
  {
    hide Apply;
    var b := [];
    assert Run(s, b) == s;
    b := Push(s, b, WatchBoot(p));
    b := Push(s, b, ExistsBoot(p));
    b := Push(s, b, ExecBoot(p, Answered));
    assert b == [WatchBoot(p), ExistsBoot(p), ExecBoot(p, Answered)];
    UndisturbedSucceeds(s, p);
  }

  lemma StaysSilent(a: seq<Event>, b: seq<Event>)
    requires Run(INIT, a).dead && !Run(INIT, a).boot && ClearDead !in b && CreateBoot !in b
    ensures Run(INIT, a + b).log == Run(INIT, a).log
  {
    hide Run, Inv;
    Reachable(a);
    AfterDeath(Run(INIT, a), b);
    BootsWithoutCreation(Run(INIT, a), b);
    RunSplit(INIT, a, b);
  }

  /** The guards are not too strong: undisturbed, a process boots if the key is
      there, and a process on a clean connection beats if it is not dead. */
  lemma UndisturbedSucceeds(s: State, p: Proc)
    requires s.At(p).watched == {} && !s.At(p).dirty
    ensures s.boot && s.At(p).phase.Starting? ==>
              var s' := Apply(Apply(Apply(s, WatchBoot(p)), ExistsBoot(p)), ExecBoot(p, Answered));
              && s'.At(p) == Conn(Beating, {}, false) && s'.dead == s.dead
              && s'.log == s.log + [Write(p, FromBoot, s.dead)]
    ensures !s.dead && s.At(p).phase.Beating? ==>
              var s' := Apply(Apply(Apply(s, WatchDead(p)), ExistsDead(p)), ExecBeat(p, Answered));
              s'.At(p) == Conn(Beating, {}, false) && s'.log == s.log + [Write(p, FromLoop, false)]
  {
  }
}
