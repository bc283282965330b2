/** Admission of games in the on-policy evolution-strategies trainer of
    `cpid/estrainer.cpp`, on one rank.

    Every event is one critical section of the source. `startEpisode` has three
    (admit the game, read the generation, generate its model), `forceStopEpisode`
    has two (count the game down, then drop it from the active games), and an
    update holds its mutex from the check of the finished games to the end. An
    event that is not possible leaves the state alone, so a run is any sequence
    of events. A handle is used by one thread: a game whose handle is not out
    yet, or is being stopped, is not stepped. */
module ESTrainer {
  import opened Options

  type Game = nat

  /** The source aborts with LOG(FATAL) in these cases. */
  datatype Fatal = TooManyGames | GamesLeftOver | OlderGeneration | NoGameToStop

  datatype Config = Config(batchSize: nat, historyLength: nat)

  datatype State = State(
    gamesStarted: nat,
    actives: set<Game>,
    starting: map<Game, Option<int>>,  // admitted, and the generation once read
    stopping: set<Game>,               // counted down, not yet dropped
    newGames: seq<Game>,               // finished and not used yet
    batch: seq<Game>,                  // taken by the update in progress
    updating: bool,
    generationOf: map<Game, int>,
    history: seq<int>,                 // generations kept in modelsHistory_
    nextGame: Game,
    fatal: Option<Fatal>
  ) {
    function Oldest(): int
      requires history != []
    {
      history[0]
    }

    function Latest(): int
      requires history != []
    {
      history[|history| - 1]
    }

    /** Games that count towards the batch. */
    ghost function Playing(): set<Game> { actives - stopping }
  }

  datatype Event =
    | Admit
    | ReadGeneration(g: Game)
    | GenerateModel(g: Game)
    | Finish(g: Game)
    | StopBegin(g: Game)
    | StopEnd(g: Game)
    | UpdateBegin
    | UpdateEnd
    | Reset

  const INIT := State(0, {}, map[], {}, [], [], false, map[], [0], 0, None)

  function Generation(s: State, g: Game): int {
    if g in s.generationOf then s.generationOf[g] else 0
  }

  /** The next history: the new generation in, the oldest out if there are too many. */
  function Push(history: seq<int>, historyLength: nat): (h: seq<int>)
    requires history != []
    ensures h != []
  {
    var longer := history + [history[|history| - 1] + 1];
    if |longer| > historyLength then longer[1..] else longer
  }

  function DoAdmit(c: Config, s: State): State {
    if s.updating || s.gamesStarted >= c.batchSize then s
    else s.(gamesStarted := s.gamesStarted + 1, actives := s.actives + {s.nextGame},
            starting := s.starting[s.nextGame := None], nextGame := s.nextGame + 1)
  }

  function DoReadGeneration(s: State, g: Game): State
    requires s.history != []
  {
    if g in s.starting && s.starting[g].None? then s.(starting := s.starting[g := Some(s.Latest())]) else s
  }

  /** A generation that has left the history makes this section throw. */
  function DoGenerateModel(s: State, g: Game): State
    requires s.history != []
  {
    if g !in s.starting || s.starting[g].None? then s
    else if s.Oldest() > s.starting[g].value then s.(starting := s.starting - {g})
    else s.(starting := s.starting - {g}, generationOf := s.generationOf[g := s.starting[g].value])
  }

  function DoFinish(s: State, g: Game): State {
    if g in s.actives && g !in s.starting && g !in s.stopping
    then s.(actives := s.actives - {g}, newGames := s.newGames + [g]) else s
  }

  function DoStopBegin(s: State, g: Game): State {
    if s.updating || g !in s.actives || g in s.starting || g in s.stopping then s
    else if s.gamesStarted == 0 then s.(fatal := Some(NoGameToStop))
    else s.(gamesStarted := s.gamesStarted - 1, stopping := s.stopping + {g})
  }

  function DoStopEnd(s: State, g: Game): State {
    if g in s.stopping then s.(stopping := s.stopping - {g}, actives := s.actives - {g}) else s
  }

  function DoUpdateBegin(c: Config, s: State): State {
    if s.updating || |s.newGames| < c.batchSize then s
    else if s.gamesStarted > c.batchSize then s.(fatal := Some(TooManyGames))
    else
      var n := |s.newGames| - c.batchSize;
      s.(updating := true, batch := s.newGames[n..], newGames := s.newGames[..n])
  }

  predicate HasOlderGeneration(s: State)
    requires s.history != []
  {
    exists g :: g in s.batch && Generation(s, g) >= s.Oldest() && Generation(s, g) != s.Latest()
  }

  function DoUpdateEnd(c: Config, s: State): State
    requires s.history != []
  {
    if !s.updating then s
    else if HasOlderGeneration(s) then s.(fatal := Some(OlderGeneration))
    else
      var s' := s.(history := Push(s.history, c.historyLength), batch := [],
                   generationOf := s.generationOf - set g | g in s.batch);
      if s.actives != {} then s'.(fatal := Some(GamesLeftOver))
      else s'.(newGames := [], gamesStarted := 0, updating := false)
  }

  function DoReset(s: State): State {
    if s.updating then s else s.(actives := {}, gamesStarted := 0, newGames := [])
  }

  function Apply(c: Config, s: State, e: Event): (r: State)
    ensures s.history != [] ==> r.history != []
  {
    if s.fatal.Some? || s.history == [] then s else
    match e
    case Admit => DoAdmit(c, s)
    case ReadGeneration(g) => DoReadGeneration(s, g)
    case GenerateModel(g) => DoGenerateModel(s, g)
    case Finish(g) => DoFinish(s, g)
    case StopBegin(g) => DoStopBegin(s, g)
    case StopEnd(g) => DoStopEnd(s, g)
    case UpdateBegin => DoUpdateBegin(c, s)
    case UpdateEnd => DoUpdateEnd(c, s)
    case Reset => DoReset(s)
  }

  function Run(c: Config, es: seq<Event>): State
    decreases |es|
  {
    if es == [] then INIT else Apply(c, Run(c, es[..|es| - 1]), es[|es| - 1])
  }

  /** Generations in the history are contiguous, so the model of generation `g`
      is at index `g - oldest`. */
  ghost predicate HistoryOk(c: Config, s: State) {
    && 1 <= |s.history| && (|s.history| <= c.historyLength || |s.history| == 1)
    && forall i :: 0 <= i < |s.history| ==> s.history[i] == s.history[0] + i
  }

  ghost predicate Counted(c: Config, s: State) {
    && s.gamesStarted == |s.Playing()| + |s.newGames| + |s.batch|
    && s.gamesStarted <= c.batchSize
    && (if s.updating then |s.batch| == c.batchSize else s.batch == [])
  }

  /** A finished game is out of play and was played with the latest model. */
  ghost predicate Finished(s: State, g: Game)
    requires s.history != []
  {
    && g < s.nextGame && g !in s.actives && g !in s.starting
    && g in s.generationOf && s.generationOf[g] == s.Latest()
  }

  /** An active game plays the latest model, or is about to. */
  ghost predicate Current(s: State, g: Game)
    requires s.history != []
  {
    && g < s.nextGame
    && (g !in s.starting ==> g in s.generationOf && s.generationOf[g] == s.Latest())
    && (g in s.starting && s.starting[g].Some? ==> s.starting[g].value == s.Latest())
  }

  ghost predicate OnPolicy(s: State)
    requires s.history != []
  {
    && (forall g :: g in s.actives ==> Current(s, g))
    && (forall i :: 0 <= i < |s.newGames| ==> Finished(s, s.newGames[i]))
    && (forall i :: 0 <= i < |s.batch| ==> Finished(s, s.batch[i]))
    && (forall g :: g in s.starting ==> g < s.nextGame)
    && (forall g :: g in s.stopping ==> g < s.nextGame && g !in s.starting)
  }

  ghost predicate Inv(c: Config, s: State) {
    s.history != [] && HistoryOk(c, s) && Counted(c, s) && OnPolicy(s)
  }

  lemma KeepsHistory(c: Config, s: State, e: Event)
    requires HistoryOk(c, s)
    ensures HistoryOk(c, Apply(c, s, e))
  {
  }

  lemma CountAdd(a: set<Game>, b: set<Game>, g: Game)
    requires g !in a && g !in b
    ensures |(a + {g}) - b| == |a - b| + 1
  {
    assert (a + {g}) - b == (a - b) + {g};
  }

  lemma CountDrop(a: set<Game>, b: set<Game>, g: Game)
    requires g in a && g !in b
    ensures |(a - {g}) - b| == |a - b| - 1 && |a - (b + {g})| == |a - b| - 1
  {
    assert (a - {g}) - b == (a - b) - {g} && a - (b + {g}) == (a - b) - {g};
  }

  lemma NextIsNew(c: Config, s: State)
    requires Inv(c, s)
    ensures s.history != [] && s.nextGame !in s.actives && s.nextGame !in s.stopping
  {
    assert s.nextGame in s.actives ==> Current(s, s.nextGame);
  }

  lemma AdmitCounts(c: Config, s: State)
    requires Inv(c, s)
    ensures Counted(c, DoAdmit(c, s))
  {
    NextIsNew(c, s);
    hide HistoryOk, OnPolicy;
    CountAdd(s.actives, s.stopping, s.nextGame);
  }

  lemma GameCounts(c: Config, s: State, g: Game)
    requires Inv(c, s)
    ensures Counted(c, DoFinish(s, g)) && Counted(c, DoStopBegin(s, g)) && Counted(c, DoStopEnd(s, g))
  {
    hide HistoryOk, OnPolicy;
    if g in s.actives && g !in s.stopping {
      CountDrop(s.actives, s.stopping, g);
    }
    if g in s.stopping {
      assert (s.actives - {g}) - (s.stopping - {g}) == s.actives - s.stopping;
    }
  }

  lemma UpdateCounts(c: Config, s: State)
    requires Inv(c, s)
    ensures Counted(c, DoUpdateBegin(c, s)) && Counted(c, DoReset(s))
    ensures DoUpdateEnd(c, s).fatal.None? ==> Counted(c, DoUpdateEnd(c, s))
  {
    hide HistoryOk, OnPolicy, Push, HasOlderGeneration;
    assert {} - s.stopping == {};
  }

  lemma ModelCounts(c: Config, s: State, g: Game)
    requires Inv(c, s)
    ensures Counted(c, DoReadGeneration(s, g)) && Counted(c, DoGenerateModel(s, g))
  {
    hide HistoryOk, OnPolicy;
  }

  lemma KeepsCounted(c: Config, s: State, e: Event)
    requires Inv(c, s) && s.fatal.None? && Apply(c, s, e).fatal.None?
    ensures Counted(c, Apply(c, s, e))
  {
    hide Inv, Counted, DoAdmit, DoReadGeneration, DoGenerateModel, DoFinish, DoStopBegin, DoStopEnd,
      DoUpdateBegin, DoUpdateEnd, DoReset;
    assert s.history != [] by { NextIsNew(c, s); }
    match e
    case Admit => AdmitCounts(c, s);
    case ReadGeneration(g) => ModelCounts(c, s, g);
    case GenerateModel(g) => ModelCounts(c, s, g);
    case Finish(g) => GameCounts(c, s, g);
    case StopBegin(g) => GameCounts(c, s, g);
    case StopEnd(g) => GameCounts(c, s, g);
    case UpdateBegin => UpdateCounts(c, s);
    case UpdateEnd => UpdateCounts(c, s);
    case Reset => UpdateCounts(c, s);
  }

  lemma KeepsCurrent(c: Config, s: State, e: Event, g: Game)
    requires Inv(c, s) && Apply(c, s, e).fatal.None? && g in Apply(c, s, e).actives
    ensures Current(Apply(c, s, e), g)
  {
    hide Counted;
    assert g in s.actives ==> Current(s, g);
  }

  /** A game in the next state's queue or batch was finished before, or just now. */
  lemma KeepsFinished(c: Config, s: State, e: Event, g: Game)
    requires Inv(c, s) && s.fatal.None? && Apply(c, s, e).fatal.None?
    requires g in Apply(c, s, e).newGames || g in Apply(c, s, e).batch
    ensures Finished(Apply(c, s, e), g)
  {
    hide Counted, HistoryOk;
    assert g in s.newGames || g in s.batch ==> Finished(s, g);
    assert g in s.actives ==> Current(s, g);
  }

  lemma KeepsThreads(c: Config, s: State, e: Event)
    requires Inv(c, s)
    ensures var s' := Apply(c, s, e);
            && (forall g :: g in s'.starting ==> g < s'.nextGame)
            && (forall g :: g in s'.stopping ==> g < s'.nextGame && g !in s'.starting)
  {
    hide Counted, HistoryOk, Finished;
    if e.StopBegin? && e.g in s.actives {
      assert Current(s, e.g);
    }
  }

  lemma KeepsInv(c: Config, s: State, e: Event)
    requires Inv(c, s) && s.fatal.None? && Apply(c, s, e).fatal.None?
    ensures Inv(c, Apply(c, s, e))
  {
    var s' := Apply(c, s, e);
    KeepsHistory(c, s, e);
    KeepsCounted(c, s, e);
    KeepsThreads(c, s, e);
    hide Apply, Counted, HistoryOk, Current, Finished;
    forall g | g in s'.actives ensures Current(s', g) { KeepsCurrent(c, s, e, g); }
    forall i | 0 <= i < |s'.newGames| ensures Finished(s', s'.newGames[i]) { KeepsFinished(c, s, e, s'.newGames[i]); }
    forall i | 0 <= i < |s'.batch| ensures Finished(s', s'.batch[i]) { KeepsFinished(c, s, e, s'.batch[i]); }
  }

  /** During an update every game in the batch is of the latest generation, and
      the only active games are those being stopped. */
  lemma DuringUpdate(c: Config, s: State)
    requires Inv(c, s) && s.updating
    ensures !HasOlderGeneration(s) && s.newGames == [] && s.actives <= s.stopping
  {
    assert |s.Playing()| == 0 && |s.newGames| == 0;
    assert s.Playing() == {};
    assert forall g :: g in s.actives ==> g !in s.Playing();
  }

  /** Nothing but the end of an update aborts. */
  lemma NoOtherAbort(c: Config, s: State, e: Event)
    requires Inv(c, s) && s.fatal.None? && !e.UpdateEnd?
    ensures Apply(c, s, e).fatal.None?
  {
    hide HistoryOk, OnPolicy;
    NeverBelowZero(c, s);
    assert s.gamesStarted <= c.batchSize && s.history != [];
    hide Inv;
  }

  lemma UpdateEndAborts(c: Config, s: State)
    requires Inv(c, s) && s.fatal.None?
    ensures DoUpdateEnd(c, s).fatal == if s.updating && s.actives * s.stopping != {} then Some(GamesLeftOver) else None
  {
    if s.updating {
      DuringUpdate(c, s);
      assert s.actives * s.stopping == s.actives;
    }
    hide HistoryOk, OnPolicy, Counted, HasOlderGeneration;
  }

  /** Of the four aborts only one can be reached, exactly when an update ends
      while a game is between the two halves of its stop. */
  lemma Step(c: Config, s: State, e: Event)
    requires Inv(c, s) && s.fatal.None?
    ensures s.history != []
    ensures var s' := Apply(c, s, e);
            if e.UpdateEnd? && s.updating && s.actives * s.stopping != {} then s'.fatal == Some(GamesLeftOver)
            else s'.fatal.None? && Inv(c, s')
  {
    hide Inv, DoUpdateEnd;
    NextIsNew(c, s);
    if e.UpdateEnd? {
      UpdateEndAborts(c, s);
    } else {
      NoOtherAbort(c, s, e);
    }
    hide Apply;
    if Apply(c, s, e).fatal.None? {
      KeepsInv(c, s, e);
    }
  }

  lemma NeverBelowZero(c: Config, s: State)
    requires Inv(c, s)
    ensures forall g :: g in s.actives && g !in s.stopping ==> s.gamesStarted > 0
  {
    forall g | g in s.actives && g !in s.stopping ensures s.gamesStarted > 0 {
      assert g in s.Playing();
    }
  }

  lemma {:induction false} Reachable(c: Config, es: seq<Event>)
    ensures var s := Run(c, es);
            if s.fatal.None? then Inv(c, s) else s.fatal.value == GamesLeftOver
    decreases |es|
  {
    if es == [] {
      assert INIT.Playing() == {};
    } else {
      Reachable(c, es[..|es| - 1]);
      var s := Run(c, es[..|es| - 1]);
      if s.fatal.None? {
        hide Inv;
        Step(c, s, es[|es| - 1]);
      }
    }
  }

  /** Conservation: in every run, the games started are those playing, those
      finished and unused and those in the batch of an update; there are never
      more than a batch, and no abort but one is ever reached. */
  lemma Conservation(c: Config, es: seq<Event>)
    ensures var s := Run(c, es);
            && s.fatal in {None, Some(GamesLeftOver)}
            && (s.fatal.None? ==> s.gamesStarted == |s.Playing()| + |s.newGames| + |s.batch| <= c.batchSize)
  {
    hide Run, HistoryOk, OnPolicy;
    Reachable(c, es);
  }

  /** The remaining abort: it happens exactly when an update ends while some
      game has been counted down but not yet dropped by forceStopEpisode. */
  lemma LeftOverExactly(c: Config, es: seq<Event>)
    requires Run(c, es).fatal.None?
    ensures var s := Run(c, es);
            Apply(c, s, UpdateEnd).fatal.Some? <==> s.updating && s.actives * s.stopping != {}
  {
    Reachable(c, es);
    Step(c, Run(c, es), UpdateEnd);
  }

  lemma Then(c: Config, es: seq<Event>, e: Event) returns (r: seq<Event>)
    ensures r == es + [e] && Run(c, r) == Apply(c, Run(c, es), e)
  {
    r := es + [e];
    assert r[..|es|] == es;
  }

  /** ... and it does happen: game 0 is being stopped while game 1 is played and
      learned from. */
  lemma LeftOverHappens() returns (es: seq<Event>)
    ensures es == [Admit, ReadGeneration(0), GenerateModel(0), StopBegin(0),
                   Admit, ReadGeneration(1), GenerateModel(1), Finish(1), UpdateBegin, UpdateEnd]
    ensures Run(Config(1, 1), es).fatal == Some(GamesLeftOver)
  {
    hide Run, Apply;
    var c := Config(1, 1);
    es := LeftOverBegins(c);
    es := StartsOne(c, es, 1);
    es := Then(c, es, Finish(1));
    es := Then(c, es, UpdateBegin);
    es := Then(c, es, UpdateEnd);
    LeftOverEnds(c);
  }

  lemma LeftOverBegins(c: Config) returns (es: seq<Event>)
    requires c.batchSize == 1
    ensures es == [Admit, ReadGeneration(0), GenerateModel(0), StopBegin(0)]
    ensures Run(c, es) == Stopping0()
  {
    es := StartsOne(c, [], 0);
    es := Then(c, es, StopBegin(0));
    assert INIT.starting - {0} == map[];
  }

  function Stopping0(): State {
    INIT.(actives := {0}, stopping := {0}, generationOf := map[0 := 0], nextGame := 1)
  }

  lemma LeftOverEnds(c: Config)
    requires c.batchSize == 1
    ensures var s := Started(Stopping0(), 1);
            Apply(c, Apply(c, Apply(c, s, Finish(1)), UpdateBegin), UpdateEnd).fatal == Some(GamesLeftOver)
  {
    var s := Started(Stopping0(), 1);
    assert 0 in s.actives && s.newGames == [] && s.generationOf[1] == 0;
    hide Apply;
    LastFinishes(c, s, 1);
    var s1 := s.(actives := s.actives - {1}, newGames := [1]);
    BatchBegins(c, s1, 1);
    assert 0 in s1.actives;
    UpdateAborts(c, s1.(updating := true, batch := [1], newGames := []), 1, 0);
  }

  lemma LastFinishes(c: Config, s: State, g: Game)
    requires s.fatal.None? && s.history != [] && s.newGames == []
    requires g in s.actives && g !in s.starting && g !in s.stopping
    ensures Apply(c, s, Finish(g)) == s.(actives := s.actives - {g}, newGames := [g])
  {
  }

  lemma BatchBegins(c: Config, s: State, g: Game)
    requires c.batchSize == 1 && s.gamesStarted == 1 && s.fatal.None? && s.history != [] && !s.updating
    requires s.newGames == [g]
    ensures Apply(c, s, UpdateBegin) == s.(updating := true, batch := [g], newGames := [])
  {
    assert s.newGames[0..] == [g] && s.newGames[..0] == [];
  }

  /** An update that ends while some game is still active. */
  lemma UpdateAborts(c: Config, s: State, g: Game, active: Game)
    requires s.fatal.None? && s.history != [] && s.updating && s.batch == [g] && active in s.actives
    requires g in s.generationOf && s.generationOf[g] == s.Latest()
    ensures Apply(c, s, UpdateEnd).fatal == Some(GamesLeftOver)
  {
    assert !HasOlderGeneration(s);
    hide HasOlderGeneration, Push;
  }

  /** The state after a whole startEpisode(), undisturbed. */
  function Started(s: State, g: Game): State {
    s.(gamesStarted := s.gamesStarted + 1, actives := s.actives + {g}, starting := s.starting - {g},
       generationOf := s.generationOf[g := 0], nextGame := g + 1)
  }

  lemma StartEffect(c: Config, s: State, g: Game)
    requires s.fatal.None? && s.history == [0] && s.nextGame == g && !s.updating && s.gamesStarted < c.batchSize
    ensures Apply(c, Apply(c, Apply(c, s, Admit), ReadGeneration(g)), GenerateModel(g)) == Started(s, g)
  {
    var s1 := Apply(c, s, Admit);
    assert s1.starting == s.starting[g := None];
    var s2 := Apply(c, s1, ReadGeneration(g));
    assert s2.starting == s.starting[g := Some(0)];
    assert s2.starting - {g} == s.starting - {g};
  }

  lemma StartsOne(c: Config, es: seq<Event>, g: Game) returns (r: seq<Event>)
    requires var s := Run(c, es);
             s.fatal.None? && s.history == [0] && s.nextGame == g && !s.updating && s.gamesStarted < c.batchSize
    ensures r == es + [Admit, ReadGeneration(g), GenerateModel(g)]
    ensures Run(c, r) == Started(Run(c, es), g)
  {
    hide Run, Apply;
    StartEffect(c, Run(c, es), g);
    r := Then(c, es, Admit);
    r := Then(c, r, ReadGeneration(g));
    r := Then(c, r, GenerateModel(g));
  }

  /** Stops that are not interrupted. */
  ghost predicate AtomicStops(es: seq<Event>) {
    forall i :: 0 <= i < |es| && es[i].StopBegin? ==> i + 1 < |es| && es[i + 1] == StopEnd(es[i].g)
  }

  lemma StoppingStep(c: Config, s: State, e: Event)
    ensures Apply(c, s, e).stopping <= if e.StopBegin? then s.stopping + {e.g} else s.stopping
    ensures e.StopEnd? && s.fatal.None? && s.history != [] ==> Apply(c, s, e).stopping == s.stopping - {e.g}
  {
  }

  lemma {:induction false} NothingHalfStopped(c: Config, es: seq<Event>, n: nat)
    requires AtomicStops(es) && n <= |es|
    ensures var s := Run(c, es[..n]);
            s.fatal.None? && s.stopping <= if n > 0 && es[n - 1].StopBegin? then {es[n - 1].g} else {}
    decreases n
  {
    if n > 0 {
      hide Inv;
      NothingHalfStopped(c, es, n - 1);
      assert es[..n][..n - 1] == es[..n - 1];
      Reachable(c, es[..n - 1]);
      var s, e := Run(c, es[..n - 1]), es[n - 1];
      Step(c, s, e);
      StoppingStep(c, s, e);
      assert n > 1 && es[n - 2].StopBegin? ==> e == StopEnd(es[n - 2].g);
    }
  }

  /** With uninterrupted stops no abort is reachable at all. */
  lemma AtomicStopsAreSafe(c: Config, es: seq<Event>)
    requires AtomicStops(es)
    ensures Run(c, es).fatal.None?
  {
    NothingHalfStopped(c, es, |es|);
    assert es[..|es|] == es;
  }

  /** Every model lookup is in range and finds its own generation: for games in
      a batch, and for active games about to get their model, whose start
      therefore never throws. */
  lemma LookupsInRange(c: Config, es: seq<Event>, g: Game)
    requires Run(c, es).fatal.None?
    ensures var s := Run(c, es);
            && s.history != []
            && (g in s.batch || (g in s.actives && g in s.starting && s.starting[g].Some?) ==>
                  var generation := if g in s.batch then Generation(s, g) else s.starting[g].value;
                  0 <= generation - s.Oldest() < |s.history| && s.history[generation - s.Oldest()] == generation)
  {
    Reachable(c, es);
    var s := Run(c, es);
    assert g in s.actives ==> Current(s, g);
    assert g in s.batch ==> Finished(s, g);
  }

  lemma BatchLookup(c: Config, s: State, b: nat)
    requires Inv(c, s) && b < |s.batch|
    ensures s.batch[b] in s.generationOf
    ensures var generation := s.generationOf[s.batch[b]];
            && generation == s.Latest() && 0 <= generation - s.Oldest() < |s.history|
            && s.history[generation - s.Oldest()] == generation
  {
    assert Finished(s, s.batch[b]);
  }

  /** What an update that ends without a game being stopped leaves behind. */
  lemma FinishIs(c: Config, s: State)
    requires Inv(c, s) && s.fatal.None? && s.updating && s.stopping == {}
    ensures s.history != [] && s.actives == {}
    ensures Inv(c, Apply(c, s, UpdateEnd))
    ensures Apply(c, s, UpdateEnd) ==
            s.(history := Push(s.history, c.historyLength), batch := [],
               generationOf := s.generationOf - (set g | g in s.batch),
               newGames := [], gamesStarted := 0, updating := false)
  {
    Step(c, s, UpdateEnd);
    DuringUpdate(c, s);
    hide Inv, HasOlderGeneration, Push;
  }

  lemma BeginIs(c: Config, s: State)
    requires s.fatal.None? && s.history != [] && !s.updating && c.batchSize <= |s.newGames|
    requires s.gamesStarted <= c.batchSize
    ensures Apply(c, s, UpdateBegin) ==
            s.(updating := true, batch := s.newGames[|s.newGames| - c.batchSize..],
               newGames := s.newGames[..|s.newGames| - c.batchSize])
  {
  }

  /** In every run the history holds the latest generations, one after the other, as many as
      it may hold: all from 0 on, until there are too many. */
  lemma {:induction false} HistoryExactly(c: Config, es: seq<Event>)
    ensures var h := Run(c, es).history;
            && h != [] && (forall i :: 0 <= i < |h| ==> h[i] == h[|h| - 1] - (|h| - 1 - i))
            && h[|h| - 1] >= 0
            && |h| == if h[|h| - 1] + 1 <= c.historyLength then h[|h| - 1] + 1
                      else if c.historyLength == 0 then 1 else c.historyLength
    decreases |es|
  {
    if es != [] {
      HistoryExactly(c, es[..|es| - 1]);
      HistoryStep(c, Run(c, es[..|es| - 1]), es[|es| - 1]);
      hide Apply;
    }
  }

  lemma HistoryStep(c: Config, s: State, e: Event)
    requires s.history != []
    ensures var h := Apply(c, s, e).history; h == s.history || h == Push(s.history, c.historyLength)
  {
    hide HasOlderGeneration, Push;
  }

  /** The trainer's own fields and methods. `starting` and `stopping` are the
      positions of the threads inside startEpisode and forceStopEpisode. */
  class Trainer {
    const config: Config
    var gamesStarted: nat
    var actives: set<Game>
    var starting: map<Game, Option<int>>
    var stopping: set<Game>
    var newGames: seq<Game>
    var batch: seq<Game>
    var updating: bool
    var generationOf: map<Game, int>
    var history: seq<int>
    var nextGame: Game

    ghost function View(): State
      reads this
    {
      State(gamesStarted, actives, starting, stopping, newGames, batch, updating, generationOf, history, nextGame, None)
    }

    ghost predicate Valid()
      reads this
    {
      Inv(config, View())
    }

    constructor (config: Config)
      ensures Valid() && this.config == config && View() == INIT
    {
      this.config := config;
      gamesStarted, actives, starting, stopping := 0, {}, map[], {};
      newGames, batch, updating := [], [], false;
      generationOf, history, nextGame := map[], [0], 0;
      new;
      Reachable(config, []);
    }

    /** First section of startEpisode(): the next game, unless a whole batch has
        been started. */
    method StartEpisode() returns (handle: Option<Game>)
      requires Valid() && !updating
      modifies this
      ensures Valid() && View() == Apply(config, old(View()), Admit)
      ensures handle == if old(gamesStarted) < config.batchSize then Some(old(nextGame)) else None
      ensures handle.Some? ==>
                && gamesStarted == old(gamesStarted) + 1 && actives == old(actives) + {handle.value}
                && starting == old(starting)[handle.value := None] && nextGame == old(nextGame) + 1
      ensures handle.None? ==> View() == old(View())
    {
      hide Inv;
      Step(config, View(), Admit);
      if gamesStarted >= config.batchSize {
        return None;
      }
      gamesStarted := gamesStarted + 1;
      handle := Some(nextGame);
      actives := actives + {nextGame};
      starting := starting[nextGame := None];
      nextGame := nextGame + 1;
    }

    /** Second section of startEpisode(): the generation of the latest model. */
    method ReadGenerationOf(g: Game)
      requires Valid()
      modifies this`starting
      ensures Valid() && View() == Apply(config, old(View()), ReadGeneration(g))
      ensures history != [] && starting ==
                if g in old(starting) && old(starting)[g].None? then old(starting)[g := Some(history[|history| - 1])]
                else old(starting)
    {
      hide Inv;
      Step(config, View(), ReadGeneration(g));
      if g in starting && starting[g].None? {
        starting := starting[g := Some(history[|history| - 1])];
      }
    }

    /** Third section of startEpisode(): the model of that generation; false stands for the
        exception about one that has left the history. */
    method GenerateModelFor(g: Game) returns (ok: bool)
      requires Valid() && g in starting && starting[g].Some?
      modifies this`starting, this`generationOf
      ensures Valid() && View() == Apply(config, old(View()), GenerateModel(g))
      ensures history != [] && (ok <==> history[0] <= old(starting)[g].value)
      ensures starting == old(starting) - {g}
      ensures generationOf == if ok then old(generationOf)[g := old(starting)[g].value] else old(generationOf)
    {
      hide Inv;
      Step(config, View(), GenerateModel(g));
      var generation := starting[g].value;
      starting := starting - {g};
      ok := history[0] <= generation;
      if ok {
        generationOf := generationOf[g := generation];
      }
    }

    /** The last step of a game: it is out of play and counts as finished. */
    method FinishEpisode(g: Game)
      requires Valid() && g in actives && g !in starting && g !in stopping
      modifies this`actives, this`newGames
      ensures Valid() && View() == Apply(config, old(View()), Finish(g))
      ensures actives == old(actives) - {g} && newGames == old(newGames) + [g]
    {
      hide Inv;
      Step(config, View(), Finish(g));
      actives := actives - {g};
      newGames := newGames + [g];
    }

    /** Second section of forceStopEpisode(). */
    method ForceStopEnd(g: Game)
      requires Valid() && g in stopping
      modifies this`actives, this`stopping
      ensures Valid() && View() == Apply(config, old(View()), StopEnd(g))
      ensures actives == old(actives) - {g} && stopping == old(stopping) - {g}
    {
      hide Inv;
      Step(config, View(), StopEnd(g));
      actives := actives - {g};
      stopping := stopping - {g};
    }

    /** Drops all games. */
    method ResetTrainer()
      requires Valid() && !updating
      modifies this`actives, this`gamesStarted, this`newGames
      ensures Valid() && View() == Apply(config, old(View()), Reset)
      ensures actives == {} && gamesStarted == 0 && newGames == []
    {
      hide Inv;
      Step(config, View(), Reset);
      actives, gamesStarted, newGames := {}, 0, [];
    }

    /** First section of forceStopEpisode(). The count cannot be zero. */
    method ForceStopBegin(g: Game)
      requires Valid() && !updating && g !in starting && g !in stopping
      modifies this
      ensures Valid() && View() == Apply(config, old(View()), StopBegin(g))
      ensures if g in old(actives) then gamesStarted == old(gamesStarted) - 1 && stopping == old(stopping) + {g}
              else View() == old(View())
      ensures actives == old(actives) && newGames == old(newGames)
    {
      hide Inv;
      Step(config, View(), StopBegin(g));
      if g in actives {
        assert gamesStarted > 0;
        gamesStarted := gamesStarted - 1;
        stopping := stopping + {g};
      }
    }

    /** The check at the start of update(), and taking a batch from the back of
        the finished games. */
    method BeginUpdate() returns (go: bool)
      requires Valid() && !updating
      modifies this
      ensures Valid() && View() == Apply(config, old(View()), UpdateBegin)
      ensures go <==> old(|newGames|) >= config.batchSize
      ensures if go then updating && newGames + batch == old(newGames) && |batch| == config.batchSize
              else View() == old(View())
    {
      hide Inv;
      Step(config, View(), UpdateBegin);
      if |newGames| < config.batchSize {
        return false;
      }
      assert gamesStarted <= config.batchSize;
      BeginIs(config, View());
      hide Apply;
      ghost var all := newGames;
      batch := [];
      for b := 0 to config.batchSize
        invariant |newGames| == |all| - b
        invariant newGames == all[..|all| - b] && batch == all[|all| - b..]
        invariant unchanged(this`gamesStarted, this`actives, this`starting, this`stopping, this`updating)
        invariant unchanged(this`generationOf, this`history, this`nextGame)
      {
        var last := newGames[|newGames| - 1];
        newGames := newGames[..|newGames| - 1];
        batch := [last] + batch;
      }
      assert all[..|all| - config.batchSize] + all[|all| - config.batchSize..] == all;
      updating := true;
      return true;
    }

    /** The models of the batch are all found in the history. */
    method LookUpModels() returns (latest: int)
      requires Valid() && updating && history != []
      ensures latest == history[|history| - 1]
    {
      hide Inv;
      var oldest := history[0];
      latest := history[|history| - 1];
      for b := 0 to |batch| {
        var generation := if batch[b] in generationOf then generationOf[batch[b]] else 0;
        if oldest <= generation {
          BatchLookup(config, View(), b);
          assert history[generation - oldest] == generation && generation == latest;
        }
      }
    }

    /** The end of update(): no aborts if no stop is half done. */
    method FinishUpdate()
      requires Valid() && updating && stopping == {}
      modifies this
      ensures Valid() && View() == Apply(config, old(View()), UpdateEnd)
      ensures gamesStarted == 0 && history[|history| - 1] == old(history[|history| - 1]) + 1
      ensures var longer := old(history) + [old(history[|history| - 1]) + 1];
              history == if |longer| > config.historyLength then longer[1..] else longer
      ensures newGames == [] && batch == [] && !updating && actives == old(actives)
      ensures generationOf == old(generationOf - set g | g in batch)
    {
      hide Inv, Apply;
      FinishIs(config, View());
      var latest := LookUpModels();
      generationOf := generationOf - set g | g in batch;
      history := history + [latest + 1];
      if |history| > config.historyLength {
        history := history[1..];
      }
      newGames, batch, gamesStarted, updating := [], [], 0, false;
    }
  }
}
