/**
  What the engine's lifecycle guarantees, and what it does not: which loops
  re-arm under which flags, what pause, resume, cleanup and initialize do to
  the pending callbacks, and how the update deltas add up.
 */
module EngineProperties {
  import opened Wrappers
  import opened Persistence
  import opened GameData
  import opened EngineModel

  // ---------------------------------------------------------------------------
  // One firing of each runnable

  /** The update runnable runs `updateGame` and re-posts itself exactly when running and not paused. */
  lemma UpdateFiring(e: EngineState, now: int, toJson: Encoder)
    requires UpdateLoop in e.pending
    ensures var f := Fire(e, UpdateLoop, now, toJson);
            && f.pending[UpdateLoop] == (if Active(e) then e.pending[UpdateLoop] else e.pending[UpdateLoop] - 1)
            && f.pending[SaveLoop] == e.pending[SaveLoop] && f.pending[SyncLoop] == e.pending[SyncLoop]
            && f.running == e.running && f.paused == e.paused && f.managersReady == e.managersReady
            && f.store == e.store && f.syncs == e.syncs
            && (Active(e) && e.game.Some? ==>
                  f.ticks == e.ticks + [now - e.game.value.lastUpdateTime]
                  && f.game == Some(e.game.value.(lastUpdateTime := now)))
            && (!Active(e) ==> f.ticks == e.ticks && f.game == e.game)
  {
  }

  /** The save runnable re-posts itself whenever running, paused or not, and stamps and stores the state. */
  lemma SaveFiring(e: EngineState, now: int, toJson: Encoder)
    requires SaveLoop in e.pending
    ensures var f := Fire(e, SaveLoop, now, toJson);
            && f.pending[SaveLoop] == (if e.running then e.pending[SaveLoop] else e.pending[SaveLoop] - 1)
            && f.pending[UpdateLoop] == e.pending[UpdateLoop] && f.pending[SyncLoop] == e.pending[SyncLoop]
            && f.running == e.running && f.paused == e.paused && f.managersReady == e.managersReady
            && f.ticks == e.ticks && f.syncs == e.syncs
            && (e.running && e.game.Some? ==>
                  var stamped := e.game.value.(lastSaveTime := now);
                  && f.game == Some(stamped)
                  && f.store == (if toJson(stamped).Some? then e.store[GameStateKey := toJson(stamped).value] else e.store))
            && (!e.running ==> f.game == e.game && f.store == e.store)
  {
  }

  /** The sync runnable has the update runnable's guard and touches nothing but the sync count. */
  lemma SyncFiring(e: EngineState, now: int, toJson: Encoder)
    requires SyncLoop in e.pending
    ensures var f := Fire(e, SyncLoop, now, toJson);
            && f.pending[SyncLoop] == (if Active(e) then e.pending[SyncLoop] else e.pending[SyncLoop] - 1)
            && f.pending[UpdateLoop] == e.pending[UpdateLoop] && f.pending[SaveLoop] == e.pending[SaveLoop]
            && f.syncs == (if Active(e) then e.syncs + 1 else e.syncs)
            && f.running == e.running && f.paused == e.paused && f.managersReady == e.managersReady
            && f.game == e.game && f.store == e.store && f.ticks == e.ticks
  {
  }

  /** Once stopped, no firing re-arms anything: the fired copy is simply consumed. */
  lemma StoppedFiringNeverRearms(e: EngineState, r: Callback, now: int, toJson: Encoder)
    requires !e.running && r in e.pending
    ensures Fire(e, r, now, toJson) == e.(pending := e.pending - multiset{r})
  {
  }

  // ---------------------------------------------------------------------------
  // Pause and resume

  /** Pausing ends the update and sync chains at their next firing but not the save chain. */
  lemma SaveLoopSurvivesPause(e: EngineState, now: int, toJson: Encoder)
    requires e.running
    ensures SaveLoop in e.pending ==> Fire(Pause(e), SaveLoop, now, toJson).pending[SaveLoop] == e.pending[SaveLoop]
    ensures UpdateLoop in e.pending ==>
              Fire(Pause(e), UpdateLoop, now, toJson).pending[UpdateLoop] == e.pending[UpdateLoop] - 1
    ensures SyncLoop in e.pending ==>
              Fire(Pause(e), SyncLoop, now, toJson).pending[SyncLoop] == e.pending[SyncLoop] - 1
  {
    if SaveLoop in e.pending { SaveFiring(Pause(e), now, toJson); }
  }

  /** While paused, whatever the looper runs, no delta is produced, no sync launched, and saving goes on. */
  lemma {:induction false} PausedEngineOnlySaves(e: EngineState, evs: seq<Event>, toJson: Encoder, fromJson: Decoder)
    requires e.paused && OnlyFirings(evs)
    ensures var r := Run(e, evs, toJson, fromJson);
            && r.paused && r.running == e.running
            && r.ticks == e.ticks && r.syncs == e.syncs
            && r.pending[UpdateLoop] <= e.pending[UpdateLoop] && r.pending[SyncLoop] <= e.pending[SyncLoop]
            && (e.running ==> r.pending[SaveLoop] == e.pending[SaveLoop])
    decreases |evs|
  {
    if evs != [] {
      var s := Step(e, evs[0], toJson, fromJson);
      var r := evs[0].callback;
      if r in e.pending {
        match r
        case UpdateLoop => UpdateFiring(e, evs[0].now, toJson);
        case SaveLoop => SaveFiring(e, evs[0].now, toJson);
        case SyncLoop => SyncFiring(e, evs[0].now, toJson);
      }
      assert OnlyFirings(evs[1..]) by {
        forall i | 0 <= i < |evs[1..]| ensures evs[1..][i].Fired? { assert evs[1..][i] == evs[i + 1]; }
      }
      PausedEngineOnlySaves(s, evs[1..], toJson, fromJson);
    }
  }

  /** `resume` posts the update runnable alone, and only when running. */
  lemma ResumeRestartsOnlyUpdate(e: EngineState)
    ensures var r := Resume(e);
            && !r.paused && r.running == e.running
            && r.pending[UpdateLoop] == (if e.running then e.pending[UpdateLoop] + 1 else e.pending[UpdateLoop])
            && r.pending[SaveLoop] == e.pending[SaveLoop] && r.pending[SyncLoop] == e.pending[SyncLoop]
  {
  }

  /** A sync chain that has lapsed is never restarted by anything but `initialize`. */
  lemma {:induction false} SyncLapsedStaysLapsed(e: EngineState, evs: seq<Event>, toJson: Encoder, fromJson: Decoder)
    requires SyncLoop !in e.pending && NoInitialize(evs)
    ensures var r := Run(e, evs, toJson, fromJson);
            SyncLoop !in r.pending && r.syncs == e.syncs
    decreases |evs|
  {
    if evs != [] {
      var s := Step(e, evs[0], toJson, fromJson);
      assert SyncLoop !in s.pending && s.syncs == e.syncs by {
        match evs[0]
        case Fired(r, now) =>
          if r in e.pending {
            if r == UpdateLoop { UpdateFiring(e, now, toJson); } else { SaveFiring(e, now, toJson); }
          }
        case Paused =>
        case Resumed => ResumeRestartsOnlyUpdate(e);
        case CleanedUp(now) => CleanupStops(e, now, toJson);
      }
      assert NoInitialize(evs[1..]) by {
        forall i | 0 <= i < |evs[1..]| ensures !evs[1..][i].Initialized? { assert evs[1..][i] == evs[i + 1]; }
      }
      SyncLapsedStaysLapsed(s, evs[1..], toJson, fromJson);
    }
  }

  /** Pause, let the update and sync callbacks run out, resume: the sync loop is gone for good. */
  lemma PauseResumeDropsSync(e: EngineState, t1: int, t2: int, toJson: Encoder, fromJson: Decoder)
    requires e.running && !e.paused && e.pending == AllLoops
    ensures Run(e, [Paused, Fired(UpdateLoop, t1), Fired(SyncLoop, t2), Resumed], toJson, fromJson).pending
            == multiset{SaveLoop, UpdateLoop}
  {
    var p := Pause(e);
    var u := Fire(p, UpdateLoop, t1, toJson);
    UpdateFiring(p, t1, toJson);
    var y := Fire(u, SyncLoop, t2, toJson);
    SyncFiring(u, t2, toJson);
    var r := Resume(y);
    ResumeRestartsOnlyUpdate(y);
    SameCounts(r.pending, multiset{SaveLoop, UpdateLoop});
    RunUnfold(e, Paused, [Fired(UpdateLoop, t1), Fired(SyncLoop, t2), Resumed], toJson, fromJson);
    RunUnfold(p, Fired(UpdateLoop, t1), [Fired(SyncLoop, t2), Resumed], toJson, fromJson);
    RunUnfold(u, Fired(SyncLoop, t2), [Resumed], toJson, fromJson);
    RunUnfold(y, Resumed, [], toJson, fromJson);
  }

  /**
    The activity calls `initialize` and then, on its first `onResume`,
    `resume`: the update callback is then pending twice, so two update
    chains tick side by side.
   */
  lemma StartupResumeDoublesUpdate(store: Store, fromJson: Decoder, inputs: NewGameInputs)
    ensures var r := Resume(Initialize(Initial(store), fromJson, inputs, NoFault));
            r.pending[UpdateLoop] == 2 && r.pending[SaveLoop] == 1 && r.pending[SyncLoop] == 1
  {
  }

  // ---------------------------------------------------------------------------
  // Cleanup and initialize

  /** `k` pause/resume pairs with nothing fired in between, each shorter than one update tick. */
  function PauseResumes(k: nat): seq<Event>
    decreases k
  {
    if k == 0 then [] else [Paused, Resumed] + PauseResumes(k - 1)
  }

  /**
    Nothing keeps the update chain unique: every pause/resume that ends before
    the pending update copy fires adds one more update chain.
   */
  lemma {:induction false} PauseResumeCyclesAddUpdateChains(e: EngineState, k: nat, toJson: Encoder, fromJson: Decoder)
    requires e.running
    ensures var r := Run(e, PauseResumes(k), toJson, fromJson);
            && r.running && r.game == e.game && r.ticks == e.ticks && r.syncs == e.syncs
            && r.pending[UpdateLoop] == e.pending[UpdateLoop] + k
            && r.pending[SaveLoop] == e.pending[SaveLoop] && r.pending[SyncLoop] == e.pending[SyncLoop]
            && (k > 0 ==> !r.paused)
    decreases k
  {
    if k > 0 {
      var once := Resume(Pause(e));
      RunUnfold(e, Paused, [Resumed] + PauseResumes(k - 1), toJson, fromJson);
      RunUnfold(Pause(e), Resumed, PauseResumes(k - 1), toJson, fromJson);
      assert [Paused, Resumed] + PauseResumes(k - 1) == [Paused] + ([Resumed] + PauseResumes(k - 1));
      PauseResumeCyclesAddUpdateChains(once, k - 1, toJson, fromJson);
    }
  }

  /** A multiset of callbacks is determined by the count of each of the three. */
  lemma SameCounts(m: multiset<Callback>, n: multiset<Callback>)
    requires m[UpdateLoop] == n[UpdateLoop] && m[SaveLoop] == n[SaveLoop] && m[SyncLoop] == n[SyncLoop]
    ensures m == n
  {
    forall c: Callback ensures m[c] == n[c] {
      match c
      case UpdateLoop =>
      case SaveLoop =>
      case SyncLoop =>
    }
  }

  lemma RunUnfold(e: EngineState, ev: Event, rest: seq<Event>, toJson: Encoder, fromJson: Decoder)
    ensures Run(e, [ev] + rest, toJson, fromJson) == Run(Step(e, ev, toJson, fromJson), rest, toJson, fromJson)
  {
    assert ([ev] + rest)[1..] == rest;
  }

  /** After `cleanup`: stopped and paused, nothing pending, and one final save stamped with `now`. */
  lemma CleanupStops(e: EngineState, now: int, toJson: Encoder)
    ensures var c := Cleanup(e, now, toJson);
            && !c.running && c.paused && c.pending == multiset{}
            && c.managersReady == e.managersReady && c.ticks == e.ticks && c.syncs == e.syncs
            && (e.game.Some? ==>
                  var stamped := e.game.value.(lastSaveTime := now);
                  && c.game == Some(stamped)
                  && c.store == (if toJson(stamped).Some? then e.store[GameStateKey := toJson(stamped).value] else e.store))
            && (e.game.None? ==> c.game == None && c.store == e.store)
  {
    var m := e.pending[UpdateLoop := 0][SaveLoop := 0][SyncLoop := 0];
    SameCounts(m, multiset{});
  }

  /** A stopped engine with nothing pending stays that way until `initialize` is called again. */
  lemma {:induction false} StoppedStaysQuiet(e: EngineState, evs: seq<Event>, toJson: Encoder, fromJson: Decoder)
    requires !e.running && e.pending == multiset{} && NoInitialize(evs)
    ensures var r := Run(e, evs, toJson, fromJson);
            && !r.running && r.pending == multiset{} && r.ticks == e.ticks && r.syncs == e.syncs
    decreases |evs|
  {
    if evs != [] {
      var s := Step(e, evs[0], toJson, fromJson);
      assert !s.running && s.pending == multiset{} && s.ticks == e.ticks && s.syncs == e.syncs by {
        if evs[0].CleanedUp? { CleanupStops(e, evs[0].now, toJson); }
      }
      assert NoInitialize(evs[1..]) by {
        forall i | 0 <= i < |evs[1..]| ensures !evs[1..][i].Initialized? { assert evs[1..][i] == evs[i + 1]; }
      }
      StoppedStaysQuiet(s, evs[1..], toJson, fromJson);
    }
  }

  /** `initialize` sets running and posts all three loops only when nothing throws; otherwise neither happens. */
  lemma InitializeOutcome(e: EngineState, fromJson: Decoder, inputs: NewGameInputs, fault: InitFault)
    ensures var i := Initialize(e, fromJson, inputs, fault);
            && i.paused == e.paused && i.store == e.store
            && (fault == NoFault ==>
                  && i.running && i.managersReady
                  && i.pending == e.pending + AllLoops
                  && i.game == Some(LoadGameState(e.store, fromJson, inputs)))
            && (fault != NoFault ==> i.running == e.running && i.pending == e.pending)
            && (fault == ManagersFault ==> i == e)
            && (fault == ManagerInitFault || fault == MediaFault ==>
                  i.managersReady && i.game == Some(LoadGameState(e.store, fromJson, inputs)))
  {
  }

  /**
    `initialize` after `cleanup` leaves `isPaused` set: the update and sync
    runnables each run once and stop, and only the save loop keeps going.
   */
  lemma ReinitializeAfterCleanupOnlySaves(e: EngineState, now: int, t1: int, t2: int,
                                          inputs: NewGameInputs, toJson: Encoder, fromJson: Decoder)
    ensures var i := Initialize(Cleanup(e, now, toJson), fromJson, inputs, NoFault);
            && i.running && i.paused
            && Run(i, [Fired(UpdateLoop, t1), Fired(SyncLoop, t2)], toJson, fromJson).pending == multiset{SaveLoop}
  {
    var c := Cleanup(e, now, toJson);
    CleanupStops(e, now, toJson);
    var i := Initialize(c, fromJson, inputs, NoFault);
    InitializeOutcome(c, fromJson, inputs, NoFault);
    var u := Fire(i, UpdateLoop, t1, toJson);
    UpdateFiring(i, t1, toJson);
    var y := Fire(u, SyncLoop, t2, toJson);
    SyncFiring(u, t2, toJson);
    SameCounts(y.pending, multiset{SaveLoop});
    RunUnfold(i, Fired(UpdateLoop, t1), [Fired(SyncLoop, t2)], toJson, fromJson);
    RunUnfold(u, Fired(SyncLoop, t2), [], toJson, fromJson);
  }

  // ---------------------------------------------------------------------------
  // Invariant

  lemma StepPreservesConsistent(e: EngineState, ev: Event, toJson: Encoder, fromJson: Decoder)
    requires Consistent(e)
    ensures Consistent(Step(e, ev, toJson, fromJson))
  {
  }

  /** `isRunning` never holds without the managers and the game state assigned. */
  lemma {:induction false} RunPreservesConsistent(e: EngineState, evs: seq<Event>, toJson: Encoder, fromJson: Decoder)
    requires Consistent(e)
    ensures Consistent(Run(e, evs, toJson, fromJson))
    decreases |evs|
  {
    if evs != [] {
      StepPreservesConsistent(e, evs[0], toJson, fromJson);
      RunPreservesConsistent(Step(e, evs[0], toJson, fromJson), evs[1..], toJson, fromJson);
    }
  }

  // ---------------------------------------------------------------------------
  // Time bookkeeping

  lemma SumAppend(s: seq<int>, x: int)
    ensures Sum(s + [x]) == Sum(s) + x
  {
    assert (s + [x])[..|s|] == s;
  }

  lemma StepTelescopes(e: EngineState, ev: Event, toJson: Encoder, fromJson: Decoder)
    requires e.game.Some? && !ev.Initialized?
    ensures var s := Step(e, ev, toJson, fromJson);
            && s.game.Some?
            && Sum(s.ticks) - Sum(e.ticks) == s.game.value.lastUpdateTime - e.game.value.lastUpdateTime
  {
    match ev
    case Fired(r, now) =>
      if r in e.pending && r == UpdateLoop && Active(e) {
        SumAppend(e.ticks, now - e.game.value.lastUpdateTime);
      }
    case Paused =>
    case Resumed =>
    case CleanedUp(now) =>
  }

  /**
    Over any run without a re-initialization the deltas handed to the
    managers add up to the final `lastUpdateTime` minus the first.
   */
  lemma {:induction false} DeltasTelescope(e: EngineState, evs: seq<Event>, toJson: Encoder, fromJson: Decoder)
    requires e.game.Some? && NoInitialize(evs)
    ensures var r := Run(e, evs, toJson, fromJson);
            && r.game.Some?
            && Sum(r.ticks) - Sum(e.ticks) == r.game.value.lastUpdateTime - e.game.value.lastUpdateTime
    decreases |evs|
  {
    if evs != [] {
      StepTelescopes(e, evs[0], toJson, fromJson);
      assert NoInitialize(evs[1..]) by {
        forall i | 0 <= i < |evs[1..]| ensures !evs[1..][i].Initialized? { assert evs[1..][i] == evs[i + 1]; }
      }
      DeltasTelescope(Step(e, evs[0], toJson, fromJson), evs[1..], toJson, fromJson);
    }
  }
}
