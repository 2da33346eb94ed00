/**
 * The signed-in screen of src/App.jsx: one `useGame`, one `useCatAnimation` and the
 * `CatAnimation` they feed, driven by renders, clicks on what the last render showed,
 * and the timers and engine events the pieces wait for.
 *
 * A render is one React commit: it takes a snapshot of every cell, then runs each effect
 * whose dependencies differ from those of its last run, in the order React runs them (the
 * component's four effects in declaration order, then the hook's polling effect, which
 * belongs to the parent). Effects read the snapshot; refs are read when used.
 */
module App {
  import opened Wrappers
  import opened GameConfig
  import opened GameDatabase
  import opened UseGame
  import opened UseCatAnimation
  import opened CatAnimation

  /** The dependency values each effect last ran with, or `None` before its first run. */
  datatype Memo = Memo(
    newGame: Option<(GameState, Option<Choice>, Option<Choice>)>,
    lobby: Option<GameState>,
    track: Option<(Option<Choice>, Option<Choice>)>,
    trigger: Option<(Option<Choice>, bool, bool, HookView)>,
    poll: Option<(Option<Engine>, bool)>)

  const NoMemo := Memo(None, None, None, None, None)

  /** The dependencies of the effect at CatAnimation.jsx lines 42-49. */
  function NewGameDeps(s: Snapshot): (GameState, Option<Choice>, Option<Choice>) {
    (s.gameState, s.userChoice, s.computerChoice)
  }

  function TrackDeps(s: Snapshot): (Option<Choice>, Option<Choice>) {
    (s.computerChoice, s.lastComputerChoice)
  }

  /**
   * The dependencies of the trigger effect: the computer's choice, the tooltip, completion and
   * the four hook flags; the two trigger callbacks change only with `riveLoaded` and `isResetting`.
   */
  function TriggerDeps(s: Snapshot): (Option<Choice>, bool, bool, HookView) {
    (s.computerChoice, s.showChecking, s.animationCompleted, s.hook.(rive := None))
  }

  /** The polling effect depends on `rive` and `isResetting`, through `attachInputs` too. */
  function PollDeps(s: Snapshot): (Option<Engine>, bool) {
    (s.hook.rive, s.hook.isResetting)
  }

  /** Everything the screen holds: the three pieces, the effects' memo and the last render shown. */
  datatype SessionCells = SessionCells(
    user: User,
    game: GameCells,
    hook: HookCells,
    stage: StageCells,
    memo: Memo,
    shown: Option<Snapshot>)

  function InitialSession(user: User): SessionCells {
    SessionCells(user, InitialCells, InitialHook, InitialStage, NoMemo, None)
  }

  /** What a render now would see. */
  function Snap(c: SessionCells): Snapshot {
    Snapshot(c.game.gameState, c.game.userChoice, c.game.computerChoice, c.game.gameResult, c.game.showChecking,
             HookView(c.hook.rive, c.hook.riveLoaded, c.hook.isResetting, c.hook.mouseAnimReady, c.hook.buttonAnimReady),
             c.stage.animationCompleted, c.stage.lastComputerChoice)
  }

  /** The two reset effects of a render seeing `s`, each when its dependencies changed since `m`. */
  function ResetsRan(m: Memo, s: Snapshot, e: Effect, teardownFails: bool): Effect {
    var e1 := if m.newGame == Some(NewGameDeps(s)) then e else NewGameEffectRan(e.stage, e.hook, s, teardownFails);
    if m.lobby == Some(s.gameState) then e1 else LobbyEffectRan(e1.stage, e1.hook, s, teardownFails)
  }

  /** Then the effect that tracks the computer's choice. */
  function TrackRan(m: Memo, s: Snapshot, e: Effect): Effect {
    if m.track == Some(TrackDeps(s)) then e else e.(stage := TrackEffectRan(e.stage, s))
  }

  /** Then the trigger effect. */
  function TriggerRan(m: Memo, s: Snapshot, e: Effect, throws: bool): Effect {
    if m.trigger == Some(TriggerDeps(s)) then e else TriggerEffectRan(e.stage, e.hook, s, throws)
  }

  /** Then the hook's polling effect, the engine listing `now` at its immediate attempt. */
  function PollRan(m: Memo, s: Snapshot, e: Effect, now: Listing): Effect {
    if m.poll == Some(PollDeps(s)) then e else e.(hook := PollingEffectRan(e.hook, s.hook, now))
  }

  /** The memo after a commit seeing `s`. */
  function Remembered(s: Snapshot): Memo {
    Memo(Some(NewGameDeps(s)), Some(s.gameState), Some(TrackDeps(s)), Some(TriggerDeps(s)), Some(PollDeps(s)))
  }

  /** One commit; `teardownFails`, `throws` and `now` say how the engine behaves in it. */
  function Rendered(c: SessionCells, teardownFails: bool, throws: bool, now: Listing): SessionCells {
    var s := Snap(c);
    var m := c.memo;
    var e := PollRan(m, s, TriggerRan(m, s, TrackRan(m, s, ResetsRan(m, s, Effect(c.stage, c.hook), teardownFails)), throws), now);
    c.(hook := e.hook, stage := e.stage, shown := Some(s), memo := Remembered(s))
  }

  /** What can happen next on the screen. */
  datatype Event =
    | Render(teardownFails: bool, throws: bool, listing: Listing)
    | ClickStart
    | ClickChoice(choice: Choice)
    | ClickCloseChoice
    | ClickPlayAgain
    | ClickCloseResult
    | ClickSound
    | RevealFires(draw: Choice)
    | SaveSettles(index: nat, now: nat, store: StoreOutcome)
    | SettleFires
    | PulseClearFires
    | CompletionFires
    | PollTick(listing: Listing)
    | RiveChanges(next: Option<Engine>)
    | OnLoad(seen: Option<Engine>)
    | OnLoadError

  /** A click needs its button in the last render shown; a timer needs to be pending. */
  predicate Enabled(c: SessionCells, e: Event) {
    match e
    case ClickStart => c.shown.Some? && StartButtonShown(c.shown.value)
    case ClickChoice(_) => c.shown.Some? && ChoicePopupShown(c.shown.value)
    case ClickCloseChoice => c.shown.Some? && ChoicePopupShown(c.shown.value)
    case ClickPlayAgain => c.shown.Some? && ResultPopupShown(c.shown.value)
    case ClickCloseResult => c.shown.Some? && ResultPopupShown(c.shown.value)
    case RevealFires(_) => c.game.pending != []
    case SaveSettles(i, _, _) => i < |c.game.saves|
    case SettleFires => c.hook.settles > 0
    case PulseClearFires => c.hook.clears != []
    case CompletionFires => c.stage.completionTimer
    case PollTick(_) => c.hook.poll.Some?
    case _ => true
  }

  function Step(c: SessionCells, e: Event): SessionCells
    requires Enabled(c, e)
  {
    match e
    case Render(teardownFails, throws, now) => Rendered(c, teardownFails, throws, now)
    case ClickStart => c.(game := Started(c.game))
    case ClickChoice(choice) => c.(game := Chosen(c.game, choice, Some(c.user)))
    case ClickCloseChoice => c.(game := Reset(c.game), stage := Cleared(c.stage))
    case ClickPlayAgain => c.(game := Started(c.game), stage := Cleared(c.stage))
    case ClickCloseResult => c.(game := Reset(c.game), stage := Cleared(c.stage))
    case ClickSound => c.(game := Toggled(c.game))
    case RevealFires(draw) => c.(game := Revealed(c.game, draw))
    case SaveSettles(i, now, store) => c.(game := Settled(c.game, i, now, store))
    case SettleFires => c.(hook := SettleFired(c.hook))
    case PulseClearFires => c.(hook := PulseCleared(c.hook))
    case CompletionFires => c.(stage := CompletionFired(c.stage))
    case PollTick(now) => c.(hook := Ticked(c.hook, now))
    case RiveChanges(next) => c.(hook := RiveChanged(c.hook, next))
    case OnLoad(seen) => c.(hook := Loaded(c.hook, seen))
    case OnLoadError => c.(hook := LoadFailed(c.hook))
  }

  /** Every event of `evs` can happen in turn. */
  predicate Runnable(c: SessionCells, evs: seq<Event>)
    decreases |evs|
  {
    evs == [] || (Enabled(c, evs[0]) && Runnable(Step(c, evs[0]), evs[1..]))
  }

  function Run(c: SessionCells, evs: seq<Event>): SessionCells
    requires Runnable(c, evs)
    decreases |evs|
  {
    if evs == [] then c else Run(Step(c, evs[0]), evs[1..])
  }

  /** The invariants of the three pieces together. */
  predicate SessionConsistent(c: SessionCells) {
    Consistent(c.game) && HookConsistent(c.hook) && StageConsistent(c.stage)
  }

  lemma InitialSessionIsConsistent(user: User)
    ensures SessionConsistent(InitialSession(user))
  {
    InitialIsConsistent();
    InitialHookIsConsistent();
  }

  /** The pieces' invariants in the middle of a commit seeing `s`; effects only ever clear `animationCompleted`. */
  predicate MidCommit(e: Effect, s: Snapshot) {
    HookConsistent(e.hook) && StageConsistent(e.stage) && (e.stage.animationCompleted ==> s.animationCompleted)
  }

  lemma ResetsKeepMidCommit(m: Memo, s: Snapshot, e: Effect, teardownFails: bool)
    requires MidCommit(e, s)
    ensures MidCommit(ResetsRan(m, s, e, teardownFails), s)
  {
    var e1 := if m.newGame == Some(NewGameDeps(s)) then e else NewGameEffectRan(e.stage, e.hook, s, teardownFails);
    EffectsKeepStageConsistent(e.stage, e.hook, s, teardownFails, false);
    ResetKeepsConsistent(e.hook, teardownFails);
    assert MidCommit(e1, s);
    EffectsKeepStageConsistent(e1.stage, e1.hook, s, teardownFails, false);
    ResetKeepsConsistent(e1.hook, teardownFails);
  }

  lemma LaterEffectsKeepMidCommit(m: Memo, s: Snapshot, e: Effect, throws: bool, now: Listing)
    requires MidCommit(e, s)
    ensures MidCommit(TrackRan(m, s, e), s)
    ensures MidCommit(TriggerRan(m, s, e, throws), s)
    ensures MidCommit(PollRan(m, s, e, now), s)
  {
    EffectsKeepStageConsistent(e.stage, e.hook, s, false, throws);
    if TriggerPlan(s).Some? {
      TriggerKeepsConsistent(e.hook, TriggerPlan(s).value, s.hook, throws);
    }
    EffectKeepsConsistent(e.hook, s.hook, now);
  }

  lemma RenderKeepsConsistent(c: SessionCells, teardownFails: bool, throws: bool, now: Listing)
    requires SessionConsistent(c)
    ensures SessionConsistent(Rendered(c, teardownFails, throws, now))
  {
    var s := Snap(c);
    var m := c.memo;
    ResetsKeepMidCommit(m, s, Effect(c.stage, c.hook), teardownFails);
    var e2 := ResetsRan(m, s, Effect(c.stage, c.hook), teardownFails);
    LaterEffectsKeepMidCommit(m, s, e2, throws, now);
    var e3 := TrackRan(m, s, e2);
    LaterEffectsKeepMidCommit(m, s, e3, throws, now);
    var e4 := TriggerRan(m, s, e3, throws);
    LaterEffectsKeepMidCommit(m, s, e4, throws, now);
  }

  /** Every event keeps the session consistent. */
  lemma StepKeepsConsistent(c: SessionCells, e: Event)
    requires SessionConsistent(c) && Enabled(c, e)
    ensures SessionConsistent(Step(c, e))
  {
    match e
    case Render(teardownFails, throws, now) => RenderKeepsConsistent(c, teardownFails, throws, now);
    case ClickChoice(choice) => ChoiceKeepsConsistent(c.game, choice, Some(c.user));
    case RevealFires(draw) => RevealKeepsConsistent(c.game, draw);
    case SaveSettles(i, now, store) => SettleKeepsConsistent(c.game, i, now, store);
    case PollTick(now) => TickKeepsConsistent(c.hook, now);
    case SettleFires => TimersKeepConsistent(c.hook, None);
    case PulseClearFires => TimersKeepConsistent(c.hook, None);
    case RiveChanges(next) => TimersKeepConsistent(c.hook, next);
    case OnLoad(seen) => TimersKeepConsistent(c.hook, seen);
    case OnLoadError => TimersKeepConsistent(c.hook, None);
    case CompletionFires => EffectsKeepStageConsistent(c.stage, c.hook, Snap(c), false, false);
    case _ =>
      ResetsKeepConsistent(c.game);
      EffectsKeepStageConsistent(c.stage, c.hook, Snap(c), false, false);
  }

  /** Whatever happens on the screen, the session stays consistent. */
  lemma {:induction false} RunKeepsConsistent(c: SessionCells, evs: seq<Event>)
    requires SessionConsistent(c) && Runnable(c, evs)
    ensures SessionConsistent(Run(c, evs))
    decreases |evs|
  {
    if evs != [] {
      StepKeepsConsistent(c, evs[0]);
      RunKeepsConsistent(Step(c, evs[0]), evs[1..]);
    }
  }

  /** A render never sets `animationCompleted`. */
  lemma RenderNeverCompletes(c: SessionCells, teardownFails: bool, throws: bool, now: Listing)
    ensures Rendered(c, teardownFails, throws, now).stage.animationCompleted ==> c.stage.animationCompleted
  {
    var s := Snap(c);
    var e1 := if c.memo.newGame == Some(NewGameDeps(s)) then Effect(c.stage, c.hook)
              else NewGameEffectRan(c.stage, c.hook, s, teardownFails);
    OnlyTimerCompletes(c.stage, c.hook, s, teardownFails, throws);
    OnlyTimerCompletes(e1.stage, e1.hook, s, teardownFails, throws);
    var e2 := ResetsRan(c.memo, s, Effect(c.stage, c.hook), teardownFails);
    var e3 := TrackRan(c.memo, s, e2);
    OnlyTimerCompletes(e2.stage, e2.hook, s, teardownFails, throws);
    OnlyTimerCompletes(e3.stage, e3.hook, s, teardownFails, throws);
  }

  /** Only the completion timer sets `animationCompleted`. */
  lemma OnlyCompletionTimerCompletes(c: SessionCells, e: Event)
    requires Enabled(c, e) && !c.stage.animationCompleted && Step(c, e).stage.animationCompleted
    ensures e == CompletionFires
  {
    if e.Render? {
      RenderNeverCompletes(c, e.teardownFails, e.throws, e.listing);
    }
  }

  /** The animation is completed at the end of a run only if it was before or a completion timer fired in it. */
  lemma {:induction false} CompletionNeedsTimer(c: SessionCells, evs: seq<Event>)
    requires Runnable(c, evs) && Run(c, evs).stage.animationCompleted
    ensures c.stage.animationCompleted || CompletionFires in evs
    decreases |evs|
  {
    if evs != [] && !c.stage.animationCompleted {
      var d := Step(c, evs[0]);
      if d.stage.animationCompleted {
        OnlyCompletionTimerCompletes(c, evs[0]);
      } else {
        CompletionNeedsTimer(d, evs[1..]);
        assert evs == [evs[0]] + evs[1..];
      }
    }
  }

  /**
   * A completion timer is started only by a render whose snapshot passes every gate of the
   * trigger effect, with the animation that shows the computer's choice.
   */
  lemma TimerStartsOnlyInPassingRender(c: SessionCells, e: Event)
    requires SessionConsistent(c) && Enabled(c, e) && !c.stage.completionTimer && Step(c, e).stage.completionTimer
    ensures e.Render?
    ensures TriggerPlan(Snap(c)) == Some(CurrentAnimation(c.game.computerChoice))
  {
    if e.Render? {
      var s := Snap(c);
      ResetsKeepMidCommit(c.memo, s, Effect(c.stage, c.hook), e.teardownFails);
      var e2 := ResetsRan(c.memo, s, Effect(c.stage, c.hook), e.teardownFails);
      var e3 := TrackRan(c.memo, s, e2);
      assert !e2.stage.completionTimer && !e3.stage.completionTimer;
      assert HookConsistent(e3.hook);
      if c.memo.trigger != Some(TriggerDeps(s)) {
        TriggerEffectFacts(e3.stage, e3.hook, s, e.throws);
      }
    }
  }

  /**
   * Clicks act on the last render shown, so a second click on the choice popup before the
   * next render is possible and leaves two reveal callbacks pending.
   */
  lemma DoubleChoiceIsPossible(c: SessionCells, first: Choice, second: Choice)
    requires Enabled(c, ClickChoice(first)) && c.game.pending == []
    ensures Enabled(Step(c, ClickChoice(first)), ClickChoice(second))
    ensures |Step(Step(c, ClickChoice(first)), ClickChoice(second)).game.pending| == 2
  {
  }

  /** Entering the lobby through a render resets the engine once and clears the component. */
  lemma LobbyRenderResets(c: SessionCells, teardownFails: bool, throws: bool, now: Listing)
    requires c.game.gameState == Lobby && c.memo.lobby != Some(Lobby)
    ensures var d := Rendered(c, teardownFails, throws, now);
      && d.hook.animationKey == c.hook.animationKey + 1
      && d.hook.isResetting && !d.stage.animationCompleted
  {
    var s := Snap(c);
    var e2 := ResetsRan(c.memo, s, Effect(c.stage, c.hook), teardownFails);
    assert e2 == Effect(Cleared(c.stage), ResetDone(c.hook, teardownFails)) by {
      assert s.gameState == Lobby;
      ResetEffectFacts(c.stage, c.hook, s, teardownFails);
    }
    assert e2.hook.animationKey == c.hook.animationKey + 1 && e2.hook.isResetting && !e2.stage.animationCompleted by {
      ResetFacts(c.hook, teardownFails);
      OnlyTimerCompletes(c.stage, c.hook, s, teardownFails, throws);
    }
    var e3 := TrackRan(c.memo, s, e2);
    var e4 := TriggerRan(c.memo, s, e3, throws);
    assert e4.hook.animationKey == e2.hook.animationKey && e4.hook.isResetting && !e4.stage.animationCompleted by {
      OnlyTimerCompletes(e3.stage, e3.hook, s, teardownFails, throws);
      TriggerTouchesOnlyLog(e3.hook, CurrentAnimation(s.computerChoice), s.hook, throws);
    }
    var e5 := PollRan(c.memo, s, e4, now);
    assert e5.hook.animationKey == e4.hook.animationKey && e5.hook.isResetting && e5.stage == e4.stage by {
      PollingLeavesReset(e4.hook, s.hook, now);
    }
    assert Rendered(c, teardownFails, throws, now).hook == e5.hook;
  }

  /**
   * An engine that lists no inputs at the render's immediate attempt but lists `mouse` at the
   * next tick: the render leaves the interval running, and that tick loads the engine.
   */
  lemma LateInputsLoadEngine(c: SessionCells, teardownFails: bool, throws: bool, mouse: InputSpec)
    requires c.hook.rive.Some? && !c.hook.isResetting && c.memo.poll != Some(PollDeps(Snap(c)))
    requires mouse.name == Mouse.InputName()
    ensures var d := Step(c, Render(teardownFails, throws, Listed([])));
      && d.hook.poll.Some?
      && Enabled(d, PollTick(Listed([mouse])))
      && Step(d, PollTick(Listed([mouse]))).hook.riveLoaded
      && Step(d, PollTick(Listed([mouse]))).hook.poll.None?
  {
    var s := Snap(c);
    var e4 := TriggerRan(c.memo, s, TrackRan(c.memo, s, ResetsRan(c.memo, s, Effect(c.stage, c.hook), teardownFails)), throws);
    PollingEffectAttempts(e4.hook, s.hook, Listed([]));
    var d := Rendered(c, teardownFails, throws, Listed([]));
    assert d.hook == PollingEffectRan(e4.hook, s.hook, Listed([]));
    TickSuccess(d.hook, Listed([mouse]));
  }

  /** The screen: the three pieces of App.jsx and React's bookkeeping for the component's effects. */
  class Session {
    const user: User
    const game: Game
    const hook: CatAnimationHook
    const stage: Component
    var memo: Memo
    var shown: Option<Snapshot>

    function State(): SessionCells
      reads this, game, hook, stage
    {
      SessionCells(user, game.State(), hook.State(), stage.State(), memo, shown)
    }

    constructor(user: User)
      ensures State() == InitialSession(user)
      ensures fresh(game) && fresh(hook) && fresh(stage)
    {
      this.user := user;
      game := new Game();
      hook := new CatAnimationHook();
      stage := new Component();
      memo := NoMemo;
      shown := None;
    }

    function Now(): Snapshot
      reads this, game, hook, stage
    {
      Snap(State())
    }

    /** The component's two reset effects, each when its dependencies changed. */
    method RunResets(s: Snapshot, teardownFails: bool)
      modifies hook, stage
      ensures Effect(stage.State(), hook.State()) == ResetsRan(memo, s, old(Effect(stage.State(), hook.State())), teardownFails)
    {
      if memo.newGame != Some(NewGameDeps(s)) {
        stage.NewGameEffect(hook, s, teardownFails);
      }
      if memo.lobby != Some(s.gameState) {
        stage.LobbyEffect(hook, s, teardownFails);
      }
    }

    /** The tracking, trigger and polling effects, each when its dependencies changed. */
    method RunLaterEffects(s: Snapshot, throws: bool, now: Listing)
      modifies hook, stage
      ensures Effect(stage.State(), hook.State())
        == PollRan(memo, s, TriggerRan(memo, s, TrackRan(memo, s, old(Effect(stage.State(), hook.State()))), throws), now)
    {
      if memo.track != Some(TrackDeps(s)) {
        stage.TrackEffect(s);
      }
      if memo.trigger != Some(TriggerDeps(s)) {
        stage.TriggerEffect(hook, s, throws);
      }
      if memo.poll != Some(PollDeps(s)) {
        hook.RunPollingEffect(s.hook, now);
      }
    }

    method RenderOnce(teardownFails: bool, throws: bool, now: Listing)
      modifies this, hook, stage
      ensures State() == Rendered(old(State()), teardownFails, throws, now)
    {
      var s := Now();
      RunResets(s, teardownFails);
      RunLaterEffects(s, throws, now);
      memo := Remembered(s);
      shown := Some(s);
    }

    method Handle(e: Event)
      requires Enabled(State(), e)
      modifies this, game, hook, stage
      ensures State() == Step(old(State()), e)
    {
      match e
      case Render(teardownFails, throws, now) => RenderOnce(teardownFails, throws, now);
      case ClickStart => game.StartNewGame();
      case ClickChoice(choice) => game.MakeChoice(choice, Some(user));
      case ClickCloseChoice => stage.HandleBackToLobby(game);
      case ClickPlayAgain => stage.HandlePlayAgain(game);
      case ClickCloseResult => stage.HandleBackToLobby(game);
      case ClickSound =>
        var _ := game.ToggleSound(game.soundEnabled);
      case RevealFires(draw) => game.RevealFires(draw);
      case SaveSettles(i, now, store) => game.SaveSettles(i, now, store);
      case SettleFires => hook.SettleFires();
      case PulseClearFires => hook.PulseClearFires();
      case CompletionFires => stage.CompletionTimerFires();
      case PollTick(now) => hook.PollTick(now);
      case RiveChanges(next) => hook.RiveChanges(next);
      case OnLoad(seen) => hook.OnLoad(seen);
      case OnLoadError => hook.OnLoadError();
    }
  }
}
