/**
 * The orchestration in src/components/CatAnimation.jsx: the effects that reset the engine,
 * pick and fire the animation and start the 9000 ms completion timer, the two click handlers,
 * and which parts of the screen a render shows.
 */
module CatAnimation {
  import opened Wrappers
  import opened GameConfig
  import opened UseGame
  import opened UseCatAnimation

  /** The trigger effect waits this long before it marks the animation complete. */
  const CompletionMs: nat := 9000

  /** What one render of the component sees: its props and its own two state cells. */
  datatype Snapshot = Snapshot(
    gameState: GameState,
    userChoice: Option<Choice>,
    computerChoice: Option<Choice>,
    gameResult: Option<Outcome>,
    showChecking: bool,
    hook: HookView,
    animationCompleted: bool,
    lastComputerChoice: Option<Choice>)

  // ---------------------------------------------------------------------------------------
  // What a render shows
  // ---------------------------------------------------------------------------------------

  /** The loading overlay over the engine. */
  predicate LoadingOverlayShown(s: Snapshot) {
    !s.hook.riveLoaded || s.hook.isResetting
  }

  /** The overlay's text: the resetting message wins over the loading one. */
  function OverlayText(s: Snapshot): string {
    if s.hook.isResetting then "🔄 Resetting Animation..." else "🐱 Loading Animation..."
  }

  predicate StartButtonShown(s: Snapshot) {
    s.gameState == Lobby
  }

  predicate ChoicePopupShown(s: Snapshot) {
    s.gameState == Playing && s.userChoice.None? && !s.showChecking && s.computerChoice.None?
  }

  predicate CheckingTooltipShown(s: Snapshot) {
    s.showChecking
  }

  predicate ResultPopupShown(s: Snapshot) {
    s.gameResult.Some? && s.computerChoice.Some? && s.animationCompleted
  }

  /**
   * The start button and the choice popup never show together, and the choice popup shows
   * neither beside the tooltip nor beside the result; the result needs the completed animation.
   */
  lemma VisibilityFacts(s: Snapshot)
    ensures !(StartButtonShown(s) && ChoicePopupShown(s))
    ensures ChoicePopupShown(s) ==> !CheckingTooltipShown(s) && !ResultPopupShown(s)
    ensures ResultPopupShown(s) ==> s.animationCompleted && s.computerChoice.Some?
    ensures LoadingOverlayShown(s) <==> !(s.hook.riveLoaded && !s.hook.isResetting)
    ensures s.hook.isResetting ==> LoadingOverlayShown(s) && OverlayText(s) == "🔄 Resetting Animation..."
  {
  }

  /** In a consistent round the result popup shows only beside a result and a draw. */
  lemma ResultPopupNeedsRound(s: Snapshot)
    requires s.computerChoice.Some? <==> s.gameResult.Some?
    ensures ResultPopupShown(s) <==> s.computerChoice.Some? && s.animationCompleted
  {
  }

  // ---------------------------------------------------------------------------------------
  // The trigger effect's decision
  // ---------------------------------------------------------------------------------------

  /** The ready flag a trigger of `a` waits for. */
  function ReadyFor(v: HookView, a: Animation): bool {
    if a == Mouse then v.mouseAnimReady else v.buttonAnimReady
  }

  /** Which trigger the effect at lines 70-119 calls in a render, if any. */
  function TriggerPlan(s: Snapshot): (r: Option<Animation>)
    ensures r.Some? <==>
      && s.computerChoice.Some? && !s.showChecking && !s.animationCompleted && !s.hook.isResetting
      && s.hook.riveLoaded && ReadyFor(s.hook, CurrentAnimation(s.computerChoice))
    ensures r.Some? ==> r.value == CurrentAnimation(s.computerChoice)
  {
    if s.computerChoice.None? || s.showChecking || s.animationCompleted || s.hook.isResetting then None
    else if !s.hook.riveLoaded then None
    else
      var requiresMouse := s.computerChoice == Some(Dead);
      var requiredReady := if requiresMouse then s.hook.mouseAnimReady else s.hook.buttonAnimReady;
      if !requiredReady then None else if requiresMouse then Some(Mouse) else Some(ButtonPress)
  }

  /** A dead cat is shown with the mouse animation, a live one with the button press. */
  lemma PlanMatchesChoice(s: Snapshot)
    requires TriggerPlan(s).Some?
    ensures s.computerChoice == Some(Dead) ==> TriggerPlan(s) == Some(Mouse) && s.hook.mouseAnimReady
    ensures s.computerChoice == Some(Alive) ==> TriggerPlan(s) == Some(ButtonPress) && s.hook.buttonAnimReady
  {
  }

  // ---------------------------------------------------------------------------------------
  // The component's state and effects as values
  // ---------------------------------------------------------------------------------------

  /** The component's two cells and whether a completion timer is pending. */
  datatype StageCells = StageCells(animationCompleted: bool, lastComputerChoice: Option<Choice>, completionTimer: bool)

  const InitialStage := StageCells(false, None, false)

  /** The component's and the hook's state after an effect or a handler. */
  datatype Effect = Effect(stage: StageCells, hook: HookCells)

  /** Both reset effects clear the component's cells and reset the engine. */
  function Cleared(st: StageCells): StageCells {
    st.(animationCompleted := false, lastComputerChoice := None)
  }

  /** The effect at lines 42-49: a fresh round resets the engine. */
  function NewGameEffectRan(st: StageCells, h: HookCells, s: Snapshot, teardownFails: bool): Effect {
    if s.gameState == Playing && s.userChoice.None? && s.computerChoice.None? then
      Effect(Cleared(st), ResetDone(h, teardownFails))
    else Effect(st, h)
  }

  /** The effect at lines 52-59: the lobby resets the engine. */
  function LobbyEffectRan(st: StageCells, h: HookCells, s: Snapshot, teardownFails: bool): Effect {
    if s.gameState == Lobby then Effect(Cleared(st), ResetDone(h, teardownFails)) else Effect(st, h)
  }

  /** The effect at lines 62-67 records a new computer choice. */
  function TrackEffectRan(st: StageCells, s: Snapshot): StageCells {
    if s.computerChoice.Some? && s.computerChoice != s.lastComputerChoice then st.(lastComputerChoice := s.computerChoice)
    else st
  }

  /**
   * The effect at lines 70-119, after the cleanup of its previous run cleared that run's timer:
   * the planned trigger is called, and a timer is started only when it returns true.
   */
  function TriggerEffectRan(st: StageCells, h: HookCells, s: Snapshot, throws: bool): Effect {
    var cleaned := st.(completionTimer := false);
    match TriggerPlan(s)
    case None => Effect(cleaned, h)
    case Some(a) => Effect(cleaned.(completionTimer := TriggerOk(h, a, s.hook, throws)), Triggered(h, a, s.hook, throws))
  }

  /** The 9000 ms timer fires. */
  function CompletionFired(st: StageCells): StageCells
    requires st.completionTimer
  {
    st.(completionTimer := false, animationCompleted := true)
  }

  /** A pending completion timer means the animation is not yet complete. */
  predicate StageConsistent(st: StageCells) {
    st.completionTimer ==> !st.animationCompleted
  }

  /**
   * The effects keep `StageConsistent` when the render's `animationCompleted` is no older than
   * the cell's (effects of one commit only ever clear the cell).
   */
  lemma EffectsKeepStageConsistent(st: StageCells, h: HookCells, s: Snapshot, teardownFails: bool, throws: bool)
    requires StageConsistent(st)
    ensures StageConsistent(NewGameEffectRan(st, h, s, teardownFails).stage)
    ensures StageConsistent(LobbyEffectRan(st, h, s, teardownFails).stage)
    ensures StageConsistent(TrackEffectRan(st, s))
    ensures st.animationCompleted ==> s.animationCompleted ==>
      StageConsistent(TriggerEffectRan(st, h, s, throws).stage)
    ensures st.completionTimer ==> StageConsistent(CompletionFired(st))
    ensures StageConsistent(Cleared(st))
  {
  }

  /**
   * Nothing fires while the gates are closed; a completion timer is started only by a trigger
   * that returned true, and then the engine received exactly one call, on the input of the
   * animation that shows the computer's choice.
   */
  lemma TriggerEffectFacts(st: StageCells, h: HookCells, s: Snapshot, throws: bool)
    requires HookConsistent(h)
    ensures TriggerPlan(s).None? ==> TriggerEffectRan(st, h, s, throws) == Effect(st.(completionTimer := false), h)
    ensures TriggerEffectRan(st, h, s, throws).stage.completionTimer ==>
      && TriggerPlan(s) == Some(CurrentAnimation(s.computerChoice))
      && TriggerOk(h, CurrentAnimation(s.computerChoice), s.hook, throws)
      && var log := TriggerEffectRan(st, h, s, throws).hook.engineLog;
         && |log| == |h.engineLog| + 1 && log[..|h.engineLog|] == h.engineLog
         && (log[|h.engineLog|].Fired? || log[|h.engineLog|].ValueSet?)
         && log[|h.engineLog|].input.name == CurrentAnimation(s.computerChoice).InputName()
    ensures !TriggerEffectRan(st, h, s, throws).stage.completionTimer ==>
      TriggerEffectRan(st, h, s, throws).hook.engineLog == h.engineLog
      || (TriggerPlan(s).Some? && !TriggerOk(h, TriggerPlan(s).value, s.hook, throws))
    ensures TriggerEffectRan(st, h, s, throws).stage.animationCompleted == st.animationCompleted
  {
    if TriggerPlan(s).Some? {
      TriggerFacts(h, TriggerPlan(s).value, s.hook, throws);
    }
  }

  /**
   * A run of the trigger effect does not depend on a timer left by its previous run: the
   * cleanup clears it, and a fresh 9000 ms window starts only when this run's trigger succeeds.
   */
  lemma RerunReplacesTimer(st: StageCells, h: HookCells, s: Snapshot, throws: bool)
    ensures TriggerEffectRan(st, h, s, throws) == TriggerEffectRan(st.(completionTimer := !st.completionTimer), h, s, throws)
    ensures TriggerEffectRan(st, h, s, throws).stage.completionTimer <==>
      TriggerPlan(s).Some? && TriggerOk(h, TriggerPlan(s).value, s.hook, throws)
  {
  }

  /** A failed trigger changes nothing in the engine and schedules no completion. */
  lemma FailedTriggerSchedulesNothing(st: StageCells, h: HookCells, s: Snapshot, throws: bool)
    requires HookConsistent(h) && TriggerPlan(s).Some? && !TriggerOk(h, TriggerPlan(s).value, s.hook, throws)
    ensures TriggerEffectRan(st, h, s, throws) == Effect(st.(completionTimer := false), h)
  {
    TriggerFacts(h, TriggerPlan(s).value, s.hook, throws);
  }

  /** Only the completion timer sets `animationCompleted`; every effect leaves it or clears it. */
  lemma OnlyTimerCompletes(st: StageCells, h: HookCells, s: Snapshot, teardownFails: bool, throws: bool)
    ensures NewGameEffectRan(st, h, s, teardownFails).stage.animationCompleted ==> st.animationCompleted
    ensures LobbyEffectRan(st, h, s, teardownFails).stage.animationCompleted ==> st.animationCompleted
    ensures TrackEffectRan(st, s).animationCompleted == st.animationCompleted
    ensures TriggerEffectRan(st, h, s, throws).stage.animationCompleted == st.animationCompleted
    ensures !Cleared(st).animationCompleted
  {
  }

  /** Entering the lobby, or a fresh round, resets the engine once and clears the component's cells. */
  lemma ResetEffectFacts(st: StageCells, h: HookCells, s: Snapshot, teardownFails: bool)
    ensures s.gameState == Lobby ==>
      LobbyEffectRan(st, h, s, teardownFails) == Effect(Cleared(st), ResetDone(h, teardownFails))
      && NewGameEffectRan(st, h, s, teardownFails) == Effect(st, h)
    ensures s.gameState == Playing ==> LobbyEffectRan(st, h, s, teardownFails) == Effect(st, h)
    ensures s.gameState == Playing && (s.userChoice.Some? || s.computerChoice.Some?) ==>
      NewGameEffectRan(st, h, s, teardownFails) == Effect(st, h)
    ensures LobbyEffectRan(st, h, s, teardownFails).hook.isResetting || LobbyEffectRan(st, h, s, teardownFails).hook == h
  {
  }

  /** The state of one `CatAnimation` instance. */
  class Component {
    var animationCompleted: bool
    var lastComputerChoice: Option<Choice>
    var completionTimer: bool

    function State(): StageCells
      reads this
    {
      StageCells(animationCompleted, lastComputerChoice, completionTimer)
    }

    constructor()
      ensures State() == InitialStage
    {
      animationCompleted := false;
      lastComputerChoice := None;
      completionTimer := false;
    }

    method NewGameEffect(hook: CatAnimationHook, s: Snapshot, teardownFails: bool)
      modifies this, hook
      ensures Effect(State(), hook.State()) == NewGameEffectRan(old(State()), old(hook.State()), s, teardownFails)
    {
      if s.gameState == Playing && s.userChoice.None? && s.computerChoice.None? {
        hook.ResetAnimation(teardownFails);
        animationCompleted := false;
        lastComputerChoice := None;
      }
    }

    method LobbyEffect(hook: CatAnimationHook, s: Snapshot, teardownFails: bool)
      modifies this, hook
      ensures Effect(State(), hook.State()) == LobbyEffectRan(old(State()), old(hook.State()), s, teardownFails)
    {
      if s.gameState == Lobby {
        hook.ResetAnimation(teardownFails);
        animationCompleted := false;
        lastComputerChoice := None;
      }
    }

    method TrackEffect(s: Snapshot)
      modifies this
      ensures State() == TrackEffectRan(old(State()), s)
    {
      if s.computerChoice.Some? && s.computerChoice != s.lastComputerChoice {
        lastComputerChoice := s.computerChoice;
      }
    }

    method TriggerEffect(hook: CatAnimationHook, s: Snapshot, throws: bool)
      modifies this, hook
      ensures Effect(State(), hook.State()) == TriggerEffectRan(old(State()), old(hook.State()), s, throws)
    {
      // cleanup of the previous run
      completionTimer := false;
      if s.computerChoice.None? || s.showChecking || s.animationCompleted || s.hook.isResetting {
        return;
      }
      if !s.hook.riveLoaded {
        return;
      }
      var requiresMouse := s.computerChoice == Some(Dead);
      var requiredReady := if requiresMouse then s.hook.mouseAnimReady else s.hook.buttonAnimReady;
      if !requiredReady {
        return;
      }
      var ok;
      if requiresMouse {
        ok := hook.Trigger(Mouse, s.hook, throws);
      } else {
        ok := hook.Trigger(ButtonPress, s.hook, throws);
      }
      if !ok {
        return;
      }
      completionTimer := true;
    }

    method CompletionTimerFires()
      requires completionTimer
      modifies this
      ensures State() == CompletionFired(old(State()))
    {
      completionTimer := false;
      animationCompleted := true;
    }

    method HandlePlayAgain(game: Game)
      modifies this, game
      ensures State() == Cleared(old(State()))
      ensures game.State() == Started(old(game.State()))
    {
      animationCompleted := false;
      lastComputerChoice := None;
      game.PlayAgain();
    }

    method HandleBackToLobby(game: Game)
      modifies this, game
      ensures State() == Cleared(old(State()))
      ensures game.State() == Reset(old(game.State()))
    {
      animationCompleted := false;
      lastComputerChoice := None;
      game.ResetGame();
    }
  }
}
