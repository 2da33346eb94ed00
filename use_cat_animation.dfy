/**
 * The readiness and trigger controller `useCatAnimation` of src/hooks/useCatAnimation.js:
 * it looks up the engine's two named inputs, polls for them, fires them, and resets the engine.
 * The Rive engine is abstract: an id. What its input listing yields is an argument of each
 * attempt, because the same engine can list its inputs later than it first failed to.
 */
module UseCatAnimation {
  import opened Wrappers
  import opened GameConfig

  /** The polling effect gives up after this many interval attempts. */
  const MaxAttempts: nat := 30
  const PollIntervalMs: nat := 150
  /** `isResetting` is cleared this long after a reset. */
  const SettleDelayMs: nat := 500
  /** A value input is set back to false this long after a trigger. */
  const PulseMs: nat := 100

  /** A state machine input: its name, whether it has a callable `fire`, whether its `value` is defined. */
  datatype InputSpec = InputSpec(name: string, hasFire: bool, hasValue: bool)

  /** What `stateMachineInputs("State Machine 1")` yields: something that is not an array, a list, or a throw. */
  datatype Listing = NotAList | Listed(inputs: seq<InputSpec>) | ListingThrows

  /** An engine instance as `useRive` returns it. */
  datatype Engine = Engine(id: nat)

  /** The calls the hook makes into the engine, in order. */
  datatype EngineCall =
    | Fired(input: InputSpec)
    | ValueSet(input: InputSpec, value: bool)
    | Teardown(engine: nat, completed: bool)

  /** A running `setInterval` of the polling effect: the attempts made and the engine its closure holds. */
  datatype Poller = Poller(attempts: nat, engine: Engine)

  /** What one render of the hook hands out: `rive` and the four flags, as the render's callbacks see them. */
  datatype HookView = HookView(
    rive: Option<Engine>,
    riveLoaded: bool,
    isResetting: bool,
    mouseAnimReady: bool,
    buttonAnimReady: bool)

  /** The hook's state cells, refs and pending timers, and what it has done to the engine. */
  datatype HookCells = HookCells(
    animationKey: nat,
    riveLoaded: bool,
    isResetting: bool,
    mouseAnimReady: bool,
    buttonAnimReady: bool,
    mouseRef: Option<InputSpec>,
    buttonRef: Option<InputSpec>,
    riveInstance: Option<Engine>,
    inputsAttached: bool,
    rive: Option<Engine>,
    settles: nat,
    clears: seq<Animation>,
    poll: Option<Poller>,
    engineLog: seq<EngineCall>)

  const InitialHook := HookCells(0, false, false, false, false, None, None, None, false, None, 0, [], None, [])

  /** The last input of `inputs` with the given name, which is the one the `forEach` leaves cached. */
  function LastNamed(inputs: seq<InputSpec>, name: string): (r: Option<InputSpec>)
    ensures r.Some? ==> r.value.name == name
  {
    if inputs == [] then None
    else if inputs[|inputs| - 1].name == name then Some(inputs[|inputs| - 1])
    else LastNamed(inputs[..|inputs| - 1], name)
  }

  /** The last input with the given name comes after every other input of that name. */
  lemma {:induction false} LastNamedIsLast(inputs: seq<InputSpec>, name: string)
    requires LastNamed(inputs, name).Some?
    ensures exists k :: 0 <= k < |inputs| && inputs[k] == LastNamed(inputs, name).value
                        && forall j :: k < j < |inputs| ==> inputs[j].name != name
  {
    var n := |inputs|;
    if inputs[n - 1].name != name {
      var front := inputs[..n - 1];
      LastNamedIsLast(front, name);
      var k :| 0 <= k < |front| && front[k] == LastNamed(front, name).value
               && forall j :: k < j < |front| ==> front[j].name != name;
      assert inputs[k] == front[k];
      forall j | k < j < n ensures inputs[j].name != name {
        if j < n - 1 {
          assert inputs[j] == front[j];
        }
      }
    } else {
      assert inputs[n - 1] == LastNamed(inputs, name).value;
    }
  }

  /** Extending the inputs by one: the new input is the last of its name. */
  lemma LastNamedStep(inputs: seq<InputSpec>, i: nat, name: string)
    requires i < |inputs|
    ensures LastNamed(inputs[..i + 1], name) == if inputs[i].name == name then Some(inputs[i]) else LastNamed(inputs[..i], name)
  {
    assert inputs[..i + 1][..i] == inputs[..i];
  }

  /** No input of a name is found exactly when none is listed. */
  lemma {:induction false} LastNamedNone(inputs: seq<InputSpec>, name: string)
    ensures LastNamed(inputs, name).None? <==> forall k :: 0 <= k < |inputs| ==> inputs[k].name != name
  {
    if inputs != [] {
      var n := |inputs|;
      var front := inputs[..n - 1];
      LastNamedNone(front, name);
      if inputs[n - 1].name != name {
        assert forall k :: 0 <= k < n - 1 ==> inputs[k] == front[k];
      }
    }
  }

  /**
   * `attachInputs()` returns true: there is an engine, and what it lists now holds an input
   * named `'mouse'` or `'button press'`.
   */
  predicate AttachOk(engine: Option<Engine>, now: Listing) {
    && engine.Some? && now.Listed?
    && (LastNamed(now.inputs, Mouse.InputName()).Some? || LastNamed(now.inputs, ButtonPress.InputName()).Some?)
  }

  /**
   * The state after `attachInputs()` of a render where `rive` was `engine` and `isResetting`
   * was `resetting`, when the engine lists `now`.
   */
  function Attached(s: HookCells, engine: Option<Engine>, now: Listing, resetting: bool): HookCells {
    if engine.None? || !now.Listed? then s
    else
      var m := LastNamed(now.inputs, Mouse.InputName());
      var b := LastNamed(now.inputs, ButtonPress.InputName());
      s.(mouseRef := if m.Some? then m else s.mouseRef,
         buttonRef := if b.Some? then b else s.buttonRef,
         mouseAnimReady := m.Some? && !resetting,
         buttonAnimReady := b.Some? && !resetting,
         inputsAttached := m.Some? || b.Some?)
  }

  /** The input ref a trigger of animation `a` reads. */
  function RefOf(s: HookCells, a: Animation): Option<InputSpec> {
    if a == Mouse then s.mouseRef else s.buttonRef
  }

  /** The gates of `triggerMouse` / `triggerButtonPress`: not resetting, loaded, and the input cached. */
  predicate TriggerAllowed(s: HookCells, a: Animation, view: HookView) {
    !view.isResetting && view.riveLoaded && RefOf(s, a).Some?
  }

  /** The trigger returns true: it is allowed, the engine does not throw, and the input can be fired or set. */
  predicate TriggerOk(s: HookCells, a: Animation, view: HookView, throws: bool) {
    TriggerAllowed(s, a, view) && !throws && (RefOf(s, a).value.hasFire || RefOf(s, a).value.hasValue)
  }

  /** The state after a trigger of `a` from a render seeing `view`; `throws` says whether the engine call throws. */
  function Triggered(s: HookCells, a: Animation, view: HookView, throws: bool): HookCells {
    if !TriggerAllowed(s, a, view) || throws then s
    else
      var input := RefOf(s, a).value;
      if input.hasFire then s.(engineLog := s.engineLog + [Fired(input)])
      else if input.hasValue then s.(engineLog := s.engineLog + [ValueSet(input, true)], clears := s.clears + [a])
      else s
  }

  /** The 100 ms timer of a value trigger sets the input the ref holds now, if any, back to false. */
  function PulseCleared(s: HookCells): HookCells
    requires s.clears != []
  {
    var ref := RefOf(s, s.clears[0]);
    s.(clears := s.clears[1..],
       engineLog := if ref.Some? then s.engineLog + [ValueSet(ref.value, false)] else s.engineLog)
  }

  /** `resetAnimation()`; `teardownFails` says whether `stop()`/`cleanup()` throws. */
  function ResetDone(s: HookCells, teardownFails: bool): HookCells {
    s.(isResetting := true, riveLoaded := false, mouseAnimReady := false, buttonAnimReady := false,
       inputsAttached := false, mouseRef := None, buttonRef := None,
       engineLog := if s.riveInstance.Some? then s.engineLog + [Teardown(s.riveInstance.value.id, !teardownFails)]
                    else s.engineLog,
       animationKey := s.animationKey + 1, settles := s.settles + 1)
  }

  /** One 500 ms settle timer fires; it clears `isResetting` even when a later reset is still settling. */
  function SettleFired(s: HookCells): HookCells
    requires s.settles > 0
  {
    s.(settles := s.settles - 1, isResetting := false)
  }

  /**
   * The polling effect as it runs in a render seeing `view`, the engine listing `now`: the
   * previous run's interval is cleared; then, unless resetting or without an engine, one
   * immediate attempt, and an interval when it fails.
   */
  function PollingEffectRan(s: HookCells, view: HookView, now: Listing): HookCells {
    var t := s.(poll := None);
    if view.isResetting || view.rive.None? then t
    else
      var a := Attached(t, view.rive, now, false);
      if AttachOk(view.rive, now) then a.(riveLoaded := true) else a.(poll := Some(Poller(0, view.rive.value)))
  }

  /**
   * One interval tick, the engine listing `now`: count the attempt, try again with the
   * closure's engine and its `isResetting` (false, or no interval would run), stop on success
   * or after `MaxAttempts`.
   */
  function Ticked(s: HookCells, now: Listing): HookCells
    requires s.poll.Some?
  {
    var p := s.poll.value;
    var n := p.attempts + 1;
    var a := Attached(s, Some(p.engine), now, false);
    if AttachOk(Some(p.engine), now) then a.(poll := None, riveLoaded := true)
    else if n >= MaxAttempts then a.(poll := None, riveLoaded := false)
    else a.(poll := Some(Poller(n, p.engine)))
  }

  /** `onLoad`: the instance ref takes the `rive` its closure holds. */
  function Loaded(s: HookCells, seen: Option<Engine>): HookCells {
    s.(riveInstance := seen)
  }

  /** `onLoadError`. */
  function LoadFailed(s: HookCells): HookCells {
    s.(riveLoaded := false)
  }

  /** `useRive` hands out another engine (or none), as after a remount under a new `animationKey`. */
  function RiveChanged(s: HookCells, next: Option<Engine>): HookCells {
    s.(rive := next)
  }

  /**
   * What holds in every state the hook reaches: a settle timer is pending while resetting,
   * each ref holds an input of its own name, a ready flag has its input cached and marks the
   * inputs attached, and a running poll has attempts left.
   */
  predicate HookConsistent(s: HookCells) {
    && (s.isResetting ==> s.settles > 0)
    && (s.mouseRef.Some? ==> s.mouseRef.value.name == Mouse.InputName())
    && (s.buttonRef.Some? ==> s.buttonRef.value.name == ButtonPress.InputName())
    && (s.mouseAnimReady ==> s.mouseRef.Some?)
    && (s.buttonAnimReady ==> s.buttonRef.Some?)
    && (s.mouseAnimReady || s.buttonAnimReady ==> s.inputsAttached)
    && (s.poll.Some? ==> s.poll.value.attempts < MaxAttempts)
  }

  lemma InitialHookIsConsistent()
    ensures HookConsistent(InitialHook)
  {
  }

  /**
   * `attachInputs` reports success exactly when an input of either name is listed; each ready
   * flag then says its input was found and the render was not resetting; a found name caches
   * its last listed input and a missing one leaves its ref alone.
   */
  lemma AttachFacts(s: HookCells, engine: Option<Engine>, now: Listing, resetting: bool)
    requires engine.Some? && now.Listed?
    ensures var t := Attached(s, engine, now, resetting);
      var inputs := now.inputs;
      && t.inputsAttached == AttachOk(engine, now)
      && (t.mouseAnimReady <==> !resetting && exists k :: 0 <= k < |inputs| && inputs[k].name == Mouse.InputName())
      && (t.buttonAnimReady <==> !resetting && exists k :: 0 <= k < |inputs| && inputs[k].name == ButtonPress.InputName())
      && t.mouseRef == (if LastNamed(inputs, Mouse.InputName()).Some? then LastNamed(inputs, Mouse.InputName()) else s.mouseRef)
      && t.buttonRef == (if LastNamed(inputs, ButtonPress.InputName()).Some? then LastNamed(inputs, ButtonPress.InputName()) else s.buttonRef)
  {
    LastNamedNone(now.inputs, Mouse.InputName());
    LastNamedNone(now.inputs, ButtonPress.InputName());
  }

  /** Without an engine, or without a list of inputs, an attempt fails and changes nothing. */
  lemma AttachWithoutListChangesNothing(s: HookCells, engine: Option<Engine>, now: Listing, resetting: bool)
    requires engine.None? || !now.Listed?
    ensures !AttachOk(engine, now) && Attached(s, engine, now, resetting) == s
  {
  }

  /** The timer steps and engine events keep `HookConsistent`. */
  lemma TimersKeepConsistent(s: HookCells, seen: Option<Engine>)
    requires HookConsistent(s)
    ensures s.clears != [] ==> HookConsistent(PulseCleared(s))
    ensures s.settles > 0 ==> HookConsistent(SettleFired(s))
    ensures HookConsistent(Loaded(s, seen)) && HookConsistent(LoadFailed(s)) && HookConsistent(RiveChanged(s, seen))
  {
  }

  /** A trigger changes nothing but the engine log and the queue of pulses to clear. */
  lemma TriggerTouchesOnlyLog(s: HookCells, a: Animation, view: HookView, throws: bool)
    ensures Triggered(s, a, view, throws)
         == s.(engineLog := Triggered(s, a, view, throws).engineLog, clears := Triggered(s, a, view, throws).clears)
  {
    if TriggerAllowed(s, a, view) && !throws {
      var input := RefOf(s, a).value;
      if input.hasFire {
        assert Triggered(s, a, view, throws) == s.(engineLog := s.engineLog + [Fired(input)]);
      } else if input.hasValue {
        assert Triggered(s, a, view, throws)
            == s.(engineLog := s.engineLog + [ValueSet(input, true)], clears := s.clears + [a]);
      }
    }
  }

  /** A trigger keeps `HookConsistent`. */
  lemma TriggerKeepsConsistent(s: HookCells, a: Animation, view: HookView, throws: bool)
    requires HookConsistent(s)
    ensures HookConsistent(Triggered(s, a, view, throws))
  {
    TriggerTouchesOnlyLog(s, a, view, throws);
  }

  /** A reset keeps `HookConsistent`: it clears every ready flag and schedules a settle. */
  lemma ResetKeepsConsistent(s: HookCells, teardownFails: bool)
    requires HookConsistent(s)
    ensures HookConsistent(ResetDone(s, teardownFails))
  {
  }

  /** The polling effect keeps `HookConsistent`. */
  lemma EffectKeepsConsistent(s: HookCells, view: HookView, now: Listing)
    requires HookConsistent(s)
    ensures HookConsistent(PollingEffectRan(s, view, now))
  {
    var t := s.(poll := None);
    if !view.isResetting && view.rive.Some? {
      AttachKeepsConsistent(t, view.rive, now, false);
      var a := Attached(t, view.rive, now, false);
      assert a.poll.None?;
      if AttachOk(view.rive, now) {
        assert PollingEffectRan(s, view, now) == a.(riveLoaded := true);
      } else {
        assert PollingEffectRan(s, view, now) == a.(poll := Some(Poller(0, view.rive.value)));
      }
    }
  }

  /** A tick of the interval keeps `HookConsistent`: it stops or goes on with attempts left. */
  lemma TickKeepsConsistent(s: HookCells, now: Listing)
    requires HookConsistent(s) && s.poll.Some?
    ensures HookConsistent(Ticked(s, now))
  {
    var p := s.poll.value;
    AttachKeepsConsistent(s, Some(p.engine), now, false);
    var a := Attached(s, Some(p.engine), now, false);
    assert a.poll == s.poll;
    if AttachOk(Some(p.engine), now) {
      assert Ticked(s, now) == a.(poll := None, riveLoaded := true);
    } else if p.attempts + 1 >= MaxAttempts {
      assert Ticked(s, now) == a.(poll := None, riveLoaded := false);
    } else {
      assert Ticked(s, now) == a.(poll := Some(Poller(p.attempts + 1, p.engine)));
    }
  }

  lemma AttachKeepsConsistent(s: HookCells, engine: Option<Engine>, now: Listing, resetting: bool)
    requires HookConsistent(s)
    ensures HookConsistent(Attached(s, engine, now, resetting))
  {
  }

  /**
   * A trigger touches the engine only when allowed: while resetting, not loaded or without its
   * input it returns false and changes nothing. A successful one makes exactly one call, on an
   * input of the animation's own name, and schedules the value reset only for a value input.
   */
  lemma TriggerFacts(s: HookCells, a: Animation, view: HookView, throws: bool)
    requires HookConsistent(s)
    ensures !TriggerAllowed(s, a, view) ==> Triggered(s, a, view, throws) == s && !TriggerOk(s, a, view, throws)
    ensures !TriggerOk(s, a, view, throws) ==> Triggered(s, a, view, throws) == s
    ensures TriggerOk(s, a, view, throws) ==>
      var t := Triggered(s, a, view, throws);
      && |t.engineLog| == |s.engineLog| + 1 && t.engineLog[..|s.engineLog|] == s.engineLog
      && t.engineLog[|s.engineLog|] in {Fired(RefOf(s, a).value), ValueSet(RefOf(s, a).value, true)}
      && RefOf(s, a).value.name == a.InputName()
      && (t.clears == s.clears + [a] <==> !RefOf(s, a).value.hasFire)
  {
  }

  /**
   * A reset clears the flags and refs, bumps `animationKey` by one and schedules one settle,
   * whether or not the teardown throws; a failing teardown shows only in the log entry.
   */
  lemma ResetFacts(s: HookCells, teardownFails: bool)
    ensures var t := ResetDone(s, teardownFails);
      && t.isResetting && !t.riveLoaded && !t.mouseAnimReady && !t.buttonAnimReady && !t.inputsAttached
      && t.mouseRef.None? && t.buttonRef.None?
      && t.animationKey == s.animationKey + 1 && t.settles == s.settles + 1
    ensures ResetDone(s, true).(engineLog := s.engineLog) == ResetDone(s, false).(engineLog := s.engineLog)
  {
  }

  /** Only a settle timer clears `isResetting`: attempts, triggers and value resets leave it set. */
  lemma OnlySettleEndsReset(s: HookCells, engine: Option<Engine>, now: Listing, resetting: bool, a: Animation,
                            view: HookView, throws: bool)
    requires s.isResetting
    ensures Attached(s, engine, now, resetting).isResetting && Triggered(s, a, view, throws).isResetting
    ensures s.clears != [] ==> PulseCleared(s).isResetting
  {
    TriggerTouchesOnlyLog(s, a, view, throws);
  }

  /** Nor do the polling effect and its ticks clear `isResetting`. */
  lemma PollingLeavesReset(s: HookCells, view: HookView, now: Listing)
    requires s.isResetting
    ensures PollingEffectRan(s, view, now).isResetting
    ensures s.poll.Some? ==> Ticked(s, now).isResetting
  {
    var t := s.(poll := None);
    if !view.isResetting && view.rive.Some? {
      var a := Attached(t, view.rive, now, false);
      assert a.isResetting;
    }
    if s.poll.Some? {
      var a := Attached(s, Some(s.poll.value.engine), now, false);
      assert a.isResetting;
    }
  }

  /** Nor do the engine events. */
  lemma EventsLeaveReset(s: HookCells, seen: Option<Engine>)
    requires s.isResetting
    ensures Loaded(s, seen).isResetting && LoadFailed(s).isResetting && RiveChanged(s, seen).isResetting
  {
  }

  /** The polling effect does nothing but stop the old interval while resetting or without an engine. */
  lemma PollingEffectIdles(s: HookCells, view: HookView, now: Listing)
    requires view.isResetting || view.rive.None?
    ensures PollingEffectRan(s, view, now) == s.(poll := None)
  {
  }

  /**
   * Otherwise the effect makes one attempt at once: on success `riveLoaded` is set and no
   * interval runs; on failure an interval starts with no attempts made and `riveLoaded` is left alone.
   */
  lemma PollingEffectAttempts(s: HookCells, view: HookView, now: Listing)
    requires !view.isResetting && view.rive.Some?
    ensures AttachOk(view.rive, now) ==> PollingEffectRan(s, view, now).riveLoaded && PollingEffectRan(s, view, now).poll.None?
    ensures !AttachOk(view.rive, now) ==>
      PollingEffectRan(s, view, now).poll == Some(Poller(0, view.rive.value))
      && PollingEffectRan(s, view, now).riveLoaded == s.riveLoaded
    ensures now.Listed? ==> PollingEffectRan(s, view, now).inputsAttached == AttachOk(view.rive, now)
  {
  }

  /** The interval ticks, the engine listing `nows[i]` at the `i`-th, as long as the interval runs. */
  function TickN(s: HookCells, nows: seq<Listing>): HookCells
    decreases |nows|
  {
    if nows == [] || s.poll.None? then s else TickN(Ticked(s, nows[0]), nows[1..])
  }

  /**
   * Against an engine that offers neither input at any of the next ticks, a poll with `k`
   * attempts made runs exactly `MaxAttempts - k` more ticks, and then it has stopped with
   * `riveLoaded` false.
   */
  lemma {:induction false} PollGivesUp(s: HookCells, k: nat, nows: seq<Listing>)
    requires s.poll.Some? && s.poll.value.attempts == k < MaxAttempts && |nows| == MaxAttempts - k
    requires forall j :: 0 <= j < |nows| ==> !AttachOk(Some(s.poll.value.engine), nows[j])
    ensures forall j :: 0 <= j < |nows| ==> TickN(s, nows[..j]).poll.Some?
    ensures TickN(s, nows).poll.None? && !TickN(s, nows).riveLoaded
    decreases MaxAttempts - k
  {
    var t := Ticked(s, nows[0]);
    var rest := nows[1..];
    if k + 1 < MaxAttempts {
      assert t.poll == Some(Poller(k + 1, s.poll.value.engine));
      assert forall j :: 0 <= j < |rest| ==> rest[j] == nows[j + 1];
      PollGivesUp(t, k + 1, rest);
      forall j | 0 <= j < |nows| ensures TickN(s, nows[..j]).poll.Some? {
        if j > 0 {
          assert nows[..j][1..] == rest[..j - 1];
          assert TickN(s, nows[..j]) == TickN(t, rest[..j - 1]);
        }
      }
      assert TickN(s, nows) == TickN(t, rest);
    } else {
      assert nows[..0] == [];
      assert TickN(s, nows) == TickN(t, rest);
    }
  }

  /** A tick at which the engine lists `mouse` or `button press` stops the interval and sets `riveLoaded`. */
  lemma TickSuccess(s: HookCells, now: Listing)
    requires s.poll.Some? && AttachOk(Some(s.poll.value.engine), now)
    ensures Ticked(s, now).poll.None? && Ticked(s, now).riveLoaded && Ticked(s, now).inputsAttached
  {
  }

  /**
   * The interval's `attachInputs` keeps the `isResetting` of the render that started it, so a
   * tick that succeeds after a reset, before the next commit clears the interval, sets the
   * ready flags and `riveLoaded` again while `isResetting` is still set.
   */
  lemma StaleTickReadiesDuringReset(s: HookCells, now: Listing)
    requires s.poll.Some? && s.isResetting && now.Listed?
    requires LastNamed(now.inputs, Mouse.InputName()).Some?
    ensures var t := Ticked(s, now);
      t.isResetting && t.riveLoaded && t.mouseAnimReady && t.mouseRef == LastNamed(now.inputs, Mouse.InputName())
  {
  }

  /** The state of one `useCatAnimation` instance. */
  class CatAnimationHook {
    var animationKey: nat
    var riveLoaded: bool
    var isResetting: bool
    var mouseAnimReady: bool
    var buttonAnimReady: bool
    /** `mouseAnimInputRef.current` and `buttonAnimInputRef.current`. */
    var mouseRef: Option<InputSpec>
    var buttonRef: Option<InputSpec>
    /** `riveInstanceRef.current`. */
    var riveInstance: Option<Engine>
    /** `inputsAttachedRef.current`. */
    var inputsAttached: bool
    /** The `rive` that `useRive` returns. */
    var rive: Option<Engine>
    /** Pending 500 ms settle timers. */
    var settles: nat
    /** Pending 100 ms value resets, oldest first. */
    var clears: seq<Animation>
    var poll: Option<Poller>
    var engineLog: seq<EngineCall>

    function State(): HookCells
      reads this
    {
      HookCells(animationKey, riveLoaded, isResetting, mouseAnimReady, buttonAnimReady, mouseRef, buttonRef,
                riveInstance, inputsAttached, rive, settles, clears, poll, engineLog)
    }

    /** What a render of the hook hands out now. */
    function View(): HookView
      reads this
    {
      HookView(rive, riveLoaded, isResetting, mouseAnimReady, buttonAnimReady)
    }

    constructor()
      ensures State() == InitialHook
    {
      animationKey := 0;
      riveLoaded := false;
      isResetting := false;
      mouseAnimReady := false;
      buttonAnimReady := false;
      mouseRef := None;
      buttonRef := None;
      riveInstance := None;
      inputsAttached := false;
      rive := None;
      settles := 0;
      clears := [];
      poll := None;
      engineLog := [];
    }

    /** The `forEach` of `attachInputs`: each input named `'mouse'` or `'button press'` replaces its ref. */
    method CacheInputs(inputs: seq<InputSpec>) returns (mouseFound: bool, buttonFound: bool)
      modifies this`mouseRef, this`buttonRef
      ensures mouseFound == LastNamed(inputs, Mouse.InputName()).Some?
      ensures buttonFound == LastNamed(inputs, ButtonPress.InputName()).Some?
      ensures mouseRef == if mouseFound then LastNamed(inputs, Mouse.InputName()) else old(mouseRef)
      ensures buttonRef == if buttonFound then LastNamed(inputs, ButtonPress.InputName()) else old(buttonRef)
    {
      assert |Mouse.InputName()| != |ButtonPress.InputName()|;
      mouseFound := false;
      buttonFound := false;
      for i := 0 to |inputs|
        invariant mouseFound == LastNamed(inputs[..i], Mouse.InputName()).Some?
        invariant buttonFound == LastNamed(inputs[..i], ButtonPress.InputName()).Some?
        invariant mouseRef == if mouseFound then LastNamed(inputs[..i], Mouse.InputName()) else old(mouseRef)
        invariant buttonRef == if buttonFound then LastNamed(inputs[..i], ButtonPress.InputName()) else old(buttonRef)
      {
        LastNamedStep(inputs, i, Mouse.InputName());
        LastNamedStep(inputs, i, ButtonPress.InputName());
        if inputs[i].name == Mouse.InputName() {
          mouseRef := Some(inputs[i]);
          mouseFound := true;
        } else if inputs[i].name == ButtonPress.InputName() {
          buttonRef := Some(inputs[i]);
          buttonFound := true;
        }
      }
      assert inputs[..|inputs|] == inputs;
    }

    /**
     * `attachInputs()` of a render whose `rive` is `engine` and whose `isResetting` is
     * `resetting`; `now` is what `stateMachineInputs` yields at this call.
     */
    method AttachInputs(engine: Option<Engine>, now: Listing, resetting: bool) returns (ok: bool)
      modifies this
      ensures ok == AttachOk(engine, now)
      ensures State() == Attached(old(State()), engine, now, resetting)
    {
      if engine.None? || !now.Listed? {
        return false;
      }
      var mouseFound, buttonFound := CacheInputs(now.inputs);
      mouseAnimReady := mouseFound && !resetting;
      buttonAnimReady := buttonFound && !resetting;
      inputsAttached := mouseFound || buttonFound;
      ok := mouseFound || buttonFound;
    }

    /** The polling effect of a render that handed out `view`, after the cleanup of its previous run. */
    method RunPollingEffect(view: HookView, now: Listing)
      modifies this
      ensures State() == PollingEffectRan(old(State()), view, now)
    {
      poll := None;
      if view.isResetting {
        return;
      }
      if view.rive.None? {
        return;
      }
      var ok := AttachInputs(view.rive, now, view.isResetting);
      if ok {
        riveLoaded := true;
        return;
      }
      poll := Some(Poller(0, view.rive.value));
    }

    /** One tick of the running interval, the engine listing `now`. */
    method PollTick(now: Listing)
      requires poll.Some?
      modifies this
      ensures State() == Ticked(old(State()), now)
    {
      var p := poll.value;
      var attempts := p.attempts + 1;
      poll := Some(Poller(attempts, p.engine));
      var ok := AttachInputs(Some(p.engine), now, false);
      if ok {
        poll := None;
        riveLoaded := true;
      } else if attempts >= MaxAttempts {
        poll := None;
        riveLoaded := false;
      }
    }

    /**
     * `triggerMouse()` (for `Mouse`) or `triggerButtonPress()` (for `ButtonPress`) as handed out
     * by a render that saw `view`; the two differ only in the ref they read.
     */
    method Trigger(a: Animation, view: HookView, throws: bool) returns (ok: bool)
      modifies this
      ensures ok == TriggerOk(old(State()), a, view, throws)
      ensures State() == Triggered(old(State()), a, view, throws)
    {
      if view.isResetting {
        return false;
      }
      var ref := if a == Mouse then mouseRef else buttonRef;
      if !view.riveLoaded || ref.None? {
        return false;
      }
      if throws {
        return false;
      }
      var input := ref.value;
      if input.hasFire {
        engineLog := engineLog + [Fired(input)];
      } else if input.hasValue {
        engineLog := engineLog + [ValueSet(input, true)];
        clears := clears + [a];
      } else {
        return false;
      }
      return true;
    }

    /** The oldest 100 ms value reset fires. */
    method PulseClearFires()
      requires clears != []
      modifies this
      ensures State() == PulseCleared(old(State()))
    {
      var a := clears[0];
      clears := clears[1..];
      var ref := if a == Mouse then mouseRef else buttonRef;
      if ref.Some? {
        engineLog := engineLog + [ValueSet(ref.value, false)];
      }
    }

    method ResetAnimation(teardownFails: bool)
      modifies this
      ensures State() == ResetDone(old(State()), teardownFails)
    {
      ClearFlags();
      DropInputs();
      if riveInstance.Some? {
        // `stop()` and `cleanup()`; a throw is caught and logged, and the reset goes on
        engineLog := engineLog + [Teardown(riveInstance.value.id, !teardownFails)];
      }
      animationKey := animationKey + 1;
      settles := settles + 1;
    }

    /** The start of a reset: resetting, not loaded, nothing ready. */
    method ClearFlags()
      modifies this
      ensures State() == old(State()).(isResetting := true, riveLoaded := false, mouseAnimReady := false,
        buttonAnimReady := false)
    {
      isResetting := true;
      riveLoaded := false;
      mouseAnimReady := false;
      buttonAnimReady := false;
    }

    /** Then the reset forgets the attached inputs. */
    method DropInputs()
      modifies this
      ensures State() == old(State()).(inputsAttached := false, mouseRef := None, buttonRef := None)
    {
      inputsAttached := false;
      mouseRef := None;
      buttonRef := None;
    }

    /** A 500 ms settle timer fires. */
    method SettleFires()
      requires settles > 0
      modifies this
      ensures State() == SettleFired(old(State()))
    {
      settles := settles - 1;
      isResetting := false;
    }

    method OnLoad(seen: Option<Engine>)
      modifies this
      ensures State() == Loaded(old(State()), seen)
    {
      riveInstance := seen;
    }

    method OnLoadError()
      modifies this
      ensures State() == LoadFailed(old(State()))
    {
      riveLoaded := false;
    }

    method RiveChanges(next: Option<Engine>)
      modifies this
      ensures State() == RiveChanged(old(State()), next)
    {
      rive := next;
    }
  }
}
