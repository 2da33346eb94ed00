# Schrödinger's Cat game: a Dafny model of the round and animation core

Schrödinger's Cat is a browser game built with React. A signed-in player starts a round and
guesses whether the cat is *dead* or *alive*. After a 3-second "checking" pause the computer
draws its own answer. An animation made with the Rive engine then plays for 9 seconds: the
*mouse* animation for a dead cat, the *button press* animation for a live one. Then the result
is shown. Rounds of a signed-in player are saved to a Firestore document store, and the store
also answers statistics, streak and leaderboard questions.

This project models that core in Dafny 4.11 and proves properties of it:

- `UseGame` (`use_game.dfy`): the round controller of `useGame.js`.
  - Class `Game` holds the hook's state cells, so each operation updates fields in place.
  - The functions `Started`, `Reset`, `Chosen`, `Revealed`, `Settled` and `Toggled` say what
    each operation does to the state, and the methods are proved against them.
  - Pending 3-second reveal callbacks and pending database writes are explicit queues inside
    the state. Firing one is an operation of its own.
- `UseCatAnimation` (`use_cat_animation.dfy`): the engine readiness and trigger controller of
  `useCatAnimation.js`.
  - Class `CatAnimationHook` holds its cells and refs: the cached inputs, the ready flags, the
    reset flag, the animation key, the polling interval and the pending timers.
  - The Rive engine is abstract: an `Engine` is an id. What `stateMachineInputs` yields (a
    list of inputs, a non-list or a throw) is an argument of each attempt, so the same engine
    can list its inputs at a later tick. The effects of calls into the engine are kept in a log.
- `CatAnimation` (`cat_animation.dfy`): the orchestration component of `CatAnimation.jsx`.
  - It covers which overlays and popups are visible, and its four effects.
  - It covers the 9-second completion timer and the two click handlers.
  - Its effects are proved against functions of a render `Snapshot`.
- `App` (`app.dfy`): the signed-in screen of `App.jsx` as one session.
  - A render is an explicit step. It takes a snapshot of every cell, then runs the effects
    whose dependencies changed since the last commit, in React's order: the child's effects
    first in declaration order, then the hook's polling effect.
  - Every other step is a click on an element visible in the last committed render, or a
    pending timer firing.
  - `SessionConsistent` is proved to hold along every run.
- `GameDatabase` (`game_database.dfy`) and `Leaderboard` (`leaderboard.dfy`): the
  aggregations of `gameDatabase.js`. They cover record creation and its mock fallback,
  statistics, the win streak, `ensureUserProfile` and the leaderboard. The store's answers
  are parameters.
- `UiStrings` (`ui_strings.dfy`), `CheckingTooltip` (`checking_tooltip.dfy`) and `GameConfig`
  (`game_config.dfy`): the username helper, the animated "checking" dots and the shared
  constants. `Wrappers` (`wrappers.dfy`) holds the `Option` type.

How a round and the engine behave in the code:

- `gameState` is only `lobby` or `playing`; the reveal callback sets the result during
  `playing`.
- A reveal callback scheduled before a reset still fires and writes into the new round.
- A second choice before the reveal schedules a second reveal.
- The polling interval gives up after 30 failed attempts and does not start again until the
  polling effect itself re-runs.

## Model

| member | source | states |
|---|---|---|
| UseGame.SaveAs | src/hooks/useGame.js:36-81 | a round is saved exactly when a user with a non-empty uid is present, and under that uid |
| UseGame.Judge | src/hooks/useGame.js:70 | the player wins exactly when both choices agree |
| UseGame.CurrentAnimation | src/hooks/useGame.js:109-116 | the button press animation is chosen exactly when the computer drew `alive`; otherwise, including before any draw, the mouse animation |
| UseGame.InitialIsConsistent | src/hooks/useGame.js:9-15 | the initial cells satisfy the round invariant |
| UseGame.ResetsKeepConsistent | src/hooks/useGame.js:18-29 | starting, resetting and toggling the sound keep the round invariant |
| UseGame.ChoiceKeepsConsistent | src/hooks/useGame.js:32-89 | making a choice, with or without a user, keeps the round invariant |
| UseGame.RevealKeepsConsistent | src/hooks/useGame.js:62-72 | the reveal callback keeps the round invariant: a result exactly when the computer has chosen, and only well-formed records queued for saving |
| UseGame.SettleKeepsConsistent | src/hooks/useGame.js:75-86 | settling a save, whatever the store answers, keeps the round invariant, so `currentGame` is always a well-formed record of a real uid |
| UseGame.StartAndResetClearRound | src/hooks/useGame.js:18-29 | starting and resetting both clear the choices, the result, the record and the tooltip; they keep the sound setting; they differ only in `gameState` |
| UseGame.StaleRevealSurvivesReset | src/hooks/useGame.js:62-72 | a reveal scheduled before a reset or a restart still fires afterwards and sets a result judged on the old choice |
| UseGame.SecondChoiceIsJudgedByFirst | src/hooks/useGame.js:32-89 | two choices in a row: the first reveal judges the first choice while `userChoice` shows the second, so the result can contradict the choices shown |
| UseGame.RevealSavesOnlyWithUid | src/hooks/useGame.js:62-81 | the reveal queues a save only for a round with a uid; the saved record holds both choices, and `user_won` tells whether they agree |
| UseGame.ToggleTwiceRestores | src/hooks/useGame.js:119-122 | toggling flips the sound setting, and toggling twice restores the state |
| UseGame.Game.constructor | src/hooks/useGame.js:9-15 | the cells start in the initial state |
| UseGame.Game.StartNewGame | src/hooks/useGame.js:18-29 | the game is playing with a cleared round; sound and the pending queues are unchanged |
| UseGame.Game.PlayAgain | src/hooks/useGame.js:103-106 | the same new state as a start |
| UseGame.Game.MakeChoice | src/hooks/useGame.js:32-89 | the choice is shown with the tooltip, and one reveal is queued, saving as the user's uid or not at all |
| UseGame.Game.RevealFires | src/hooks/useGame.js:62-72 | the oldest pending reveal sets the draw, hides the tooltip and sets the result judged on its own choice |
| UseGame.Game.SaveSettles | src/hooks/useGame.js:75-86 | a settled save sets `currentGame` to the record `createNewGame` returns |
| UseGame.Game.ResetGame | src/hooks/useGame.js:92-100 | back in the lobby with a cleared round; sound and the pending queues are unchanged |
| UseGame.Game.ToggleSound | src/hooks/useGame.js:119-122 | the setting flips, and the value returned is the negation of the setting the caller's render saw |
| UseCatAnimation.LastNamed | src/hooks/useCatAnimation.js:45-55 | a cached input has the name looked for |
| UseCatAnimation.LastNamedIsLast | src/hooks/useCatAnimation.js:45-55 | when a name repeats, the input cached is the last one of that name |
| UseCatAnimation.LastNamedNone | src/hooks/useCatAnimation.js:45-55 | nothing is cached exactly when no input has the name |
| UseCatAnimation.AttachFacts | src/hooks/useCatAnimation.js:30-67 | with a listed input set, attaching succeeds exactly when an input named `mouse` or `button press` is listed; a ready flag is set exactly when an input of its name exists and no reset is in progress; each ref holds the last input of its name or keeps its value |
| UseCatAnimation.AttachWithoutListChangesNothing | src/hooks/useCatAnimation.js:31-40 | without an engine, or when the engine cannot list its inputs, attaching fails and changes nothing |
| UseCatAnimation.InitialHookIsConsistent | src/hooks/useCatAnimation.js:5-14 | the initial cells satisfy the hook invariant |
| UseCatAnimation.TimersKeepConsistent | src/hooks/useCatAnimation.js:121-194 | the pulse-clear and settle timers, the load callbacks and an engine change keep the hook invariant |
| UseCatAnimation.TriggerTouchesOnlyLog | src/hooks/useCatAnimation.js:105-167 | a trigger changes only the engine log and the pending pulse clears |
| UseCatAnimation.TriggerKeepsConsistent | src/hooks/useCatAnimation.js:105-167 | a trigger keeps the hook invariant |
| UseCatAnimation.ResetKeepsConsistent | src/hooks/useCatAnimation.js:169-195 | a reset keeps the hook invariant |
| UseCatAnimation.EffectKeepsConsistent | src/hooks/useCatAnimation.js:70-103 | the polling effect keeps the hook invariant |
| UseCatAnimation.TickKeepsConsistent | src/hooks/useCatAnimation.js:90-100 | an interval tick keeps the hook invariant: a running poll always has attempts left |
| UseCatAnimation.AttachKeepsConsistent | src/hooks/useCatAnimation.js:30-67 | attaching keeps the hook invariant: a ready flag implies its ref is set, and each ref holds an input of its own name |
| UseCatAnimation.TriggerFacts | src/hooks/useCatAnimation.js:105-167 | a trigger that is not allowed or fails changes nothing; a successful one makes exactly one engine call on the input of its animation's name, and queues a pulse clear exactly when that input cannot fire |
| UseCatAnimation.ResetFacts | src/hooks/useCatAnimation.js:169-194 | a reset sets the reset flag, clears the loaded and ready flags and the refs, increments the key with one settle timer pending, and leaves the same state when teardown throws |
| UseCatAnimation.OnlySettleEndsReset | src/hooks/useCatAnimation.js:192-194 | attaching, triggering and pulse clears leave a reset in progress |
| UseCatAnimation.PollingLeavesReset | src/hooks/useCatAnimation.js:70-103 | the polling effect and its ticks leave a reset in progress |
| UseCatAnimation.EventsLeaveReset | src/hooks/useCatAnimation.js:20-27 | the load callbacks and an engine change leave a reset in progress |
| UseCatAnimation.PollingEffectIdles | src/hooks/useCatAnimation.js:71-77 | while resetting or without an engine the effect only stops the old interval |
| UseCatAnimation.PollingEffectAttempts | src/hooks/useCatAnimation.js:79-88 | otherwise one attempt is made at once: success marks the engine loaded with no interval; failure starts an interval with no attempts counted |
| UseCatAnimation.PollGivesUp | src/hooks/useCatAnimation.js:90-100 | when the engine lists neither input at any of the next ticks, the interval runs for exactly the remaining of the 30 attempts, then stops with the engine not loaded |
| UseCatAnimation.TickSuccess | src/hooks/useCatAnimation.js:92-95 | a tick at which the engine lists `mouse` or `button press` stops the interval and marks the engine loaded and attached |
| UseCatAnimation.StaleTickReadiesDuringReset | src/hooks/useCatAnimation.js:57-95 | a tick that succeeds after a reset, before the next commit, sets `riveLoaded` and the ready flag again while the reset is in progress, because the interval's `attachInputs` keeps its render's `isResetting` |
| UseCatAnimation.CatAnimationHook.constructor | src/hooks/useCatAnimation.js:5-14 | the cells start in the initial state |
| UseCatAnimation.CatAnimationHook.CacheInputs | src/hooks/useCatAnimation.js:45-55 | the loop over the inputs caches the last input of each name and reports whether one was found |
| UseCatAnimation.CatAnimationHook.AttachInputs | src/hooks/useCatAnimation.js:30-67 | the new state is `Attached` of the old one, and the result is whether attaching succeeded |
| UseCatAnimation.CatAnimationHook.RunPollingEffect | src/hooks/useCatAnimation.js:70-103 | the new state is `PollingEffectRan` of the old one |
| UseCatAnimation.CatAnimationHook.PollTick | src/hooks/useCatAnimation.js:90-100 | the new state is `Ticked` of the old one, with what the engine lists at this tick |
| UseCatAnimation.CatAnimationHook.Trigger | src/hooks/useCatAnimation.js:105-167 | the result is whether the trigger succeeded, and the new state is `Triggered` of the old one |
| UseCatAnimation.CatAnimationHook.PulseClearFires | src/hooks/useCatAnimation.js:121-125 | the new state is `PulseCleared` of the old one: the oldest pending 100 ms timer sets the input its ref holds now, if any, back to false |
| UseCatAnimation.CatAnimationHook.ResetAnimation | src/hooks/useCatAnimation.js:169-195 | the new state is `ResetDone` of the old one |
| UseCatAnimation.CatAnimationHook.ClearFlags | src/hooks/useCatAnimation.js:172-175 | the reset flag is set and the loaded and ready flags are cleared; nothing else changes |
| UseCatAnimation.CatAnimationHook.DropInputs | src/hooks/useCatAnimation.js:176-179 | the inputs are detached and both refs cleared; nothing else changes |
| UseCatAnimation.CatAnimationHook.SettleFires | src/hooks/useCatAnimation.js:192-194 | the new state is `SettleFired` of the old one: one 500 ms timer fires and ends the reset, even while another reset is still settling |
| UseCatAnimation.CatAnimationHook.OnLoad | src/hooks/useCatAnimation.js:20-23 | the new state is `Loaded` of the old one: the instance ref takes the engine the callback's closure holds, and nothing else changes |
| UseCatAnimation.CatAnimationHook.OnLoadError | src/hooks/useCatAnimation.js:24-27 | the new state is `LoadFailed` of the old one: the engine is marked not loaded |
| UseCatAnimation.CatAnimationHook.RiveChanges | src/hooks/useCatAnimation.js:16-28 | the new state is `RiveChanged` of the old one: `useRive` hands out another engine, or none |
| CatAnimation.VisibilityFacts | src/components/CatAnimation.jsx:145-170 | the start button and the choice popup are never both shown; the choice popup excludes the tooltip and the result; the result needs a completed animation and a draw; the overlay shows exactly when the engine is not loaded or a reset is in progress, with the resetting text while resetting |
| CatAnimation.ResultPopupNeedsRound | src/components/CatAnimation.jsx:170 | under the round invariant the result shows exactly when the computer has drawn and the animation has completed |
| CatAnimation.TriggerPlan | src/components/CatAnimation.jsx:70-94 | the effect triggers exactly when there is a draw and no tooltip, the animation is not completed, no reset runs, the engine is loaded and the required input is ready; it triggers the animation of the draw |
| CatAnimation.PlanMatchesChoice | src/components/CatAnimation.jsx:80-94 | a dead cat triggers the mouse animation with its input ready; a live cat the button press animation |
| CatAnimation.EffectsKeepStageConsistent | src/components/CatAnimation.jsx:42-119 | the effects keep "a pending completion timer means the animation is not complete" |
| CatAnimation.TriggerEffectFacts | src/components/CatAnimation.jsx:70-119 | with no plan the effect only cancels the old timer; a timer is pending afterwards only when the planned trigger succeeded with exactly one engine call on the right input; the effect never marks completion |
| CatAnimation.RerunReplacesTimer | src/components/CatAnimation.jsx:102-107 | a re-run does not depend on whether a timer was pending, and a fresh timer is pending exactly when this run's trigger succeeds |
| CatAnimation.FailedTriggerSchedulesNothing | src/components/CatAnimation.jsx:96-99 | a failed trigger changes nothing but cancelling the old timer |
| CatAnimation.OnlyTimerCompletes | src/components/CatAnimation.jsx:42-135 | no effect and no click handler sets `animationCompleted` |
| CatAnimation.ResetEffectFacts | src/components/CatAnimation.jsx:42-59 | in the lobby the lobby effect resets the engine and clears the stage cells while the new-game effect does nothing; while playing the lobby effect does nothing, and so does the new-game effect once a choice exists |
| CatAnimation.Component.constructor | src/components/CatAnimation.jsx:27-28 | the cells start cleared |
| CatAnimation.Component.NewGameEffect | src/components/CatAnimation.jsx:42-49 | the new state is `NewGameEffectRan` of the old one |
| CatAnimation.Component.LobbyEffect | src/components/CatAnimation.jsx:52-59 | the new state is `LobbyEffectRan` of the old one |
| CatAnimation.Component.TrackEffect | src/components/CatAnimation.jsx:62-67 | the new state is `TrackEffectRan` of the old one |
| CatAnimation.Component.TriggerEffect | src/components/CatAnimation.jsx:70-119 | the new state is `TriggerEffectRan` of the old one |
| CatAnimation.Component.CompletionTimerFires | src/components/CatAnimation.jsx:102-105 | the timer marks the animation completed |
| CatAnimation.Component.HandlePlayAgain | src/components/CatAnimation.jsx:122-127 | the stage cells are cleared and the game restarts |
| CatAnimation.Component.HandleBackToLobby | src/components/CatAnimation.jsx:130-135 | the stage cells are cleared and the game returns to the lobby |
| App.InitialSessionIsConsistent | src/App.jsx:11-40 | the initial session satisfies all three invariants |
| App.ResetsKeepMidCommit | src/components/CatAnimation.jsx:42-59 | the two reset effects keep the invariants that hold in the middle of a commit |
| App.LaterEffectsKeepMidCommit | src/components/CatAnimation.jsx:62-119 | the track, trigger and polling effects keep those invariants |
| App.RenderKeepsConsistent | src/App.jsx:64-83 | a render with its effects keeps the session invariant |
| App.StepKeepsConsistent | src/App.jsx:64-115 | every enabled step keeps the session invariant |
| App.RunKeepsConsistent | src/App.jsx:64-115 | every run of enabled steps keeps the session invariant |
| App.RenderNeverCompletes | src/components/CatAnimation.jsx:42-119 | no render completes the animation |
| App.OnlyCompletionTimerCompletes | src/components/CatAnimation.jsx:102-105 | the only step that completes the animation is the completion timer |
| App.CompletionNeedsTimer | src/components/CatAnimation.jsx:102-105 | at the end of a run the animation is complete, so the result can show, only if it had already completed or the completion timer fired in the run |
| App.TimerStartsOnlyInPassingRender | src/components/CatAnimation.jsx:70-107 | a completion timer starts only in a render whose snapshot passes every gate of the trigger effect |
| App.DoubleChoiceIsPossible | src/components/CatAnimation.jsx:164 | a second click on the choice popup before the next render is possible and queues a second reveal |
| App.LobbyRenderResets | src/components/CatAnimation.jsx:52-59 | the first render in the lobby resets the engine, increments its key and clears completion |
| App.LateInputsLoadEngine | src/hooks/useCatAnimation.js:79-100 | an engine that lists no inputs at a render's immediate attempt but lists `mouse` at the next tick: the render leaves the interval running, and that tick loads the engine and stops the interval |
| App.Session.constructor | src/App.jsx:11-40 | the session starts with the initial cells of the three pieces |
| App.Session.RunResets | src/components/CatAnimation.jsx:42-59 | the reset effects whose dependencies changed run, as `ResetsRan` says |
| App.Session.RunLaterEffects | src/components/CatAnimation.jsx:62-119 | the later effects run, as `TrackRan`, `TriggerRan` and `PollRan` say |
| App.Session.RenderOnce | src/App.jsx:64-83 | the new state is `Rendered` of the old one |
| App.Session.Handle | src/App.jsx:64-115 | the new state is `Step` of the old one |
| CheckingTooltip.Dots | src/components/CheckingTooltip.jsx:9 | `n` dots |
| CheckingTooltip.AfterTicksIsDots | src/components/CheckingTooltip.jsx:5-9 | after `n` ticks the text is `n mod 4` dots |
| CheckingTooltip.ReachableValues | src/components/CheckingTooltip.jsx:5-9 | the text is always at most three dots |
| CheckingTooltip.PeriodFour | src/components/CheckingTooltip.jsx:5-9 | the text repeats every four ticks and changes on every tick |
| UiStrings.BeforeFirstAt | src/config/uiStrings.js:98-101 | the prefix before the first `@`, or the whole string when there is none |
| UiStrings.FalsyEmailIsAnonymous | src/config/uiStrings.js:12 | a missing or empty email gives the anonymous name |
| UiStrings.UsernameIsLocalPart | src/config/uiStrings.js:98-101 | the name has no `@` and is the email or the part before its first `@` |
| UiStrings.NoAtKeepsEmail | src/config/uiStrings.js:98-101 | an email without `@` is its own name |
| UiStrings.LeadingAtYieldsEmpty | src/config/uiStrings.js:98-101 | an email starting with `@` gives the empty name, not the anonymous one |
| GameDatabase.Take | src/lib/gameDatabase.js:216 | a prefix of the string of length at most `n` |
| GameDatabase.MockGameDefaults | src/lib/gameDatabase.js:65-74 | the mock record carries the user id and the given choices, and `user_won` reads false when it is missing |
| GameDatabase.CreateNewGame | src/lib/gameDatabase.js:21-62 | a document is written exactly when the uid is a non-empty string, data is given and the write succeeds; the stored id comes back only when the read back finds it; in every other case the mock record is returned; the choices are always those given |
| GameDatabase.InvalidUserWritesNothing | src/lib/gameDatabase.js:26-29 | an invalid uid writes nothing and returns the mock record |
| GameDatabase.Wins | src/lib/gameDatabase.js:125 | only won games, no more than all games |
| GameDatabase.Losses | src/lib/gameDatabase.js:126 | only lost games |
| GameDatabase.WinsLossesSplit | src/lib/gameDatabase.js:124-126 | the wins and the losses together are exactly the games, as multisets |
| GameDatabase.WinsAreTheWonGames | src/lib/gameDatabase.js:125-126 | a game is among the wins exactly when it is a won game, and among the losses exactly when it is a lost one |
| GameDatabase.WinsAndLossesPartition | src/lib/gameDatabase.js:124-126 | wins and losses together count every game |
| GameDatabase.RateOf | src/lib/gameDatabase.js:127 | the rate is the number 0 exactly when there are no games |
| GameDatabase.RateBounds | src/lib/gameDatabase.js:127 | the rate lies between 0.0 and 100.0, and is exactly those for no wins and for all wins |
| GameDatabase.GetUserStatistics | src/lib/gameDatabase.js:106-149 | the counts are exact and add up, the recent games are the newest five, and a failed query gives all zeros |
| GameDatabase.Streak | src/lib/gameDatabase.js:167-176 | the streak is no longer than the history |
| GameDatabase.StreakIsLongestWinningPrefix | src/lib/gameDatabase.js:167-176 | all games within the streak are won, and the game right after it, if any, is lost |
| GameDatabase.StreakAtMostWins | src/lib/gameDatabase.js:167-176 | the streak never exceeds the number of wins |
| GameDatabase.GetWinStreak | src/lib/gameDatabase.js:152-181 | the loop returns the longest run of wins at the head of the newest-first history, and 0 on a failed query |
| GameDatabase.FirstTruthyFallback | src/lib/gameDatabase.js:211-216 | when no candidate is a non-empty string, the generated name is used |
| GameDatabase.FirstTruthyAt | src/lib/gameDatabase.js:211-216 | the first non-empty candidate is used |
| GameDatabase.NewUsernameChain | src/lib/gameDatabase.js:211-216 | the username is the email, else the display name, else `quantum_user_` and the first eight characters of the user id |
| GameDatabase.EnsureUserProfile | src/lib/gameDatabase.js:185-234 | no user or a failed read gives null; an existing profile is returned unchanged; a missing one is created, returned exactly when the write succeeds, with the new username, the email or "" and sound on |
| Leaderboard.GamesOf | src/lib/gameDatabase.js:252-273 | a player has no more games than were read |
| Leaderboard.WinsOf | src/lib/gameDatabase.js:263-265 | a player has no more wins than games |
| Leaderboard.CreditFacts | src/lib/gameDatabase.js:255-272 | crediting one game keeps one entry per player, adds one game in total and changes only that player's counts |
| Leaderboard.TallyIsExact | src/lib/gameDatabase.js:252-273 | the counting gives one entry per player, the games add up, and each player's counts are exactly their games and wins |
| Leaderboard.TallyEntries | src/lib/gameDatabase.js:252-273 | every entry has at least one game, exact counts, no more wins than games and the default username |
| Leaderboard.CountExisting | src/lib/gameDatabase.js:262-265 | incrementing a known player's counts in the map agrees with the counting over the list |
| Leaderboard.CountNew | src/lib/gameDatabase.js:255-261 | adding a new player to the map appends it in insertion order and agrees with the counting over the list |
| Leaderboard.TallyGames | src/lib/gameDatabase.js:252-276 | the loop over the games, using a map in insertion order, computes the exact ranking input `Tally` |
| Leaderboard.WithRates | src/lib/gameDatabase.js:276-280 | each player gets its win rate, in order |
| Leaderboard.Insert | src/lib/gameDatabase.js:281 | insertion adds exactly the new entry |
| Leaderboard.SortByRank | src/lib/gameDatabase.js:281 | the sort is a permutation |
| Leaderboard.InsertKeepsRanked | src/lib/gameDatabase.js:281 | inserting into a ranked list keeps it ranked |
| Leaderboard.SortByRankIsRanked | src/lib/gameDatabase.js:281 | the sort ranks by rate, then by wins, both descending, and is a permutation |
| Leaderboard.InsertKeepsDistinct | src/lib/gameDatabase.js:281 | inserting a new player keeps one entry per player |
| Leaderboard.SortKeepsDistinct | src/lib/gameDatabase.js:281 | sorting keeps one entry per player |
| Leaderboard.SliceTo | src/lib/gameDatabase.js:282 | `slice(0, limit)`: a prefix, `limit` long at most, shortened from the end for a negative limit |
| Leaderboard.WithProfiles | src/lib/gameDatabase.js:285-294 | each entry takes the username of its profile, in order |
| Leaderboard.GamesOfPositive | src/lib/gameDatabase.js:252-273 | every player that appears in the games has at least one game |
| Leaderboard.SortedTable | src/lib/gameDatabase.js:276-281 | the sorted table is ranked with one entry per player |
| Leaderboard.SortedTableMembers | src/lib/gameDatabase.js:276-281 | the sorted table holds exactly the players' entries |
| Leaderboard.RankingIsSound | src/lib/gameDatabase.js:252-281 | the ranking is ordered, has one entry per player, has exact counts and covers every player |
| Leaderboard.RankingIsExact | src/lib/gameDatabase.js:252-281 | every ranked entry has the exact counts of its player |
| Leaderboard.RankingCoversPlayers | src/lib/gameDatabase.js:252-281 | every player of the games is ranked |
| Leaderboard.ProfilesKeepCounts | src/lib/gameDatabase.js:285-294 | applying profiles changes only usernames, so order and distinct entries are kept |
| Leaderboard.LeaderboardIsSound | src/lib/gameDatabase.js:252-294 | the leaderboard is ranked, no longer than the limit, one entry per player with exact counts, and every player when the limit allows |
| Leaderboard.CallLimit | src/lib/gameDatabase.js:237-248 | `limit(n)` gives a query constraint of `n` only when `limit` names Firestore's function; called on a number it throws |
| Leaderboard.GetLeaderboardWith | src/lib/gameDatabase.js:237-301 | the body, with `limit` bound as given, returns `LeaderboardResult` |
| Leaderboard.GetLeaderboard | src/lib/gameDatabase.js:237-301 | a failed query gives `[]`; otherwise the leaderboard of the newest 1000 games, ranked, one entry per player with exact counts, at most `limit` long |
| Leaderboard.GetLeaderboardAsWritten | src/lib/gameDatabase.js:237-301 | the body as written, where `limit` names the number parameter |
| Leaderboard.AsWrittenLeaderboardIsEmpty | src/lib/gameDatabase.js:237-301 | as written, the result is `[]` for every input, while the corrected body gives one entry for one played game |

## Left out

- The Firestore store and its network calls. The answers of `getDocs`, `addDoc`, `getDoc`
  and `setDoc` are parameters: rows, `StoreOutcome`, `ProfileLookup` and a write flag.
  Query ordering is taken as given: the rows arrive newest first.
- `GameDatabase.CreateNewGame`: a `None` `gameData` stands for `undefined`. A `null` `gameData` is
  not modelled: the default `{}` of `getMockGame` does not apply to it, so the `catch` itself
  throws and the call rejects.
- `serverTimestamp()` is a constant `ServerTime`, and `Date.now()` is a parameter `now`.
- `Math.random` in `makeChoice` is the `draw` parameter of the reveal callback.
- The Rive runtime and `RiveComponent`. The engine is an abstract id, and what it lists at
  each attempt is a parameter of that attempt. `useRive` hands the hook a new engine object
  through `RiveChanges`.
- Time. Timers and intervals are pending entries that fire as separate steps. Delays are
  not modelled. Timers of equal delay fire in the order they were set.
- `GameDatabase.RateOf`: `toFixed(1)` is modelled as the exact percentage rounded half up to
  tenths. Floating-point rounding of the ratio is not modelled, and the value is a number of
  tenths, not a string.
- The signed-out branch of `App.jsx` and authentication changes. The user is a constant of
  the session, and `useAuth`'s loading screen is left out.
- `Leaderboard.SortByRankIsRanked`: stability of `Array.prototype.sort` is not claimed. Ties
  of rate and wins may come out in any order.
- Object identity of engine inputs. A ref holds an input value, and two inputs with the same
  name and value are indistinguishable.
- Falsy values other than the empty string. A uid, email or display name is `None`, `""` or a
  non-empty string.
- `App.Session.Handle`: the value `toggleSound` returns is discarded by the sound button's
  `onClick`, as in the source.
- `UseCatAnimation.CatAnimationHook.OnLoad`: the `rive` value seen by the callback's closure
  is a parameter.
- Console logging, `formatTimeAgo`, `getUserGameHistory`, the pending-request bookkeeping of
  `gameDatabase.js`, other user interface strings, the `UserStatistics`, `ChoicePopup` and
  `SimpleResult` components beyond their visibility, and the `AnimationAttribution` credits.
  None of them affects the round, the engine or the aggregations.
- `GameConfig.Animation.InputName`: the input names are constants, not a lookup into the Rive
  file.

## Findings

| source | as written | input that shows it | evidently intended | confidence | as-written member | corrected member |
|---|---|---|---|---|---|---|
| src/lib/gameDatabase.js:237-248 | the parameter `limit = 10` shadows Firestore's imported `limit`, so `limit(1000)` calls a number and throws. The `catch` at 298-301 then returns `[]` | games `[GameRow("u1", alive, alive, won)]` with the default limit 10: the result is `[]` instead of one entry for `u1` | cap the query with Firestore's `limit(1000)` and slice the ranking to the caller's `limit` | not executed | Leaderboard.GetLeaderboardAsWritten, Leaderboard.AsWrittenLeaderboardIsEmpty | Leaderboard.GetLeaderboard |
