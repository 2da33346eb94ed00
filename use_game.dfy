/**
 * The round controller `useGame` of src/hooks/useGame.js: seven state cells, the callbacks
 * that update them, and the 3000 ms callbacks that `makeChoice` leaves pending.
 */
module UseGame {
  import opened Wrappers
  import opened GameConfig
  import opened GameDatabase

  datatype GameState = Lobby | Playing

  /** The signed-in user handed to the hook; an empty `uid` stands for a falsy one. */
  datatype User = User(uid: string)

  /** `user && user.uid`: the round is saved under this id, if any. */
  function SaveAs(user: Option<User>): (id: Option<string>)
    ensures id.Some? <==> user.Some? && user.value.uid != ""
    ensures id.Some? ==> id.value == user.value.uid
  {
    if user.Some? && user.value.uid != "" then Some(user.value.uid) else None
  }

  /** `choice === computerChoice ? WIN : LOSE`. */
  function Judge(choice: Choice, computer: Choice): (o: Outcome)
    ensures o == Win <==> choice == computer
  {
    if choice == computer then Win else Lose
  }

  /** The data handed to `createNewGame` for a round. */
  function RoundData(choice: Choice, computer: Choice): GameData {
    GameData(Some(choice), Some(computer), Some(Judge(choice, computer) == Win))
  }

  /** `getCurrentAnimation`: the animation that shows the computer's choice. */
  function CurrentAnimation(computer: Option<Choice>): (a: Animation)
    ensures a == ButtonPress <==> computer == Some(Alive)
    ensures a == Mouse <==> computer != Some(Alive)
  {
    match computer
    case Some(Dead) => Mouse
    case Some(Alive) => ButtonPress
    case None => Mouse
  }

  /** A pending 3000 ms callback of `makeChoice`: the choice it closed over and the uid it saves under. */
  datatype Reveal = Reveal(choice: Choice, saveAs: Option<string>)

  /** A `createNewGame` call awaiting its result. */
  datatype Save = Save(uid: string, data: GameData)

  /** The seven cells of the hook and the callbacks still pending. */
  datatype GameCells = GameCells(
    gameState: GameState,
    currentGame: Option<SavedGame>,
    userChoice: Option<Choice>,
    computerChoice: Option<Choice>,
    gameResult: Option<Outcome>,
    showChecking: bool,
    soundEnabled: bool,
    pending: seq<Reveal>,
    saves: seq<Save>)

  /** The cells as the hook declares them. */
  const InitialCells := GameCells(Lobby, None, None, None, None, false, SoundEnabledByDefault, [], [])

  /** `startNewGame`, and `playAgain`, which only calls it. */
  function Started(s: GameCells): GameCells {
    s.(gameState := Playing, userChoice := None, computerChoice := None, gameResult := None,
       showChecking := false, currentGame := None)
  }

  /** `resetGame`. */
  function Reset(s: GameCells): GameCells {
    s.(gameState := Lobby, currentGame := None, userChoice := None, computerChoice := None,
       gameResult := None, showChecking := false)
  }

  /** The immediate part of `makeChoice(choice)`, in either branch, with its callback left pending. */
  function Chosen(s: GameCells, choice: Choice, user: Option<User>): GameCells {
    s.(userChoice := Some(choice), showChecking := true, pending := s.pending + [Reveal(choice, SaveAs(user))])
  }

  /** The oldest pending callback runs with the computer's `draw`: it reveals, judges and maybe saves. */
  function Revealed(s: GameCells, draw: Choice): GameCells
    requires s.pending != []
  {
    var r := s.pending[0];
    s.(pending := s.pending[1..], computerChoice := Some(draw), showChecking := false,
       gameResult := Some(Judge(r.choice, draw)),
       saves := if r.saveAs.Some? then s.saves + [Save(r.saveAs.value, RoundData(r.choice, draw))] else s.saves)
  }

  /** The `i`th save completes: `setCurrentGame` with what `createNewGame` returned. */
  function Settled(s: GameCells, i: nat, now: nat, store: StoreOutcome): GameCells
    requires i < |s.saves|
  {
    var sv := s.saves[i];
    s.(saves := s.saves[..i] + s.saves[i + 1..],
       currentGame := Some(CreateNewGame(IdString(sv.uid), Some(sv.data), now, store).game))
  }

  /** `setSoundEnabled(prev => !prev)`. */
  function Toggled(s: GameCells): GameCells {
    s.(soundEnabled := !s.soundEnabled)
  }

  /** A record for a round: both choices present and `user_won` telling whether they agree. */
  predicate RoundRecord(d: GameData) {
    && d.userChoice.Some? && d.computerChoice.Some?
    && d.userWon == Some(d.userChoice == d.computerChoice)
  }

  /** A saved game of a signed-in user whose `user_won` agrees with its choices. */
  predicate RoundGame(g: SavedGame) {
    && g.userId.IdString? && g.userId.s != ""
    && g.userChoice.Some? && g.computerChoice.Some?
    && Truthy(g.userWon) == (g.userChoice == g.computerChoice)
  }

  /**
   * What holds in every state the hook reaches: a result exactly when the computer has chosen,
   * the checking tooltip only while a callback is pending for a made choice, and only
   * well-formed records saved under a real uid.
   */
  predicate Consistent(s: GameCells) {
    && (s.computerChoice.Some? <==> s.gameResult.Some?)
    && (s.showChecking ==> s.pending != [] && s.userChoice.Some?)
    && (forall k :: 0 <= k < |s.pending| ==> s.pending[k].saveAs != Some(""))
    && (forall k :: 0 <= k < |s.saves| ==> s.saves[k].uid != "" && RoundRecord(s.saves[k].data))
    && (s.currentGame.Some? ==> RoundGame(s.currentGame.value))
  }

  lemma InitialIsConsistent()
    ensures Consistent(InitialCells)
  {
  }

  /** Ending or starting a round and toggling the sound keep `Consistent`. */
  lemma ResetsKeepConsistent(s: GameCells)
    requires Consistent(s)
    ensures Consistent(Started(s)) && Consistent(Reset(s)) && Consistent(Toggled(s))
  {
  }

  /** A choice keeps `Consistent`. */
  lemma {:induction false} ChoiceKeepsConsistent(s: GameCells, choice: Choice, user: Option<User>)
    requires Consistent(s)
    ensures Consistent(Chosen(s, choice, user))
  {
    var c := Chosen(s, choice, user);
    forall k | 0 <= k < |c.pending| ensures c.pending[k].saveAs != Some("") {
      if k < |s.pending| {
        assert c.pending[k] == s.pending[k];
      }
    }
  }

  /** A reveal keeps `Consistent`: the saved record is the round's. */
  lemma {:induction false} RevealKeepsConsistent(s: GameCells, draw: Choice)
    requires Consistent(s) && s.pending != []
    ensures Consistent(Revealed(s, draw))
  {
    var r := Revealed(s, draw);
    forall k | 0 <= k < |r.pending| ensures r.pending[k].saveAs != Some("") {
      assert r.pending[k] == s.pending[k + 1];
    }
    assert s.pending[0].saveAs != Some("");
    forall k | 0 <= k < |r.saves| ensures r.saves[k].uid != "" && RoundRecord(r.saves[k].data) {
      if k < |s.saves| {
        assert r.saves[k] == s.saves[k];
      }
    }
  }

  /** A completed save keeps `Consistent`: the record returned is the round's, under its uid. */
  lemma {:induction false} SettleKeepsConsistent(s: GameCells, i: nat, now: nat, store: StoreOutcome)
    requires Consistent(s) && i < |s.saves|
    ensures Consistent(Settled(s, i, now, store))
  {
    var sv := s.saves[i];
    var st := Settled(s, i, now, store);
    assert sv.uid != "" && RoundRecord(sv.data);
    forall k | 0 <= k < |st.saves| ensures st.saves[k].uid != "" && RoundRecord(st.saves[k].data) {
      if k < i {
        assert st.saves[k] == s.saves[k];
      } else {
        assert st.saves[k] == s.saves[k + 1];
      }
    }
  }

  /** `startNewGame` and `resetGame` end the round alike, whatever the state, and leave the sound setting alone. */
  lemma StartAndResetClearRound(s: GameCells)
    ensures var t := Started(s);
      && t.gameState == Playing && t.userChoice.None? && t.computerChoice.None?
      && t.gameResult.None? && t.currentGame.None? && !t.showChecking
      && t.soundEnabled == s.soundEnabled
    ensures var t := Reset(s);
      && t.gameState == Lobby && t.userChoice.None? && t.computerChoice.None?
      && t.gameResult.None? && t.currentGame.None? && !t.showChecking
      && t.soundEnabled == s.soundEnabled
    ensures Started(s) == Reset(s).(gameState := Playing)
  {
  }

  /**
   * Neither `resetGame` nor `startNewGame` cancels a pending callback: once it runs, the new
   * round shows the old round's draw and result.
   */
  lemma StaleRevealSurvivesReset(s: GameCells, draw: Choice)
    requires s.pending != []
    ensures var r := Revealed(Reset(s), draw);
      r.gameState == Lobby && r.computerChoice == Some(draw) && r.gameResult == Some(Judge(s.pending[0].choice, draw))
      && r.userChoice.None?
    ensures var r := Revealed(Started(s), draw);
      r.gameState == Playing && r.computerChoice == Some(draw) && r.gameResult == Some(Judge(s.pending[0].choice, draw))
      && r.userChoice.None?
  {
  }

  /**
   * `makeChoice` does not look at `userChoice`: a second choice before the reveal leaves two
   * callbacks, and the first one judges the first choice while the second choice is shown.
   */
  lemma SecondChoiceIsJudgedByFirst(s: GameCells, first: Choice, second: Choice, user: Option<User>, draw: Choice)
    requires s.pending == [] && first != second
    ensures var r := Revealed(Chosen(Chosen(s, first, user), second, user), draw);
      && r.userChoice == Some(second) && r.computerChoice == Some(draw)
      && r.gameResult == Some(Judge(first, draw))
      && (r.gameResult == Some(Win)) != (r.userChoice == r.computerChoice)
      && r.pending == [Reveal(second, SaveAs(user))]
  {
  }

  /** A round is saved exactly when the choice was made with a uid, and the record holds the round. */
  lemma RevealSavesOnlyWithUid(s: GameCells, draw: Choice)
    requires s.pending != []
    ensures var r := Revealed(s, draw); var v := s.pending[0];
      && (v.saveAs.None? ==> r.saves == s.saves)
      && (v.saveAs.Some? ==> r.saves == s.saves + [Save(v.saveAs.value, RoundData(v.choice, draw))])
      && RoundRecord(RoundData(v.choice, draw))
      && RoundData(v.choice, draw).userChoice == Some(v.choice)
      && RoundData(v.choice, draw).computerChoice == Some(draw)
  {
  }

  lemma ToggleTwiceRestores(s: GameCells)
    ensures Toggled(Toggled(s)) == s
    ensures Toggled(s).soundEnabled != s.soundEnabled
  {
  }

  /** The state of one `useGame` instance. */
  class Game {
    var gameState: GameState
    var currentGame: Option<SavedGame>
    var userChoice: Option<Choice>
    var computerChoice: Option<Choice>
    var gameResult: Option<Outcome>
    var showChecking: bool
    var soundEnabled: bool
    /** `setTimeout` callbacks of `makeChoice`, oldest first; all share one delay, so they run in this order. */
    var pending: seq<Reveal>
    /** `createNewGame` calls still awaited. */
    var saves: seq<Save>

    function State(): GameCells
      reads this
    {
      GameCells(gameState, currentGame, userChoice, computerChoice, gameResult, showChecking, soundEnabled, pending, saves)
    }

    constructor()
      ensures State() == InitialCells
    {
      gameState := Lobby;
      currentGame := None;
      userChoice := None;
      computerChoice := None;
      gameResult := None;
      showChecking := false;
      soundEnabled := SoundEnabledByDefault;
      pending := [];
      saves := [];
    }

    method StartNewGame()
      modifies this
      ensures gameState == Playing && userChoice.None? && computerChoice.None? && gameResult.None?
      ensures !showChecking && currentGame.None?
      ensures soundEnabled == old(soundEnabled) && pending == old(pending) && saves == old(saves)
      ensures State() == Started(old(State()))
    {
      gameState := Playing;
      userChoice := None;
      computerChoice := None;
      gameResult := None;
      showChecking := false;
      currentGame := None;
    }

    method PlayAgain()
      modifies this
      ensures State() == Started(old(State()))
    {
      StartNewGame();
    }

    /** `makeChoice(choice)` with the `user` its callback closed over. */
    method MakeChoice(choice: Choice, user: Option<User>)
      modifies this
      ensures userChoice == Some(choice) && showChecking
      ensures pending == old(pending) + [Reveal(choice, SaveAs(user))]
      ensures State() == Chosen(old(State()), choice, user)
    {
      if user.None? || user.value.uid == "" {
        userChoice := Some(choice);
        showChecking := true;
        pending := pending + [Reveal(choice, None)];
        return;
      }
      userChoice := Some(choice);
      showChecking := true;
      pending := pending + [Reveal(choice, Some(user.value.uid))];
    }

    /** The oldest pending `makeChoice` callback runs; `draw` is what `Math.random` picked. */
    method RevealFires(draw: Choice)
      requires pending != []
      modifies this
      ensures computerChoice == Some(draw) && !showChecking
      ensures gameResult == Some(Judge(old(pending[0].choice), draw))
      ensures pending == old(pending[1..])
      ensures State() == Revealed(old(State()), draw)
    {
      var r := pending[0];
      pending := pending[1..];
      computerChoice := Some(draw);
      showChecking := false;
      var result := Judge(r.choice, draw);
      gameResult := Some(result);
      if r.saveAs.Some? {
        saves := saves + [Save(r.saveAs.value, GameData(Some(r.choice), Some(draw), Some(result == Win)))];
      }
    }

    /** The `i`th awaited `createNewGame` returns; `now` and `store` stand for the clock and Firestore. */
    method SaveSettles(i: nat, now: nat, store: StoreOutcome)
      requires i < |saves|
      modifies this
      ensures State() == Settled(old(State()), i, now, store)
    {
      var sv := saves[i];
      saves := saves[..i] + saves[i + 1..];
      var created := CreateNewGame(IdString(sv.uid), Some(sv.data), now, store);
      currentGame := Some(created.game);
    }

    method ResetGame()
      modifies this
      ensures gameState == Lobby && userChoice.None? && computerChoice.None? && gameResult.None?
      ensures !showChecking && currentGame.None?
      ensures soundEnabled == old(soundEnabled) && pending == old(pending) && saves == old(saves)
      ensures State() == Reset(old(State()))
    {
      gameState := Lobby;
      currentGame := None;
      userChoice := None;
      computerChoice := None;
      gameResult := None;
      showChecking := false;
    }

    /**
     * `toggleSound` as rendered with `seen` for `soundEnabled`: the cell is negated, and the
     * value returned is the negation of what the callback saw.
     */
    method ToggleSound(seen: bool) returns (shown: bool)
      modifies this
      ensures soundEnabled == !old(soundEnabled) && shown == !seen
      ensures seen == old(soundEnabled) ==> shown == soundEnabled
      ensures State() == Toggled(old(State()))
    {
      soundEnabled := !soundEnabled;
      shown := !seen;
    }

    function GetCurrentAnimation(): Animation
      reads this
    {
      CurrentAnimation(computerChoice)
    }
  }
}
