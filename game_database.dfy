/**
 * The record-level logic of src/lib/gameDatabase.js: the mock record, the validation and
 * fallback paths of `createNewGame`, the counting in `getUserStatistics`, `getWinStreak`
 * and the username chain of `ensureUserProfile`. Every document-store call is replaced by
 * a supplied outcome, and every query by the rows it returns, newest first.
 */
module GameDatabase {
  import opened Wrappers
  import opened GameConfig

  /** How many of the newest games `getUserStatistics` reports as recent. */
  const RecentGamesShown: nat := 5

  function Min(a: nat, b: nat): nat { if a <= b then a else b }

  /** `s.slice(0, n)` for a non-negative `n`. */
  function Take(s: string, n: nat): (r: string)
    ensures |r| == Min(|s|, n) && r == s[..|r|]
  {
    if |s| <= n then s else s[..n]
  }

  // ---------------------------------------------------------------------------------------
  // Game records
  // ---------------------------------------------------------------------------------------

  /** The JavaScript value passed as `userId`: a string, or a value of some other type. */
  datatype IdArg = IdString(s: string) | NotAString

  /** The guard `userId && typeof userId === 'string'`. */
  predicate ValidUserId(id: IdArg) {
    id.IdString? && id.s != ""
  }

  /** The `gameData` argument; a `None` field is a property that is absent, null or undefined. */
  datatype GameData = GameData(userChoice: Option<Choice>, computerChoice: Option<Choice>, userWon: Option<bool>)

  /** A record id: `'mock-game-' + Date.now()`, or the id the document store assigned. */
  datatype RecordId = MockId(now: nat) | DocId(docId: string)

  /** `created_at`: the store's server timestamp, or the client clock of a mock record. */
  datatype Timestamp = ServerTime | ClientTime(now: nat)

  /** A game record as `createNewGame` returns it. */
  datatype SavedGame = SavedGame(
    id: RecordId,
    userId: IdArg,
    userChoice: Option<Choice>,
    computerChoice: Option<Choice>,
    userWon: Option<bool>,
    createdAt: Timestamp)

  /** What the document store does with one write: `addDoc` rejects, or it stores the
      document and the `getDoc` that follows finds it (`readBack`) or not. */
  datatype StoreOutcome = AddFails | Added(docId: string, readBack: bool)

  /** The record returned, and whether a document was written to the store. */
  datatype Created = Created(game: SavedGame, written: bool)

  function Truthy(b: Option<bool>): bool {
    b == Some(true)
  }

  /** `getMockGame(userId, gameData = {})`; `now` stands for `Date.now()`. */
  function MockGame(userId: IdArg, gameData: Option<GameData>, now: nat): SavedGame {
    var d := gameData.GetOr(GameData(None, None, None));
    SavedGame(MockId(now), userId, d.userChoice, d.computerChoice, Some(Truthy(d.userWon)), ClientTime(now))
  }

  /** The mock keeps the user id, leaves absent choices null and defaults `user_won` to false. */
  lemma MockGameDefaults(userId: IdArg, gameData: Option<GameData>, now: nat)
    ensures var m := MockGame(userId, gameData, now);
      && m.id == MockId(now)
      && m.userId == userId
      && (gameData.None? ==> m.userChoice.None? && m.computerChoice.None? && m.userWon == Some(false))
      && (gameData.Some? ==>
            && m.userChoice == gameData.value.userChoice
            && m.computerChoice == gameData.value.computerChoice
            && m.userWon == Some(Truthy(gameData.value.userWon)))
  {
  }

  /**
   * `createNewGame(userId, gameData)`. An invalid id returns the mock before any write. A
   * `None` `gameData` stands for `undefined`: reading its properties throws before `addDoc`,
   * and the mock then takes the default `{}`. A rejected write or a document that cannot be
   * read back throws too, and every throw ends in the mock. A `null` `gameData`, for which
   * the default does not apply, is not modelled.
   */
  function CreateNewGame(userId: IdArg, gameData: Option<GameData>, now: nat, store: StoreOutcome): (r: Created)
    ensures r.written <==> ValidUserId(userId) && gameData.Some? && store.Added?
    ensures r.game.id.DocId? <==> ValidUserId(userId) && gameData.Some? && store.Added? && store.readBack
    ensures r.game.id.MockId? ==> r.game == MockGame(userId, gameData, now)
    ensures r.game.userId == userId
    ensures gameData.Some? ==>
      && r.game.userChoice == gameData.value.userChoice
      && r.game.computerChoice == gameData.value.computerChoice
      && Truthy(r.game.userWon) == Truthy(gameData.value.userWon)
  {
    if !ValidUserId(userId) || gameData.None? then
      Created(MockGame(userId, gameData, now), false)
    else
      var d := gameData.value;
      match store
      case AddFails =>
        Created(MockGame(userId, gameData, now), false)
      case Added(docId, readBack) =>
        if readBack then
          Created(SavedGame(DocId(docId), userId, d.userChoice, d.computerChoice, d.userWon, ServerTime), true)
        else
          Created(MockGame(userId, gameData, now), true)
  }

  /** An invalid user id yields the mock and writes nothing, whatever the store would do. */
  lemma InvalidUserWritesNothing(userId: IdArg, gameData: Option<GameData>, now: nat, store: StoreOutcome)
    requires !ValidUserId(userId)
    ensures CreateNewGame(userId, gameData, now, store) == Created(MockGame(userId, gameData, now), false)
  {
  }

  // ---------------------------------------------------------------------------------------
  // Statistics and streak over query results
  // ---------------------------------------------------------------------------------------

  /** One stored game as the aggregations read it; `userWon` is the truthiness of `user_won`. */
  datatype GameRow = GameRow(userId: string, userChoice: Option<Choice>, computerChoice: Option<Choice>, userWon: bool)

  /** A query result: its rows, newest first, or a failed query (`getDocs` threw). */
  datatype Query = Rows(rows: seq<GameRow>) | QueryFails

  /** `games.filter(game => game.user_won)`. */
  function Wins(rows: seq<GameRow>): (w: seq<GameRow>)
    ensures |w| <= |rows|
    ensures forall i :: 0 <= i < |w| ==> w[i].userWon
  {
    if rows == [] then []
    else (if rows[0].userWon then [rows[0]] else []) + Wins(rows[1..])
  }

  /** The games without a truthy `user_won`. */
  function Losses(rows: seq<GameRow>): (l: seq<GameRow>)
    ensures forall i :: 0 <= i < |l| ==> !l[i].userWon
  {
    if rows == [] then []
    else (if rows[0].userWon then [] else [rows[0]]) + Losses(rows[1..])
  }

  /**
   * The wins and the losses together are exactly the games, so with the ensures of `Wins`
   * and `Losses` every won game is among the wins and every lost game among the losses.
   */
  lemma {:induction false} WinsLossesSplit(rows: seq<GameRow>)
    ensures multiset(Wins(rows)) + multiset(Losses(rows)) == multiset(rows)
  {
    if rows != [] {
      var t := rows[1..];
      var w, l := multiset(Wins(t)), multiset(Losses(t));
      assert w + l == multiset(t) by {
        WinsLossesSplit(t);
      }
      assert multiset(rows) == multiset{rows[0]} + multiset(t) by {
        assert rows == [rows[0]] + t;
        ConsMultiset(rows[0], t);
      }
      if rows[0].userWon {
        assert multiset(Wins(rows)) == multiset{rows[0]} + w && multiset(Losses(rows)) == l by {
          HeadSplit(rows);
          ConsMultiset(rows[0], Wins(t));
        }
      } else {
        assert multiset(Wins(rows)) == w && multiset(Losses(rows)) == multiset{rows[0]} + l by {
          HeadSplit(rows);
          ConsMultiset(rows[0], Losses(t));
        }
      }
    }
  }

  /** The first game goes to the wins or to the losses, and the rest split on their own. */
  lemma HeadSplit(rows: seq<GameRow>)
    requires rows != []
    ensures rows[0].userWon ==> Wins(rows) == [rows[0]] + Wins(rows[1..]) && Losses(rows) == Losses(rows[1..])
    ensures !rows[0].userWon ==> Wins(rows) == Wins(rows[1..]) && Losses(rows) == [rows[0]] + Losses(rows[1..])
  {
  }

  /** The multiset of a sequence with one more game in front. */
  lemma ConsMultiset(h: GameRow, t: seq<GameRow>)
    ensures multiset([h] + t) == multiset{h} + multiset(t)
  {
  }

  /** A game is among the wins exactly when it is won. */
  lemma WinsAreTheWonGames(rows: seq<GameRow>, g: GameRow)
    ensures g in Wins(rows) <==> g in rows && g.userWon
    ensures g in Losses(rows) <==> g in rows && !g.userWon
  {
    WinsLossesSplit(rows);
    assert g in multiset(Wins(rows)) <==> g in Wins(rows);
    assert g in multiset(Losses(rows)) <==> g in Losses(rows);
    assert g in multiset(rows) <==> g in rows;
  }

  /** Every game is either a win or a loss. */
  lemma {:induction false} WinsAndLossesPartition(rows: seq<GameRow>)
    ensures |Wins(rows)| + |Losses(rows)| == |rows|
  {
    if rows != [] {
      WinsAndLossesPartition(rows[1..]);
    }
  }

  /** A win rate: the number 0 of an empty history, or the `toFixed(1)` percentage counted in tenths. */
  datatype WinRate = NoRate | Tenths(tenths: nat)

  /** `totalGames > 0 ? (totalWins / totalGames * 100).toFixed(1) : 0`, rounding half up on the exact ratio. */
  function RateOf(wins: nat, games: nat): (r: WinRate)
    ensures r.NoRate? <==> games == 0
  {
    if games > 0 then Tenths((2000 * wins + games) / (2 * games)) else NoRate
  }

  /** Multiplying by `d` keeps the order of `a` and `b`, and distributes over `a + 1`. */
  lemma MulMono(d: nat, a: nat, b: nat)
    ensures a <= b ==> d * a <= d * b
    ensures d * (a + 1) == d * a + d
  {
    if a <= b {
      assert d * b == d * a + d * (b - a);
    }
  }

  /** The quotient of `n` by `d` is `q` when `n` lies in `[d * q, d * q + d)`. */
  lemma DivIs(n: nat, d: nat, q: nat)
    requires d > 0 && d * q <= n < d * q + d
    ensures n / d == q
  {
    var k := n / d;
    assert n == d * k + n % d && 0 <= n % d < d;
    MulMono(d, q + 1, k);
    MulMono(d, k + 1, q);
  }

  /** A rate lies between 0.0 and 100.0, and is exactly those for no wins and for all wins. */
  lemma RateBounds(wins: nat, games: nat)
    requires wins <= games && games > 0
    ensures 0 <= RateOf(wins, games).tenths <= 1000
    ensures wins == 0 ==> RateOf(wins, games).tenths == 0
    ensures wins == games ==> RateOf(wins, games).tenths == 1000
  {
    var num, d := 2000 * wins + games, 2 * games;
    var q := num / d;
    assert num == d * q + num % d && 0 <= num % d;
    MulMono(d, 1001, q);
    MulMono(2000, wins, games);
    if wins == 0 {
      DivIs(num, d, 0);
    }
    if wins == games {
      DivIs(num, d, 1000);
    }
  }

  /** The numeric value JavaScript reads from a rate when it subtracts two of them. */
  function RateValue(r: WinRate): nat {
    match r
    case NoRate => 0
    case Tenths(t) => t
  }

  datatype Statistics = Statistics(
    totalGames: nat,
    totalWins: nat,
    totalLosses: nat,
    winRate: WinRate,
    recentGames: seq<GameRow>)

  /** `getUserStatistics(userId)` over the user's games, newest first. */
  function GetUserStatistics(q: Query): (s: Statistics)
    ensures q.QueryFails? ==> s == Statistics(0, 0, 0, NoRate, [])
    ensures q.Rows? ==>
      && s.totalGames == |q.rows|
      && s.totalWins == |Wins(q.rows)|
      && s.totalLosses == |Losses(q.rows)|
      && s.totalWins + s.totalLosses == s.totalGames
      && (s.winRate.NoRate? <==> q.rows == [])
      && |s.recentGames| == Min(|q.rows|, RecentGamesShown)
      && s.recentGames == q.rows[..|s.recentGames|]
  {
    match q
    case QueryFails => Statistics(0, 0, 0, NoRate, [])
    case Rows(rows) =>
      WinsAndLossesPartition(rows);
      var wins := |Wins(rows)|;
      Statistics(|rows|, wins, |rows| - wins, RateOf(wins, |rows|), rows[..Min(|rows|, RecentGamesShown)])
  }

  /** The number of consecutive wins at the head of a newest-first history. */
  function Streak(rows: seq<GameRow>): (n: nat)
    ensures n <= |rows|
  {
    if rows == [] || !rows[0].userWon then 0 else 1 + Streak(rows[1..])
  }

  /** The streak is the longest all-win prefix: its games are won and the next one, if any, is not. */
  lemma {:induction false} StreakIsLongestWinningPrefix(rows: seq<GameRow>)
    ensures forall i :: 0 <= i < Streak(rows) ==> rows[i].userWon
    ensures Streak(rows) == |rows| || !rows[Streak(rows)].userWon
  {
    if rows != [] && rows[0].userWon {
      StreakIsLongestWinningPrefix(rows[1..]);
      forall i | 0 <= i < Streak(rows) ensures rows[i].userWon {
        if i > 0 {
          assert rows[i] == rows[1..][i - 1];
        }
      }
    }
  }

  /** The streak never exceeds the total number of wins. */
  lemma {:induction false} StreakAtMostWins(rows: seq<GameRow>)
    ensures Streak(rows) <= |Wins(rows)|
  {
    if rows != [] {
      StreakAtMostWins(rows[1..]);
    }
  }

  /** `getWinStreak(userId)`: the `for ... of` loop that counts wins until the first loss. */
  method GetWinStreak(q: Query) returns (streak: nat)
    ensures q.QueryFails? ==> streak == 0
    ensures q.Rows? ==> streak == Streak(q.rows)
    ensures q.Rows? ==>
      && streak <= |q.rows|
      && (forall i :: 0 <= i < streak ==> q.rows[i].userWon)
      && (streak == |q.rows| || !q.rows[streak].userWon)
  {
    streak := 0;
    if q.QueryFails? {
      return;
    }
    var rows := q.rows;
    var i := 0;
    while i < |rows|
      invariant 0 <= i <= |rows| && streak == i
      invariant forall j :: 0 <= j < i ==> rows[j].userWon
      invariant Streak(rows) == streak + Streak(rows[i..])
    {
      if rows[i].userWon {
        assert rows[i..][1..] == rows[i + 1..];
        streak := streak + 1;
      } else {
        break;
      }
      i := i + 1;
    }
  }

  // ---------------------------------------------------------------------------------------
  // User profiles
  // ---------------------------------------------------------------------------------------

  datatype UserMetadata = UserMetadata(name: Option<string>, fullName: Option<string>, userName: Option<string>)

  /** The user object `ensureUserProfile` reads; `None` is an absent or null property. */
  datatype AuthUser = AuthUser(
    id: string,
    email: Option<string>,
    displayName: Option<string>,
    metadata: Option<UserMetadata>)

  datatype Profile = Profile(id: string, username: string, email: string, soundEnabled: bool, createdAt: Timestamp)

  /** What `getDoc` on the user's profile document does: it throws, finds a profile, or finds none. */
  datatype ProfileLookup = LookupFails | Found(profile: Profile) | NotFound

  predicate TruthyString(s: Option<string>) {
    s.Some? && s.value != ""
  }

  /** The operands of the `||` chain, in order; `user_metadata?.x` is undefined without metadata. */
  function NameCandidates(user: AuthUser): seq<Option<string>> {
    var m := user.metadata.GetOr(UserMetadata(None, None, None));
    [user.email, user.displayName, m.name, m.fullName, m.userName]
  }

  /** `c0 || c1 || ... || fallback`. */
  function FirstTruthy(candidates: seq<Option<string>>, fallback: string): string {
    if candidates == [] then fallback
    else if TruthyString(candidates[0]) then candidates[0].value
    else FirstTruthy(candidates[1..], fallback)
  }

  /** With no truthy candidate the chain yields the fallback. */
  lemma {:induction false} FirstTruthyFallback(candidates: seq<Option<string>>, fallback: string)
    requires forall i :: 0 <= i < |candidates| ==> !TruthyString(candidates[i])
    ensures FirstTruthy(candidates, fallback) == fallback
  {
    if candidates != [] {
      assert !TruthyString(candidates[0]);
      forall i | 0 <= i < |candidates| - 1 ensures !TruthyString(candidates[1..][i]) {
        assert candidates[1..][i] == candidates[i + 1];
      }
      FirstTruthyFallback(candidates[1..], fallback);
    }
  }

  /** The chain yields the first truthy candidate. */
  lemma {:induction false} FirstTruthyAt(candidates: seq<Option<string>>, fallback: string, k: nat)
    requires k < |candidates| && TruthyString(candidates[k])
    requires forall i :: 0 <= i < k ==> !TruthyString(candidates[i])
    ensures FirstTruthy(candidates, fallback) == candidates[k].value
  {
    if k > 0 {
      assert !TruthyString(candidates[0]);
      var rest := candidates[1..];
      assert rest[k - 1] == candidates[k];
      forall i | 0 <= i < k - 1 ensures !TruthyString(rest[i]) {
        assert rest[i] == candidates[i + 1];
      }
      FirstTruthyAt(rest, fallback, k - 1);
    }
  }

  /** The username given to a new profile. */
  function NewUsername(user: AuthUser): string {
    FirstTruthy(NameCandidates(user), "quantum_user_" + Take(user.id, 8))
  }

  /** A new profile is named by the email when there is one, and by the id only when every name is falsy. */
  lemma NewUsernameChain(user: AuthUser)
    ensures TruthyString(user.email) ==> NewUsername(user) == user.email.value
    ensures !TruthyString(user.email) && TruthyString(user.displayName) ==> NewUsername(user) == user.displayName.value
    ensures (forall c :: c in NameCandidates(user) ==> !TruthyString(c)) ==>
      NewUsername(user) == "quantum_user_" + Take(user.id, 8)
  {
    var c := NameCandidates(user);
    var fallback := "quantum_user_" + Take(user.id, 8);
    if TruthyString(user.email) {
      FirstTruthyAt(c, fallback, 0);
    } else if TruthyString(user.displayName) {
      FirstTruthyAt(c, fallback, 1);
    }
    if forall x :: x in c ==> !TruthyString(x) {
      assert forall i :: 0 <= i < |c| ==> c[i] in c;
      FirstTruthyFallback(c, fallback);
    }
  }

  /**
   * `ensureUserProfile(user)`: null for a missing user or any thrown error, the stored
   * profile when there is one, and otherwise the profile written by `setDoc`.
   */
  function EnsureUserProfile(user: Option<AuthUser>, lookup: ProfileLookup, writeOk: bool): (r: Option<Profile>)
    ensures user.None? || lookup.LookupFails? ==> r.None?
    ensures user.Some? && lookup.Found? ==> r == Some(lookup.profile)
    ensures user.Some? && lookup.NotFound? ==> (r.Some? <==> writeOk)
    ensures user.Some? && lookup.NotFound? && r.Some? ==>
      && r.value.id == user.value.id
      && r.value.username == NewUsername(user.value)
      && r.value.email == user.value.email.GetOr("")
      && r.value.soundEnabled
  {
    if user.None? then None
    else
      var u := user.value;
      match lookup
      case LookupFails => None
      case Found(p) => Some(p)
      case NotFound =>
        var profile := Profile(u.id, NewUsername(u), u.email.GetOr(""), true, ServerTime);
        if writeOk then Some(profile) else None
  }
}
