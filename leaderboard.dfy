/**
 * `getLeaderboard` of src/lib/gameDatabase.js: per-user counting in a `Map`, win rates,
 * a sort by win rate then wins, a cut to `limit` entries and usernames from profiles.
 */
module Leaderboard {
  import opened Wrappers
  import opened GameConfig
  import opened GameDatabase

  /** The number of newest games the leaderboard query asks for (`limit(1000)`). */
  const QueryCap: nat := 1000

  /** The per-user counters kept in the `userStats` map. */
  datatype PlayerStats = PlayerStats(userId: string, totalGames: nat, totalWins: nat, username: string)

  /** `` `user_${userId.slice(0, 8)}` ``. */
  function DefaultUsername(userId: string): string {
    "user_" + Take(userId, 8)
  }

  /** The counters a user starts with when first seen. */
  function NewPlayer(userId: string): PlayerStats {
    PlayerStats(userId, 0, 0, DefaultUsername(userId))
  }

  /** `stats.totalGames++` and, for a won game, `stats.totalWins++`. */
  function Counted(p: PlayerStats, game: GameRow): PlayerStats {
    p.(totalGames := p.totalGames + 1, totalWins := p.totalWins + if game.userWon then 1 else 0)
  }

  // ---------------------------------------------------------------------------------------
  // The counting, as a specification over the map's values in insertion order
  // ---------------------------------------------------------------------------------------

  /** The map's values after one more game: its user's entry counts it, or a new entry is added last. */
  function Credit(stats: seq<PlayerStats>, game: GameRow): seq<PlayerStats> {
    if stats == [] then [Counted(NewPlayer(game.userId), game)]
    else if stats[0].userId == game.userId then [Counted(stats[0], game)] + stats[1..]
    else [stats[0]] + Credit(stats[1..], game)
  }

  /** The map's values after the `forEach` over `rows`. */
  function Tally(rows: seq<GameRow>): seq<PlayerStats>
    decreases |rows|
  {
    if rows == [] then [] else Credit(Tally(rows[..|rows| - 1]), rows[|rows| - 1])
  }

  /** The entry for `userId`, if there is one. */
  function Lookup(stats: seq<PlayerStats>, userId: string): Option<PlayerStats> {
    if stats == [] then None
    else if stats[0].userId == userId then Some(stats[0])
    else Lookup(stats[1..], userId)
  }

  predicate DistinctIds(stats: seq<PlayerStats>) {
    forall i, j :: 0 <= i < j < |stats| ==> stats[i].userId != stats[j].userId
  }

  /** The number of `userId`'s games among `rows`. */
  function GamesOf(rows: seq<GameRow>, userId: string): (n: nat)
    ensures n <= |rows|
  {
    if rows == [] then 0
    else GamesOf(rows[..|rows| - 1], userId) + if rows[|rows| - 1].userId == userId then 1 else 0
  }

  /** The number of `userId`'s won games among `rows`. */
  function WinsOf(rows: seq<GameRow>, userId: string): (n: nat)
    ensures n <= GamesOf(rows, userId)
  {
    if rows == [] then 0
    else
      var last := rows[|rows| - 1];
      WinsOf(rows[..|rows| - 1], userId) + if last.userId == userId && last.userWon then 1 else 0
  }

  function SumGames(stats: seq<PlayerStats>): nat {
    if stats == [] then 0 else stats[0].totalGames + SumGames(stats[1..])
  }

  /** What the table holds for a user after counting `rows`. */
  function Expected(rows: seq<GameRow>, userId: string): Option<PlayerStats> {
    if GamesOf(rows, userId) == 0 then None
    else Some(PlayerStats(userId, GamesOf(rows, userId), WinsOf(rows, userId), DefaultUsername(userId)))
  }

  /** What a lookup returns once `game` is credited. */
  function CreditedLookup(stats: seq<PlayerStats>, game: GameRow, id: string): Option<PlayerStats> {
    if id == game.userId then Some(Counted(Lookup(stats, id).GetOr(NewPlayer(id)), game)) else Lookup(stats, id)
  }

  lemma {:induction false} CreditFacts(stats: seq<PlayerStats>, game: GameRow)
    requires DistinctIds(stats)
    ensures DistinctIds(Credit(stats, game))
    ensures SumGames(Credit(stats, game)) == SumGames(stats) + 1
    ensures forall id :: Lookup(Credit(stats, game), id) == CreditedLookup(stats, game, id)
  {
    if stats != [] && stats[0].userId != game.userId {
      var rest := stats[1..];
      assert DistinctIds(rest) by {
        forall i, j | 0 <= i < j < |rest| ensures rest[i].userId != rest[j].userId {
          assert rest[i] == stats[i + 1] && rest[j] == stats[j + 1];
        }
      }
      CreditFacts(rest, game);
      var c := Credit(stats, game);
      assert c == [stats[0]] + Credit(rest, game);
      forall id ensures Lookup(rest, id).Some? ==> Lookup(rest, id).value.userId == id {
        LookupHasId(rest, id);
      }
      forall i | 0 < i < |c| ensures c[i].userId != stats[0].userId {
        assert c[i] == Credit(rest, game)[i - 1];
        LookupAbsentFirst(stats);
        CreditIdsIn(rest, game, i - 1);
      }
    } else if stats != [] {
      var c := Credit(stats, game);
      forall i, j | 0 <= i < j < |c| ensures c[i].userId != c[j].userId {
        assert c[j] == stats[j];
        if i > 0 {
          assert c[i] == stats[i];
        }
      }
      LookupTail(stats);
    }
  }

  /** A lookup only ever returns an entry for the id asked for. */
  lemma {:induction false} LookupHasId(stats: seq<PlayerStats>, id: string)
    ensures Lookup(stats, id).Some? ==> Lookup(stats, id).value.userId == id && Lookup(stats, id).value in stats
  {
    if stats != [] && stats[0].userId != id {
      LookupHasId(stats[1..], id);
    }
  }

  /** With distinct ids, the first entry's id is not looked up in the rest. */
  lemma LookupAbsentFirst(stats: seq<PlayerStats>)
    requires stats != [] && DistinctIds(stats)
    ensures forall k :: 1 <= k < |stats| ==> stats[k].userId != stats[0].userId
  {
  }

  /** With distinct ids, every lookup for an id other than the first entry's goes to the tail. */
  lemma LookupTail(stats: seq<PlayerStats>)
    requires stats != [] && DistinctIds(stats)
    ensures forall id :: id != stats[0].userId ==> Lookup(stats, id) == Lookup(stats[1..], id)
  {
  }

  /** Every id in `Credit(stats, game)` is an id of `stats` or the game's. */
  lemma {:induction false} CreditIdsIn(stats: seq<PlayerStats>, game: GameRow, i: nat)
    requires i < |Credit(stats, game)|
    ensures Credit(stats, game)[i].userId == game.userId
      || exists k :: 0 <= k < |stats| && stats[k].userId == Credit(stats, game)[i].userId
  {
    if stats != [] && stats[0].userId != game.userId && i > 0 {
      CreditIdsIn(stats[1..], game, i - 1);
      var c := Credit(stats, game);
      assert c[i] == Credit(stats[1..], game)[i - 1];
      if c[i].userId != game.userId {
        var k :| 0 <= k < |stats[1..]| && stats[1..][k].userId == c[i].userId;
        assert stats[k + 1] == stats[1..][k];
      }
    } else if stats != [] && stats[0].userId == game.userId && i > 0 {
      assert Credit(stats, game)[i] == stats[i];
    }
  }

  /**
   * The leaderboard's counting is exact: one entry per user that played, each holding that
   * user's number of games and wins and the default username, and every game is counted once.
   */
  lemma {:induction false} TallyIsExact(rows: seq<GameRow>)
    ensures DistinctIds(Tally(rows))
    ensures SumGames(Tally(rows)) == |rows|
    ensures forall id :: Lookup(Tally(rows), id) == Expected(rows, id)
  {
    if rows != [] {
      var prefix := rows[..|rows| - 1];
      var game := rows[|rows| - 1];
      TallyIsExact(prefix);
      CreditFacts(Tally(prefix), game);
      forall id ensures Lookup(Tally(rows), id) == Expected(rows, id) {
        assert rows[..|rows| - 1] == prefix;
      }
    }
  }

  /** In a table with distinct ids, each entry is what a lookup of its id returns. */
  lemma {:induction false} LookupFindsEntry(stats: seq<PlayerStats>, k: nat)
    requires DistinctIds(stats) && k < |stats|
    ensures Lookup(stats, stats[k].userId) == Some(stats[k])
  {
    if k > 0 {
      var rest := stats[1..];
      assert DistinctIds(rest) by {
        forall i, j | 0 <= i < j < |rest| ensures rest[i].userId != rest[j].userId {
          assert rest[i] == stats[i + 1] && rest[j] == stats[j + 1];
        }
      }
      assert rest[k - 1] == stats[k];
      LookupFindsEntry(rest, k - 1);
    }
  }

  /** Every entry of the tally carries the exact counts of its user, and its wins never exceed its games. */
  lemma TallyEntries(rows: seq<GameRow>)
    ensures forall k :: 0 <= k < |Tally(rows)| ==>
      && Tally(rows)[k].totalGames == GamesOf(rows, Tally(rows)[k].userId) >= 1
      && Tally(rows)[k].totalWins == WinsOf(rows, Tally(rows)[k].userId)
      && Tally(rows)[k].totalWins <= Tally(rows)[k].totalGames
      && Tally(rows)[k].username == DefaultUsername(Tally(rows)[k].userId)
  {
    TallyIsExact(rows);
    forall k | 0 <= k < |Tally(rows)|
      ensures Tally(rows)[k].totalGames == GamesOf(rows, Tally(rows)[k].userId) >= 1
      ensures Tally(rows)[k].totalWins == WinsOf(rows, Tally(rows)[k].userId)
      ensures Tally(rows)[k].username == DefaultUsername(Tally(rows)[k].userId)
    {
      LookupFindsEntry(Tally(rows), k);
    }
  }

  // ---------------------------------------------------------------------------------------
  // The imperative counting loop over a Map kept in insertion order
  // ---------------------------------------------------------------------------------------

  /** `Array.from(userStats.values())`: the map's values in the order their keys were inserted. */
  function Values(order: seq<string>, table: map<string, PlayerStats>): seq<PlayerStats>
    requires forall k :: 0 <= k < |order| ==> order[k] in table
  {
    if order == [] then [] else [table[order[0]]] + Values(order[1..], table)
  }

  /** The values are the table's entries at the keys, in order. */
  lemma {:induction false} ValuesIndex(order: seq<string>, table: map<string, PlayerStats>)
    requires forall k :: 0 <= k < |order| ==> order[k] in table
    ensures |Values(order, table)| == |order|
    ensures forall k :: 0 <= k < |order| ==> Values(order, table)[k] == table[order[k]]
  {
    if order != [] {
      ValuesIndex(order[1..], table);
    }
  }

  lemma {:induction false} CreditExisting(stats: seq<PlayerStats>, game: GameRow, k: nat)
    requires DistinctIds(stats) && k < |stats| && stats[k].userId == game.userId
    ensures Credit(stats, game) == stats[k := Counted(stats[k], game)]
  {
    if k > 0 {
      var rest := stats[1..];
      assert DistinctIds(rest) by {
        forall i, j | 0 <= i < j < |rest| ensures rest[i].userId != rest[j].userId {
          assert rest[i] == stats[i + 1] && rest[j] == stats[j + 1];
        }
      }
      assert rest[k - 1] == stats[k];
      CreditExisting(rest, game, k - 1);
      assert [stats[0]] + rest[k - 1 := Counted(stats[k], game)] == stats[k := Counted(stats[k], game)];
    }
  }

  lemma {:induction false} CreditNew(stats: seq<PlayerStats>, game: GameRow)
    requires forall k :: 0 <= k < |stats| ==> stats[k].userId != game.userId
    ensures Credit(stats, game) == stats + [Counted(NewPlayer(game.userId), game)]
  {
    if stats != [] {
      CreditNew(stats[1..], game);
    }
  }

  /** The shape of the `userStats` map and its key order: every key once, each entry under its own id. */
  ghost predicate TableInv(order: seq<string>, table: map<string, PlayerStats>) {
    && (forall k :: 0 <= k < |order| ==> order[k] in table && table[order[k]].userId == order[k])
    && (forall id :: id in table ==> id in order)
    && (forall j, k :: 0 <= j < k < |order| ==> order[j] != order[k])
  }

  /** Counting a game of a user already in the map keeps the map's shape. */
  lemma CountExistingKeepsShape(order: seq<string>, table: map<string, PlayerStats>, game: GameRow)
    requires TableInv(order, table) && game.userId in table
    ensures TableInv(order, table[game.userId := Counted(table[game.userId], game)])
  {
    var t2 := table[game.userId := Counted(table[game.userId], game)];
    forall j | 0 <= j < |order| ensures order[j] in t2 && t2[order[j]].userId == order[j] {
    }
  }

  /** Updating the value under the key at position `k` updates the values at `k`. */
  lemma ValuesAfterUpdate(order: seq<string>, table: map<string, PlayerStats>, k: nat, v: PlayerStats)
    requires forall j :: 0 <= j < |order| ==> order[j] in table
    requires k < |order| && forall j :: 0 <= j < |order| && j != k ==> order[j] != order[k]
    ensures |Values(order, table)| == |order|
    ensures Values(order, table[order[k] := v]) == Values(order, table)[k := v]
  {
    ValuesIndex(order, table);
    ValuesIndex(order, table[order[k] := v]);
  }

  /** Counting a game of a user already in the map credits that user's entry in place. */
  lemma CountExisting(order: seq<string>, table: map<string, PlayerStats>, game: GameRow)
    requires TableInv(order, table) && game.userId in table
    ensures TableInv(order, table[game.userId := Counted(table[game.userId], game)])
    ensures Values(order, table[game.userId := Counted(table[game.userId], game)]) == Credit(Values(order, table), game)
  {
    var id := game.userId;
    CountExistingKeepsShape(order, table, game);
    assert id in order;
    var k :| 0 <= k < |order| && order[k] == id;
    ValuesIndex(order, table);
    var before := Values(order, table);
    DistinctValues(order, table);
    CreditExisting(before, game, k);
    ValuesAfterUpdate(order, table, k, Counted(table[id], game));
  }

  lemma DistinctValues(order: seq<string>, table: map<string, PlayerStats>)
    requires TableInv(order, table)
    ensures DistinctIds(Values(order, table))
  {
    ValuesIndex(order, table);
    var before := Values(order, table);
    forall i, j | 0 <= i < j < |before| ensures before[i].userId != before[j].userId {
      assert before[i].userId == order[i] && before[j].userId == order[j];
    }
  }

  /** Adding a new key at the end of the order adds its value at the end. */
  lemma ValuesAfterAdd(order: seq<string>, table: map<string, PlayerStats>, id: string, v: PlayerStats)
    requires forall j :: 0 <= j < |order| ==> order[j] in table
    requires id !in table
    ensures Values(order + [id], table[id := v]) == Values(order, table) + [v]
  {
    var o2 := order + [id];
    var t2 := table[id := v];
    ValuesIndex(order, table);
    ValuesIndex(o2, t2);
    forall j | 0 <= j < |order| ensures Values(o2, t2)[j] == Values(order, table)[j] {
      assert o2[j] == order[j] != id;
    }
  }

  /** Counting the first game of a user: a new key, last in the order. */
  lemma CountNew(order: seq<string>, table: map<string, PlayerStats>, game: GameRow)
    requires TableInv(order, table) && game.userId !in table
    ensures TableInv(order + [game.userId], table[game.userId := Counted(NewPlayer(game.userId), game)])
    ensures Values(order + [game.userId], table[game.userId := Counted(NewPlayer(game.userId), game)])
         == Credit(Values(order, table), game)
  {
    var id := game.userId;
    var t2 := table[id := Counted(NewPlayer(id), game)];
    var o2 := order + [id];
    assert TableInv(o2, t2) by {
      forall j | 0 <= j < |o2| ensures o2[j] in t2 && t2[o2[j]].userId == o2[j] {
        if j < |order| {
          assert o2[j] == order[j] != id;
        }
      }
      forall j, k | 0 <= j < k < |o2| ensures o2[j] != o2[k] {
        if k == |order| {
          assert o2[j] == order[j] && order[j] in table;
        } else {
          assert o2[j] == order[j] && o2[k] == order[k];
        }
      }
    }
    ValuesIndex(order, table);
    var before := Values(order, table);
    forall k | 0 <= k < |before| ensures before[k].userId != id {
      assert order[k] in table;
    }
    CreditNew(before, game);
    ValuesAfterAdd(order, table, id, Counted(NewPlayer(id), game));
  }

  /** The `forEach` that fills `userStats`; the result is the map's values in insertion order. */
  method TallyGames(rows: seq<GameRow>) returns (players: seq<PlayerStats>)
    ensures players == Tally(rows)
  {
    var order: seq<string> := [];
    var table: map<string, PlayerStats> := map[];
    for i := 0 to |rows|
      invariant TableInv(order, table)
      invariant Values(order, table) == Tally(rows[..i])
    {
      var game := rows[i];
      assert rows[..i + 1][..i] == rows[..i];
      ghost var before := Values(order, table);
      ghost var target: map<string, PlayerStats>;
      if game.userId !in table {
        CountNew(order, table, game);
        target := table[game.userId := Counted(NewPlayer(game.userId), game)];
        table := table[game.userId := NewPlayer(game.userId)];
        order := order + [game.userId];
      } else {
        CountExisting(order, table, game);
        target := table[game.userId := Counted(table[game.userId], game)];
      }
      var stats := table[game.userId];
      stats := stats.(totalGames := stats.totalGames + 1);
      if game.userWon {
        stats := stats.(totalWins := stats.totalWins + 1);
      }
      assert stats == Counted(table[game.userId], game);
      table := table[game.userId := stats];
      assert table == target;
    }
    players := Values(order, table);
    assert rows[..|rows|] == rows;
  }

  // ---------------------------------------------------------------------------------------
  // Ranking, cut and usernames
  // ---------------------------------------------------------------------------------------

  /** A leaderboard entry: the counters plus `winRate`. */
  datatype Entry = Entry(userId: string, totalGames: nat, totalWins: nat, username: string, winRate: WinRate)

  /** The `.map(stats => ({...stats, winRate: ...}))` step for one entry. */
  function WithRate(p: PlayerStats): Entry {
    Entry(p.userId, p.totalGames, p.totalWins, p.username, RateOf(p.totalWins, p.totalGames))
  }

  function WithRates(ps: seq<PlayerStats>): (es: seq<Entry>)
    ensures |es| == |ps| && forall k :: 0 <= k < |ps| ==> es[k] == WithRate(ps[k])
  {
    if ps == [] then [] else [WithRate(ps[0])] + WithRates(ps[1..])
  }

  /**
   * The comparator `(a, b) => b.winRate - a.winRate || b.totalWins - a.totalWins` is negative,
   * so that `a` sorts first, exactly when this holds.
   */
  predicate Precedes(a: Entry, b: Entry) {
    || RateValue(a.winRate) > RateValue(b.winRate)
    || (RateValue(a.winRate) == RateValue(b.winRate) && a.totalWins > b.totalWins)
  }

  /** Ordered by win rate, highest first, ties broken by more wins. */
  predicate Ranked(es: seq<Entry>) {
    forall i, j :: 0 <= i < j < |es| ==> !Precedes(es[j], es[i])
  }

  /** Places `e` after every entry it does not precede, so entries that compare equal keep their order. */
  function Insert(sorted: seq<Entry>, e: Entry): (r: seq<Entry>)
    ensures multiset(r) == multiset(sorted) + multiset{e}
    ensures |r| == |sorted| + 1
  {
    if sorted == [] then [e]
    else if Precedes(e, sorted[|sorted| - 1]) then
      assert sorted == sorted[..|sorted| - 1] + [sorted[|sorted| - 1]];
      Insert(sorted[..|sorted| - 1], e) + [sorted[|sorted| - 1]]
    else sorted + [e]
  }

  /** `Array.prototype.sort` with the comparator above, which sorts stably. */
  function SortByRank(es: seq<Entry>): (r: seq<Entry>)
    ensures multiset(r) == multiset(es)
    ensures |r| == |es|
  {
    if es == [] then []
    else
      assert es == es[..|es| - 1] + [es[|es| - 1]];
      Insert(SortByRank(es[..|es| - 1]), es[|es| - 1])
  }

  /** Appending an entry that precedes none of a ranked sequence keeps it ranked. */
  lemma RankedAppend(r: seq<Entry>, last: Entry)
    requires Ranked(r) && forall i :: 0 <= i < |r| ==> !Precedes(last, r[i])
    ensures Ranked(r + [last])
  {
    var out := r + [last];
    forall i, j | 0 <= i < j < |out| ensures !Precedes(out[j], out[i]) {
      if j == |out| - 1 {
        assert out[i] == r[i] && out[j] == last;
      } else {
        assert out[i] == r[i] && out[j] == r[j];
      }
    }
  }

  /** Every entry of `Insert(sorted, e)` is `e` or an entry of `sorted`. */
  lemma InsertMembers(sorted: seq<Entry>, e: Entry, x: Entry)
    requires x in Insert(sorted, e)
    ensures x == e || x in sorted
  {
    assert x in multiset(Insert(sorted, e));
  }

  lemma {:induction false} InsertKeepsRanked(sorted: seq<Entry>, e: Entry)
    requires Ranked(sorted)
    ensures Ranked(Insert(sorted, e))
  {
    if sorted != [] {
      var n := |sorted|;
      var last := sorted[n - 1];
      if Precedes(e, last) {
        var front := sorted[..n - 1];
        assert Ranked(front);
        InsertKeepsRanked(front, e);
        var r := Insert(front, e);
        forall i | 0 <= i < |r| ensures !Precedes(last, r[i]) {
          InsertMembers(front, e, r[i]);
          if r[i] != e {
            var k :| 0 <= k < |front| && front[k] == r[i];
            assert sorted[k] == r[i];
          }
        }
        RankedAppend(r, last);
      }
    }
  }

  /** The sort's result is ranked and holds exactly the given entries. */
  lemma {:induction false} SortByRankIsRanked(es: seq<Entry>)
    ensures Ranked(SortByRank(es))
    ensures multiset(SortByRank(es)) == multiset(es)
  {
    if es != [] {
      SortByRankIsRanked(es[..|es| - 1]);
      InsertKeepsRanked(SortByRank(es[..|es| - 1]), es[|es| - 1]);
    }
  }

  /** `s.slice(0, end)`: a negative `end` counts back from the length. */
  function SliceTo<T>(s: seq<T>, end: int): (r: seq<T>)
    ensures |r| <= |s| && r == s[..|r|]
    ensures end >= 0 ==> |r| == Min(|s|, end)
    ensures end < 0 ==> |r| == if |s| + end > 0 then |s| + end else 0
  {
    if end >= 0 then s[..Min(|s|, end)]
    else if |s| + end > 0 then s[..|s| + end]
    else []
  }

  /** `player.username = userDoc.data().username || player.username` when the profile exists. */
  function WithProfile(e: Entry, profiles: map<string, string>): Entry {
    if e.userId in profiles && profiles[e.userId] != "" then e.(username := profiles[e.userId]) else e
  }

  function WithProfiles(es: seq<Entry>, profiles: map<string, string>): (r: seq<Entry>)
    ensures |r| == |es| && forall k :: 0 <= k < |es| ==> r[k] == WithProfile(es[k], profiles)
  {
    if es == [] then [] else [WithProfile(es[0], profiles)] + WithProfiles(es[1..], profiles)
  }

  /** Every player's entry, ranked. */
  function Ranking(rows: seq<GameRow>): seq<Entry> {
    SortByRank(WithRates(Tally(rows)))
  }

  /** The leaderboard `getLeaderboard` evidently computes from the games it reads. */
  function Leaderboard(rows: seq<GameRow>, limit: int, profiles: map<string, string>): seq<Entry> {
    WithProfiles(SliceTo(Ranking(rows), limit), profiles)
  }

  /** The newest `QueryCap` games, which the query `orderBy('created_at', 'desc'), limit(1000)` returns. */
  function Newest(rows: seq<GameRow>): seq<GameRow> {
    rows[..Min(|rows|, QueryCap)]
  }

  predicate DistinctEntries(es: seq<Entry>) {
    forall i, j :: 0 <= i < j < |es| ==> es[i].userId != es[j].userId
  }

  lemma {:induction false} GamesOfPositive(rows: seq<GameRow>, j: nat)
    requires j < |rows|
    ensures GamesOf(rows, rows[j].userId) >= 1
  {
    if j < |rows| - 1 {
      GamesOfPositive(rows[..|rows| - 1], j);
    }
  }

  /** Appending an entry whose user is not yet listed keeps the users distinct. */
  lemma DistinctAppend(r: seq<Entry>, last: Entry)
    requires DistinctEntries(r) && forall i :: 0 <= i < |r| ==> r[i].userId != last.userId
    ensures DistinctEntries(r + [last])
  {
    var out := r + [last];
    forall i, j | 0 <= i < j < |out| ensures out[i].userId != out[j].userId {
      if j == |out| - 1 {
        assert out[i] == r[i] && out[j] == last;
      } else {
        assert out[i] == r[i] && out[j] == r[j];
      }
    }
  }

  lemma {:induction false} InsertKeepsDistinct(sorted: seq<Entry>, e: Entry)
    requires DistinctEntries(sorted)
    requires forall x :: x in sorted ==> x.userId != e.userId
    ensures DistinctEntries(Insert(sorted, e))
  {
    if sorted != [] && Precedes(e, sorted[|sorted| - 1]) {
      var n := |sorted|;
      var front := sorted[..n - 1];
      var last := sorted[n - 1];
      assert DistinctEntries(front);
      forall x | x in front ensures x.userId != e.userId {
        var k :| 0 <= k < |front| && front[k] == x;
        assert sorted[k] == x;
      }
      InsertKeepsDistinct(front, e);
      var r := Insert(front, e);
      forall i | 0 <= i < |r| ensures r[i].userId != last.userId {
        InsertMembers(front, e, r[i]);
        if r[i] != e {
          var k :| 0 <= k < |front| && front[k] == r[i];
          assert sorted[k] == r[i];
        }
      }
      DistinctAppend(r, last);
    } else if sorted != [] {
      forall i | 0 <= i < |sorted| ensures sorted[i].userId != e.userId {
        assert sorted[i] in sorted;
      }
      DistinctAppend(sorted, e);
    }
  }

  lemma {:induction false} SortKeepsDistinct(es: seq<Entry>)
    requires DistinctEntries(es)
    ensures DistinctEntries(SortByRank(es))
  {
    if es != [] {
      var front := es[..|es| - 1];
      var last := es[|es| - 1];
      assert DistinctEntries(front);
      SortKeepsDistinct(front);
      forall x | x in SortByRank(front) ensures x.userId != last.userId {
        assert x in multiset(SortByRank(front));
        assert x in multiset(front);
        var i :| 0 <= i < |front| && front[i] == x;
        assert es[i] == x;
      }
      InsertKeepsDistinct(SortByRank(front), last);
    }
  }

  /** An entry carrying its user's exact counts over `rows`. */
  predicate Exact(rows: seq<GameRow>, e: Entry) {
    && e.totalGames == GamesOf(rows, e.userId) >= 1
    && e.totalWins == WinsOf(rows, e.userId) <= e.totalGames
    && e.winRate == RateOf(e.totalWins, e.totalGames)
  }

  /** Sorting the rated entries of a table with one entry per user ranks them and keeps them distinct. */
  lemma SortedTable(t: seq<PlayerStats>)
    requires DistinctIds(t)
    ensures Ranked(SortByRank(WithRates(t))) && DistinctEntries(SortByRank(WithRates(t)))
  {
    var es := WithRates(t);
    SortByRankIsRanked(es);
    assert DistinctEntries(es) by {
      forall i, j | 0 <= i < j < |es| ensures es[i].userId != es[j].userId {
        assert t[i].userId != t[j].userId;
      }
    }
    SortKeepsDistinct(es);
  }

  /** The sorted entries are exactly the rated entries of the table. */
  lemma SortedTableMembers(t: seq<PlayerStats>)
    ensures forall e :: e in SortByRank(WithRates(t)) ==> exists k :: 0 <= k < |t| && e == WithRate(t[k])
    ensures forall k :: 0 <= k < |t| ==> WithRate(t[k]) in SortByRank(WithRates(t))
  {
    var es := WithRates(t);
    var sorted := SortByRank(es);
    forall e | e in sorted ensures exists k :: 0 <= k < |t| && e == WithRate(t[k]) {
      assert e in multiset(es);
      var k :| 0 <= k < |es| && es[k] == e;
    }
    forall k | 0 <= k < |t| ensures WithRate(t[k]) in sorted {
      assert es[k] in multiset(es);
    }
  }

  /** The ranking lists every player once, in rank order, with exact counts. */
  lemma RankingIsSound(rows: seq<GameRow>)
    ensures Ranked(Ranking(rows)) && DistinctEntries(Ranking(rows))
    ensures forall e :: e in Ranking(rows) ==> Exact(rows, e)
    ensures forall g :: g in rows ==> exists e :: e in Ranking(rows) && e.userId == g.userId
  {
    var t := Tally(rows);
    TallyIsExact(rows);
    SortedTable(t);
    RankingIsExact(rows);
    RankingCoversPlayers(rows);
  }

  /** Every entry of the ranking holds its user's exact counts. */
  lemma RankingIsExact(rows: seq<GameRow>)
    ensures forall e :: e in Ranking(rows) ==> Exact(rows, e)
  {
    var t := Tally(rows);
    TallyEntries(rows);
    SortedTableMembers(t);
    forall e | e in Ranking(rows) ensures Exact(rows, e) {
      var k :| 0 <= k < |t| && e == WithRate(t[k]);
    }
  }

  /** Every player of `rows` has an entry in the ranking. */
  lemma RankingCoversPlayers(rows: seq<GameRow>)
    ensures forall g :: g in rows ==> exists e :: e in Ranking(rows) && e.userId == g.userId
  {
    var t := Tally(rows);
    TallyIsExact(rows);
    SortedTableMembers(t);
    forall g | g in rows ensures exists e :: e in Ranking(rows) && e.userId == g.userId {
      var j :| 0 <= j < |rows| && rows[j] == g;
      GamesOfPositive(rows, j);
      assert Lookup(t, g.userId) == Expected(rows, g.userId);
      LookupHasId(t, g.userId);
      var p := Lookup(t, g.userId).value;
      var k :| 0 <= k < |t| && t[k] == p;
      assert WithRate(t[k]) in Ranking(rows);
    }
  }

  /** Usernames from profiles change nothing but usernames. */
  lemma ProfilesKeepCounts(es: seq<Entry>, profiles: map<string, string>)
    ensures Ranked(es) ==> Ranked(WithProfiles(es, profiles))
    ensures DistinctEntries(es) ==> DistinctEntries(WithProfiles(es, profiles))
    ensures forall k :: 0 <= k < |es| ==> WithProfiles(es, profiles)[k].(username := es[k].username) == es[k]
  {
    var r := WithProfiles(es, profiles);
    forall k | 0 <= k < |es|
      ensures r[k].(username := es[k].username) == es[k]
      ensures r[k].userId == es[k].userId && r[k].winRate == es[k].winRate && r[k].totalWins == es[k].totalWins
    {
      assert r[k] == WithProfile(es[k], profiles);
    }
    if Ranked(es) {
      forall i, j | 0 <= i < j < |r| ensures !Precedes(r[j], r[i]) {
        assert !Precedes(es[j], es[i]);
      }
    }
    if DistinctEntries(es) {
      forall i, j | 0 <= i < j < |r| ensures r[i].userId != r[j].userId {
        assert es[i].userId != es[j].userId;
      }
    }
  }

  /**
   * The leaderboard is ranked, has at most `limit` entries, lists each user once, and every
   * entry holds that user's exact counts over `rows`. With room for every player, every
   * player that has a game is listed.
   */
  lemma LeaderboardIsSound(rows: seq<GameRow>, limit: int, profiles: map<string, string>)
    ensures Ranked(Leaderboard(rows, limit, profiles))
    ensures limit >= 0 ==> |Leaderboard(rows, limit, profiles)| <= limit
    ensures DistinctEntries(Leaderboard(rows, limit, profiles))
    ensures forall e :: e in Leaderboard(rows, limit, profiles) ==> Exact(rows, e)
    ensures limit >= |Tally(rows)| ==>
      forall g :: g in rows ==> exists e :: e in Leaderboard(rows, limit, profiles) && e.userId == g.userId
  {
    var sorted := Ranking(rows);
    var ranked := SliceTo(sorted, limit);
    var board := Leaderboard(rows, limit, profiles);
    RankingIsSound(rows);
    assert Ranked(ranked) && DistinctEntries(ranked);
    ProfilesKeepCounts(ranked, profiles);
    forall e | e in board ensures Exact(rows, e) {
      var i :| 0 <= i < |board| && board[i] == e;
      assert ranked[i] in sorted;
    }
    if limit >= |Tally(rows)| {
      assert ranked == sorted;
      forall g | g in rows ensures exists e :: e in board && e.userId == g.userId {
        var x :| x in sorted && x.userId == g.userId;
        var i :| 0 <= i < |sorted| && sorted[i] == x;
        assert board[i].userId == g.userId;
      }
    }
  }

  // ---------------------------------------------------------------------------------------
  // getLeaderboard
  // ---------------------------------------------------------------------------------------

  /** The `limit` a caller gets by default. */
  const DefaultLimit: int := 10

  /**
   * What the name `limit` is bound to where the query is built: Firestore's query constraint,
   * or, as the code is written, the function's own numeric parameter, which shadows it.
   */
  datatype LimitName = FirestoreLimit | NumberParameter(value: int)

  /** `limit(n)`: a constraint capping the query at `n` documents, or a TypeError (`None`) when `limit` is a number. */
  function CallLimit(name: LimitName, n: nat): (r: Option<nat>)
    ensures r.Some? <==> name.FirestoreLimit?
    ensures r.Some? ==> r.value == n
  {
    if name.FirestoreLimit? then Some(n) else None
  }

  /** The games the function reads, newest first, or `None` when building or running the query throws. */
  function GamesRead(name: LimitName, games: Query): Option<seq<GameRow>> {
    match CallLimit(name, QueryCap)
    case None => None
    case Some(cap) => if games.QueryFails? then None else Some(games.rows[..Min(|games.rows|, cap)])
  }

  /** What the function returns: the leaderboard of the games read, or `[]` from the `catch`. */
  function LeaderboardResult(name: LimitName, games: Query, limit: int, profiles: map<string, string>): seq<Entry> {
    match GamesRead(name, games)
    case None => []
    case Some(rows) => Leaderboard(rows, limit, profiles)
  }

  /**
   * The body of `getLeaderboard` with `limit` bound as `name` says. `games` is the whole
   * `games` collection, newest first; `profiles` maps a user id to the `username` of the
   * profile document, with a missing key for a missing document or a failed read.
   */
  method GetLeaderboardWith(name: LimitName, games: Query, limit: int, profiles: map<string, string>)
    returns (board: seq<Entry>)
    ensures board == LeaderboardResult(name, games, limit, profiles)
  {
    var read := GamesRead(name, games);
    if read.None? {
      return [];
    }
    var players := TallyGames(read.value);
    var ranked := SliceTo(SortByRank(WithRates(players)), limit);
    // `for (let player of leaderboard)` updating each player's username in place
    board := ranked;
    for i := 0 to |board|
      invariant |board| == |ranked|
      invariant forall k :: 0 <= k < i ==> board[k] == WithProfile(ranked[k], profiles)
      invariant forall k :: i <= k < |board| ==> board[k] == ranked[k]
    {
      board := board[i := WithProfile(board[i], profiles)];
    }
    assert board == WithProfiles(ranked, profiles);
  }

  /**
   * `getLeaderboard` with the query capped by Firestore's `limit`: a failed query gives `[]`;
   * otherwise the leaderboard of the newest `QueryCap` games, ranked, at most `limit` long,
   * one entry per user with that user's exact counts.
   */
  method GetLeaderboard(games: Query, limit: int, profiles: map<string, string>) returns (board: seq<Entry>)
    ensures games.QueryFails? ==> board == []
    ensures games.Rows? ==> board == Leaderboard(Newest(games.rows), limit, profiles)
    ensures Ranked(board) && DistinctEntries(board)
    ensures limit >= 0 ==> |board| <= limit
    ensures games.Rows? ==> forall e :: e in board ==> Exact(Newest(games.rows), e)
  {
    board := GetLeaderboardWith(FirestoreLimit, games, limit, profiles);
    if games.Rows? {
      LeaderboardIsSound(Newest(games.rows), limit, profiles);
    }
  }

  /** `getLeaderboard` as written: `limit(1000)` calls the numeric parameter. */
  method GetLeaderboardAsWritten(games: Query, limit: int, profiles: map<string, string>) returns (board: seq<Entry>)
    ensures board == LeaderboardResult(NumberParameter(limit), games, limit, profiles)
  {
    board := GetLeaderboardWith(NumberParameter(limit), games, limit, profiles);
  }

  /** As written, the leaderboard is empty whatever the games, even for a single played game. */
  lemma AsWrittenLeaderboardIsEmpty(games: Query, limit: int, profiles: map<string, string>)
    ensures LeaderboardResult(NumberParameter(limit), games, limit, profiles) == []
    ensures games == Rows([GameRow("u1", Some(Choice.Alive), Some(Choice.Alive), true)]) && limit == DefaultLimit ==>
      |LeaderboardResult(FirestoreLimit, games, limit, profiles)| == 1
  {
    if games == Rows([GameRow("u1", Some(Choice.Alive), Some(Choice.Alive), true)]) && limit == DefaultLimit {
      var rows := [GameRow("u1", Some(Choice.Alive), Some(Choice.Alive), true)];
      assert games.rows[..Min(|games.rows|, QueryCap)] == rows;
      assert rows[..0] == [];
      assert Tally(rows) == [PlayerStats("u1", 1, 1, DefaultUsername("u1"))];
    }
  }
}
