/**
 * What the ranking promises, stated over the leaderboard: the shape of the
 * neighbour list in each of the four cases, what the reported position and
 * watchtime mean, and the worked boundary scenarios.
 */
module RankingProperties {
  import opened Model
  import opened Ranking

  /** The 1-based positions of a neighbour list, in order. */
  function Positions(neighbors: seq<AnonRankingModel>): seq<int> {
    seq(|neighbors|, k requires 0 <= k < |neighbors| => neighbors[k].position)
  }

  // ---------------------------------------------------------------------------
  // Neighbour lists in general
  // ---------------------------------------------------------------------------

  /**
   * Every neighbour is the entry of some other row: its position is that
   * row's index plus one and its watchtime that row's watchtime. Positions
   * strictly increase, and the list has `min(count - 1, 4)` entries.
   */
  lemma NeighborsAreOtherEntries(board: seq<UserTableModel>, userRank: int)
    requires 0 <= userRank < |board|
    ensures var r := ClosestNeighbors(board, userRank);
      && |r| == (if |board| < 5 then |board| - 1 else 4)
      && (forall k :: 0 <= k < |r| ==>
            1 <= r[k].position <= |board| && r[k].position != userRank + 1
            && r[k].totalWatchtime == board[r[k].position - 1].totalWatchtime)
      && (forall k, l :: 0 <= k < l < |r| ==> r[k].position < r[l].position)
  {
  }

  /**
   * The positions in the window `[lo, hi)`: a position occurs exactly when it
   * is that of a window index other than the user's.
   */
  lemma WindowPositions(board: seq<UserTableModel>, lo: int, hi: int, userRank: int, p: int)
    requires 0 <= lo <= userRank < hi <= |board|
    ensures p in Positions(WindowEntries(board, lo, hi, userRank)) <==> lo < p <= hi && p != userRank + 1
  {
    var r := WindowEntries(board, lo, hi, userRank);
    if lo < p <= hi && p != userRank + 1 {
      var k := if p - 1 < userRank then p - 1 - lo else p - 2 - lo;
      assert Positions(r)[k] == p;
    }
  }

  // ---------------------------------------------------------------------------
  // The four cases
  // ---------------------------------------------------------------------------

  /** Fewer than five rows: every other row, in order. */
  lemma SmallBoardNeighbors(board: seq<UserTableModel>, userRank: int, p: int)
    requires 0 <= userRank < |board| < 5
    ensures |ClosestNeighbors(board, userRank)| == |board| - 1
    ensures p in Positions(ClosestNeighbors(board, userRank)) <==> 1 <= p <= |board| && p != userRank + 1
  {
    WindowPositions(board, 0, |board|, userRank, p);
  }

  /** Two rows above and two below: the two above, then the two below. */
  lemma InteriorNeighbors(board: seq<UserTableModel>, userRank: int)
    requires 5 <= |board| && 2 <= userRank < |board| - 2
    ensures Positions(ClosestNeighbors(board, userRank)) == [userRank - 1, userRank, userRank + 2, userRank + 3]
  {
  }

  /** One of the last two rows: the other four of the last five. */
  lemma NearBottomNeighbors(board: seq<UserTableModel>, userRank: int)
    requires 5 <= |board| && |board| - 2 <= userRank < |board|
    ensures var n := |board|;
      Positions(ClosestNeighbors(board, userRank))
      == if userRank == n - 1 then [n - 4, n - 3, n - 2, n - 1] else [n - 4, n - 3, n - 2, n]
  {
  }

  /** One of the first two rows: the other four of the first five. */
  lemma NearTopNeighbors(board: seq<UserTableModel>, userRank: int)
    requires 5 <= |board| && 0 <= userRank < 2
    ensures Positions(ClosestNeighbors(board, userRank)) == if userRank == 0 then [2, 3, 4, 5] else [1, 3, 4, 5]
  {
  }

  // ---------------------------------------------------------------------------
  // The ranking answer
  // ---------------------------------------------------------------------------

  /**
   * On success the position is the 1-based index of the user's first row on
   * the leaderboard, the reported watchtime is the watchtime of one of the
   * user's fetched rows, every row above has at least that watchtime and
   * every row below at most that watchtime.
   */
  lemma RankingIsLeaderboardPosition(board: seq<UserTableModel>, fetched: seq<UserTableModel>, userId: string)
    requires IsLeaderboard(board, fetched)
    requires RankingOf(board, userId).Success?
    ensures var m := RankingOf(board, userId).value;
      && 1 <= m.position <= |board|
      && board[m.position - 1].rowKey == userId
      && (forall i :: 0 <= i < m.position - 1 ==> board[i].rowKey != userId)
      && m.totalWatchtime == board[m.position - 1].totalWatchtime
      && UserTableModel(userId, m.totalWatchtime) in fetched
      && (forall i :: 0 <= i < m.position - 1 ==> board[i].totalWatchtime >= m.totalWatchtime)
      && (forall i :: m.position <= i < |board| ==> board[i].totalWatchtime <= m.totalWatchtime)
  {
    var m := RankingOf(board, userId).value;
    var row := board[m.position - 1];
    assert row == UserTableModel(userId, m.totalWatchtime);
    assert row in multiset(board);
  }

  /** The answer is `UserNotFound` exactly when no fetched row has the id, whichever leaderboard is used. */
  lemma NotFoundIffAbsent(board: seq<UserTableModel>, fetched: seq<UserTableModel>, userId: string)
    requires IsLeaderboard(board, fetched)
    ensures RankingOf(board, userId) == Failure(UserNotFound) <==> forall e :: e in fetched ==> e.rowKey != userId
  {
    LeaderboardKeepsRows(board, fetched, userId);
  }

  /** The table holds one row per user id. */
  ghost predicate UniqueKeys(fetched: seq<UserTableModel>) {
    forall i, j :: 0 <= i < j < |fetched| ==> fetched[i].rowKey != fetched[j].rowKey
  }

  /**
   * The unstable sort may order rows with equal watchtimes either way, and
   * with them the position may change, but not whether the user is found nor,
   * when ids are unique, the watchtime reported.
   */
  lemma WatchtimeIndependentOfTies(
    board1: seq<UserTableModel>, board2: seq<UserTableModel>, fetched: seq<UserTableModel>, userId: string)
    requires IsLeaderboard(board1, fetched) && IsLeaderboard(board2, fetched)
    requires UniqueKeys(fetched)
    ensures RankingOf(board1, userId).Success? <==> RankingOf(board2, userId).Success?
    ensures RankingOf(board1, userId).Success? ==>
              RankingOf(board1, userId).value.totalWatchtime == RankingOf(board2, userId).value.totalWatchtime
  {
    NotFoundIffAbsent(board1, fetched, userId);
    NotFoundIffAbsent(board2, fetched, userId);
    if RankingOf(board1, userId).Success? {
      RankingIsLeaderboardPosition(board1, fetched, userId);
      RankingIsLeaderboardPosition(board2, fetched, userId);
      var w1 := RankingOf(board1, userId).value.totalWatchtime;
      var w2 := RankingOf(board2, userId).value.totalWatchtime;
      var i :| 0 <= i < |fetched| && fetched[i] == UserTableModel(userId, w1);
      var j :| 0 <= j < |fetched| && fetched[j] == UserTableModel(userId, w2);
      assert i == j;
    }
  }

  // ---------------------------------------------------------------------------
  // Boundary scenarios
  // ---------------------------------------------------------------------------

  /** Three rows, the user in the middle: position 2, both other rows as neighbours. */
  lemma ThreeUsersMiddle()
    ensures RankingOf([UserTableModel("A", 100), UserTableModel("B", 90), UserTableModel("C", 80)], "B")
         == Success(RankingModel(2, 90, [AnonRankingModel(1, 100), AnonRankingModel(3, 80)]))
  {
    var board := [UserTableModel("A", 100), UserTableModel("B", 90), UserTableModel("C", 80)];
    assert board[0].rowKey != "B";
    assert FirstIndex(board, "B") == 1;
    assert ClosestNeighbors(board, 1) == [Entry(board, 0), Entry(board, 2)];
  }

  /** Six rows in leaderboard order with watchtimes 100, 90, .., 50 and ids "0" .. "5". */
  function SixUsers(): seq<UserTableModel> {
    [UserTableModel("0", 100), UserTableModel("1", 90), UserTableModel("2", 80),
     UserTableModel("3", 70), UserTableModel("4", 60), UserTableModel("5", 50)]
  }

  /** Six rows, the user at index 3: the interior case, positions 2, 3, 5, 6. */
  lemma SixUsersInterior()
    ensures ClosestNeighbors(SixUsers(), 3)
         == [AnonRankingModel(2, 90), AnonRankingModel(3, 80), AnonRankingModel(5, 60), AnonRankingModel(6, 50)]
  {
  }

  /** Six rows, the user on top: the near-top case, positions 2 to 5. */
  lemma SixUsersTop()
    ensures ClosestNeighbors(SixUsers(), 0)
         == [AnonRankingModel(2, 90), AnonRankingModel(3, 80), AnonRankingModel(4, 70), AnonRankingModel(5, 60)]
  {
  }

  /** Six rows, the user at the bottom: the near-bottom case, positions 2 to 5 again. */
  lemma SixUsersBottom()
    ensures ClosestNeighbors(SixUsers(), 5)
         == [AnonRankingModel(2, 90), AnonRankingModel(3, 80), AnonRankingModel(4, 70), AnonRankingModel(5, 60)]
  {
  }

  /** An absent id and an empty table both give `UserNotFound`. */
  lemma AbsentUserNotFound()
    ensures RankingOf(SixUsers(), "6") == Failure(UserNotFound)
    ensures RankingOf([], "6") == Failure(UserNotFound)
  {
  }
}
