/**
 * The leaderboard ranking of `WatchtimeEntries`: the in-memory part of
 * `GetRanking` (sort, reverse, find the user, build the answer) and
 * `GetClosestNeighbors`, the windowing rule that picks up to four other
 * entries around the user.
 *
 * The table query that feeds `GetRanking` is replaced by the sequence of rows
 * it returned. The methods follow the source step by step; the functions
 * beside them say what those steps compute, independently of the loops.
 */
module Ranking {
  import opened Model

  // ---------------------------------------------------------------------------
  // Orders
  // ---------------------------------------------------------------------------

  /** Ascending watchtime: the order the comparison passed to `Sort` asks for. */
  ghost predicate Ascending(s: seq<UserTableModel>) {
    forall i, j :: 0 <= i < j < |s| ==> s[i].totalWatchtime <= s[j].totalWatchtime
  }

  /** Non-increasing watchtime: leaderboard order, the best watchtime first. */
  ghost predicate NonIncreasing(s: seq<UserTableModel>) {
    forall i, j :: 0 <= i < j < |s| ==> s[i].totalWatchtime >= s[j].totalWatchtime
  }

  /**
   * `board` is a leaderboard of the fetched rows: the same rows, best
   * watchtime first. Rows with equal watchtimes may come in any order, since
   * the sort used is not stable.
   */
  ghost predicate IsLeaderboard(board: seq<UserTableModel>, fetched: seq<UserTableModel>) {
    multiset(board) == multiset(fetched) && NonIncreasing(board)
  }

  // ---------------------------------------------------------------------------
  // Locating the user
  // ---------------------------------------------------------------------------

  /** The first index whose row key is `userId`, or -1 when there is none. */
  function FirstIndex(s: seq<UserTableModel>, userId: string): (k: int)
    ensures -1 <= k < |s|
    ensures k == -1 <==> forall i :: 0 <= i < |s| ==> s[i].rowKey != userId
    ensures 0 <= k ==> s[k].rowKey == userId && forall j :: 0 <= j < k ==> s[j].rowKey != userId
  {
    if s == [] then -1
    else if s[0].rowKey == userId then 0
    else
      var k := FirstIndex(s[1..], userId);
      if k == -1 then -1 else k + 1
  }

  // ---------------------------------------------------------------------------
  // The neighbour window
  // ---------------------------------------------------------------------------

  /** The four situations the neighbour selection distinguishes. */
  datatype Case = Small | Interior | NearBottom | NearTop

  /**
   * The case analysis of `GetClosestNeighbors`, in the source's order. The
   * failure is the `throw` that guards the near-top case; the postcondition
   * says it is never reached, whatever the rank.
   */
  function Classify(count: int, userRank: int): (c: Result<Case>)
    ensures c.Success?
    ensures c.value == Small <==> count < 5
    ensures c.value == Interior <==> 5 <= count && 2 <= userRank < count - 2
    ensures c.value == NearBottom <==> 5 <= count && count - 2 <= userRank
    ensures c.value == NearTop <==> 5 <= count && userRank < 2 && userRank < count - 2
  {
    if count < 5 then Success(Small)
    else if userRank + 2 < count && userRank - 2 >= 0 then Success(Interior)
    else if userRank + 2 >= count then Success(NearBottom)
    else if userRank - 2 >= 0 then Failure(InvalidRanking)
    else Success(NearTop)
  }

  /**
   * The half-open index window `[lo, hi)` the neighbours are taken from. It
   * always holds the user and has `min(count, 5)` entries, so leaving the user
   * out gives `min(count - 1, 4)` neighbours.
   */
  function Window(count: int, userRank: int): (w: (int, int))
    requires 0 <= userRank < count
    ensures 0 <= w.0 <= userRank < w.1 <= count
    ensures w.1 - w.0 == if count < 5 then count else 5
  {
    match Classify(count, userRank).value
    case Small => (0, count)
    case Interior => (userRank - 2, userRank + 3)
    case NearBottom => (count - 5, count)
    case NearTop => (0, 5)
  }

  /** The anonymised entry built from index `i` of the leaderboard. */
  function Entry(board: seq<UserTableModel>, i: int): AnonRankingModel
    requires 0 <= i < |board|
  {
    AnonRankingModel(i + 1, board[i].totalWatchtime)
  }

  /** The `k`-th index of the window that starts at `lo`, skipping the user at `userRank`. */
  function NeighborIndex(lo: int, userRank: int, k: int): int {
    if lo + k < userRank then lo + k else lo + k + 1
  }

  /** The entries of the window `[lo, hi)` other than the user's, in leaderboard order. */
  function WindowEntries(board: seq<UserTableModel>, lo: int, hi: int, userRank: int): seq<AnonRankingModel>
    requires 0 <= lo <= userRank < hi <= |board|
  {
    seq(hi - lo - 1, k requires 0 <= k < hi - lo - 1 => Entry(board, NeighborIndex(lo, userRank, k)))
  }

  /** The neighbours reported for the user at index `userRank` of `board`. */
  function ClosestNeighbors(board: seq<UserTableModel>, userRank: int): seq<AnonRankingModel>
    requires 0 <= userRank < |board|
  {
    var (lo, hi) := Window(|board|, userRank);
    WindowEntries(board, lo, hi, userRank)
  }

  /** What a ranking request answers when the fetched rows are ordered as `board`. */
  function RankingOf(board: seq<UserTableModel>, userId: string): Result<RankingModel> {
    var userRank := FirstIndex(board, userId);
    if userRank == -1 then Failure(UserNotFound)
    else Success(RankingModel(userRank + 1, board[userRank].totalWatchtime, ClosestNeighbors(board, userRank)))
  }

  // ---------------------------------------------------------------------------
  // The list operations `GetRanking` performs in place
  // ---------------------------------------------------------------------------

  method Swap(a: array<UserTableModel>, i: int, j: int)
    requires 0 <= i < a.Length && 0 <= j < a.Length
    modifies a
    ensures a[i] == old(a[j]) && a[j] == old(a[i])
    ensures forall k :: 0 <= k < a.Length && k != i && k != j ==> a[k] == old(a[k])
    ensures multiset(a[..]) == old(multiset(a[..]))
  {
    a[i], a[j] := a[j], a[i];
  }

  /** An index of a smallest watchtime among `a[from..]`. */
  method MinIndexFrom(a: array<UserTableModel>, from: int) returns (m: int)
    requires 0 <= from < a.Length
    ensures from <= m < a.Length
    ensures forall l :: from <= l < a.Length ==> a[m].totalWatchtime <= a[l].totalWatchtime
  {
    m := from;
    var l := from + 1;
    while l < a.Length
      invariant from <= m < l <= a.Length
      invariant forall p :: from <= p < l ==> a[m].totalWatchtime <= a[p].totalWatchtime
    {
      if a[l].totalWatchtime < a[m].totalWatchtime {
        m := l;
      }
      l := l + 1;
    }
  }

  /**
   * `List.Sort` with the ascending watchtime comparison. Only what the
   * library promises is stated: the result is a permutation in ascending
   * order. Nothing is said about the order of equal watchtimes.
   */
  method Sort(a: array<UserTableModel>)
    modifies a
    ensures Ascending(a[..])
    ensures multiset(a[..]) == old(multiset(a[..]))
  {
    var i := 0;
    while i < a.Length
      invariant 0 <= i <= a.Length
      invariant forall p, q :: 0 <= p < q < i ==> a[p].totalWatchtime <= a[q].totalWatchtime
      invariant forall p, q :: 0 <= p < i <= q < a.Length ==> a[p].totalWatchtime <= a[q].totalWatchtime
      invariant multiset(a[..]) == old(multiset(a[..]))
    {
      var m := MinIndexFrom(a, i);
      Swap(a, i, m);
      i := i + 1;
    }
  }

  /** `List.Reverse`: the element at `k` is the one that was at the mirror index. */
  method Reverse(a: array<UserTableModel>)
    modifies a
    ensures forall k :: 0 <= k < a.Length ==> a[k] == old(a[a.Length - 1 - k])
    ensures multiset(a[..]) == old(multiset(a[..]))
  {
    var lo, hi := 0, a.Length - 1;
    while lo < hi
      invariant 0 <= lo <= hi + 1 <= a.Length && hi == a.Length - 1 - lo
      invariant forall k :: 0 <= k < lo ==> a[k] == old(a[a.Length - 1 - k]) && a[a.Length - 1 - k] == old(a[k])
      invariant forall k :: lo <= k <= hi ==> a[k] == old(a[k])
      invariant multiset(a[..]) == old(multiset(a[..]))
    {
      Swap(a, lo, hi);
      lo, hi := lo + 1, hi - 1;
    }
  }

  /** `List.FindIndex` with the predicate "the row key is `userId`". */
  method FindIndex(a: array<UserTableModel>, userId: string) returns (userRank: int)
    ensures userRank == FirstIndex(a[..], userId)
  {
    var i := 0;
    while i < a.Length
      invariant 0 <= i <= a.Length
      invariant forall j :: 0 <= j < i ==> a[j].rowKey != userId
    {
      if a[i].rowKey == userId {
        return i;
      }
      i := i + 1;
    }
    return -1;
  }

  // ---------------------------------------------------------------------------
  // Neighbour selection and the ranking request
  // ---------------------------------------------------------------------------

  /** One window loop of `GetClosestNeighbors`: every index of `[lo, hi)` but the user's. */
  method CollectWindow(userEntries: seq<UserTableModel>, lo: int, hi: int, userRank: int)
    returns (closestNeighbors: seq<AnonRankingModel>)
    requires 0 <= lo <= userRank < hi <= |userEntries|
    ensures closestNeighbors == WindowEntries(userEntries, lo, hi, userRank)
  {
    closestNeighbors := [];
    for i := lo to hi
      invariant |closestNeighbors| == if i <= userRank then i - lo else i - lo - 1
      invariant forall k :: 0 <= k < |closestNeighbors| ==>
                  closestNeighbors[k] == Entry(userEntries, NeighborIndex(lo, userRank, k))
    {
      if i == userRank {
        continue;
      }
      closestNeighbors := closestNeighbors + [AnonRankingModel(i + 1, userEntries[i].totalWatchtime)];
    }
  }

  /**
   * The neighbours of the user at index `userRank` of the leaderboard. The
   * `InvalidRanking` failure stands for the exception thrown when none of the
   * cases applies; it is never returned.
   */
  method GetClosestNeighbors(userEntries: seq<UserTableModel>, userRank: int)
    returns (r: Result<seq<AnonRankingModel>>)
    requires 0 <= userRank < |userEntries|
    ensures r.Success?
    ensures r.value == ClosestNeighbors(userEntries, userRank)
  {
    var count := |userEntries|;
    var neighbors;
    if count < 5 {
      neighbors := CollectWindow(userEntries, 0, count, userRank);
      return Success(neighbors);
    }
    if userRank + 2 < count && userRank - 2 >= 0 {
      neighbors := CollectWindow(userEntries, userRank - 2, userRank + 3, userRank);
      return Success(neighbors);
    }
    if userRank + 2 >= count {
      neighbors := CollectWindow(userEntries, count - 5, count, userRank);
      return Success(neighbors);
    }
    if userRank - 2 >= 0 {
      return Failure(InvalidRanking);
    }
    neighbors := CollectWindow(userEntries, 0, 5, userRank);
    return Success(neighbors);
  }

  /**
   * Lines 49, 53 and 54 of the request: copy the fetched rows into a list,
   * sort it by ascending watchtime and reverse it, giving a leaderboard.
   */
  method OrderEntries(fetched: seq<UserTableModel>) returns (userEntries: array<UserTableModel>)
    ensures fresh(userEntries)
    ensures IsLeaderboard(userEntries[..], fetched)
  {
    userEntries := new UserTableModel[|fetched|](i requires 0 <= i < |fetched| => fetched[i]);
    assert userEntries[..] == fetched;
    Sort(userEntries);
    ghost var ascending := userEntries[..];
    Reverse(userEntries);
    ReverseOfAscending(ascending, userEntries[..]);
  }

  /**
   * The in-memory part of the ranking request: order the fetched rows best
   * first, find the user, and report their position, watchtime and
   * neighbours, or `UserNotFound`.
   */
  method GetRanking(fetched: seq<UserTableModel>, userId: string) returns (r: Result<RankingModel>)
    ensures r == Failure(UserNotFound) <==> forall e :: e in fetched ==> e.rowKey != userId
    ensures r != Failure(InvalidRanking)
    ensures exists board :: IsLeaderboard(board, fetched) && r == RankingOf(board, userId)
  {
    var userEntries := OrderEntries(fetched);
    ghost var board := userEntries[..];
    var userRank := FindIndex(userEntries, userId);
    if userRank == -1 {
      r := Failure(UserNotFound);
    } else {
      var closestNeighbors := GetClosestNeighbors(userEntries[..], userRank);
      if closestNeighbors.Failure? {
        return Failure(InvalidRanking);
      }
      r := Success(RankingModel(userRank + 1, userEntries[userRank].totalWatchtime, closestNeighbors.value));
    }
    assert r == RankingOf(board, userId);
    LeaderboardKeepsRows(board, fetched, userId);
  }

  // ---------------------------------------------------------------------------
  // Lemmas the request needs
  // ---------------------------------------------------------------------------

  /** Reversing an ascending sequence gives leaderboard order. */
  lemma ReverseOfAscending(ascending: seq<UserTableModel>, reversed: seq<UserTableModel>)
    requires Ascending(ascending) && |reversed| == |ascending|
    requires forall k :: 0 <= k < |reversed| ==> reversed[k] == ascending[|ascending| - 1 - k]
    ensures NonIncreasing(reversed)
  {
  }

  /** A leaderboard has a row for `userId` exactly when the fetched rows do. */
  lemma LeaderboardKeepsRows(board: seq<UserTableModel>, fetched: seq<UserTableModel>, userId: string)
    requires IsLeaderboard(board, fetched)
    ensures (forall i :: 0 <= i < |board| ==> board[i].rowKey != userId)
        <==> (forall e :: e in fetched ==> e.rowKey != userId)
  {
    forall e | e in fetched
      ensures e in board
    {
      assert e in multiset(fetched);
    }
    forall i | 0 <= i < |board|
      ensures board[i] in fetched
    {
      assert board[i] in multiset(board);
    }
  }
}
