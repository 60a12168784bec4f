# Watchtime leaderboard ranking

A Dafny model of the ranking logic of the watchtime leaderboard service
(`Function/WatchtimeEntries.cs`). Clients store a cumulative watchtime per
user. A ranking request loads every row of the table and then:

1. sorts the rows by ascending watchtime in place and reverses them, which
   gives a leaderboard with the best watchtime first;
2. looks up the first row whose key is the requested user id, answering
   "user not found" when there is none;
3. answers with the user's 1-based position, the user's watchtime and up to
   four anonymised neighbours. `GetClosestNeighbors` picks these by a
   four-case window rule:
   - fewer than five rows: every other row;
   - two rows of room on both sides: the two rows above and the two below;
   - one of the last two rows: the other four of the last five;
   - one of the first two rows: the other four of the first five.

The source has a defensive `throw` behind those cases. The exception it
raises would turn into a server error.

Files:

- `model.dfy` (module `Model`) holds the records. A table row is
  `UserTableModel(rowKey, totalWatchtime)`. The answer is
  `RankingModel(position, totalWatchtime, closestNeighbors)`, and each
  neighbour is an `AnonRankingModel(position, totalWatchtime)`. Failures are a
  `Result` with `UserNotFound` or `InvalidRanking`.
- `ranking.dfy` (module `Ranking`) follows the request step by step as
  imperative code. The list is an `array` that `Sort` and `Reverse` change in
  place. `FindIndex` and `CollectWindow` are loops with invariants.
  `GetClosestNeighbors` keeps the source's if-chain, including the `throw`
  branch. Beside the methods are the functions that specify them, written
  without loops: `FirstIndex`, `Classify` (the four cases as a tagged
  enumeration plus the `throw`), `Window`, `WindowEntries`, `ClosestNeighbors`
  and `RankingOf`.
- `properties.dfy` (module `RankingProperties`) holds lemmas over those
  functions. They cover the shape of the neighbour list in each case, what the
  reported position and watchtime mean on any leaderboard of the fetched rows,
  and the worked boundary scenarios.

The sort is `List.Sort` with a comparison, which is not stable. The ordering
is sometimes described as stable, keeping equal watchtimes in the order the
store returned them. The model follows the code. `Sort` promises only a
permutation in ascending order. `GetRanking` promises only that its answer is
`RankingOf(board, userId)` for SOME leaderboard `board` of the fetched rows,
meaning any permutation with non-increasing watchtimes.

## Model

| member | source | states |
|---|---|---|
| `Ranking.GetRanking` | Function/WatchtimeEntries.cs:47-81 | The answer is `UserNotFound` exactly when no fetched row has the user id. It is never the server-error outcome. It equals `RankingOf(board, userId)` for some leaderboard `board` of the fetched rows. |
| `Ranking.OrderEntries` | Function/WatchtimeEntries.cs:49-54 | Copying, sorting and reversing the fetched rows yields a fresh list that is a leaderboard of them: the same rows as a multiset, with watchtimes non-increasing. |
| `Ranking.Sort` | Function/WatchtimeEntries.cs:53 | After sorting in place, the list is in ascending watchtime order and is a permutation of what it was. No order among equal watchtimes is promised. |
| `Ranking.Reverse` | Function/WatchtimeEntries.cs:54 | After reversing in place, every index holds the element that was at its mirror index, and the list is a permutation of what it was. |
| `Ranking.ReverseOfAscending` | Function/WatchtimeEntries.cs:53-54 | Reversing an ascending list gives non-increasing watchtimes, so the sort followed by the reverse gives leaderboard order. |
| `Ranking.FindIndex` | Function/WatchtimeEntries.cs:55 | The linear search returns the first index whose row key is the user id, or -1. |
| `Ranking.FirstIndex` | Function/WatchtimeEntries.cs:55 | The result is -1 exactly when no row has the id. Otherwise it is an in-range index whose row has the id, and no earlier row has it. |
| `Ranking.LeaderboardKeepsRows` | Function/WatchtimeEntries.cs:53-59 | A leaderboard has a row with the user id exactly when the fetched rows do, so reordering never causes or hides "not found". |
| `Ranking.Classify` | Function/WatchtimeEntries.cs:92-130 | The if-chain never reaches the `throw`, for any rank. Each case holds exactly under its condition: Small when there are fewer than 5 rows; Interior when `2 <= rank < count-2`; NearBottom when `rank >= count-2`; NearTop when `rank < 2` and `rank < count-2`. |
| `Ranking.Window` | Function/WatchtimeEntries.cs:92-136 | For a valid rank, the chosen index window always contains the user and has `min(count, 5)` indices, which leaves `min(count-1, 4)` neighbours. |
| `Ranking.CollectWindow` | Function/WatchtimeEntries.cs:94-98 | The loop that skips the user with `continue` yields, in index order, the entry `(i + 1, watchtime of row i)` for every window index `i` except the user's. |
| `Ranking.GetClosestNeighbors` | Function/WatchtimeEntries.cs:87-137 | For `0 <= rank < count` the method never fails, so the exception at line 128 and the server error at lines 76-79 cannot occur. Its result is `ClosestNeighbors(board, rank)`. |
| `RankingProperties.NeighborsAreOtherEntries` | Function/WatchtimeEntries.cs:94-133 | There are `count-1` neighbours below 5 rows and 4 otherwise. Each has a position in `1..count` that is not the user's, and the watchtime of the row at that position. Positions strictly increase. |
| `RankingProperties.WindowPositions` | Function/WatchtimeEntries.cs:118-122 | A position occurs among a window's neighbours exactly when it belongs to a window index other than the user's. |
| `RankingProperties.SmallBoardNeighbors` | Function/WatchtimeEntries.cs:92-100 | With fewer than 5 rows there are `count-1` neighbours, and their positions are exactly `1..count` minus the user's. |
| `RankingProperties.InteriorNeighbors` | Function/WatchtimeEntries.cs:104-113 | For `2 <= rank < count-2` the positions are exactly `rank-1, rank, rank+2, rank+3`: the two above and the two below. |
| `RankingProperties.NearBottomNeighbors` | Function/WatchtimeEntries.cs:116-125 | For `rank >= count-2` the positions are the last five minus the user's. That is `n-4..n-1` for the last row and `n-4, n-3, n-2, n` for the one before. |
| `RankingProperties.NearTopNeighbors` | Function/WatchtimeEntries.cs:128-136 | For `rank < 2` the positions are the first five minus the user's: `2,3,4,5` or `1,3,4,5`. |
| `RankingProperties.RankingIsLeaderboardPosition` | Function/WatchtimeEntries.cs:55-81 | On success the position is one plus the index of the user's first row. The watchtime is that row's, and that row is one of the fetched rows. Every row above has at least that watchtime and every row below at most that. |
| `RankingProperties.NotFoundIffAbsent` | Function/WatchtimeEntries.cs:55-68 | On any leaderboard of the fetched rows, the answer is `UserNotFound` exactly when no fetched row has the id. |
| `RankingProperties.WatchtimeIndependentOfTies` | Function/WatchtimeEntries.cs:53-81 | Whichever order the unstable sort gives equal watchtimes, the user is found or not found alike. With one row per id, the reported watchtime is the same. |
| `RankingProperties.ThreeUsersMiddle` | Function/WatchtimeEntries.cs:92-100 | Three rows 100, 90, 80 with the user in the middle give position 2, watchtime 90 and neighbours (1, 100) and (3, 80). |
| `RankingProperties.SixUsersInterior` | Function/WatchtimeEntries.cs:104-113 | Six rows 100..50 with the user at index 3 give neighbours at positions 2, 3, 5, 6. |
| `RankingProperties.SixUsersTop` | Function/WatchtimeEntries.cs:128-136 | Six rows with the user on top give neighbours at positions 2 to 5. |
| `RankingProperties.SixUsersBottom` | Function/WatchtimeEntries.cs:116-125 | Six rows with the user at the bottom give neighbours at positions 2 to 5, taken from the window of the last five. |
| `RankingProperties.AbsentUserNotFound` | Function/WatchtimeEntries.cs:59-68 | An id with no row, in a non-empty table or an empty one, gives `UserNotFound`. |

## Left out

- HTTP triggers, request and response objects, status codes, JSON
  serialisation and logging (WatchtimeEntries.cs:29-46, 56, 61-67, 82-84) are
  I/O. The outcomes appear as `Result` values instead: success,
  `UserNotFound` (the 404 response), and `InvalidRanking` (the 500 response
  for an exception from neighbour selection).
- The table query at lines 48-49 is replaced by the sequence of rows it
  returns. The constructor's table creation, `UpdateUser` and `DeleteUser`
  are thin wrappers over the external table store and are not modelled.
  `Function/Program.cs` is host setup and is not part of this model.
- `PartitionKey`, `Timestamp` and `ETag` of a table row play no part in the
  ranking and are not modelled.
- Ranking.Sort: the library's unstable introspective sort is not reproduced.
  A selection sort stands in for it, and its contract promises only what
  `List.Sort` promises, a permutation in ascending order. Any tie order the
  real sort produces is therefore one of the leaderboards `GetRanking`
  quantifies over.
- Positions are unbounded integers. The source computes them as a 32-bit
  list index plus one and stores them in 64-bit fields, which cannot overflow
  for a list that fits in memory. Watchtimes are 64-bit (`Int64`) and are only
  compared and copied.
- Neighbour selection is modelled only for `0 <= rank < count`. That is what
  its only caller passes, since `FindIndex` returned a non-negative index.
  `Classify` shows the `throw` is unreachable for every rank.
- Asynchronous execution and concurrent requests are not modelled. Each
  request works on its own snapshot of the rows.
