/**
 * The records the leaderboard works with: one table row per user, the
 * anonymised neighbour entry and the ranking answer returned to a client,
 * plus the two ways a ranking request can fail.
 */
module Model {

  /** A signed 64-bit integer, the width of the table's `TotalWatchtime` column. */
  newtype Int64 = x: int | -0x8000_0000_0000_0000 <= x < 0x8000_0000_0000_0000

  /**
   * One row of the watchtime table. Only the user id (the row key) and the
   * watchtime take part in the ranking; the partition key, the timestamp and
   * the ETag are not modelled.
   */
  datatype UserTableModel = UserTableModel(rowKey: string, totalWatchtime: Int64)

  /** A neighbour on the leaderboard: its 1-based position and watchtime, without its id. */
  datatype AnonRankingModel = AnonRankingModel(position: int, totalWatchtime: Int64)

  /** The answer to a ranking request: the user's 1-based position, watchtime and neighbours. */
  datatype RankingModel = RankingModel(
    position: int,
    totalWatchtime: Int64,
    closestNeighbors: seq<AnonRankingModel>)

  /**
   * `UserNotFound` is the "not found" answer for an id without a row;
   * `InvalidRanking` is the exception neighbour selection throws when its
   * case analysis falls through, which the request turns into a server error.
   */
  datatype RankingError = UserNotFound | InvalidRanking

  datatype Result<T> = Success(value: T) | Failure(error: RankingError)
}
