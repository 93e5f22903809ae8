/** One row of the combined match table, as the feature builders and the Elo replay read it. */
module MatchData {

  type PlayerId = int
  type Surface = string

  /** A match date as a day number, so that `(a - b).days` is the integer difference. */
  type Date = int

  /** A match row; the tables are processed in the order given (already sorted by date). */
  datatype MatchRow = MatchRow(winnerId: PlayerId, loserId: PlayerId, surface: Surface, date: Date)
}
