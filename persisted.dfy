/**
 * The persisted keys of the feature module (`dailySpins`, `lastSpinDate`, `totalSpins`,
 * `winHistory`), as the values the code reads back from storage.
 */
module Persisted {
  import opened Wrappers
  import opened Prizes

  /**
   * A stored integer as `parseInt` sees it: absent (or empty), not a number, or a number.
   * Writing an integer stores its decimal text, which reads back as `Num`.
   */
  datatype Stored = Missing | Unparsable | Num(n: int)

  /** One entry of the win history (`date` is the ISO time text, `timestamp` milliseconds). */
  datatype WinRecord = WinRecord(date: string, prize: string, kind: PrizeType, timestamp: int)

  /**
   * The stored win history: absent (read as `[]`), text that `JSON.parse` rejects or that
   * is not an array, or a list of records, newest first.
   */
  datatype StoredHistory = NoHistory | CorruptHistory | Entries(records: seq<WinRecord>)

  /** The whole persisted state of the reward subsystem. */
  datatype Store = Store(
    dailySpins: Stored,
    lastSpinDate: Option<string>,
    totalSpins: Stored,
    winHistory: StoredHistory)
}
