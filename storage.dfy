/**
 * The browser storage the feature module reads and writes, one field per key, and the
 * read-modify-write operations on it (features.js: `getRemainingSpins`, `useSpinChance`,
 * `addBonusSpinChance`, `logSpinResult`).
 */
module Storage {
  import opened Wrappers
  import opened Prizes
  import opened Persisted
  import Quota
  import WinLog

  class Ledger {
    var dailySpins: Stored
    var lastSpinDate: Option<string>
    var totalSpins: Stored
    var winHistory: StoredHistory

    /** The persisted keys as one value. */
    function State(): Store
      reads this
    {
      Store(dailySpins, lastSpinDate, totalSpins, winHistory)
    }

    constructor (initial: Store)
      ensures State() == initial
    {
      dailySpins := initial.dailySpins;
      lastSpinDate := initial.lastSpinDate;
      totalSpins := initial.totalSpins;
      winHistory := initial.winHistory;
    }

    /** Reads the quota, resetting it to the daily allowance on the first read of a day. */
    method GetRemainingSpins(today: string) returns (remaining: int)
      modifies this
      ensures State() == Quota.Rolled(old(State()), today)
      ensures remaining == Quota.Remaining(old(State()), today)
      ensures remaining >= 0
    {
      var spins := Quota.ReadCount(dailySpins);
      if lastSpinDate != Some(today) {
        spins := Quota.DailyAllowance;
        dailySpins := Num(spins);
        lastSpinDate := Some(today);
      }
      remaining := Max(0, spins);
    }

    /** Takes one spin from the quota if one remains. */
    method UseSpinChance(today: string) returns (ok: bool)
      modifies this
      ensures (State(), ok) == Quota.UseSpin(old(State()), today)
      ensures ok <==> Quota.Remaining(old(State()), today) > 0
    {
      var remaining := GetRemainingSpins(today);
      if remaining > 0 {
        var newCount := remaining - 1;
        dailySpins := Num(newCount);
        return true;
      }
      return false;
    }

    /** Adds one spin to the quota, beyond the daily allowance if need be. */
    method AddBonusSpinChance(today: string)
      modifies this
      ensures State() == Quota.AddBonus(old(State()), today)
      ensures Quota.Remaining(State(), today) == Quota.Remaining(old(State()), today) + 1
    {
      var currentSpins := GetRemainingSpins(today);
      var newCount := currentSpins + 1;
      dailySpins := Num(newCount);
    }

    /**
     * Records a win at the head of the history, keeps the newest 50 entries and counts
     * the spin; when the stored history cannot be parsed, nothing is written.
     */
    method LogSpinResult(prize: Prize, date: string, timestamp: int)
      modifies this
      ensures State() == WinLog.AfterLog(old(State()), WinLog.RecordOf(prize, date, timestamp))
    {
      if winHistory.CorruptHistory? {
        return;
      }
      var history := WinLog.Records(winHistory);
      var entry := WinLog.RecordOf(prize, date, timestamp);
      history := [entry] + history;
      if |history| > WinLog.HistoryLimit {
        history := history[..WinLog.HistoryLimit];
      }
      winHistory := Entries(history);
      var total := WinLog.ReadTotal(totalSpins);
      totalSpins := if total.Some? then Num(total.value + 1) else Unparsable;
    }
  }
}
