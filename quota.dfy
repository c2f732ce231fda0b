/**
 * The daily spin quota over the persisted state (features.js: `getRemainingSpins`,
 * `useSpinChance`, `addBonusSpinChance`), as functions from the old store to the new one.
 * `today` is the `Date.toDateString()` text of the current day.
 */
module Quota {
  import opened Wrappers
  import opened Persisted

  /** Spins granted on the first quota read of a new day. */
  const DailyAllowance: int := 2

  /** `parseInt(stored) || 0`: anything that is not a number reads as 0. */
  function ReadCount(v: Stored): int
  {
    if v.Num? then v.n else 0
  }

  /** The store after the lazy day rollover that every quota read performs. */
  function Rolled(s: Store, today: string): (t: Store)
    ensures t.lastSpinDate == Some(today)
    ensures t.totalSpins == s.totalSpins && t.winHistory == s.winHistory
    ensures s.lastSpinDate == Some(today) ==> t == s
    ensures s.lastSpinDate != Some(today) ==> ReadCount(t.dailySpins) == DailyAllowance
  {
    if s.lastSpinDate == Some(today) then s
    else s.(dailySpins := Num(DailyAllowance), lastSpinDate := Some(today))
  }

  /** What `getRemainingSpins` returns on day `today`. */
  function Remaining(s: Store, today: string): (n: int)
    ensures n >= 0
    ensures s.lastSpinDate != Some(today) ==> n == DailyAllowance
    ensures s.lastSpinDate == Some(today) && ReadCount(s.dailySpins) >= 0 ==> n == ReadCount(s.dailySpins)
    ensures s.lastSpinDate == Some(today) && ReadCount(s.dailySpins) < 0 ==> n == 0
  {
    Max(0, ReadCount(Rolled(s, today).dailySpins))
  }

  /** The quota read depends on the count and the day marker only. */
  lemma RemainingOnQuotaKeys(s: Store, t: Store, today: string)
    requires s.dailySpins == t.dailySpins && s.lastSpinDate == t.lastSpinDate
    ensures Remaining(s, today) == Remaining(t, today)
  {
  }

  /** Reading the quota twice on the same day is the same as reading it once. */
  lemma RolledIdempotent(s: Store, today: string)
    ensures Rolled(Rolled(s, today), today) == Rolled(s, today)
    ensures Remaining(Rolled(s, today), today) == Remaining(s, today)
  {
  }

  /**
   * `useSpinChance`: succeeds exactly when a spin remains, and then stores one fewer;
   * on failure only the rollover is written.
   */
  function UseSpin(s: Store, today: string): (res: (Store, bool))
    ensures res.1 <==> Remaining(s, today) > 0
    ensures Remaining(res.0, today) == if res.1 then Remaining(s, today) - 1 else Remaining(s, today)
    ensures !res.1 ==> res.0 == Rolled(s, today)
    ensures res.0.lastSpinDate == Some(today)
    ensures res.0.totalSpins == s.totalSpins && res.0.winHistory == s.winHistory
  {
    var n := Remaining(s, today);
    var t := Rolled(s, today);
    if n > 0 then (t.(dailySpins := Num(n - 1)), true) else (t, false)
  }

  /** `addBonusSpinChance`: one more spin than remained, with no cap at the allowance. */
  function AddBonus(s: Store, today: string): (t: Store)
    ensures Remaining(t, today) == Remaining(s, today) + 1
    ensures t.lastSpinDate == Some(today)
    ensures t.totalSpins == s.totalSpins && t.winHistory == s.winHistory
  {
    var n := Remaining(s, today);
    Rolled(s, today).(dailySpins := Num(n + 1))
  }

  /** `n` consecutive `useSpinChance` calls on one day: the final store and how many succeeded. */
  function UseRepeatedly(s: Store, today: string, n: nat): (Store, nat)
    decreases n
  {
    if n == 0 then (s, 0)
    else
      var (t, ok) := UseSpin(s, today);
      var (u, k) := UseRepeatedly(t, today, n - 1);
      (u, if ok then k + 1 else k)
  }

  /** Consecutive uses succeed as long as spins remain, and each success removes one. */
  lemma {:induction false} UseRepeatedlyCount(s: Store, today: string, n: nat)
    ensures UseRepeatedly(s, today, n).1 == Min(n, Remaining(s, today))
    ensures Remaining(UseRepeatedly(s, today, n).0, today) == Remaining(s, today) - Min(n, Remaining(s, today))
    ensures n > 0 ==> UseRepeatedly(s, today, n).0.lastSpinDate == Some(today)
    decreases n
  {
    if n > 0 {
      var (t, ok) := UseSpin(s, today);
      UseRepeatedlyCount(t, today, n - 1);
    }
  }

  /**
   * On a fresh day, N consecutive uses succeed exactly min(N, 2) times, and once
   * two have succeeded every further use fails until the day changes.
   */
  lemma FreshDayAllowance(s: Store, today: string, n: nat)
    requires s.lastSpinDate != Some(today)
    ensures UseRepeatedly(s, today, n).1 == Min(n, DailyAllowance)
    ensures n >= DailyAllowance ==> !UseSpin(UseRepeatedly(s, today, n).0, today).1
  {
    UseRepeatedlyCount(s, today, n);
  }

  /**
   * Whatever happened on day d1, the first read on another day d2 sees the full
   * allowance: neither unused nor negative spins carry over.
   */
  lemma NewDayRestoresAllowance(s: Store, d1: string, d2: string, n: nat)
    requires d1 != d2 && n > 0
    ensures Remaining(UseRepeatedly(s, d1, n).0, d2) == DailyAllowance
  {
    UseRepeatedlyCount(s, d1, n);
  }

  /** After a bonus, the next use succeeds even when the day's allowance was spent. */
  lemma BonusAllowsImmediateUse(s: Store, today: string, n: nat)
    ensures UseSpin(AddBonus(UseRepeatedly(s, today, n).0, today), today).1
  {
  }

  /** Bonus spins are not capped: two bonuses on a fresh day leave four spins. */
  lemma BonusExceedsAllowance(s: Store, today: string)
    requires s.lastSpinDate != Some(today)
    ensures Remaining(AddBonus(AddBonus(s, today), today), today) == DailyAllowance + 2
  {
  }
}
