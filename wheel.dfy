/**
 * The spin control flow (features.js: `handleSpin` and its completion callback): the
 * in-flight flag, the quota check before the draw, and the dispatch of the drawn prize.
 * The animation delay is modelled as a separate call that completes the spin.
 */
module Wheel {
  import opened Wrappers
  import opened Prizes
  import opened Persisted
  import Quota
  import WinLog
  import opened Rewards
  import opened Storage

  /** The in-flight flag, the prize the pending completion will hand out, and the store. */
  datatype WheelState = WheelState(running: bool, pending: Option<Prize>, store: Store)

  /** What a click on the spin button does. */
  datatype SpinOutcome = AlreadySpinning | NoSpinsLeft | Spinning(prize: Prize)

  /** A completion is pending exactly while a spin is in flight. */
  predicate Consistent(w: WheelState)
  {
    w.running <==> w.pending.Some?
  }

  /**
   * `handleSpin`: rejected while a spin is in flight; otherwise a spin is taken from the
   * quota and only then is a prize drawn at the random slot `r`.
   */
  function Spin(w: WheelState, today: string, r: nat): (res: (WheelState, SpinOutcome))
    requires r < TotalWeight(WheelPrizes)
    ensures w.running ==> res == (w, AlreadySpinning)
    ensures res.1.AlreadySpinning? <==> w.running
    ensures !w.running ==> (res.1.NoSpinsLeft? <==> Quota.Remaining(w.store, today) == 0)
    ensures !w.running && Quota.Remaining(w.store, today) > 0 ==> res.1.Spinning?
    ensures res.1.NoSpinsLeft? ==>
      !res.0.running && res.0.pending == w.pending && res.0.store == Quota.Rolled(w.store, today)
    ensures res.1.Spinning? ==>
      && res.0.running
      && res.0.pending == Some(res.1.prize)
      && res.1.prize == WheelPrizes[PrizeIndexAt(WheelPrizes, r)]
      && Quota.Remaining(res.0.store, today) == Quota.Remaining(w.store, today) - 1
      && res.0.store == Quota.UseSpin(w.store, today).0
    ensures res.0.store.totalSpins == w.store.totalSpins && res.0.store.winHistory == w.store.winHistory
    ensures Consistent(w) ==> Consistent(res.0)
  {
    if w.running then (w, AlreadySpinning)
    else
      var (s, ok) := Quota.UseSpin(w.store, today);
      if !ok then (w.(store := s), NoSpinsLeft)
      else
        DrawByCumulativeWeight(WheelPrizes, r);
        var prize := Population(WheelPrizes)[r];
        (WheelState(true, Some(prize), s), Spinning(prize))
  }

  /**
   * The completion callback: clears the flag, refreshes the spin display (whose quota read
   * performs the day rollover), dispatches the prize (a bonus adds a spin) and logs the win.
   */
  function Finish(w: WheelState, today: string, date: string, timestamp: int): (res: (WheelState, Action))
    requires w.pending.Some?
    ensures !res.0.running && res.0.pending == None && Consistent(res.0)
    ensures res.1 == ResolvePrize(w.pending.value)
    ensures res.0.store.lastSpinDate == Some(today)
    ensures !w.store.winHistory.CorruptHistory? ==>
      res.0.store.winHistory ==
        Entries(WinLog.Prepend(WinLog.Records(w.store.winHistory), WinLog.RecordOf(w.pending.value, date, timestamp)))
    ensures w.store.winHistory.CorruptHistory? ==>
      res.0.store.winHistory == w.store.winHistory && res.0.store.totalSpins == w.store.totalSpins
    ensures Quota.Remaining(res.0.store, today) ==
      Quota.Remaining(w.store, today) + (if w.pending.value.kind == Bonus then 1 else 0)
    ensures !w.store.winHistory.CorruptHistory? ==>
      res.0.store.winHistory.Entries? && |res.0.store.winHistory.records| > 0 &&
      res.0.store.winHistory.records[0] == WinLog.RecordOf(w.pending.value, date, timestamp)
    ensures w.store.totalSpins.Num? && !w.store.winHistory.CorruptHistory? ==>
      res.0.store.totalSpins == Num(w.store.totalSpins.n + 1)
  {
    var prize := w.pending.value;
    var action := ResolvePrize(prize);
    var shown := Quota.Rolled(w.store, today);
    var s := if action.BonusGranted? then Quota.AddBonus(shown, today) else shown;
    var t := WinLog.AfterLog(s, WinLog.RecordOf(prize, date, timestamp));
    Quota.RemainingOnQuotaKeys(t, s, today);
    (WheelState(false, None, t), action)
  }

  /**
   * A bonus win lets the player spin again at once, even when the day's allowance was
   * used up by the spin that won it.
   */
  lemma BonusWinAllowsRespin(w: WheelState, today: string, r1: nat, r2: nat, date: string, timestamp: int)
    requires !w.running
    requires r1 < TotalWeight(WheelPrizes) && r2 < TotalWeight(WheelPrizes)
    requires Spin(w, today, r1).1.Spinning?
    requires r1 >= 98
    ensures Spin(Finish(Spin(w, today, r1).0, today, date, timestamp).0, today, r2).1.Spinning?
  {
    WheelBonusSlots(r1);
    DrawByCumulativeWeight(WheelPrizes, r1);
  }

  /**
   * On a fresh day with no bonus drawn, two spins go through and the third is refused.
   */
  lemma FreshDayTwoSpins(w: WheelState, today: string, r1: nat, r2: nat, r3: nat, date: string, timestamp: int)
    requires !w.running && w.store.lastSpinDate != Some(today)
    requires r1 < TotalWeight(WheelPrizes) && r2 < TotalWeight(WheelPrizes) && r3 < TotalWeight(WheelPrizes)
    requires r1 < 98 && r2 < 98
    ensures
      var (w1, o1) := Spin(w, today, r1);
      var (w2, _) := Finish(w1, today, date, timestamp);
      var (w3, o3) := Spin(w2, today, r2);
      var (w4, _) := Finish(w3, today, date, timestamp);
      var (_, o5) := Spin(w4, today, r3);
      o1.Spinning? && o3.Spinning? && o5.NoSpinsLeft?
  {
    WheelCumulativeWeights();
    WheelBonusSlots(r1);
    WheelBonusSlots(r2);
    DrawByCumulativeWeight(WheelPrizes, r1);
    DrawByCumulativeWeight(WheelPrizes, r2);
  }

  class SpinWheel {
    var spinAnimationRunning: bool
    var pendingPrize: Option<Prize>
    const ledger: Ledger

    function State(): WheelState
      reads this, ledger
    {
      WheelState(spinAnimationRunning, pendingPrize, ledger.State())
    }

    constructor (ledger: Ledger)
      ensures this.ledger == ledger
      ensures !spinAnimationRunning && pendingPrize == None
      ensures Consistent(State())
    {
      this.ledger := ledger;
      spinAnimationRunning := false;
      pendingPrize := None;
    }

    /** `handleSpin`, with `r` the random slot of the weighted draw. */
    method HandleSpin(today: string, r: nat) returns (outcome: SpinOutcome)
      requires r < TotalWeight(WheelPrizes)
      requires Consistent(State())
      modifies this, ledger
      ensures (State(), outcome) == Spin(old(State()), today, r)
      ensures Consistent(State())
    {
      if spinAnimationRunning {
        return AlreadySpinning;
      }
      var ok := ledger.UseSpinChance(today);
      if !ok {
        return NoSpinsLeft;
      }
      spinAnimationRunning := true;
      var prize := SelectWinningPrize(WheelPrizes, r);
      pendingPrize := Some(prize);
      outcome := Spinning(prize);
    }

    /** The spin-completion callback: clear the flag, then `handleSpinResult` on the prize. */
    method CompleteSpin(today: string, date: string, timestamp: int) returns (action: Action)
      requires Consistent(State()) && spinAnimationRunning
      modifies this, ledger
      ensures (State(), action) == Finish(old(State()), today, date, timestamp)
      ensures Consistent(State())
    {
      spinAnimationRunning := false;
      var prize := pendingPrize.value;
      pendingPrize := None;
      var _ := ledger.GetRemainingSpins(today);  // the display refresh's quota read
      action := ResolvePrize(prize);
      if prize.kind == Bonus {
        ledger.AddBonusSpinChance(today);
      }
      ledger.LogSpinResult(prize, date, timestamp);
    }
  }
}
