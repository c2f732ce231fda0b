/**
 * The prize table of the spin wheel and the weighted draw over it
 * (features.js: the `wheelPrizes` configuration and `selectWinningPrize`).
 */
module Prizes {
  import opened Wrappers

  /** The `type` tag of a prize entry. */
  datatype PrizeType = Thanks | Time | Data | Bonus

  /** One entry of the prize table; `value` is the grant-size tag, absent on thanks/bonus. */
  datatype Prize = Prize(name: string, weight: nat, kind: PrizeType, value: Option<string>)

  /** The wheel's static prize table, in wheel order. */
  const WheelPrizes: seq<Prize> := [
    Prize("Thanks", 60, Thanks, None),
    Prize("3 Hours", 8, Time, Some("3h")),
    Prize("100MB", 10, Data, Some("100mb")),
    Prize("1GB", 5, Data, Some("1gb")),
    Prize("500MB", 7, Data, Some("500mb")),
    Prize("1 Hour", 8, Time, Some("1h")),
    Prize("1 More Chance", 2, Bonus, None)
  ]

  /** Sum of the weights of `table`. */
  function TotalWeight(table: seq<Prize>): nat
  {
    if table == [] then 0 else TotalWeight(table[..|table| - 1]) + table[|table| - 1].weight
  }

  /** Sum of the weights of the entries before index `k`: where entry `k`'s slots begin. */
  function CumulativeWeight(table: seq<Prize>, k: nat): nat
    requires k <= |table|
  {
    TotalWeight(table[..k])
  }

  /**
   * The weighted population: every entry replicated `weight` times, in table order
   * (what the nested loops of the draw push).
   */
  function Population(table: seq<Prize>): (pop: seq<Prize>)
    ensures |pop| == TotalWeight(table)
  {
    if table == [] then []
    else
      var last := table[|table| - 1];
      Population(table[..|table| - 1]) + seq(last.weight, _ => last)
  }

  /**
   * Reference definition of the draw by cumulative weights: the index of the entry
   * whose interval [CumulativeWeight(k), CumulativeWeight(k + 1)) contains `r`.
   */
  function PrizeIndexAt(table: seq<Prize>, r: nat): (k: nat)
    requires r < TotalWeight(table)
    ensures k < |table|
    ensures CumulativeWeight(table, k) <= r < CumulativeWeight(table, k + 1)
  {
    var n := |table| - 1;
    if r >= TotalWeight(table[..n]) then
      assert table[..n + 1] == table;
      n
    else
      var k := PrizeIndexAt(table[..n], r);
      assert table[..n][..k] == table[..k] && table[..n][..k + 1] == table[..k + 1];
      k
  }

  /** Cumulative weights never decrease along the table. */
  lemma {:induction false} CumulativeMonotone(table: seq<Prize>, i: nat, j: nat)
    requires i <= j <= |table|
    ensures CumulativeWeight(table, i) <= CumulativeWeight(table, j)
  {
    if i < j {
      CumulativeMonotone(table, i, j - 1);
      assert table[..j][..j - 1] == table[..j - 1];
    }
  }

  /** Entry `k` fills exactly the slots of its cumulative-weight interval. */
  lemma {:induction false} PopulationSlot(table: seq<Prize>, k: nat, j: nat)
    requires k < |table|
    requires CumulativeWeight(table, k) <= j < CumulativeWeight(table, k + 1)
    ensures j < TotalWeight(table) && Population(table)[j] == table[k]
  {
    var n := |table| - 1;
    var front := table[..n];
    assert table[..n + 1] == table;
    CumulativeMonotone(table, k + 1, |table|);
    if k < n {
      assert front[..k] == table[..k] && front[..k + 1] == table[..k + 1];
      CumulativeMonotone(front, k + 1, n);
      assert front[..n] == front;
      PopulationSlot(front, k, j);
    } else {
      assert table[..k] == front;
    }
  }

  /** At most one entry's interval contains a slot, so the reference draw is unique. */
  lemma IntervalUnique(table: seq<Prize>, r: nat, k: nat)
    requires k < |table|
    requires CumulativeWeight(table, k) <= r < CumulativeWeight(table, k + 1)
    ensures r < TotalWeight(table) && k == PrizeIndexAt(table, r)
  {
    CumulativeMonotone(table, k + 1, |table|);
    assert table[..|table|] == table;
    var k0 := PrizeIndexAt(table, r);
    if k < k0 {
      CumulativeMonotone(table, k + 1, k0);
    } else if k0 < k {
      CumulativeMonotone(table, k0 + 1, k);
    }
  }

  /** The draw through the population agrees with the cumulative-weight definition. */
  lemma DrawByCumulativeWeight(table: seq<Prize>, r: nat)
    requires r < TotalWeight(table)
    ensures Population(table)[r] == table[PrizeIndexAt(table, r)]
  {
    PopulationSlot(table, PrizeIndexAt(table, r), r);
  }

  /**
   * Builds the weighted population with two nested loops and picks the slot the random
   * index `r` falls on; `r` stands for `Math.floor(Math.random() * length)`.
   */
  method SelectWinningPrize(table: seq<Prize>, r: nat) returns (prize: Prize)
    requires r < TotalWeight(table)
    ensures prize == Population(table)[r]
    ensures prize == table[PrizeIndexAt(table, r)]
  {
    var weightedPrizes: seq<Prize> := [];
    var k := 0;
    while k < |table|
      invariant 0 <= k <= |table|
      invariant weightedPrizes == Population(table[..k])
    {
      var entry := table[k];
      var i := 0;
      while i < entry.weight
        invariant 0 <= i <= entry.weight
        invariant weightedPrizes == Population(table[..k]) + seq(i, _ => entry)
      {
        weightedPrizes := weightedPrizes + [entry];
        i := i + 1;
      }
      assert table[..k + 1][..k] == table[..k];
      k := k + 1;
    }
    assert table[..|table|] == table;
    prize := weightedPrizes[r];
    DrawByCumulativeWeight(table, r);
  }

  /** The cumulative weights of the wheel's table: Thanks fills slots 0-59, the bonus 98-99. */
  lemma WheelCumulativeWeights()
    ensures CumulativeWeight(WheelPrizes, 1) == 60
    ensures CumulativeWeight(WheelPrizes, 2) == 68
    ensures CumulativeWeight(WheelPrizes, 3) == 78
    ensures CumulativeWeight(WheelPrizes, 4) == 83
    ensures CumulativeWeight(WheelPrizes, 5) == 90
    ensures CumulativeWeight(WheelPrizes, 6) == 98
    ensures TotalWeight(WheelPrizes) == 100
  {
    var t := WheelPrizes;
    assert t[..1][..0] == [];
    assert TotalWeight(t[..1]) == 60;
    assert t[..2][..1] == t[..1];
    assert TotalWeight(t[..2]) == 68;
    assert t[..3][..2] == t[..2];
    assert TotalWeight(t[..3]) == 78;
    assert t[..4][..3] == t[..3];
    assert TotalWeight(t[..4]) == 83;
    assert t[..5][..4] == t[..4];
    assert TotalWeight(t[..5]) == 90;
    assert t[..6][..5] == t[..5];
    assert TotalWeight(t[..6]) == 98;
    assert t[..6] == t[..|t| - 1];
  }

  /** Only the last two slots of the wheel's population draw the bonus spin. */
  lemma WheelBonusSlots(r: nat)
    requires r < TotalWeight(WheelPrizes)
    ensures Population(WheelPrizes)[r].kind == Bonus <==> r >= 98
  {
    WheelCumulativeWeights();
    var k := PrizeIndexAt(WheelPrizes, r);
    DrawByCumulativeWeight(WheelPrizes, r);
    if k < 6 {
      CumulativeMonotone(WheelPrizes, k + 1, 6);
    }
  }
}
