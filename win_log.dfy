/**
 * The win history and the lifetime spin counter (features.js: `logSpinResult`),
 * as a function from the old store to the new one.
 */
module WinLog {
  import opened Wrappers
  import opened Persisted
  import opened Prizes

  /** Entries kept in the history (`history.splice(50)`). */
  const HistoryLimit: nat := 50

  /** The record `logSpinResult` writes for a prize. */
  function RecordOf(p: Prize, date: string, timestamp: int): WinRecord
  {
    WinRecord(date, p.name, p.kind, timestamp)
  }

  /** `unshift` the new entry, then drop everything past the limit. */
  function Prepend(history: seq<WinRecord>, entry: WinRecord): (r: seq<WinRecord>)
    ensures |r| == Min(|history| + 1, HistoryLimit)
    ensures r[0] == entry
    ensures r[1..] == history[..|r| - 1]
  {
    var h := [entry] + history;
    if |h| > HistoryLimit then h[..HistoryLimit] else h
  }

  /**
   * `parseInt(stored || '0')`: an absent key reads as 0, text that is not a number
   * reads as NaN (`None`).
   */
  function ReadTotal(v: Stored): Option<int>
  {
    match v
    case Missing => Some(0)
    case Unparsable => None
    case Num(n) => Some(n)
  }

  /** The counter after `+ 1` is stored: NaN stays NaN. */
  function IncrementTotal(v: Stored): (w: Stored)
    ensures ReadTotal(v).Some? ==> w == Num(ReadTotal(v).value + 1)
    ensures ReadTotal(v).None? ==> ReadTotal(w).None?
  {
    match ReadTotal(v)
    case Some(n) => Num(n + 1)
    case None => Unparsable
  }

  /** The records a readable history holds; an absent history is empty. */
  function Records(h: StoredHistory): seq<WinRecord>
    requires !h.CorruptHistory?
  {
    if h.Entries? then h.records else []
  }

  /**
   * The store after `logSpinResult(entry)`: the entry is prepended to the history and the
   * counter incremented; a history `JSON.parse` cannot use aborts both writes.
   */
  function AfterLog(s: Store, entry: WinRecord): (t: Store)
    ensures t.dailySpins == s.dailySpins && t.lastSpinDate == s.lastSpinDate
    ensures s.winHistory.CorruptHistory? ==> t == s
    ensures !s.winHistory.CorruptHistory? ==>
      && t.winHistory.Entries?
      && |t.winHistory.records| == Min(|Records(s.winHistory)| + 1, HistoryLimit)
      && t.winHistory.records[0] == entry
      && t.winHistory.records[1..] == Records(s.winHistory)[..|t.winHistory.records| - 1]
    ensures !s.winHistory.CorruptHistory? ==> t.totalSpins == IncrementTotal(s.totalSpins)
    ensures !s.winHistory.CorruptHistory? && ReadTotal(s.totalSpins).Some? ==>
      t.totalSpins == Num(ReadTotal(s.totalSpins).value + 1)
  {
    if s.winHistory.CorruptHistory? then s
    else s.(winHistory := Entries(Prepend(Records(s.winHistory), entry)),
            totalSpins := IncrementTotal(s.totalSpins))
  }

  /** The store after logging `wins` one after another, oldest first. */
  function LogAll(s: Store, wins: seq<WinRecord>): Store
  {
    if wins == [] then s else AfterLog(LogAll(s, wins[..|wins| - 1]), wins[|wins| - 1])
  }

  /** `wins` newest first. */
  function Reversed(wins: seq<WinRecord>): (r: seq<WinRecord>)
    ensures |r| == |wins|
  {
    if wins == [] then [] else [wins[|wins| - 1]] + Reversed(wins[..|wins| - 1])
  }

  /** Position `i` of the reversed list is the `i`-th most recent win. */
  lemma {:induction false} ReversedAt(wins: seq<WinRecord>, i: nat)
    requires i < |wins|
    ensures Reversed(wins)[i] == wins[|wins| - 1 - i]
  {
    if i > 0 {
      ReversedAt(wins[..|wins| - 1], i - 1);
    }
  }

  /** Truncating a history before prepending to it changes nothing. */
  lemma PrependIgnoresTruncation(x: seq<WinRecord>, e: WinRecord)
    ensures Prepend(x[..Min(|x|, HistoryLimit)], e) == Prepend(x, e)
  {
  }

  /**
   * After one or more wins the history holds the newest wins first, followed by the
   * previous history, cut at the limit; the counter grows by the number of wins.
   */
  lemma {:induction false} HistoryAfterWins(s: Store, wins: seq<WinRecord>)
    requires s.winHistory.Entries? && wins != []
    ensures LogAll(s, wins).winHistory.Entries?
    ensures LogAll(s, wins).winHistory.records ==
      (Reversed(wins) + s.winHistory.records)[..Min(|wins| + |s.winHistory.records|, HistoryLimit)]
    ensures s.totalSpins.Num? ==> LogAll(s, wins).totalSpins == Num(s.totalSpins.n + |wins|)
  {
    var h := s.winHistory.records;
    var n := |wins| - 1;
    var front := wins[..n];
    var e := wins[n];
    var x := Reversed(front) + h;
    var prev := LogAll(s, front);
    if n == 0 {
      assert prev == s && x == h;
    } else {
      HistoryAfterWins(s, front);
      assert prev.winHistory.records == x[..Min(|x|, HistoryLimit)];
      PrependIgnoresTruncation(x, e);
    }
    assert LogAll(s, wins).winHistory.records == Prepend(x, e);
    assert Reversed(wins) + h == [e] + x;
  }

  /**
   * From an empty history, after at least 50 wins exactly the 50 most recent are kept,
   * newest first; the older ones are gone.
   */
  lemma HistoryKeepsNewestFifty(s: Store, wins: seq<WinRecord>)
    requires s.winHistory == NoHistory || s.winHistory == Entries([])
    requires |wins| >= HistoryLimit
    ensures LogAll(s, wins).winHistory.Entries?
    ensures |LogAll(s, wins).winHistory.records| == HistoryLimit
    ensures forall i :: 0 <= i < HistoryLimit ==>
      LogAll(s, wins).winHistory.records[i] == wins[|wins| - 1 - i]
  {
    var s0 := s.(winHistory := Entries([]));
    LogAllFromEmpty(s, wins);
    HistoryAfterWins(s0, wins);
    var rev := Reversed(wins);
    var records := LogAll(s0, wins).winHistory.records;
    assert records == (rev + [])[..HistoryLimit];
    assert rev + [] == rev;
    forall i | 0 <= i < HistoryLimit
      ensures records[i] == wins[|wins| - 1 - i]
    {
      ReversedAt(wins, i);
    }
  }

  /** An absent history and an empty one log the same wins alike. */
  lemma {:induction false} LogAllFromEmpty(s: Store, wins: seq<WinRecord>)
    requires s.winHistory == NoHistory || s.winHistory == Entries([])
    requires wins != []
    ensures LogAll(s, wins).winHistory == LogAll(s.(winHistory := Entries([])), wins).winHistory
  {
    if |wins| > 1 {
      LogAllFromEmpty(s, wins[..|wins| - 1]);
    }
  }
}
