# SmartNet reward wheel: a Dafny model of the reward-allocation logic

This project models the reward-allocation core of the SmartNet captive-portal add-on
(`features.js`): the daily spin quota kept in browser storage, the weighted prize draw,
the weekend free-access window, the dispatch of a drawn prize to a session login or a
bonus spin, the bounded win history with its lifetime counter, and the guard that
allows only one spin in flight.

Layout, one module per component:

- `wrappers.dfy` (`Wrappers`): `Option`, `Min`, `Max`.
- `prizes.dfy` (`Prizes`): the 7-entry prize table, its weighted population, the
  cumulative-weight definition of the draw and `SelectWinningPrize`, which builds the
  population with nested loops as the source does.
- `free_wifi.dfy` (`FreeWifi`): the weekly schedule and the window test.
- `persisted.dfy` (`Persisted`): the persisted keys as values. A stored integer is
  `Missing`, `Unparsable` or `Num(n)`. The history is absent, corrupt (`JSON.parse` fails
  or the value is not an array) or a list of records.
- `quota.dfy` (`Quota`): the quota operations as functions from store to store, with
  lemmas about repeated use, day rollover and bonus spins.
- `win_log.dfy` (`WinLog`): logging a win as a function from store to store, with
  lemmas about a sequence of wins.
- `storage.dfy` (`Storage.Ledger`): a class with one field per storage key. Its methods
  do the source's read-modify-write steps, and each one is proved equal to the matching
  `Quota`/`WinLog` function.
- `rewards.dfy` (`Rewards`): the branch on the prize type, the session-type key and the
  credential table lookup.
- `wheel.dfy` (`Wheel`): the spin control flow as functions over (flag, pending prize,
  store), and the class `SpinWheel` whose methods are proved equal to them.

Clock and randomness are parameters. `today` is the `Date.toDateString()` text. The
weekday and hour are `getDay()`/`getHours()`. `r` is the draw's random slot
`Math.floor(Math.random() * length)`, so `0 <= r < length`. `date`/`timestamp` are the
time values written into a win record.

Where the design description and the code differ, the model follows the code:

- A failed `useSpinChance` still writes the day rollover, because `getRemainingSpins`
  performs it. So "no mutation on failure" holds only on the same day.
- The lifetime counter is read as `parseInt(value || '0')` with no `|| 0`. If the stored
  text is not a number, it becomes NaN and stays NaN. It goes up by one only when it was
  absent or a number.
- If the stored history cannot be parsed, `logSpinResult` catches the error and writes
  nothing. The counter is not incremented either.
- A bonus win only adds a spin. The player starts the next spin with another click;
  `BonusWinAllowsRespin` shows that this spin is accepted.
- A key that names no inherited property and has no own entry with a defined credential shows an alert and does not log in. This includes `'3h'` when the host provides no `'3h'` entry. No error value is returned. A key naming a property that every object inherits (`toString`, `constructor`, ...) is found by the lookup and starts a login with no username or password. The wheel's own prizes never produce such a key (`Rewards.WheelGrantsConnect`).

## Model

| member | source | states |
|---|---|---|
| Prizes.Population | features.js:298-305 | the weighted population has exactly as many slots as the weights add up to |
| Prizes.PrizeIndexAt | features.js:298-313 | every slot below the total weight lies in one entry's cumulative-weight interval [C(k), C(k+1)) |
| Prizes.PopulationSlot | features.js:301-305 | entry k fills every slot of its interval, i.e. exactly `weight` consecutive slots |
| Prizes.IntervalUnique | features.js:298-313 | no other entry's interval contains the slot, so the drawn entry is unique |
| Prizes.DrawByCumulativeWeight | features.js:307-309 | indexing the population at r gives the entry whose cumulative interval contains r |
| Prizes.SelectWinningPrize | features.js:298-313 | the nested push loops build the population, and the prize at slot r is the cumulative-weight entry |
| Prizes.WheelCumulativeWeights | features.js:7-15 | the table's weights total 100; Thanks holds slots 0-59 and the bonus spin slots 98-99 |
| Prizes.WheelBonusSlots | features.js:7-15 | the draw gives the bonus spin exactly for slots 98 and 99 |
| FreeWifi.FreeWifiTimeExactly | features.js:658-662 | free access holds exactly when the weekday is 0 or 6 and the hour is below 3 |
| FreeWifi.FreeWifiBoundaries | features.js:498-509 | Saturday 01:00 and Sunday 02:00 are free; Saturday 03:00 and Monday 01:00 are not |
| Quota.Rolled | features.js:195-201 | after a quota read the stored date is today; on a new day the count is reset to 2; on the same day nothing changes |
| Quota.Remaining | features.js:189-203 | the remaining spins are never negative; 2 on a new day, otherwise the stored count, with missing, unparsable or negative read as 0 |
| Quota.RolledIdempotent | features.js:169-187 | a second quota read on the same day changes nothing and returns the same number (the display refreshes' reads) |
| Quota.UseSpin | features.js:210-220 | a use succeeds exactly when a spin remains and then leaves one fewer; on failure only the rollover is written |
| Quota.AddBonus | features.js:222-228 | a bonus leaves one more spin than remained, with the date marker set to today |
| Quota.UseRepeatedlyCount | features.js:210-220 | n consecutive uses succeed min(n, remaining) times and remove that many spins |
| Quota.FreshDayAllowance | features.js:189-220 | on a fresh day n consecutive uses succeed min(n, 2) times; after two, further uses fail |
| Quota.NewDayRestoresAllowance | features.js:195-201 | after any number of uses on one day, the first read on another day returns the full allowance of 2 |
| Quota.BonusAllowsImmediateUse | features.js:222-228 | after a bonus the next use succeeds, even with the day's allowance used up |
| Quota.BonusExceedsAllowance | features.js:222-228 | bonus spins are uncapped: two bonuses on a fresh day give 4 spins |
| Storage.Ledger.GetRemainingSpins | features.js:189-208 | the stored keys become the rolled store and the result is the remaining count |
| Storage.Ledger.UseSpinChance | features.js:210-220 | the new stored keys and the result are those of `Quota.UseSpin` |
| Storage.Ledger.AddBonusSpinChance | features.js:222-228 | the new stored keys are those of `Quota.AddBonus`: one more remaining spin |
| Storage.Ledger.LogSpinResult | features.js:403-430 | the new stored keys are those of `WinLog.AfterLog` for the record of the prize |
| WinLog.Prepend | features.js:413-418 | the new entry is first, the length is min(old + 1, 50), and the rest is the old history's prefix in order |
| WinLog.IncrementTotal | features.js:422-424 | a readable counter goes up by exactly one; a NaN counter stays NaN |
| WinLog.AfterLog | features.js:403-430 | logging touches neither quota key; it prepends the entry and applies `+ 1` to the counter (NaN stays NaN), or does nothing when the history is unparsable |
| WinLog.HistoryAfterWins | features.js:403-424 | after k wins the history is the wins newest first followed by the old history, cut at 50, and the counter grew by k |
| WinLog.HistoryKeepsNewestFifty | features.js:413-418 | from an empty history, after 50 or more wins exactly the 50 newest remain, newest first |
| WinLog.LogAllFromEmpty | features.js:405 | a missing history is logged exactly like an empty one |
| Rewards.ResolvePrize | features.js:318-353 | thanks only shows a message; time and data prizes authenticate with `value` or `'data_' + value`; only a bonus adds a spin |
| Rewards.AuthenticateWonSession | features.js:361-401 | no credential object gives an alert; for an own key a login happens exactly when the table's entry is defined, with that entry; a key naming an inherited `Object.prototype` property starts a login without credentials |
| Rewards.TableKeysAreOwn | features.js:372-378 | none of the credential table's own keys names an inherited property |
| Rewards.UnknownKeyNeverConnects | features.js:380-400 | a key that is neither an own key of the credential table nor an inherited property never leads to a login |
| Rewards.InheritedKeyStartsLogin | features.js:380-391 | the key "toString" finds the inherited method, which is truthy, so a login starts |
| Rewards.WheelGrantsConnect | features.js:371-381 | every time/data prize of the wheel logs in, except the 3-hour prize when the host lacks its `'3h'` entry |
| Wheel.Spin | features.js:230-256 | the click is rejected exactly when a spin is in flight, and then nothing changes; an idle wheel with a spin left draws the prize at slot r after a quota use that removes one spin and stores exactly what `useSpinChance` writes (today's date, remaining − 1); an idle wheel without spins refuses and writes only the day rollover |
| Wheel.Finish | features.js:274-295 | the completion clears the flag, sets the date marker to today through the display refresh's rollover, dispatches the prize (a bonus adds one spin), and prepends the win to the old history cut at 50; a corrupt history leaves history and counter untouched |
| Wheel.BonusWinAllowsRespin | features.js:347-352 | after a bonus win the next click starts a spin |
| Wheel.FreshDayTwoSpins | features.js:230-241 | on a fresh day without bonus draws, two spins go through and the third is refused |
| Wheel.SpinWheel.HandleSpin | features.js:230-256 | the flag, pending prize and storage change as `Wheel.Spin` says, and a prize is pending exactly while the flag is set |
| Wheel.SpinWheel.CompleteSpin | features.js:274-295 | called while a spin is in flight; the flag, pending prize and storage change as `Wheel.Finish` says |

## Left out

- DOM and presentation are not modelled. This covers button text and style, modals, `showSpinResult`, `closeSpinResult`, the result titles and messages, `openCashRipple`, `setupAdvertisement`, `featureLog` and the button updates of `checkFreeWifiAvailability`. What remains of `checkFreeWifiAvailability` is its window test, the same one as `checkFreeWifiTime`, modelled once.
- `updateSpinDisplay` is modelled only through its quota read. In `useSpinChance` and `addBonusSpinChance` this read is omitted. The model assumes it sees the same day as the write before it. Each `getRemainingSpins` call reads the clock again, so a call that straddles midnight could see two days. On the same day the extra read changes nothing (`Quota.RolledIdempotent`). The read in the completion callback is kept, because the day may change during the animation.
- The model assumes both the spin button and the spin-count element exist. `updateSpinDisplay` returns before its quota read unless both exist. The completion callback calls it only when the button exists.
- Timers (`setTimeout`, `setInterval`) are not modelled. Spin completion is the explicit call `CompleteSpin`. The 3-second and 1-second delays before authentication are dropped: `authenticateWonSession` is applied to the session type that `ResolvePrize` returns.
- The wheel-angle arithmetic is not modelled, and neither is the `findIndex` that feeds it. It is floating-point and cosmetic.
- `Math.random` and `Date` become parameters. The floating-point step `Math.floor(Math.random() * length)` is represented by its result `r` with `0 <= r < length`.
- Storage exceptions are not modelled: `localStorage` being unavailable or `setItem` failing. The `catch` in `getRemainingSpins` that returns 0 is therefore not modelled. A parse failure of the stored history is a value in this model, not an exception, and it is modelled.
- `parseInt` and `JSON` text handling are not modelled. A stored integer is already parsed: `Missing`, `Unparsable` or `Num(n)`. The ISO date text and the millisecond timestamp of a win record are parameters.
- `performAuthentication`, `showConnectingOverlay` and `showMainMessage` are collaborators. The model stops at `Connecting(credential)` or at the alert outcome. The contents of the host's `SESSION_CREDENTIALS['3h']` are a parameter.
- The following are not modelled: initialisation and dependency retries (features.js:47-118), `saveFeatureState`, `loadFeatureState`, `connectFreeWifi`, and the debug surface `window.SmartNetFeatures`. They are plumbing around the core.
- Concurrency is not modelled. The code is single-threaded, so no double-click race between reading and writing the quota can occur inside it. Cross-tab writers are not modelled.
- Stored counters (`dailySpins`, `totalSpins`) are unbounded integers in the model. In the source they are double-precision numbers. They lose precision above 2^53. From 10^21, `toString()` writes exponent notation, which `parseInt` reads back as a small number. Neither limit is modelled.
- Rewards.AuthenticateWonSession: the inherited properties modelled are the standard `Object.prototype` members. Properties that a host page adds to `Object.prototype` are not modelled.
- Only the wheel's four prize types are modelled. A `switch` on an unknown type (which shows an undefined title) cannot occur with the static table.
