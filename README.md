# Festival slot machine: spin engine, client bookkeeping and account ledger

A Dafny model of a small slot-machine web app. The model covers two halves and their composition:

- **The browser half (`main.jsx`):** a player spins three reels for a bet of 1, 2 or 3 chips. Randomness decides whether a spin is a *forced win* or a *forced loss*:
  - a forced win shows one of eight winning triples;
  - a forced loss redraws random triples until one has no payout, with a bounded number of attempts.

  The multiplier from the payout table is credited. A logged-in player's result is then reported to the server, and their local stats are updated.
- **The server half (`server.js`):** a ledger of accounts keyed by student id, with:
  - login-or-create, which defaults to 100 chips, 0 wins and 0 losses;
  - recording a spin result, which sets the balance and adds one to exactly one counter;
  - a stats lookup with the win rate;
  - a top-10 ranking by balance.

Modules, one per file:

| file | module | what it holds |
|---|---|---|
| `wrappers.dfy` | `Wrappers` | `Option` and `Result` |
| `symbols.dfy` | `Symbols` | the symbols and the winning combinations and payout tables, and their shape |
| `text.dfy` | `Text` | JavaScript's `trim`, used to reject blank ids |
| `engine.dfy` | `Engine` | the spin outcome: the forced-win pick, the forced-loss retry loop and the payout |
| `ledger.dfy` | `Ledger` | the `users` table as a class `Store` over a `map`, its four handlers, and their specifications |
| `client.dfy` | `Client` | the `SlotMachine` component's state as a class, with spin, result bookkeeping, login and logout |
| `session.dfy` | `Session` | client and ledger together: login, spin-and-report, logout keep the client in step with the ledger |

How the model represents the source:

- **Randomness** is injected as `Engine.Draws`:
  - `roll` is `Math.floor(Math.random() * 100)`. The win probability is a whole number, so `Math.random() * 100 < p` holds exactly when `roll < p`.
  - `winPick` is the index of the winning combination.
  - `reelDraws` are the symbols that the forced-loss loop draws, three per attempt.
- **Payout keys.** `PAYOUTS` is keyed by the triple `Reels(left, middle, right)` rather than by `finalReels.join('')`. Each symbol is a single code point and the join is injective (`Symbols.JoinInjective`), so the two lookups agree.
- **The winning combinations.** `spin` writes out its own copy of the list (main.jsx:195-204). It has the same eight triples in the same order as `WINNING_COMBINATIONS`, so one constant stands for both.
- **`if (payout)`** is modelled as written, as "present and non-zero".
- **Win rate** is kept in integer tenths of a percent, rounded half up. This stands for `toFixed(1)` and SQL `ROUND(..., 1)`.
- **Timestamps** (`CURRENT_TIMESTAMP`) are a `now` parameter.

Three points about the code that the model keeps:

- The forced-loss loop draws at most 51 triples: `attempts > 50` is checked after the 51st draw (main.jsx:217-218).
- The update-chips handler stores whatever balance it is sent (server.js:99-101). `Session.PlaySpin` proves that the client never sends a negative one.
- The win probability is set by the administrator slider, from 1 to 50 (main.jsx:380-384), and starts at 25 (main.jsx:46).

## Model

| member | source | states |
|---|---|---|
| Symbols.SymbolsDistinct | main.jsx:5 | there are eight symbols and they are pairwise distinct |
| Symbols.PayoutTableWellFormed | main.jsx:17-26 | every payout key is one symbol of `SYMBOLS` shown three times; its multiplier is 2 for cherry, lemon, orange and grape, 3 for the others |
| Symbols.WinningCombinationsArePayoutKeys | main.jsx:6-26 | the eight winning combinations are exactly the keys of `PAYOUTS` |
| Symbols.WinningCombinationPays | main.jsx:193-206 | the combination a forced win picks is made of symbols and pays 2 or 3 times the bet |
| Symbols.MultiplierBounds | main.jsx:17-26 | every multiplier is 2 or 3 |
| Symbols.PayoutIffAllEqual | main.jsx:227-230 | a triple of symbols has a payout if and only if its three reels agree, and the multiplier depends only on the symbol |
| Symbols.JoinInjective | main.jsx:227-228 | with each symbol one Unicode scalar, two triples join to the same key string if and only if they are equal, so looking up by triple is looking up by joined string (the UTF-16 encoding of the scalars is not modelled) |
| Text.TrimStart | server.js:37 | the result is a suffix that does not start with white space, and everything removed is white space |
| Text.TrimEnd | server.js:37 | the result is a prefix that does not end with white space, and everything removed is white space |
| Text.TrimIsCore | main.jsx:73 | the trimmed id is the run of the typed text between its leading and trailing white space, with no white space at either end |
| Text.TrimEmptyIffBlank | server.js:37 | `!s.trim()` holds if and only if every character of `s` is white space |
| Text.TrimOfNonBlank | main.jsx:65-73 | an id that passes the form's check trims to a non-empty id that the server's check also accepts |
| Text.TrimIdempotent | main.jsx:73 | trimming the already-trimmed id changes nothing |
| Engine.LossSearch | main.jsx:210-219 | the loop stops after 1 to 51 attempts, on the triple drawn last; when it stops within 50 attempts that triple has no payout |
| Engine.LossSearchStep | main.jsx:211-219 | one pass of the `do ... while`: it stops on a non-paying draw or once attempts exceed 50, and otherwise draws again |
| Engine.LossSearchRejectsOnlyPaying | main.jsx:219 | every triple the loop discarded had a payout |
| Engine.LossSearchStops | main.jsx:210-219 | the loop ends within 51 attempts on a triple of symbols that has no payout or after attempts exceeded 50 |
| Engine.DrawLosingReels | main.jsx:209-221 | the imperative loop returns exactly the triple and attempt count that the loop specification gives: at most 51 draws, a non-paying triple unless attempts exceeded 50 |
| Engine.Payout | main.jsx:227-228 | the lookup finds a multiplier exactly for the keys of `PAYOUTS`, and it is the table's value |
| Engine.SpinGuard | main.jsx:161-164 | a spin is refused if and only if the balance is below the bet |
| Engine.FinalReelsAreSymbols | main.jsx:192-216 | on both paths every symbol on the final reels is one of `SYMBOLS` |
| Engine.SettleBalance | main.jsx:226-247 | on any reels: the deducted balance is non-negative, the spin is a win iff the reels have a payout, a win ends at `newChips + bet * multiplier` above the pre-spin balance, and a loss ends at `newChips` |
| Engine.SpinBalance | main.jsx:160-247 | the same balance guarantees for an accepted spin on the reels it actually shows |
| Engine.ForcedWin | main.jsx:186-207 | a forced win shows the picked winning combination, which is in `PAYOUTS`, is paid, and pays 2 or 3 times the bet |
| Engine.ForcedLoss | main.jsx:208-245 | a forced loss whose loop found a non-paying triple within 50 attempts is a loss that leaves the deducted balance |
| Engine.LossSearchAllPaying | main.jsx:218 | when every candidate pays, the loop gives up after its 51st draw and keeps that paying triple |
| Engine.LossSearchFallback | main.jsx:218 | draws that always give apples end the loop on three apples after 51 attempts |
| Engine.ForcedLossFallbackCanWin | main.jsx:208-234 | so a spin decided as a forced loss can still be paid as a win |
| Ledger.WinRateBounds | server.js:134-135 | the win rate is 0 with no games, within half a tenth of `100 * wins / games`, at most 100.0, 0 with no wins and 100.0 with wins and no losses |
| Ledger.LoginRejectsBlank | server.js:37-39 | a missing or blank id is refused with the 400 error and the table is unchanged |
| Ledger.LoginCreates | server.js:67-85 | an unknown id adds exactly one account, with 100 chips, no wins or losses and both times set to now, reports it as new, and leaves every other account alone |
| Ledger.LoginKnown | server.js:48-66 | a known id returns the stored balance and counters, is not new, and only its last-login time changes |
| Ledger.LoginReplyMatchesTable | server.js:41-87 | every non-blank login succeeds and its reply matches what the table then holds for that id |
| Ledger.LoginTwice | server.js:48-84 | a second login of a new id returns the same 100 chips and is no longer new |
| Ledger.UpdateIncrementsOneCounter | server.js:98-111 | recording a result for a stored id sets exactly its balance and adds one to exactly one counter; all else is unchanged and the reply echoes the balance |
| Ledger.UpdateRejects | server.js:94-109 | a missing id is the 400 error, an unknown id the 404 error, and neither changes the table |
| Ledger.StatsLookup | server.js:119-138 | stats fail exactly for an unknown id; otherwise they repeat the stored balance and counters, with a win rate of 0 before any game |
| Ledger.StatsAfterFirstLogin | server.js:116-138 | right after a first login the stats show 100 chips, no wins, no losses and a win rate of 0 |
| Ledger.FirstLossAfterLogin | server.js:98-135 | a loss recorded after a first login shows the sent balance, no wins and one loss |
| Ledger.RankingStep | server.js:149-150 | picking the richest account not yet listed keeps the rows distinct, ordered and no poorer than any account still left |
| Ledger.RankingDone | server.js:149-150 | once ten rows are picked or no account is left, the rows are a ranking |
| Ledger.RankingOfThree | server.js:144-150 | accounts with 50, 200 and 10 chips are ranked 200, 50, 10 |
| Ledger.Store.constructor | server.js:21-30 | the table starts empty |
| Ledger.Store.Login | server.js:34-88 | the table and reply are those of the login handler's specification, and no stored id is blank |
| Ledger.Store.UpdateChips | server.js:91-113 | the table and reply are those of the update handler's specification |
| Ledger.Store.GetStats | server.js:116-140 | the reply is the stats lookup of the stored account, or not found |
| Ledger.Store.Ranking | server.js:143-158 | the rows are at most 10 rows of distinct stored accounts, ordered by chips descending, and no account left out is richer than a listed one |
| Ledger.Store.Richest | server.js:149 | the chosen id is a candidate with no fewer chips than any other candidate |
| Client.CountResult | main.jsx:115-121 | the stats take the new balance and exactly one of wins and losses goes up by one |
| Client.SlotMachine.constructor | main.jsx:31-46 | a guest with 100 chips, bet 1, reels apple-orange-lemon, no message and a 25% win probability |
| Client.SlotMachine.SetBet | main.jsx:475-479 | the bet becomes the button's value and nothing else changes |
| Client.SlotMachine.SetWinProbability | main.jsx:379-384 | the win probability becomes the slider's value and nothing else changes |
| Client.SlotMachine.Spin | main.jsx:160-249 | a refused spin changes neither chips nor reels and shows the insufficient-chips message; otherwise chips, reels, message and the report to the server are those of the spin outcome, the balance is never negative, and the reels stay symbols |
| Client.SlotMachine.RecordResult | main.jsx:96-122 | a guest's stats are untouched; an accepted result updates the shown stats by one win or one loss and the new balance |
| Client.SlotMachine.LoginSucceeded | main.jsx:78-83 | the client adopts the server's account and balance and greets a new or returning player |
| Client.SlotMachine.LoginFailed | main.jsx:87-89 | only the failure message changes |
| Client.SlotMachine.Logout | main.jsx:132-138 | back to a guest with 100 chips, no stats, no message and the stats panel closed |
| Session.LogIn | main.jsx:63-83 | a blank form changes neither the client nor the ledger; otherwise the trimmed id logs in, the server never refuses it, the client shows exactly the stored account with the new-user or welcome-back greeting, and the reels, bet, win probability and stats panel stay as they were |
| Session.AdoptLogin | main.jsx:67-83 | for a trimmed, non-blank id: the ledger makes the login handler's change, the reply is a success, and the client adopts that account with its greeting, in step with the ledger, leaving reels, bet, win probability and stats panel alone |
| Session.RequestLogin | server.js:34-88 | a non-blank id always gets a success reply, and the reply's balance and counters are those the table then holds for that id |
| Session.PlaySpin | main.jsx:160-246 | a refused spin changes nothing but the message; an accepted one shows the spin's final reels, win or lose message and balance, which is never negative, changes the ledger only for a logged-in player's account as recording that result prescribes, counts one win or one loss in the shown stats, keeps the client in step with the ledger, and leaves bet, win probability and stats panel alone |
| Session.LogOut | main.jsx:132-138 | back to a guest with 100 chips, no stats, no message and the stats panel closed, with reels, bet and win probability kept and the ledger unchanged |

## Left out

- Rendering, styling, the stats-panel toggle and the admin panel (main.jsx:251-520): presentation only.
- The administrator password check (main.jsx:140-158): a fixed string comparison with nothing to prove.
- The reel flicker and the two-second timer (main.jsx:171-184). A spin is one atomic step, so `isSpinning` is false between steps. Interleavings while a spin is in flight are not modelled, such as logging out before the timer fires.
- `fetch`, JSON encoding, `fetchRanking`, error logging and the "server error" message (main.jsx:53-61, main.jsx:90-93, main.jsx:127-129): network I/O. The server's answer to `update-chips` enters `Client.SlotMachine.RecordResult` as a boolean.
- The form field `studentId` and its clearing after login: the typed text is a parameter of `Session.LogIn`.
- `Math.random()`: replaced by the injected `Engine.Draws`.
- The probability self-test and any statistical claim about win frequencies: they depend on floating point and statistics.
- `console.log` lines: output only.
- Express routing, CORS, the SQLite connection, `app.listen` and the SIGINT shutdown (server.js:1-31, server.js:160-174): I/O and process lifecycle.
- The 500 replies for database errors: the store never fails.
- Concurrent requests for one id: requests are handled one at a time.
- The request body's `studentId` is modelled as an optional string. Non-string JSON values are not modelled.
- Engine.DrawLosingReels: requires at least 153 injected reel draws, which is all that 51 attempts can use. The source draws as many as it needs.
- Client.SlotMachine.Spin: requires each injected reel draw to be one of `SYMBOLS`, which is what `SYMBOLS[Math.floor(Math.random() * 8)]` yields.
- Ledger.WinRateBounds: the win rate is integer tenths rounded half up. It does not claim to match the digits of `toFixed(1)` or SQL `ROUND` on doubles where binary rounding error decides a tie.
- Ledger.Store.Ranking: states what `ORDER BY chips DESC LIMIT 10` guarantees. Which of several accounts with equal chips comes first is left open, as in SQL.
- Ledger.Store.UpdateChips: like the handler, accepts any balance. A negative balance from another client is not excluded by the ledger itself.
