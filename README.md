# Tichu score counter: scoring store and point entry

A verified Dafny model of the two parts of the Tichu point-counter app that hold logic.

- **The game store** (`store/gameStore.ts`). It keeps the two team names, the winning score, the round history and the game-over state.
  - `addRound` adjusts a round's raw trick points by the special calls. A 1-2 finish gives +200. A Tichu gives ±100 and a Grand Tichu ±200. A pending call gives nothing.
  - It then appends the round with the next sequential id, recomputes both totals from the whole history, and declares a winner with `>=`, checking team A first.
  - `undoLastRound`, `resetGame`, `startNewGame`, `setTeamName`, `setWinningScore` and the `getTotalScore` query complete the store.
- **The point-entry field** (`components/NumberInput.tsx`), without its rendering.
  - A keystroke is taken only when it is empty, `-`, or `-?digits`. It is then checked in order: empty, below `min`, above `max`, not a multiple of `step`. Only a value that passes every check is emitted.
  - On blur, empty text or a lone `-` becomes 0. A number is clamped to `[min, max]` and rounded to the nearest multiple of `step`.
  - The `+` and `-` buttons emit `min(value + step, max)` and `max(value - step, min)`.

Modules:

- `Nullable` (nullable.dfy): `Option`, the model of JavaScript `null`.
- `Scoring` (scoring.dfy): calls, rounds and the adjustment rule.
  - `CallValue`/`CallsDelta` give the reference definition of what a round's calls add to each team.
  - `AdjustPoints` is the `forEach` loop of `addRound`, proved equal to that definition.
  - `TeamTotal` is the `reduce` fold over rounds.
- `Store` (store.dfy): the class `GameStore`. Its fields are the store's state. Each action is a method whose contract states the whole new state.
- `DecimalText` (decimal_text.dfy): the grammar `-?digits`, `parseInt(text, 10)` on it, and `toString` on integers, with a round-trip proof.
- `PointEntry` (point_entry.dfy): the checks and the clamp/round as functions.
  - The class `NumberInput` holds `inputValue`, `inputError`, the `value` prop and `emitted`. `emitted` records every value passed to `onChange`.

Facts about the code that shape the model:

- The store does no validation: `addRound` accepts any points and any calls, and a pending call simply adds nothing. The screen rejects empty, out-of-range, off-step and pending-call rounds before it calls `addRound` (app/(tabs)/index.tsx:252-275).
- `isGameOver` is not kept equal to "some total is at least `winningScore`": `setWinningScore` does not re-evaluate it, and `undoLastRound` always clears it. The class invariant `Valid()` therefore only keeps the sequential ids and "game over iff there is a winning team". The contract of `AddRound` gives the winner rule for the moment a round is added.
- The field's text is only ever written with accepted keystrokes or with an integer's text, so it is always `''`, `'-'` or `-?digits`. `NumberInput.Valid()` keeps this, and every handler preserves it.
- The blur rule turns an empty entry into 0 whatever the bounds are. With the winning-score field's bounds (100..2000, step 100), 0 lies outside them. `BlurValueInBounds` therefore proves the bounds only for numeric text. For the round-points defaults (-25..125, step 5), `DefaultBlurInRange` covers the empty case as well.

## Model

| member | source | states |
|---|---|---|
| Scoring.AdjustPoints | store/gameStore.ts:92-123 | The loop over the calls yields, for each team, its raw points plus the sum of what every call adds to it (`Adjusted`). |
| Scoring.CallContribution | store/gameStore.ts:96-123 | Adding one call anywhere in a round's call list changes a team's points by exactly that call's value. Calls are independent and additive. |
| Scoring.OneTwoAddsTwoHundred | store/gameStore.ts:99-105 | A 1-2 finish adds exactly 200 to its team and 0 to the other. This holds whatever its `successful` field is and whatever other calls the round has. |
| Scoring.DecidedCallAdjusts | store/gameStore.ts:106-121 | A successful Tichu adds 100 and a failed one subtracts 100. A Grand Tichu does the same with 200. The other team is unaffected. |
| Scoring.PendingCallAdjustsNothing | store/gameStore.ts:106-122 | A Tichu or Grand Tichu with `successful` null changes neither team's points. |
| Scoring.PendingCallsKeepRawPoints | store/gameStore.ts:92-123 | When every call is pending, and in particular when there are no calls, the adjusted points equal the raw points. |
| Scoring.CallOrderIrrelevant | store/gameStore.ts:96-123 | Two call lists with the same elements in any order give the same adjustment. |
| Scoring.ExampleRounds | store/gameStore.ts:92-131 | Worked rounds: 60/40 without calls stays 60/40. 100/0 with A's successful Tichu gives 200/0. 50/50 with B's 1-2 gives 50/250. |
| Scoring.TeamTotalConcat | store/gameStore.ts:136-137 | The fold of a team's points over a history split in two is the sum of the two folds. A total recomputed from scratch therefore equals a running one. |
| Scoring.LastRoundTotal | store/gameStore.ts:133-137 | Appending a round raises a team's total by exactly that round's points for the team. |
| Scoring.HundredPointRounds | store/gameStore.ts:209-213 | If every round's two scores sum to 100, the two teams' totals sum to 100 times the number of rounds. |
| Store.GameStore.constructor | store/gameStore.ts:51-70 | The store starts as "Team A"/"Team B", winning score 1000, no rounds and no winner. |
| Store.GameStore.SetTeamName | store/gameStore.ts:73-78 | Only the named team's name changes, to any string. Everything else is unchanged. |
| Store.GameStore.SetWinningScore | store/gameStore.ts:83-84 | Only the threshold changes. The game-over state is not re-evaluated. |
| Store.GameStore.AddRound | store/gameStore.ts:89-156 | Exactly one round is appended, with id = old length + 1, the adjusted points and the calls verbatim. Earlier rounds, names and threshold are unchanged, and ids stay sequential. Each total grows by the round's adjusted points. A wins iff A's total ≥ winning score. B wins iff A's total is below it and B's reaches it. Otherwise there is no winner and the game is not over. |
| Store.GameStore.UndoLastRound | store/gameStore.ts:161-173 | With no rounds, nothing changes. Otherwise only the last round is removed, totals drop by its points, and the game-over flag and winner are cleared unconditionally. |
| Store.GameStore.ResetGame | store/gameStore.ts:178-194 | Restores the default names, winning score 1000, no rounds and no winner. |
| Store.GameStore.StartNewGame | store/gameStore.ts:199-204 | Clears the rounds and the game-over state. Team names and winning score are kept. |
| Store.GameStore.GetTotalScore | store/gameStore.ts:209-213 | A team's total is 0 for an empty history. For every split point, it is the total of the earlier rounds plus the total of the later ones. |
| Store.UndoThenReplay | store/gameStore.ts:126-171 | Undoing the last round and adding it again from the same raw points and calls restores the same history. The winner is then decided by the A-first rule. |
| DecimalText.ParseInt | components/NumberInput.tsx:48-57 | A text has a value exactly when it matches `^-?\d+$` (of the texts the field can hold, only `''` and `'-'` give none, the model of NaN). A leading minus gives a value ≤ 0, and digits alone give a value ≥ 0. |
| DecimalText.IntToStringRoundTrip | components/NumberInput.tsx:110-116 | Every integer's `toString` text is accepted by the field's grammar and parses back to the same integer. |
| PointEntry.CheckText | components/NumberInput.tsx:52-85 | The checks run in order and the first one that fails decides the outcome. Empty or `'-'` gives EmptyValue. Otherwise below min gives BelowMin, then above max gives AboveMax, then not a multiple of step gives NotMultipleOfStep. Each case holds iff its condition does. A value is emitted iff it is in [min, max] and a multiple of step, and it is the parsed value. |
| PointEntry.Clamp | components/NumberInput.tsx:110 | The result lies in [lo, hi] when lo ≤ hi. It is the input when the input is already inside, lo when below, hi when above. When lo > hi it is lo, because the upper bound is applied first. |
| PointEntry.RoundToStep | components/NumberInput.tsx:113 | The result is a multiple of step within half a step of the input, halves rounded up as `Math.round` does. |
| PointEntry.RoundIsNearest | components/NumberInput.tsx:113 | No multiple of step is closer to the input than the rounded value. |
| PointEntry.ClampThenRoundInBounds | components/NumberInput.tsx:110-113 | When min ≤ max and both are multiples of step, clamping then rounding stays within [min, max]. |
| PointEntry.BlurValue | components/NumberInput.tsx:90-118 | For text the field can hold, the blurred value is always a multiple of step. Empty text or `'-'` gives 0. A number gives the clamped value rounded to within half a step. |
| PointEntry.BlurValueInBounds | components/NumberInput.tsx:90-118 | With bounds on the step grid, a blurred number lies in [min, max]. Empty text or `'-'` gives 0. |
| PointEntry.DefaultBlurInRange | components/NumberInput.tsx:26-28 | With the defaults -25, 125 and 5, every blurred value, including the empty case, is a multiple of 5 in [-25, 125]. |
| PointEntry.StepUp | components/NumberInput.tsx:122-125 | The result is min(value + step, max). It is a fixed point at or above max and strictly increases below it. |
| PointEntry.StepDown | components/NumberInput.tsx:128-131 | The result is max(value - step, min). It is a fixed point at or below min and strictly decreases above it. |
| PointEntry.NumberInput.constructor | components/NumberInput.tsx:22-38 | A new field has the given bounds and step (defaults -25, 125, 5), shows the value's text, has no error and has emitted nothing. |
| PointEntry.NumberInput.ReceiveValue | components/NumberInput.tsx:41-43 | When the owner passes a different value, the shown text becomes that value's text. Otherwise the text is unchanged. Either way the text stays one the field accepts. |
| PointEntry.NumberInput.HandleInputChange | components/NumberInput.tsx:46-87 | Text outside the grammar changes nothing and emits nothing. Accepted text is shown, the error becomes CheckText's error, and the value is emitted only when CheckText passes. Any emitted value lies in [min, max] and is a multiple of step, and its error is cleared. The text stays one the field accepts. |
| PointEntry.NumberInput.HandleBlur | components/NumberInput.tsx:90-119 | Emits BlurValue of the old text, shows that value's text ('0' for empty or `'-'`) and clears the error. The text stays one the field accepts. |
| PointEntry.NumberInput.Increment | components/NumberInput.tsx:122-125 | Emits StepUp of the current value. |
| PointEntry.NumberInput.Decrement | components/NumberInput.tsx:128-131 | Emits StepDown of the current value. |

## Left out

- `loadGame`/`saveGame` (store/gameStore.ts:217-244): asynchronous storage I/O and JSON with logged errors. The fire-and-forget `saveGame()` after each action is left out too. The Zustand `create`/`set`/`get` wiring becomes plain methods on one object.
- Store.GameStore.SetTeamName: the source builds a shallow copy of `teams` and then writes the name into the Team object shared with the previous state. The model only captures the resulting names, not that aliasing.
- Team records: the fixed ids `'A'`/`'B'` are the datatype `TeamId`, and the two names are two fields.
- Numbers: points, totals and parsed values are unbounded integers. JavaScript's `-0`, the precision loss of `parseInt` on very long digit strings, and non-integer values passed to the field are not modelled.
- Error messages: each message is its constructor in `InputError`, carrying the number the message quotes, not the text.
- The `isNaN` checks in `handleInputChange` (components/NumberInput.tsx:60-63) and `handleBlur` (components/NumberInput.tsx:99-107) cannot fire. The field's text is always `''`, `'-'` or `-?digits`, and the first two are handled before `parseInt`. The model reads the value directly in both places.
- DecimalText.ParseInt: `parseInt` on text with trailing non-digits (for example `12abc`, which it reads as 12) is not modelled, because such text never reaches it. ParseInt gives `None` there.
- PointEntry.NumberInput.constructor: requires `step > 0`. Every caller passes 5 or 100, and a zero step would make the modulo and rounding produce NaN.
- Rendering: labels, styles, the external `error` and `disabled` props, and the buttons being disabled at the bounds (components/NumberInput.tsx:134-184). `Increment`/`Decrement` model the handlers as if they were pressed.
- The call-eligibility rules and round submission checks of app/(tabs)/index.tsx are not part of this model. They belong to the screen, not to the store or the field.
- Theme, navigation and the other components are presentation only.
