# Mojave Wasteland Slots — win evaluation and spin lifecycle in Dafny

This project models the core of a browser slot machine game: three reels of
six post-apocalyptic symbols (☢ 💀 🎯 ⚙ 💊 🔫), a Phaser scene that spins
them and evaluates the settled centre row, and a React page that owns the
bottle-cap balance and the spin history.

- **Win evaluation and objectives** (`checkWin`). A pure function
  `Engine.Evaluate(grid, objectives, bet)` returns the payout, the
  classification (three of a kind, pair, no match), the highlighted reels,
  the bonus flags and the updated "pinball objectives". Those objectives are
  the streak, the collected symbols, the bonus multiplier and the jackpot
  progress. `Engine.Classify` follows the code's own path: the all-equal
  test, then a tally object with keys in insertion order, then a `find` of
  the first key counted twice. The lemmas relate that path to plain
  occurrence counts (`Tally.Count`, a multiset count).
- **Spin lifecycle** (`spin`, the tween completion, `checkWin`). The
  machine-wide `spinning` latch is modelled, and so is each reel's spinning
  flag. A reel-stop event carries the symbol in that reel's centre slot and
  is only defined for a reel that is spinning, since a tween completes only
  after `spin` started it. The evaluation runs once the last reel has
  stopped. Two arithmetic facts are
  also modelled: the staggered reel durations, and the snap of a stopped
  reel onto a 110-pixel boundary using JavaScript's truncating `%`.
- **Page bookkeeping** (`SlotMachine`). This covers the spin button's guard
  and debit, the crediting of a payout, the last-ten history, the
  zero-balance top-up to 10000 caps, the session clock with its 30-minute
  break reminder, and `formatTime`.
- **Session**. The page and the scene are joined by their event channels.
  `Session.RoundTrip` proves the whole cycle for one accepted press and three
  reel stops. The bet is debited and a positive payout is credited. One
  history entry is recorded, and both sides end idle.

Money, multipliers and payouts are `real`. The streak, the jackpot progress
and the session seconds are always whole numbers in the source, so they are
`nat`. Reel positions are `int`.

Behaviour modelled as the code has it, where a reader of the game's
description might expect otherwise:

- The three-of-a-kind table keys its 🎯 entry with a U+FFFD replacement
  character (src/components/scenes/SlotMachineScene.ts:295). So a triple of
  🎯 misses the table and takes the `|| 2` fallback, not the 8 the entry
  carries. `Paytable.TripleEntry` leaves Target unmapped on purpose.
  `Scenarios.TargetTripleTakesFallback` shows the result: bet 10 pays 20. At
  multiplier 1 that is less than a 🎯 pair, which pays 25.
- A pair also increments the streak (line 353). The streak therefore counts
  matching spins of either kind, and the every-third-increment multiplier
  rise can be set up by pairs.
- The collected set is only cleared inside the three-of-a-kind branch
  (lines 316-320). A pair or a miss that completes the collection leaves it
  full.
- The jackpot progress is only reset inside the three-of-a-kind branch.
  Pairs can carry it to 100 or beyond with no jackpot
  (`Scenarios.PairPassesGoalWithoutJackpot`).
- The `spin-complete` listener is registered once. So it nets each payout
  against the bet selected at mount (10), not the current bet
  (src/components/SlotMachine.tsx:77, 102). `Console.EntryFor` uses that
  constant.
- The scene's `start-spin` handler stores the new bet before `spin()` checks
  the latch. A refused spin still changes the stored bet
  (`Scene.StartSpin`).

## Model

| member | source | states |
|---|---|---|
| Symbols.FullIffUniverse | src/components/scenes/SlotMachineScene.ts:33 | any collection of symbols lies within the six-symbol universe and has size 6 exactly when it is the whole universe |
| Symbols.Elements | src/components/scenes/SlotMachineScene.ts:274 | the symbols added to the collection are exactly those on some reel |
| Paytable.OrElse | src/components/scenes/SlotMachineScene.ts:301 | a table read with a logical-or default yields the entry when it is present and non-zero, and the fallback when the key is missing |
| Paytable.TripleEntry | src/components/scenes/SlotMachineScene.ts:292-299 | the three-of-a-kind table as keyed: Target is the only symbol without an entry, every entry is at least 3 |
| Paytable.TripleMultiplier | src/components/scenes/SlotMachineScene.ts:301 | the base multiplier is at least the fallback 2, and equals 2 exactly for the unmapped Target |
| Paytable.PairEntry | src/components/scenes/SlotMachineScene.ts:340-347 | every symbol has a pair entry, each at least 1.5 |
| Paytable.PairMultiplier | src/components/scenes/SlotMachineScene.ts:349 | the pair multiplier is the table entry; the fallback 1 is never reached |
| Paytable.TripleOutpaysPairExceptTarget | src/components/scenes/SlotMachineScene.ts:292-349 | a triple's base multiplier exceeds the pair's for every symbol except Target, whose triple (2) pays less than its pair (2.5) |
| Tally.BumpSpec | src/components/scenes/SlotMachineScene.ts:282 | one increment of `counts[s]` (missing counts read as 0) keeps keys distinct, adds one to `s` only and adds no key but `s` |
| Tally.CountSymbolsSpec | src/components/scenes/SlotMachineScene.ts:280-283 | the tally has distinct keys and positive counts, and the count under each symbol is its number of occurrences on the reels |
| Tally.FindPairSpec | src/components/scenes/SlotMachineScene.ts:337 | the key search succeeds exactly when some key is counted twice, and returns such a key |
| Tally.PairFoundIffCountTwo | src/components/scenes/SlotMachineScene.ts:280-337 | the pair symbol found occurs exactly twice, and none is found exactly when no symbol occurs twice |
| Tally.PositionsSpec | src/components/scenes/SlotMachineScene.ts:357-362 | the pair highlight lists, in increasing order, exactly the reel indices holding the symbol, one per occurrence |
| Engine.ClassifyByCounts | src/components/scenes/SlotMachineScene.ts:276-286 | a grid is three of a kind iff all three reels agree (count 3), a pair iff some symbol occurs twice, and no match iff every symbol occurs at most once |
| Engine.Classify | src/components/scenes/SlotMachineScene.ts:277-289 | the three-of-a-kind branch is taken exactly when all three reels show the same symbol |
| Engine.PairSymbolUnique | src/components/scenes/SlotMachineScene.ts:337 | on three reels at most one symbol can occur twice, so the pair symbol is unambiguous |
| Engine.Progress | src/components/scenes/SlotMachineScene.ts:273-371 | the update keeps the multiplier at or above 1, and the collection afterwards either contains everything collected plus this spin's symbols or was just emptied |
| Engine.Payout | src/components/scenes/SlotMachineScene.ts:288-371 | the reported class is the grid's classification, and the full-set and jackpot bonuses only occur on a three of a kind |
| Engine.Evaluate | src/components/scenes/SlotMachineScene.ts:262-377 | one evaluation reports the grid's classification and keeps the multiplier invariant |
| EngineFacts.TripleOutcome | src/components/scenes/SlotMachineScene.ts:273-334 | three equal symbols take the triple branch of both the payout and the objectives update, and the result depends on the grid only through that one symbol, which is all the collection gains |
| EngineFacts.TriplePayFacts | src/components/scenes/SlotMachineScene.ts:289-334 | a triple pays bet × base × the pre-spin multiplier, ×2 exactly when the collection is complete and ×3 exactly when progress + 5 reaches 100, flags both bonuses accordingly and highlights all three reels |
| EngineFacts.TripleObjectivesFacts | src/components/scenes/SlotMachineScene.ts:307-326 | after a triple: streak +1, multiplier +0.5 exactly when the new streak is a multiple of 3, a complete collection emptied, progress +5 and back to 0 once it reaches 100 |
| TripleRule.TripleEvaluationFlags | src/components/scenes/SlotMachineScene.ts:289-334 | one evaluation of three equal symbols is a three of a kind lighting reels 0, 1 and 2, with the full-set bonus exactly when the collection becomes complete and the jackpot exactly when progress reaches 100 |
| TripleRule.TripleEvaluationAdvances | src/components/scenes/SlotMachineScene.ts:307-326 | one evaluation of three equal symbols raises the streak by 1, the multiplier by 0.5 exactly on every third streak step and the progress by 5, emptying a complete collection and resetting progress at 100 |
| EngineFacts.PairOutcome | src/components/scenes/SlotMachineScene.ts:335-366 | a symbol occurring twice pays bet × its pair multiplier with no bonus multiplier, highlights exactly its two reels, raises streak and progress by 1 and keeps the multiplier |
| EngineFacts.NoMatchOutcome | src/components/scenes/SlotMachineScene.ts:367-371 | three distinct symbols pay 0, reset the streak, decay the multiplier to max(1, m − 0.1) and keep the progress |
| EngineFacts.MultiplierMoves | src/components/scenes/SlotMachineScene.ts:311-370 | the multiplier rises iff the spin is a triple whose incremented streak is a multiple of 3, and then by exactly 0.5; it falls only on a miss |
| EngineFacts.CollectionClears | src/components/scenes/SlotMachineScene.ts:274-320 | the collection is emptied exactly when a triple completes it, otherwise it is the old collection plus the spin's symbols; the full-set bonus fires exactly when it is emptied |
| EngineFacts.JackpotProgressMoves | src/components/scenes/SlotMachineScene.ts:307-354 | progress drops only through a jackpot, which fires iff a triple brings it to 100; a triple leaves it below 100, a pair adds 1 without reset, a miss keeps it |
| EngineFacts.PayoutSign | src/components/scenes/SlotMachineScene.ts:288-350 | with a positive bet and multiplier ≥ 1 the payout is non-negative, and positive exactly when the spin matched |
| Runs.RunKeepsValid | src/components/scenes/SlotMachineScene.ts:311-370 | starting from multiplier ≥ 1, any sequence of spins keeps the multiplier ≥ 1 |
| Runs.StreakCountsTrailingWins | src/components/scenes/SlotMachineScene.ts:307-369 | after a sequence of spins the streak equals the number of consecutive matching spins at its end, carried on from the starting streak if none missed |
| Scenarios.RadiationTripleOnFreshMachine | src/components/scenes/SlotMachineScene.ts:292-313 | ☢☢☢ at bet 10 on a fresh machine pays 1000 and leaves streak 1, progress 5, multiplier 1.0 |
| Scenarios.TriplesRaiseMultiplier | src/components/scenes/SlotMachineScene.ts:307-313 | after n consecutive triples from a fresh machine, of any symbols, the streak is n and the multiplier is 1 + 0.5·⌊n/3⌋ |
| Scenarios.ThirdTripleRaisesMultiplier | src/components/scenes/SlotMachineScene.ts:307-313 | any three consecutive triples from a fresh machine lift the multiplier to 1.5 |
| Scenarios.PairOnFirstTwoReels | src/components/scenes/SlotMachineScene.ts:349-350 | a pair on reels 0 and 1 pays bet × the pair multiplier of that symbol, whatever the objectives |
| Scenarios.SkullPairIgnoresMultiplier | src/components/scenes/SlotMachineScene.ts:341-350 | 💀💀 with any other third symbol at bet 20 pays 30 at any multiplier |
| Scenarios.MissDecaysMultiplier | src/components/scenes/SlotMachineScene.ts:367-371 | a miss at multiplier 2.0 pays 0, resets the streak and leaves multiplier 1.9 and the progress as it was |
| Scenarios.TargetTripleTakesFallback | src/components/scenes/SlotMachineScene.ts:295-301 | 🎯🎯🎯 at bet 10 on a fresh machine pays 20, the fallback, not 80 |
| Scenarios.CollectionCompletedByTriple | src/components/scenes/SlotMachineScene.ts:316-320 | the triple that completes the collection pays double and empties it |
| Scenarios.JackpotTriple | src/components/scenes/SlotMachineScene.ts:323-326 | a triple taking progress from 95 to 100 pays triple and resets progress to 0 |
| Scenarios.PairPassesGoalWithoutJackpot | src/components/scenes/SlotMachineScene.ts:353-354 | a pair at progress 99 leaves it at 100 with no jackpot |
| Reels.LaterReelsStopLater | src/components/scenes/SlotMachineScene.ts:199-200 | a later reel spins strictly longer (2000 + 500·i ms), with more turns and more travel |
| Reels.Travel | src/components/scenes/SlotMachineScene.ts:217 | a reel's tween travel is a whole number of symbol cells |
| Reels.CellRemainder | src/components/scenes/SlotMachineScene.ts:242 | the truncating remainder has the sign of the position, magnitude below 110, and leaves a multiple of 110 |
| Reels.Snap | src/components/scenes/SlotMachineScene.ts:240-251 | the snapped position is a multiple of 110; from a non-negative position it moves by at most 55 (half a cell rounds down), from a negative one by less than a cell; aligned positions stay put |
| Reels.SnapIdempotent | src/components/scenes/SlotMachineScene.ts:245-251 | snapping twice is snapping once |
| Reels.FirstStop | src/components/scenes/SlotMachineScene.ts:215-251 | from the start position 310 a reel's first stop snaps 20 pixels further down; from an aligned position no snap is needed |
| Scene.Create | src/components/scenes/SlotMachineScene.ts:180-185 | a new scene is idle with fresh objectives and the drawn centre symbols |
| Scene.Centers | src/components/scenes/SlotMachineScene.ts:266-269 | the evaluated grid is each reel's centre symbol, in reel order |
| Scene.CheckWin | src/components/scenes/SlotMachineScene.ts:262-377 | the win check clears the latch, evaluates the centre symbols against the objectives, emits exactly one completion carrying that payout, and leaves the reels and the bet as they were |
| Scene.Spin | src/components/scenes/SlotMachineScene.ts:188-197 | a spin is a no-op while the latch is set; otherwise it sets the latch and every reel spinning, announces the start once, and changes nothing else |
| Scene.StartSpin | src/components/scenes/SlotMachineScene.ts:121-124 | the bet is stored even when the spin is refused; the latch stays consistent with the reels |
| Scene.ReelStopped | src/components/scenes/SlotMachineScene.ts:233-256 | a spinning reel stops on a 110 boundary with its centre fixed; evaluation and the completion signal happen exactly when no reel is still spinning, and then the latch is cleared |
| Scene.EarlyStop | src/components/scenes/SlotMachineScene.ts:233-256 | a reel stopping while a later one still turns emits nothing, keeps the latch set and changes no other reel, the bet or the objectives |
| Scene.LastStop | src/components/scenes/SlotMachineScene.ts:233-256 | the last reel to stop evaluates exactly the three centre symbols against the objectives, emits one completion with that payout and leaves the scene idle |
| Scene.FullSpin | src/components/scenes/SlotMachineScene.ts:188-263 | from idle, a start and three staggered stops emit one start signal, nothing in between, and one completion carrying the evaluation of the three centre symbols; the scene ends idle |
| Console.HandleSpin | src/components/SlotMachine.tsx:115-123 | the press is refused, changing nothing, iff a spin is running or credits are below the bet; otherwise exactly the bet is debited, leaving credits ≥ 0, and the bet is sent |
| Console.SelectBet | src/components/SlotMachine.tsx:214-218 | a bet button changes only the bet, and not while a spin runs |
| Console.OnSpinStart | src/components/SlotMachine.tsx:69-71 | the start signal marks the page playing and changes nothing else |
| Console.EntryFor | src/components/SlotMachine.tsx:77-82 | an entry is a WIN iff the payout exceeds the mount-time bet 10, and its non-negative amount is the distance between the two |
| Console.Record | src/components/SlotMachine.tsx:78-85 | recording appends the entry and keeps the last min(n + 1, 10) entries, dropping the oldest |
| Console.OnSpinComplete | src/components/SlotMachine.tsx:73-90 | completion ends play, records one entry, and adds the payout to the credits iff it is positive |
| Console.SafetyNet | src/components/SlotMachine.tsx:105-113 | an empty or negative balance between spins becomes 10000; otherwise nothing changes; an idle page afterwards has positive credits |
| Console.Tick | src/components/SlotMachine.tsx:24-34 | each second advances the clock by one and raises the reminder iff the new count is a multiple of 1800, never lowering it |
| Console.DismissReminder | src/components/SlotMachine.tsx:186 | dismissing lowers the reminder and changes nothing else |
| Console.FormatTime | src/components/SlotMachine.tsx:125-129 | minutes are below 60 and hours·3600 + minutes·60 is the elapsed time rounded down to the minute |
| Console.HistoryIsLastTen | src/components/SlotMachine.tsx:78-85 | after any sequence of spins the history is the last (at most ten) entries of everything recorded, oldest first |
| Console.ReminderAfterThirtyMinutes | src/components/SlotMachine.tsx:24-34 | without dismissal the reminder is up after n seconds iff n ≥ 1800 |
| Session.Start | src/app/page.tsx:14-15 | a new page and scene start linked (not playing, latch clear) with a non-negative balance |
| Session.Deliver | src/components/SlotMachine.tsx:69-90 | the start signal and the completion signal are applied by their listeners |
| Session.PressSpin | src/components/SlotMachine.tsx:115-123 | an accepted press debits exactly the bet, hands it to the scene and marks the page playing; a refused one changes nothing; page and scene stay linked and solvent |
| Session.ReelStops | src/components/scenes/SlotMachineScene.ts:233-256 | the stop of a spinning reel keeps the page's playing flag equal to the scene latch and keeps the balance non-negative |
| Session.Settle | src/components/SlotMachine.tsx:105-113 | after the safety net an idle page has positive credits, and the scene is untouched |
| Session.RoundTrip | src/components/SlotMachine.tsx:73-122 | one accepted press and three reel stops change credits by −bet plus the payout when positive, record one history entry, advance the objectives by one evaluation and leave both sides idle |

## Left out

- Rendering: all Phaser drawing, masks, particles, tween easing, sounds, the win, bonus and jackpot animations, the objectives text, and the page's JSX, modals and paytable. None of it affects any value above.
- Randomness: `Phaser.Math.Between` at reel creation and in the per-frame wrap-and-resample of `onUpdate`. The settled centre symbol of each reel is an input of the stop event. The five-symbol strip and the wrap arithmetic are not modelled. The grid is whatever `symbols[2]` holds when a reel stops.
- Timers and the event bus: `setInterval`, `setTimeout`, `delayedCall` and `game.events` become explicit steps and synchronous signal delivery. Elapsed time is not modelled.
- Console.SafetyNet: merges the effect with its 2-second timeout into one step. The "cap reset" notice flag is not modelled. Neither is the possibility that the effect schedules the top-up more than once.
- Console.FormatTime: returns the (hours, minutes) pair. The `"Hh Mm"` string is not built.
- Floating point: multipliers and payouts are exact reals. The IEEE drift of the repeated 0.1 decay is not modelled, and payouts are not rounded (the source does not round them either).
- Reel positions are whole pixels, and only the end of each tween is modelled (its start plus its full travel).
- Scene creation failure (the `try`/`catch` around `new Phaser.Game`) and a missing game reference in `handleSpin` are not modelled. The game is always present.
- Console logging.
- Scene.FullSpin: takes the reels' stop order as index order. The staggered durations make that the order (`Reels.LaterReelsStopLater`), but with no clock in the model nothing derives the order from them. `Scene.ReelStopped` itself accepts the stops in any order.
