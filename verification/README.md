# Monty Hall simulation — verified model of the game logic

This project models the game logic of a browser simulation of the Monty Hall
puzzle. The program plays a three-door round many times. It counts how often
the "switch" strategy and the "stay" strategy would have won, and it records
the running win percentages of both strategies in two chart series.

The model has three modules:

- `RoundSimulator` (`round_simulator.dfy`) models one round.
  - It covers the door filters, `oneOf`, `chooseClosedDoor`, `openNonWinner` and
    `simulateMontyHall`.
  - Each `Math.random()` value is a parameter of type `Random`, a real in [0, 1).
    `oneOf` picks the element at `Math.floor(rand * length)`, with the product
    taken over exact reals.
    This makes every step a deterministic function of the doors and the draws.
  - Where the JavaScript code would yield `undefined` or throw a TypeError, the
    model returns `None`. This covers an empty candidate list, reading `i` of
    `undefined`, and indexing `doors` out of range.
- `ThreeDoorGame` (also in `round_simulator.dfy`) proves what a round does on
  the fixed configuration `DOORS`: three closed doors, with door 1 the winner.
  - A round always completes.
  - The host opens one losing door that is not the initial pick.
  - Switching has exactly one candidate, which is neither the initial pick nor
    the opened door.
  - The outcome depends only on the first draw. Staying wins exactly when the
    first pick is door 1. Switching wins on exactly the other draws.
- `Aggregator` (`aggregator.dfy`) models the running state.
  - The state holds win counts, games played and the chart data.
  - `initializeState` and `updateState` are methods over arrays.
    `updateState` copies both series arrays and writes slot `index` of each copy.
  - The counting loop of `simulationMain` is a `while` loop with invariants.
    After `k` rounds, `totalGames` is `k`, the win counts are the counts over the
    first `k` rounds, and they add up to `k`. Slots `0..k-1` hold the running
    percentages and slots `k..` are still empty.

The host's candidates are the doors that are neither the winner nor the
initial pick. So the host has two candidates when the initial pick is the
winner, and one otherwise (`ThreeDoorGame.HostCandidateCount`).

## Model

| member | source | states |
|---|---|---|
| RoundSimulator.Filter | public/main.js:151-161 | the result holds exactly the input elements the predicate accepts and is no longer than the input |
| RoundSimulator.FilterAppend | public/main.js:151-161 | filtering a concatenation is the concatenation of the filtered parts, so filtering keeps the input order |
| RoundSimulator.FilterSingleton | public/main.js:151-161 | a one-element list keeps its element exactly when the predicate accepts it |
| RoundSimulator.FilterPipe | public/main.js:146-149 | piping two filters gives the same list as one filter by both predicates |
| RoundSimulator.FilterThree | public/main.js:151-161 | filtering three elements keeps each accepted one, in order |
| RoundSimulator.FilterTwo | public/main.js:151-161 | filtering two elements keeps each accepted one, in order |
| RoundSimulator.FilterClosed | public/main.js:151-153 | a door is in the result exactly when it is in the input and not open |
| RoundSimulator.FilterExclude | public/main.js:155-157 | a door is in the result exactly when it is in the input and its identifier is not excluded |
| RoundSimulator.FilterNonWinner | public/main.js:159-161 | a door is in the result exactly when it is in the input and not a winner |
| RoundSimulator.ClosedCandidates | public/main.js:43-45 | the candidates of `chooseClosedDoor` are exactly the closed, non-excluded input doors |
| RoundSimulator.NonWinnerCandidates | public/main.js:52-54 | the candidates of `openNonWinner` are exactly the losing, non-excluded input doors |
| RoundSimulator.PickIndex | public/main.js:67 | `Math.floor(rand * n)` is a valid index below `n` |
| RoundSimulator.PickIndexReachesEvery | public/main.js:67 | every index below `n` is the result for some draw in [0, 1) |
| RoundSimulator.OneOf | public/main.js:63-69 | `undefined` exactly on an empty list; otherwise an element of the list |
| RoundSimulator.OneOfReachesEvery | public/main.js:63-69 | every element of a list is returned for some draw |
| RoundSimulator.ChooseClosedDoor | public/main.js:42-48 | fails exactly when every door is open or excluded; otherwise returns the identifier of a closed, non-excluded door |
| RoundSimulator.OpenNonWinner | public/main.js:51-61 | fails exactly when there are doors but none is losing and non-excluded; otherwise same length, and each door is unchanged or opened, where an opened door is non-excluded and shares its identifier with a losing door |
| RoundSimulator.OpenById | public/main.js:58-60 | the mapping keeps every door's identifier and winner flag, and a door is open afterwards exactly when it was open before or carries the chosen identifier |
| RoundSimulator.OpenNonWinnerOpensOne | public/main.js:51-61 | with distinct identifiers, exactly one door is opened, it is losing and non-excluded, and every other door is unchanged |
| RoundSimulator.SimulateMontyHall | public/main.js:11-20 | with exactly one winning door, a completed round never reports both strategies as winning |
| ThreeDoorGame.DoorsWellFormed | public/main.js:2-6 | `DOORS` has identifiers equal to positions, distinct identifiers and exactly one winner |
| ThreeDoorGame.InitialChoiceIsPickIndex | public/main.js:12 | on `DOORS` the initial pick always succeeds and is the door at `Math.floor(rand * 3)` |
| ThreeDoorGame.HostCandidates | public/main.js:13 | the host's candidate list for each initial pick, in door order |
| ThreeDoorGame.HostCandidateCount | public/main.js:13 | the host has 2 candidates when the initial pick is the winner and 1 otherwise |
| ThreeDoorGame.HostOpens | public/main.js:51-55 | the door the host opens is one of the three, is not the initial pick and is not the winner |
| ThreeDoorGame.HostOpensOneLosingDoor | public/main.js:13 | on `DOORS` the host opens exactly that one door and leaves the others as they were |
| ThreeDoorGame.SwitchCandidatesAfterOpening | public/main.js:14 | after the host opens a door, the only switching candidate is the third door |
| ThreeDoorGame.SwitchCandidateCount | public/main.js:14 | the switch step always has exactly one candidate |
| ThreeDoorGame.FinalChoiceIsTheRemainingDoor | public/main.js:12-14 | the final choice differs from both the initial choice and the opened door |
| ThreeDoorGame.OutcomeDependsOnlyOnFirstPick | public/main.js:11-20 | on `DOORS` a round always completes: staying wins exactly when the first pick is door 1, and switching wins exactly otherwise |
| ThreeDoorGame.SwitchWinsOutsideMiddleThird | public/main.js:11-20 | switching wins exactly when the first draw is outside [1/3, 2/3), and staying wins exactly when it is inside |
| ThreeDoorGame.SwitchWinsIffStayLoses | public/main.js:11-20 | on `DOORS`, whatever the draws, `won_with_switch` is true exactly when `won_without_switch` is false |
| ThreeDoorGame.PickDoorZeroScenario | public/main.js:11-20 | with initial pick 0 the host opens door 2, the switch lands on door 1, and switching wins while staying loses |
| Aggregator.Percentage | public/main.js:94-95 | the percentage times the games played equals 100 times the wins, and it lies in [0, 100] when wins do not exceed games |
| Aggregator.InitializeState | public/main.js:72-85 | zero counts, labels 1..N_ITERATIONS, both series N_ITERATIONS empty slots, on fresh arrays |
| Aggregator.Copy | public/main.js:102 | the spread copy is a fresh array with the same contents |
| Aggregator.UpdateState | public/main.js:87-114 | adds 1 to `switchWins` or `stayWins` exactly when that strategy won; `totalGames` becomes `index + 1`; fresh series equal the old ones with only slot `index` set to the new percentage; labels and series names are kept; the previous arrays are untouched |
| Aggregator.PlayRound | public/main.js:28 | `simulateMontyHall(DOORS)` always returns an outcome, fixed by the first draw, in which exactly one strategy wins |
| Aggregator.WinsIn | public/main.js:90-91 | a strategy never wins more rounds than were played |
| Aggregator.WinsAccountForEveryRound | public/main.js:90-91 | switch wins plus stay wins equal the number of rounds played |
| Aggregator.Series | public/main.js:110-111 | a series has one slot per round, filled exactly for played rounds, and every filled value is at most 100 |
| Aggregator.SeriesStep | public/main.js:110-111 | writing the next round's percentage extends the filled prefix by one slot and changes no other slot |
| Aggregator.ReportFollowsEveryRound | public/main.js:31 | every round is followed within 20 rounds by a round on which the chart is pushed |
| Aggregator.SimulationMain | public/main.js:24-29 | after all rounds, `totalGames` is N_ITERATIONS; the counts are the per-strategy win counts of the draws and sum to N_ITERATIONS; labels are 1..N_ITERATIONS; slot `k` of each series holds the win percentage over rounds `0..k` |

## Left out

- `updateChart` (public/main.js:116-143) writes into a Chart.js object and only displays data. It is not modelled.
- The `console.log` calls, the `chart` parameter and the `await` that yields to the browser (public/main.js:26, 32-36) are not modelled. The reporting cadence of line 31 is kept as the predicate `IsReportRound`.
- `Math.random()` is not a random source here. Each draw is a parameter. No claim is made about the convergence of the win rates to 2/3 and 1/3. `SwitchWinsOutsideMiddleThird` is the deterministic fact behind that convergence.
- The percentages (public/main.js:94-95) and the product `Math.random() * arr.length` in `oneOf` (public/main.js:67) are exact `real` values, not IEEE doubles. Floating-point rounding is not modelled.
- SwitchWinsOutsideMiddleThird: its bounds 1/3 and 2/3 hold for the exact real product. In doubles, a few draws just below k/n give a product that rounds up to the next whole number. An example is 6004799503160661·2⁻⁵³, just below 2/3, for which the code picks door 2 and not door 1. The lemmas stated in terms of the picked index (`OutcomeDependsOnlyOnFirstPick`, `SwitchWinsIffStayLoses`) hold for every index and are not affected.
- The generic `pipe` combinator (public/main.js:146-149) is not a function of its own. The two pipelines are the compositions `ClosedCandidates` and `NonWinnerCandidates`, and `FilterPipe` states what `pipe` of two filters computes.
- The `datasets` array of two entries is modelled as two named fields, `switchSet` and `staySet`.
- UpdateState: requires `index` to be below the length of both series. A JavaScript array write beyond the end would grow the array. The only caller passes `i < N_ITERATIONS`, so that case never arises.
- OpenNonWinner: its own contract allows several doors to open, because the code opens every door that shares the chosen identifier. That exactly one door opens is stated under distinct identifiers (`OpenNonWinnerOpensOne`) and for `DOORS` (`HostOpensOneLosingDoor`).
- SimulationMain: its `ensures` describe the state after all N_ITERATIONS rounds. The state after `k` rounds is stated by the loop invariants, not by an exported contract. In that state `totalGames` is `k`, the counts cover the first `k` rounds, and slots `k..` are empty.
