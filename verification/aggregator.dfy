/**
  The aggregator of the Monty Hall simulation: the running state (win counts,
  games played and the chart series), its initialisation, the update that
  folds one round into it, and the driver loop that plays every round.
  The chart series are arrays, as in the JavaScript code: an update copies
  both series arrays and writes one slot of each copy, and the labels array
  is shared between successive states.
*/
module Aggregator {
  import opened Options
  import opened RoundSimulator
  import opened ThreeDoorGame

  /** Number of rounds one simulation plays (`N_ITERATIONS`). */
  const NIterations: nat := 1000

  /** The chart is pushed on every round whose index is a multiple of this. */
  const ReportEvery: nat := 20

  /** One chart series: a slot per round, `None` (JavaScript's `null`) until the round is played. */
  datatype Dataset = Dataset(data: array<Option<real>>, seriesLabel: string)

  /** The chart data: round labels and the "Switch" and "Stay" series (`datasets[0]`, `datasets[1]`). */
  datatype ChartData = ChartData(labels: array<int>, switchSet: Dataset, staySet: Dataset)

  /** The running state of a simulation. */
  datatype State = State(switchWins: nat, stayWins: nat, totalGames: nat, chartData: ChartData)

  /** `(wins / games) * 100`, exactly. */
  function Percentage(wins: nat, games: nat): (p: real)
    requires games > 0
    ensures p * games as real == 100.0 * wins as real
    ensures 0.0 <= p
    ensures wins <= games ==> p <= 100.0
  {
    var ratio := wins as real / games as real;
    assert ratio * games as real == wins as real;
    assert wins <= games ==> ratio <= 1.0;
    ratio * 100.0
  }

  /** `initializeState`: no game played, labels 1..N_ITERATIONS, every slot of both series empty. */
  method InitializeState() returns (s: State)
    ensures s.switchWins == 0 && s.stayWins == 0 && s.totalGames == 0
    ensures fresh(s.chartData.labels) && fresh(s.chartData.switchSet.data) && fresh(s.chartData.staySet.data)
    ensures s.chartData.labels[..] == seq(NIterations, k => k + 1)
    ensures s.chartData.switchSet.seriesLabel == "Switch" && s.chartData.staySet.seriesLabel == "Stay"
    ensures s.chartData.switchSet.data[..] == seq(NIterations, k => None)
    ensures s.chartData.staySet.data[..] == seq(NIterations, k => None)
  {
    var labels := new int[NIterations](k => k + 1);
    var switchData := new Option<real>[NIterations](k => None);
    var stayData := new Option<real>[NIterations](k => None);
    s := State(0, 0, 0, ChartData(labels, Dataset(switchData, "Switch"), Dataset(stayData, "Stay")));
  }

  /** A fresh array holding the same elements as `a` (`[...a]`). */
  method Copy(a: array<Option<real>>) returns (b: array<Option<real>>)
    ensures fresh(b) && b[..] == a[..]
  {
    b := new Option<real>[a.Length](k reads a requires 0 <= k < a.Length => a[k]);
  }

  /** `updateState`: counts the round's wins, sets the games played to `index + 1`, and
      writes the two new percentages into slot `index` of fresh copies of both series.
      The previous state's arrays are left untouched and the labels array is shared. */
  method UpdateState(state: State, result: RoundOutcome, index: nat) returns (next: State)
    requires index < state.chartData.switchSet.data.Length
    requires index < state.chartData.staySet.data.Length
    ensures next.switchWins == state.switchWins + (if result.wonWithSwitch then 1 else 0)
    ensures next.stayWins == state.stayWins + (if result.wonWithoutSwitch then 1 else 0)
    ensures next.totalGames == index + 1
    ensures next.chartData.labels == state.chartData.labels
    ensures next.chartData.switchSet.seriesLabel == state.chartData.switchSet.seriesLabel
    ensures next.chartData.staySet.seriesLabel == state.chartData.staySet.seriesLabel
    ensures fresh(next.chartData.switchSet.data) && fresh(next.chartData.staySet.data)
    ensures next.chartData.switchSet.data[..] ==
              state.chartData.switchSet.data[..][index := Some(Percentage(next.switchWins, next.totalGames))]
    ensures next.chartData.staySet.data[..] ==
              state.chartData.staySet.data[..][index := Some(Percentage(next.stayWins, next.totalGames))]
    ensures unchanged(state.chartData.labels, state.chartData.switchSet.data, state.chartData.staySet.data)
  {
    var switchWins := state.switchWins + (if result.wonWithSwitch then 1 else 0);
    var stayWins := state.stayWins + (if result.wonWithoutSwitch then 1 else 0);
    var totalGames := index + 1;
    var switchPercentage := Percentage(switchWins, totalGames);
    var stayPercentage := Percentage(stayWins, totalGames);

    var switchData := Copy(state.chartData.switchSet.data);
    var stayData := Copy(state.chartData.staySet.data);
    switchData[index] := Some(switchPercentage);
    stayData[index] := Some(stayPercentage);

    next := State(switchWins, stayWins, totalGames,
                  ChartData(state.chartData.labels,
                            Dataset(switchData, state.chartData.switchSet.seriesLabel),
                            Dataset(stayData, state.chartData.staySet.seriesLabel)));
  }

  // ---------------------------------------------------------------------------
  // What a run of rounds adds up to
  // ---------------------------------------------------------------------------

  /** `simulateMontyHall(DOORS)` as the driver calls it: a round on `Doors` never fails,
      and its outcome is fixed by the first draw. */
  method PlayRound(draws: RoundDraws) returns (o: RoundOutcome)
    ensures o == ExpectedOutcome(draws)
    ensures o.wonWithSwitch == !o.wonWithoutSwitch
  {
    var r := SimulateMontyHall(Doors, draws);
    OutcomeDependsOnlyOnFirstPick(draws);
    o := r.value;
  }

  /** Whether the strategy (switching, or staying when `switching` is false) won the round. */
  predicate Won(outcome: RoundOutcome, switching: bool) {
    if switching then outcome.wonWithSwitch else outcome.wonWithoutSwitch
  }

  /** How many of the rounds the strategy wins. */
  function WinsIn(rounds: seq<RoundDraws>, switching: bool): (n: nat)
    ensures n <= |rounds|
  {
    if rounds == [] then 0
    else WinsIn(rounds[..|rounds| - 1], switching) + (if Won(ExpectedOutcome(rounds[|rounds| - 1]), switching) then 1 else 0)
  }

  /** Every round is won by exactly one of the two strategies. */
  lemma {:induction false} WinsAccountForEveryRound(rounds: seq<RoundDraws>)
    ensures WinsIn(rounds, true) + WinsIn(rounds, false) == |rounds|
  {
    if rounds != [] {
      WinsAccountForEveryRound(rounds[..|rounds| - 1]);
    }
  }

  /** The series of a strategy once the first `played` rounds are folded in: slot `k` of a
      played round holds the strategy's win percentage over rounds 0..k, later slots are empty. */
  function Series(rounds: seq<RoundDraws>, played: nat, switching: bool): (s: seq<Option<real>>)
    requires played <= |rounds|
    ensures |s| == |rounds|
    ensures forall k :: 0 <= k < |rounds| ==> (s[k].Some? <==> k < played)
    ensures forall k :: 0 <= k < played ==> s[k].value <= 100.0
  {
    seq(|rounds|, k requires 0 <= k < |rounds| =>
      if k < played then Some(Percentage(WinsIn(rounds[..k + 1], switching), k + 1)) else None)
  }

  /** Writing the next round's percentage into its slot extends the series by one round
      and leaves every other slot as it was. */
  lemma SeriesStep(rounds: seq<RoundDraws>, played: nat, switching: bool)
    requires played < |rounds|
    ensures Series(rounds, played, switching)[played := Some(Percentage(WinsIn(rounds[..played + 1], switching), played + 1))] ==
              Series(rounds, played + 1, switching)
  {
  }

  /** The reporting cadence of the driver: every `ReportEvery`-th round and the last one. */
  predicate IsReportRound(i: nat) {
    i % ReportEvery == 0 || i == NIterations - 1
  }

  /** No round waits more than `ReportEvery - 1` rounds before the chart shows it. */
  lemma ReportFollowsEveryRound(i: nat)
    requires i < NIterations
    ensures exists j :: i <= j < i + ReportEvery && j < NIterations && IsReportRound(j)
  {
    var next := if i % ReportEvery == 0 then i else i + (ReportEvery - i % ReportEvery);
    if next < NIterations {
      assert next % ReportEvery == 0;
      assert IsReportRound(next);
    } else {
      assert IsReportRound(NIterations - 1);
    }
  }

  /** The counting loop of `simulationMain`: plays `NIterations` rounds with the given draws
      and folds each into the state.  The result counts every round once, and slot `k` of
      each series holds the percentage after the first `k + 1` rounds. */
  method SimulationMain(rounds: seq<RoundDraws>) returns (state: State)
    requires |rounds| == NIterations
    ensures state.totalGames == NIterations
    ensures state.switchWins == WinsIn(rounds, true) && state.stayWins == WinsIn(rounds, false)
    ensures state.switchWins + state.stayWins == NIterations
    ensures state.chartData.labels[..] == seq(NIterations, k => k + 1)
    ensures state.chartData.switchSet.seriesLabel == "Switch" && state.chartData.staySet.seriesLabel == "Stay"
    ensures state.chartData.switchSet.data[..] == Series(rounds, NIterations, true)
    ensures state.chartData.staySet.data[..] == Series(rounds, NIterations, false)
  {
    state := InitializeState();
    var i := 0;
    assert state.chartData.switchSet.data[..] == Series(rounds, 0, true);
    assert state.chartData.staySet.data[..] == Series(rounds, 0, false);
    while i < NIterations
      invariant 0 <= i <= NIterations
      invariant state.totalGames == i
      invariant state.switchWins == WinsIn(rounds[..i], true)
      invariant state.stayWins == WinsIn(rounds[..i], false)
      invariant state.chartData.labels[..] == seq(NIterations, k => k + 1)
      invariant state.chartData.switchSet.seriesLabel == "Switch" && state.chartData.staySet.seriesLabel == "Stay"
      invariant state.chartData.switchSet.data[..] == Series(rounds, i, true)
      invariant state.chartData.staySet.data[..] == Series(rounds, i, false)
    {
      var result := PlayRound(rounds[i]);
      assert rounds[..i + 1][..i] == rounds[..i];
      state := UpdateState(state, result, i);
      SeriesStep(rounds, i, true);
      SeriesStep(rounds, i, false);
      i := i + 1;
    }
    assert rounds[..NIterations] == rounds;
    WinsAccountForEveryRound(rounds);
  }
}
