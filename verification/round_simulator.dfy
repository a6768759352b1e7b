/**
  The round simulator of the Monty Hall game: the door filters, the random
  picker, the initial and switching choices, the host's opening of a door and one full
  round.  `Math.random()` is not modelled as a source of randomness: every
  random draw is an explicit parameter of type `Random`, so every step is a
  deterministic function of the doors and the draws.
*/
module RoundSimulator {
  import opened Options

  /** A value `Math.random()` can return: a real in the half-open interval [0, 1). */
  type Random = r: real | 0.0 <= r < 1.0

  /** A door of the game; `i` is the door's identifier, used by the exclusion lists. */
  datatype Door = Door(isWinner: bool, isOpen: bool, i: int)

  /** What one round reports for the two strategies. */
  datatype RoundOutcome = RoundOutcome(wonWithSwitch: bool, wonWithoutSwitch: bool)

  /** The three draws of `Math.random()` one round consumes, in the order it consumes them. */
  datatype RoundDraws = RoundDraws(pick: Random, hostPick: Random, switchPick: Random)

  /** The fixed configuration every round starts from: three closed doors, the middle one wins. */
  const Doors: seq<Door> := [Door(false, false, 0), Door(true, false, 1), Door(false, false, 2)]

  /** Every door sits at the position its identifier names. */
  predicate Indexed(doors: seq<Door>) {
    forall k :: 0 <= k < |doors| ==> doors[k].i == k
  }

  /** Exactly one door is the winner. */
  predicate OneWinner(doors: seq<Door>) {
    exists w :: 0 <= w < |doors| && doors[w].isWinner &&
      forall k :: 0 <= k < |doors| && k != w ==> !doors[k].isWinner
  }

  /** No two positions hold doors with the same identifier. */
  predicate DistinctIds(doors: seq<Door>) {
    forall j, k :: 0 <= j < k < |doors| ==> doors[j].i != doors[k].i
  }

  // ---------------------------------------------------------------------------
  // Filters
  // ---------------------------------------------------------------------------

  /** `Array.prototype.filter`: the elements of `s` that `keep` accepts, in their order. */
  function Filter<T(!new)>(s: seq<T>, keep: T -> bool): (r: seq<T>)
    ensures |r| <= |s|
    ensures forall x :: x in r <==> x in s && keep(x)
  {
    if s == [] then []
    else (if keep(s[0]) then [s[0]] else []) + Filter(s[1..], keep)
  }

  /** Filtering a concatenation filters each part and keeps the parts in order. */
  lemma {:induction false} FilterAppend<T(!new)>(a: seq<T>, b: seq<T>, keep: T -> bool)
    ensures Filter(a + b, keep) == Filter(a, keep) + Filter(b, keep)
  {
    if a == [] {
      assert a + b == b;
    } else {
      assert (a + b)[1..] == a[1..] + b;
      FilterAppend(a[1..], b, keep);
    }
  }

  /** Filtering one element keeps it exactly when the predicate accepts it;
      with FilterAppend this fixes the result of Filter on every input, order included. */
  lemma FilterSingleton<T(!new)>(x: T, keep: T -> bool)
    ensures Filter([x], keep) == if keep(x) then [x] else []
  {
    assert [x][1..] == [];
  }

  /** Two filters in a row (the `pipe` of two filters) filter by the conjunction. */
  lemma {:induction false} FilterPipe<T(!new)>(s: seq<T>, first: T -> bool, second: T -> bool, both: T -> bool)
    requires forall x :: both(x) == (first(x) && second(x))
    ensures Filter(Filter(s, first), second) == Filter(s, both)
  {
    if s != [] {
      FilterPipe(s[1..], first, second, both);
      var head := if first(s[0]) then [s[0]] else [];
      FilterAppend(head, Filter(s[1..], first), second);
      if first(s[0]) {
        FilterSingleton(s[0], second);
      }
    }
  }

  /** The predicate of `filterClosed`. */
  predicate IsClosed(d: Door) { !d.isOpen }

  /** The predicate of `filterNonWinner`. */
  predicate IsNonWinner(d: Door) { !d.isWinner }

  /** The predicate of `filterExclude`: the door's identifier is not in `excluded`. */
  function NotExcluded(excluded: seq<int>): Door -> bool {
    (d: Door) => d.i !in excluded
  }

  /** Filter on a three-element sequence, element by element. */
  lemma FilterThree<T(!new)>(x: T, y: T, z: T, keep: T -> bool)
    ensures Filter([x, y, z], keep) ==
              (if keep(x) then [x] else []) + (if keep(y) then [y] else []) + (if keep(z) then [z] else [])
  {
    assert [x, y, z] == [x] + ([y] + [z]);
    FilterAppend([x], [y] + [z], keep);
    FilterAppend([y], [z], keep);
    FilterSingleton(x, keep);
    FilterSingleton(y, keep);
    FilterSingleton(z, keep);
  }

  /** Filter on a two-element sequence, element by element. */
  lemma FilterTwo<T(!new)>(x: T, y: T, keep: T -> bool)
    ensures Filter([x, y], keep) == (if keep(x) then [x] else []) + (if keep(y) then [y] else [])
  {
    assert [x, y] == [x] + [y];
    FilterAppend([x], [y], keep);
    FilterSingleton(x, keep);
    FilterSingleton(y, keep);
  }

  /** The doors that are not open (public/main.js `filterClosed`). */
  function FilterClosed(doors: seq<Door>): (r: seq<Door>)
    ensures |r| <= |doors|
    ensures forall d :: d in r <==> d in doors && !d.isOpen
  {
    Filter(doors, IsClosed)
  }

  /** The doors whose identifier is not listed in `excluded` (public/main.js `filterExclude`). */
  function FilterExclude(doors: seq<Door>, excluded: seq<int>): (r: seq<Door>)
    ensures |r| <= |doors|
    ensures forall d :: d in r <==> d in doors && d.i !in excluded
  {
    Filter(doors, NotExcluded(excluded))
  }

  /** The doors that do not win (public/main.js `filterNonWinner`). */
  function FilterNonWinner(doors: seq<Door>): (r: seq<Door>)
    ensures |r| <= |doors|
    ensures forall d :: d in r <==> d in doors && !d.isWinner
  {
    Filter(doors, IsNonWinner)
  }

  /** The candidates of `chooseClosedDoor`: closed, then not excluded. */
  function ClosedCandidates(doors: seq<Door>, excluded: seq<int>): (r: seq<Door>)
    ensures forall d :: d in r <==> d in doors && !d.isOpen && d.i !in excluded
  {
    FilterExclude(FilterClosed(doors), excluded)
  }

  /** The candidates of `openNonWinner`: not winning, then not excluded. */
  function NonWinnerCandidates(doors: seq<Door>, excluded: seq<int>): (r: seq<Door>)
    ensures forall d :: d in r <==> d in doors && !d.isWinner && d.i !in excluded
  {
    FilterExclude(FilterNonWinner(doors), excluded)
  }

  // ---------------------------------------------------------------------------
  // The random picker
  // ---------------------------------------------------------------------------

  /** `Math.floor(rand * n)`: an index below `n` whenever there is one. */
  function PickIndex(n: nat, rand: Random): (k: nat)
    requires n > 0
    ensures k < n
  {
    var x := rand * n as real;
    assert 0.0 <= x < n as real by {
      assert rand * n as real <= rand * n as real + (1.0 - rand) * n as real;
    }
    x.Floor
  }

  /** Every index below `n` is `PickIndex(n, k / n)`, so no candidate is out of reach. */
  lemma PickIndexReachesEvery(n: nat, k: nat)
    requires k < n
    ensures 0.0 <= k as real / n as real < 1.0
    ensures PickIndex(n, k as real / n as real) == k
  {
    var rand: Random := k as real / n as real;
    assert rand * n as real == k as real;
  }

  /** `oneOf`: `None` (JavaScript's `undefined`) on an empty list, else the element at `PickIndex`. */
  function OneOf<T>(arr: seq<T>, rand: Random): (r: Option<T>)
    ensures r.None? <==> arr == []
    ensures r.Some? ==> r.value in arr
  {
    if |arr| == 0 then None else Some(arr[PickIndex(|arr|, rand)])
  }

  /** Whatever the list, each of its elements is what some draw makes `oneOf` return. */
  lemma OneOfReachesEvery<T>(arr: seq<T>, k: nat)
    requires k < |arr|
    ensures exists rand: Random :: OneOf(arr, rand) == Some(arr[k])
  {
    PickIndexReachesEvery(|arr|, k);
    var rand: Random := k as real / |arr| as real;
    assert OneOf(arr, rand) == Some(arr[k]);
  }

  // ---------------------------------------------------------------------------
  // The steps of a round
  // ---------------------------------------------------------------------------

  /** `chooseClosedDoor`: the identifier of a closed, non-excluded door, or `None`
      where `oneOf` yields `undefined` and reading its `i` throws. */
  function ChooseClosedDoor(doors: seq<Door>, excluded: seq<int>, rand: Random): (r: Option<int>)
    ensures r.None? <==> forall d :: d in doors ==> d.isOpen || d.i in excluded
    ensures r.Some? ==> exists d :: d in doors && !d.isOpen && d.i !in excluded && d.i == r.value
  {
    match OneOf(ClosedCandidates(doors, excluded), rand)
    case None => None
    case Some(choice) => Some(choice.i)
  }

  /** `doors.map(...)` of `openNonWinner`: every door keeps its identifier and winner flag,
      and is open afterwards exactly when it was open before or carries identifier `id`. */
  function OpenById(doors: seq<Door>, id: int): (r: seq<Door>)
    ensures |r| == |doors|
    ensures forall k :: 0 <= k < |doors| ==>
              r[k].i == doors[k].i && r[k].isWinner == doors[k].isWinner &&
              (r[k].isOpen <==> doors[k].isOpen || doors[k].i == id)
  {
    seq(|doors|, k requires 0 <= k < |doors| =>
      if doors[k].i == id then doors[k].(isOpen := true) else doors[k])
  }

  /** `openNonWinner`: a copy of `doors` in which the doors sharing the identifier of a
      drawn non-winning, non-excluded door are open.  When there is no candidate the
      mapping reads `i` of `undefined` and throws (`None`), unless there is no door to map. */
  function OpenNonWinner(doors: seq<Door>, excluded: seq<int>, rand: Random): (r: Option<seq<Door>>)
    ensures r.None? <==> doors != [] && forall d :: d in doors ==> d.isWinner || d.i in excluded
    ensures r.Some? ==> |r.value| == |doors|
    ensures r.Some? ==> forall k :: 0 <= k < |doors| ==>
              r.value[k] == doors[k] ||
              (r.value[k] == doors[k].(isOpen := true) && doors[k].i !in excluded &&
               exists c :: c in doors && !c.isWinner && c.i == doors[k].i)
  {
    match OneOf(NonWinnerCandidates(doors, excluded), rand)
    case None => if doors == [] then Some([]) else None
    case Some(choice) => Some(OpenById(doors, choice.i))
  }

  /** When the identifiers are distinct, `openNonWinner` opens exactly one door: a
      non-winning, non-excluded one; every other door is left as it was. */
  lemma OpenNonWinnerOpensOne(doors: seq<Door>, excluded: seq<int>, rand: Random)
    requires DistinctIds(doors) && doors != []
    requires OpenNonWinner(doors, excluded, rand).Some?
    ensures var after := OpenNonWinner(doors, excluded, rand).value;
            exists k :: 0 <= k < |doors| && !doors[k].isWinner && doors[k].i !in excluded &&
              after[k] == doors[k].(isOpen := true) &&
              forall j :: 0 <= j < |doors| && j != k ==> after[j] == doors[j]
  {
    var candidates := NonWinnerCandidates(doors, excluded);
    var choice := OneOf(candidates, rand).value;
    assert choice in doors;
    var k :| 0 <= k < |doors| && doors[k] == choice;
    var after := OpenNonWinner(doors, excluded, rand).value;
    assert after == OpenById(doors, choice.i);
    forall j | 0 <= j < |doors| && j != k ensures after[j] == doors[j] {
      assert doors[j].i != doors[k].i;
    }
  }

  /** `simulateMontyHall`: one round (initial pick, the door the host opens, switch) and whether
      each strategy wins; `None` wherever the JavaScript code would throw. */
  function SimulateMontyHall(doors: seq<Door>, draws: RoundDraws): (r: Option<RoundOutcome>)
    ensures r.Some? && OneWinner(doors) ==>
              !(r.value.wonWithSwitch && r.value.wonWithoutSwitch)
  {
    match ChooseClosedDoor(doors, [], draws.pick)
    case None => None
    case Some(initial) =>
      match OpenNonWinner(doors, [initial], draws.hostPick)
      case None => None
      case Some(adjusted) =>
        match ChooseClosedDoor(adjusted, [initial], draws.switchPick)
        case None => None
        case Some(finalChoice) =>
          // the final choice is drawn from doors whose identifier is not `initial`
          assert finalChoice != initial;
          if 0 <= finalChoice < |doors| && 0 <= initial < |doors| then
            Some(RoundOutcome(doors[finalChoice].isWinner, doors[initial].isWinner))
          else
            None
  }

  /** Unfolds the definition of `SimulateMontyHall` for a round whose three steps are
      known: a proof step for the lemmas about `Doors`, not a property of its own. */
  lemma SimulateMontyHallSteps(doors: seq<Door>, draws: RoundDraws, initial: int, adjusted: seq<Door>, finalChoice: int)
    requires ChooseClosedDoor(doors, [], draws.pick) == Some(initial)
    requires OpenNonWinner(doors, [initial], draws.hostPick) == Some(adjusted)
    requires ChooseClosedDoor(adjusted, [initial], draws.switchPick) == Some(finalChoice)
    requires 0 <= initial < |doors| && 0 <= finalChoice < |doors|
    ensures SimulateMontyHall(doors, draws) == Some(RoundOutcome(doors[finalChoice].isWinner, doors[initial].isWinner))
  {
  }
}

/** What the round simulator guarantees for the fixed three-door configuration `Doors`. */
module ThreeDoorGame {
  import opened Options
  import opened RoundSimulator

  /** The fixed configuration is well formed: identifiers are positions, one winner. */
  lemma DoorsWellFormed()
    ensures Indexed(Doors) && DistinctIds(Doors) && OneWinner(Doors)
  {
    assert |Doors| == 3 && Doors[0].i == 0 && Doors[1].i == 1 && Doors[2].i == 2;
    assert forall k :: 0 <= k < |Doors| && k != 1 ==> !Doors[k].isWinner;
    assert Doors[1].isWinner;
  }

  /** The initial pick on `Doors` always succeeds: it is the door at index `Math.floor(rand * 3)`. */
  lemma InitialChoiceIsPickIndex(rand: Random)
    ensures ChooseClosedDoor(Doors, [], rand) == Some(PickIndex(3, rand))
  {
    assert Doors == [Doors[0], Doors[1], Doors[2]];
    FilterThree(Doors[0], Doors[1], Doors[2], IsClosed);
    assert FilterClosed(Doors) == Doors;
    FilterThree(Doors[0], Doors[1], Doors[2], NotExcluded([]));
    assert ClosedCandidates(Doors, []) == Doors;
  }

  /** The host's candidate doors for each initial pick, in door order. */
  lemma HostCandidates(initial: int)
    requires 0 <= initial < 3
    ensures NonWinnerCandidates(Doors, [initial]) ==
              if initial == 0 then [Doors[2]] else if initial == 1 then [Doors[0], Doors[2]] else [Doors[0]]
  {
    assert Doors == [Doors[0], Doors[1], Doors[2]];
    FilterThree(Doors[0], Doors[1], Doors[2], IsNonWinner);
    assert FilterNonWinner(Doors) == [Doors[0], Doors[2]];
    FilterTwo(Doors[0], Doors[2], NotExcluded([initial]));
  }

  /** The host's choice has two candidates when the initial pick is the winner, one otherwise. */
  lemma HostCandidateCount(initial: int)
    requires 0 <= initial < 3
    ensures |NonWinnerCandidates(Doors, [initial])| == if Doors[initial].isWinner then 2 else 1
  {
    HostCandidates(initial);
  }

  /** The door the host's draw opens after the initial pick `initial`: one of the two
      losing doors when the pick is the winner, otherwise the only losing door left. */
  function HostOpens(initial: int, rand: Random): (shown: int)
    requires 0 <= initial < 3
    ensures 0 <= shown < 3 && shown != initial && !Doors[shown].isWinner
  {
    if initial == 1 then (if PickIndex(2, rand) == 0 then 0 else 2)
    else 2 - initial
  }

  /** `Doors` with the door at `shown` opened. */
  function WithOpen(shown: int): seq<Door>
    requires 0 <= shown < 3
  {
    Doors[shown := Doors[shown].(isOpen := true)]
  }

  /** The host opens exactly one door, `HostOpens(initial, rand)`: not the initial pick and
      not the winner; every other door stays as it was. */
  lemma HostOpensOneLosingDoor(initial: int, rand: Random)
    requires 0 <= initial < 3
    ensures OpenNonWinner(Doors, [initial], rand) == Some(WithOpen(HostOpens(initial, rand)))
  {
    HostCandidates(initial);
    var shown := HostOpens(initial, rand);
    assert OneOf(NonWinnerCandidates(Doors, [initial]), rand) == Some(Doors[shown]);
    assert |Doors| == 3 && Doors[0].i == 0 && Doors[1].i == 1 && Doors[2].i == 2;
    assert OpenById(Doors, shown) == WithOpen(shown);
  }

  /** Once the host has opened `shown`, the only switching candidate is the third door. */
  lemma SwitchCandidatesAfterOpening(initial: int, shown: int)
    requires 0 <= initial < 3 && 0 <= shown < 3 && shown != initial
    ensures ClosedCandidates(WithOpen(shown), [initial]) == [Doors[3 - initial - shown]]
  {
    var x, y, z := Door(false, shown == 0, 0), Door(true, shown == 1, 1), Door(false, shown == 2, 2);
    assert WithOpen(shown) == [x, y, z];
    FilterThree(x, y, z, IsClosed);
    var closed := FilterClosed([x, y, z]);
    var first, second := if shown == 0 then y else x, if shown == 2 then y else z;
    assert closed == [first, second];
    FilterTwo(first, second, NotExcluded([initial]));
  }

  /** After the host opens a door, switching has exactly one candidate door. */
  lemma SwitchCandidateCount(initial: int, rand: Random)
    requires 0 <= initial < 3
    ensures OpenNonWinner(Doors, [initial], rand).Some?
    ensures |ClosedCandidates(OpenNonWinner(Doors, [initial], rand).value, [initial])| == 1
  {
    HostOpensOneLosingDoor(initial, rand);
    SwitchCandidatesAfterOpening(initial, HostOpens(initial, rand));
  }

  /** Whatever the switch's draw, the final choice is the one door that is neither the
      initial pick nor the door the host opened. */
  lemma FinalChoiceIsTheRemainingDoor(initial: int, shown: int, switchPick: Random)
    requires 0 <= initial < 3 && 0 <= shown < 3 && shown != initial
    ensures 0 <= 3 - initial - shown < 3 && 3 - initial - shown != initial && 3 - initial - shown != shown
    ensures ChooseClosedDoor(WithOpen(shown), [initial], switchPick) == Some(3 - initial - shown)
  {
    SwitchCandidatesAfterOpening(initial, shown);
    assert PickIndex(1, switchPick) == 0;
    assert Doors[3 - initial - shown].i == 3 - initial - shown;
  }

  /** The outcome of a round on `Doors` as a function of the first draw alone: staying wins
      exactly when the initial pick is the winning door 1, switching wins exactly otherwise. */
  function ExpectedOutcome(draws: RoundDraws): RoundOutcome {
    var initial := PickIndex(3, draws.pick);
    RoundOutcome(initial != 1, initial == 1)
  }

  /** Whatever the host's and the switch's draws, a round on `Doors` completes and ends
      as `ExpectedOutcome` says. */
  lemma OutcomeDependsOnlyOnFirstPick(draws: RoundDraws)
    ensures SimulateMontyHall(Doors, draws) == Some(ExpectedOutcome(draws))
  {
    var initial := PickIndex(3, draws.pick);
    InitialChoiceIsPickIndex(draws.pick);
    var shown := HostOpens(initial, draws.hostPick);
    HostOpensOneLosingDoor(initial, draws.hostPick);
    FinalChoiceIsTheRemainingDoor(initial, shown, draws.switchPick);
    var finalChoice := 3 - initial - shown;
    assert ChooseClosedDoor(Doors, [], draws.pick) == Some(initial);
    assert OpenNonWinner(Doors, [initial], draws.hostPick) == Some(WithOpen(shown));
    assert ChooseClosedDoor(WithOpen(shown), [initial], draws.switchPick) == Some(finalChoice);
    SimulateMontyHallSteps(Doors, draws, initial, WithOpen(shown), finalChoice);
    if initial != 1 {
      assert finalChoice == 1;
    }
  }

  /** Switching wins exactly when the first draw falls outside the middle third of [0, 1):
      the draws on which switching wins cover two thirds of the interval, staying one third. */
  lemma SwitchWinsOutsideMiddleThird(draws: RoundDraws)
    ensures ExpectedOutcome(draws).wonWithSwitch <==> !(1.0 / 3.0 <= draws.pick < 2.0 / 3.0)
    ensures ExpectedOutcome(draws).wonWithoutSwitch <==> 1.0 / 3.0 <= draws.pick < 2.0 / 3.0
  {
    var x := draws.pick * 3.0;
    assert PickIndex(3, draws.pick) == x.Floor;
    assert x.Floor == 1 <==> 1.0 <= x < 2.0;
  }

  /** Whatever the draws, a round on `Doors` completes, and switching wins exactly when staying loses. */
  lemma SwitchWinsIffStayLoses(draws: RoundDraws)
    ensures SimulateMontyHall(Doors, draws).Some?
    ensures SimulateMontyHall(Doors, draws).value.wonWithSwitch == !SimulateMontyHall(Doors, draws).value.wonWithoutSwitch
  {
    OutcomeDependsOnlyOnFirstPick(draws);
  }

  /** The worked scenario: a first draw below 1/3 picks door 0, the host must open door 2,
      the switch lands on the winning door 1, so switching wins and staying loses. */
  lemma PickDoorZeroScenario(draws: RoundDraws)
    requires draws.pick < 1.0 / 3.0
    ensures ChooseClosedDoor(Doors, [], draws.pick) == Some(0)
    ensures OpenNonWinner(Doors, [0], draws.hostPick) == Some(Doors[2 := Doors[2].(isOpen := true)])
    ensures ChooseClosedDoor(Doors[2 := Doors[2].(isOpen := true)], [0], draws.switchPick) == Some(1)
    ensures SimulateMontyHall(Doors, draws) == Some(RoundOutcome(true, false))
  {
    assert PickIndex(3, draws.pick) == 0;
    InitialChoiceIsPickIndex(draws.pick);
    HostOpensOneLosingDoor(0, draws.hostPick);
    FinalChoiceIsTheRemainingDoor(0, 2, draws.switchPick);
    OutcomeDependsOnlyOnFirstPick(draws);
  }
}
