/** The performance figures of analysis plans, and their agreement with the verdicts. */
module Performance {
  import opened Market
  import opened Outcomes

  datatype Direction = LongSide | ShortSide | NoSide

  /** `plan` is None where the stored result has no entry plan. */
  datatype Verdict = Verdict(status: Status, completionEntry: Option<real>)
  datatype Record = Record(hasResult: bool, direction: Direction, plan: Option<Plan>, outcome: Option<Verdict>)

  const PRICED: set<Status> := {Stopped, Target2, BreakevenAfterTarget1}
  const WON: set<Status> := {Target1BeforeEntry, Target2, BreakevenAfterTarget1}
  const LOST: set<Status> := {StoppedBeforeEntry, Stopped}
  const UNENTERED: set<Status> := {Target1BeforeEntry, StoppedBeforeEntry}
  const OPEN: set<Status> := {ActiveTrade, Target1Partial}

  predicate IsDirectional(r: Record) {
    r.hasResult && r.direction != NoSide
  }

  function Abs(x: real): real { if x < 0.0 then -x else x }

  /** A quotient, known by its product. */
  function Per(a: real, b: real): (q: real)
    requires b > 0.0
    ensures q * b == a
  {
    a / b
  }

  /** Where the plan's exits are, weighted by the halves they close. */
  function WeightedExit(status: Status, entry: real, plan: Plan): real {
    match status
    case Stopped => plan.stop
    case StoppedBeforeEntry => plan.stop
    case Target1BeforeEntry => plan.target1
    case Target2 => (plan.target1 + plan.target2) / 2.0
    case _ => (plan.target1 + entry) / 2.0
  }

  /** Return on notional and multiple of the risked distance, for a plan that can be priced. */
  function TradeMultiples(r: Record, includeUnentered: bool): Option<(real, real)> {
    if !IsDirectional(r) || r.outcome.None? then None else
    var status := r.outcome.value.status;
    if status !in PRICED && !(includeUnentered && status in UNENTERED) then None else
    if r.plan.None? then None else
    if status in UNENTERED && r.outcome.value.completionEntry.None? then None else
    var plan := r.plan.value;
    var entry := if status in UNENTERED then r.outcome.value.completionEntry.value else plan.entry;
    var pnl := (if r.direction == LongSide then 1.0 else -1.0) * (WeightedExit(status, entry, plan) - entry);
    var distance := Abs(entry - plan.stop);
    if entry <= 0.0 || distance <= 0.0 then None else Some((Per(pnl, entry), Per(pnl, distance)))
  }

  // ----- what the loop accumulates, last record outermost

  function Multiples(records: seq<Record>, includeUnentered: bool): seq<(real, real)> {
    if records == [] then [] else
    var m := TradeMultiples(records[|records| - 1], includeUnentered);
    Multiples(records[..|records| - 1], includeUnentered) + if m.Some? then [m.value] else []
  }

  predicate HasStatus(r: Record, statuses: set<Status>) {
    IsDirectional(r) && r.outcome.Some? && r.outcome.value.status in statuses
  }

  function Count(records: seq<Record>, statuses: set<Status>): nat {
    if records == [] then 0
    else Count(records[..|records| - 1], statuses) + if HasStatus(records[|records| - 1], statuses) then 1 else 0
  }

  function CountDirectional(records: seq<Record>): nat {
    if records == [] then 0
    else CountDirectional(records[..|records| - 1]) + if IsDirectional(records[|records| - 1]) then 1 else 0
  }

  function Total(values: seq<(real, real)>): (real, real) {
    if values == [] then (0.0, 0.0) else
    var (a, b) := Total(values[..|values| - 1]);
    (a + values[|values| - 1].0, b + values[|values| - 1].1)
  }

  function Positive(values: seq<(real, real)>): nat {
    if values == [] then 0
    else Positive(values[..|values| - 1]) + if values[|values| - 1].0 > 0.0 then 1 else 0
  }

  function Negative(values: seq<(real, real)>): nat {
    if values == [] then 0
    else Negative(values[..|values| - 1]) + if values[|values| - 1].0 < 0.0 then 1 else 0
  }

  datatype Figures = Figures(
    directional: nat, settled: nat, open: nat, ambiguous: nat, wins: nat, losses: nat, breakevens: int,
    resolvedPlans: nat, enteredPlans: int, unenteredPlans: nat, planWins: nat, planLosses: nat, pricedPlans: nat,
    notionalPnl: real, riskPnl: real, totalR: real, allNotionalPnl: real, allRiskPnl: real, allTotalR: real)

  /** What the figures are of. */
  ghost predicate Describes(f: Figures, records: seq<Record>, notional: real, risk: real) {
    var own := Multiples(records, false);
    var all := Multiples(records, true);
    && f.directional == CountDirectional(records) && f.settled == |own|
    && f.open == Count(records, OPEN) && f.ambiguous == Count(records, {Ambiguous})
    && f.wins == Positive(own) && f.losses == Negative(own) && f.breakevens == f.settled - f.wins - f.losses
    && f.planWins == Count(records, WON) && f.planLosses == Count(records, LOST)
    && f.resolvedPlans == f.planWins + f.planLosses
    && f.unenteredPlans == Count(records, UNENTERED) && f.enteredPlans == f.resolvedPlans - f.unenteredPlans
    && f.pricedPlans == |all|
    && f.notionalPnl == Total(own).0 * notional && f.riskPnl == Total(own).1 * risk && f.totalR == Total(own).1
    && f.allNotionalPnl == Total(all).0 * notional && f.allRiskPnl == Total(all).1 * risk && f.allTotalR == Total(all).1
  }

  lemma NoRecords()
    ensures Multiples([], false) == Multiples([], true) == [] && CountDirectional([]) == 0
    ensures forall statuses :: Count([], statuses) == 0
  {
  }

  lemma OneMoreRecord(records: seq<Record>, r: Record)
    ensures var more := records + [r];
            && (forall all :: Multiples(more, all) == Multiples(records, all)
                  + if TradeMultiples(r, all).Some? then [TradeMultiples(r, all).value] else [])
            && (forall statuses :: Count(more, statuses) == Count(records, statuses)
                  + if HasStatus(r, statuses) then 1 else 0)
            && CountDirectional(more) == CountDirectional(records) + if IsDirectional(r) then 1 else 0
    ensures !IsDirectional(r) ==> TradeMultiples(r, false).None? && TradeMultiples(r, true).None?
  {
    assert (records + [r])[..|records|] == records;
  }

  method CalculatePerformance(records: seq<Record>, notional: real, risk: real) returns (f: Figures)
    ensures Describes(f, records, notional, risk)
  {
    hide Multiples, Count, CountDirectional, TradeMultiples, IsDirectional, Total, Positive, Negative;
    assert records[..0] == [];
    NoRecords();
    var directional, open, ambiguous, won, lost, unentered := 0, 0, 0, 0, 0, 0;
    var own, all := [], [];
    for i := 0 to |records|
      invariant own == Multiples(records[..i], false) && all == Multiples(records[..i], true)
      invariant directional == CountDirectional(records[..i])
      invariant open == Count(records[..i], OPEN) && ambiguous == Count(records[..i], {Ambiguous})
      invariant won == Count(records[..i], WON) && lost == Count(records[..i], LOST)
      invariant unentered == Count(records[..i], UNENTERED)
    {
      var r := records[i];
      assert records[..i + 1] == records[..i] + [r];
      OneMoreRecord(records[..i], r);
      if IsDirectional(r) {
        directional := directional + 1;
        if r.outcome.Some? {
          var status := r.outcome.value.status;
          if status == Ambiguous {
            ambiguous := ambiguous + 1;
          } else if status in OPEN {
            open := open + 1;
          }
          if status in WON {
            won := won + 1;
          } else if status in LOST {
            lost := lost + 1;
          }
          if status in UNENTERED {
            unentered := unentered + 1;
          }
        }
        var multiples := TradeMultiples(r, false);
        if multiples.Some? {
          own := own + [multiples.value];
        }
        var allMultiples := TradeMultiples(r, true);
        if allMultiples.Some? {
          all := all + [allMultiples.value];
        }
      }
    }
    assert records[..|records|] == records;
    var wins, losses, total := Tally(own);
    var _, _, allTotal := Tally(all);
    f := Figures(directional, |own|, open, ambiguous, wins, losses, |own| - wins - losses,
                 won + lost, won + lost - unentered, unentered, won, lost, |all|,
                 total.0 * notional, total.1 * risk, total.1,
                 allTotal.0 * notional, allTotal.1 * risk, allTotal.1);
  }

  method Tally(values: seq<(real, real)>) returns (wins: nat, losses: nat, total: (real, real))
    ensures wins == Positive(values) && losses == Negative(values) && total == Total(values)
  {
    wins, losses, total := 0, 0, (0.0, 0.0);
    for i := 0 to |values|
      invariant wins == Positive(values[..i]) && losses == Negative(values[..i]) && total == Total(values[..i])
    {
      assert values[..i + 1][..i] == values[..i];
      if values[i].0 > 0.0 {
        wins := wins + 1;
      }
      if values[i].0 < 0.0 {
        losses := losses + 1;
      }
      total := (total.0 + values[i].0, total.1 + values[i].1);
    }
    assert values[..|values|] == values;
  }

  // ----- agreement with the verdicts

  /** Reward to risk of the two targets. */
  function RewardRisk(plan: Plan): (real, real)
    requires plan.entry != plan.stop
  {
    var risk := Abs(plan.entry - plan.stop);
    (Per(Abs(plan.target1 - plan.entry), risk), Per(Abs(plan.target2 - plan.entry), risk))
  }

  /** Every directional record carries a plan that meets the analysis contract. */
  predicate ContractValid(records: seq<Record>) {
    forall i :: 0 <= i < |records| && IsDirectional(records[i]) ==>
      records[i].plan.Some? && Contract(records[i].direction == LongSide, records[i].plan.value)
  }

  lemma QuotientIsUnique(p: real, q: real, b: real)
    requires b > 0.0 && p * b == q * b
    ensures p == q
  {
  }

  lemma StopQuotient(risk: real)
    requires risk > 0.0
    ensures Per(-risk, risk) == -1.0
  {
    QuotientIsUnique(Per(-risk, risk), -1.0, risk);
  }

  lemma HalfQuotient(a: real, b: real)
    requires b > 0.0
    ensures Per(a / 2.0, b) == Per(a, b) / 2.0
  {
    assert Per(a, b) / 2.0 * b == Per(a, b) * b / 2.0;
    QuotientIsUnique(Per(a / 2.0, b), Per(a, b) / 2.0, b);
  }

  lemma SumQuotient(a: real, b: real, c: real)
    requires c > 0.0
    ensures Per(a + b, c) == Per(a, c) + Per(b, c)
  {
    assert (Per(a, c) + Per(b, c)) * c == Per(a, c) * c + Per(b, c) * c;
    QuotientIsUnique(Per(a + b, c), Per(a, c) + Per(b, c), c);
  }

  lemma SignOfQuotient(a: real, b: real)
    requires b > 0.0
    ensures Per(a, b) > 0.0 <==> a > 0.0
    ensures Per(a, b) < 0.0 <==> a < 0.0
  {
  }

  /** An entered plan's multiple is what its verdict says: a stop costs exactly the risk, the second
      target earns the mean of both rewards, breakeven after the first target half of the first. */
  lemma VerdictFixesMultiple(r: Record)
    requires IsDirectional(r) && r.outcome.Some? && r.outcome.value.status in PRICED
    requires r.plan.Some? && Contract(r.direction == LongSide, r.plan.value)
    ensures var m := TradeMultiples(r, false);
            var (r1, r2) := RewardRisk(r.plan.value);
            && m.Some? && m == TradeMultiples(r, true)
            && m.value.1 == (match r.outcome.value.status
                             case Stopped => -1.0
                             case Target2 => (r1 + r2) / 2.0
                             case _ => r1 / 2.0)
            && (m.value.0 > 0.0 <==> r.outcome.value.status != Stopped)
            && (m.value.0 < 0.0 <==> r.outcome.value.status == Stopped)
  {
    hide Per;
    var plan := r.plan.value;
    var status := r.outcome.value.status;
    var sign := if r.direction == LongSide then 1.0 else -1.0;
    var pnl := sign * (WeightedExit(status, plan.entry, plan) - plan.entry);
    var risk := Abs(plan.entry - plan.stop);
    var reward1, reward2 := Abs(plan.target1 - plan.entry), Abs(plan.target2 - plan.entry);
    SignOfQuotient(pnl, plan.entry);
    match status {
      case Stopped =>
        assert pnl == -risk;
        StopQuotient(risk);
      case Target2 =>
        assert pnl == (reward1 + reward2) / 2.0;
        HalfQuotient(reward1 + reward2, risk);
        SumQuotient(reward1, reward2, risk);
      case BreakevenAfterTarget1 =>
        assert pnl == reward1 / 2.0;
        HalfQuotient(reward1, risk);
    }
  }

  lemma {:induction false} SignsCountVerdicts(records: seq<Record>)
    requires ContractValid(records)
    ensures var own := Multiples(records, false);
            && Positive(own) == Count(records, {Target2, BreakevenAfterTarget1})
            && Negative(own) == Count(records, {Stopped})
            && |own| == Count(records, PRICED) == Positive(own) + Negative(own)
            && Count(records, WON) + Count(records, LOST) == Count(records, PRICED) + Count(records, UNENTERED)
    decreases |records|
  {
    if records != [] {
      var n := |records| - 1;
      var r := records[n];
      var before := Multiples(records[..n], false);
      SignsCountVerdicts(records[..n]);
      if IsDirectional(r) && r.outcome.Some? && r.outcome.value.status in PRICED {
        VerdictFixesMultiple(r);
        var m := TradeMultiples(r, false).value;
        assert (before + [m])[..|before|] == before;
      } else {
        assert Multiples(records, false) == before;
      }
    }
  }

  /** The sign-based figures agree with the verdicts: wins are the plans that reached a target after
      the entry, losses the stopped ones, nothing is left over, and the plans counted as entered are
      the settled ones. */
  lemma FiguresAgreeWithVerdicts(f: Figures, records: seq<Record>, notional: real, risk: real)
    requires Describes(f, records, notional, risk) && ContractValid(records)
    ensures f.wins == Count(records, {Target2, BreakevenAfterTarget1})
    ensures f.losses == Count(records, {Stopped})
    ensures f.breakevens == 0
    ensures f.enteredPlans == f.settled
  {
    SignsCountVerdicts(records);
  }
}
