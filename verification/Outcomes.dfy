/** The outcome of an analysis plan, read off closed bars: the state machine, the evaluation of a
    bar list with minute refinements, and the loop that fetches refinements while they help. */
module Outcomes {
  import opened Market

  datatype Bar = Bar(openTime: Time, low: real, high: real)

  datatype Plan = Plan(entry: real, stop: real, target1: real, target2: real)

  datatype Analysis = Neutral | Directional(long: bool, plan: Plan)

  /** The order of levels the analysis contract enforces on a directional plan. */
  predicate Contract(long: bool, plan: Plan) {
    && plan.entry > 0.0 && plan.stop > 0.0 && plan.target1 > 0.0 && plan.target2 > 0.0
    && if long then plan.stop < plan.entry < plan.target1 < plan.target2
       else plan.stop > plan.entry > plan.target1 > plan.target2
  }

  datatype Status =
    | NeutralObservation
    | WaitingEntry
    | StoppedBeforeEntry
    | Target1BeforeEntry
    | ActiveTrade
    | Target1Partial
    | Target2
    | Stopped
    | BreakevenAfterTarget1
    | Ambiguous

  /** `refined` tells whether the order inside some bar was taken from minute bars. */
  datatype Outcome = Outcome(
    status: Status, barsObserved: nat, entryAt: Option<Time>, target1At: Option<Time>,
    resolvedAt: Option<Time>, refined: bool)

  datatype Phase = Waiting | Active | Partial

  datatype State = State(phase: Phase, entryAt: Option<Time>, target1At: Option<Time>)

  const START: State := State(Waiting, None, None)

  predicate Touches(bar: Bar, level: real) {
    bar.low <= level <= bar.high
  }

  function Verdict(status: Status, n: nat, st: State, bar: Bar): Outcome {
    Outcome(status, n, st.entryAt, st.target1At, Some(bar.openTime), false)
  }

  /** One bar: the state after it, and the verdict if it decides the plan. */
  function Step(plan: Plan, st: State, bar: Bar, n: nat): (State, Option<Outcome>) {
    var entry := Touches(bar, plan.entry);
    var stop := Touches(bar, plan.stop);
    var target1 := Touches(bar, plan.target1);
    var target2 := Touches(bar, plan.target2);
    match st.phase
    case Waiting =>
      if !entry then
        if stop then (st, Some(Outcome(StoppedBeforeEntry, n, None, None, Some(bar.openTime), false)))
        else if target1 then (st, Some(Outcome(Target1BeforeEntry, n, None, None, Some(bar.openTime), false)))
        else (st, None)
      else
        var entered := st.(entryAt := Some(bar.openTime));
        if stop || target1 || target2
        then (entered, Some(Outcome(Ambiguous, n, entered.entryAt, None, Some(bar.openTime), false)))
        else (entered.(phase := Active), None)
    case Active =>
      if (stop && target1) || (stop && target2) || (target1 && target2)
      then (st, Some(Outcome(Ambiguous, n, st.entryAt, None, Some(bar.openTime), false)))
      else if stop then (st, Some(Outcome(Stopped, n, st.entryAt, None, Some(bar.openTime), false)))
      else if target2 then (st, Some(Outcome(Target2, n, st.entryAt, Some(bar.openTime), Some(bar.openTime), false)))
      else if target1 then
        if entry then (st, Some(Outcome(Ambiguous, n, st.entryAt, Some(bar.openTime), Some(bar.openTime), false)))
        else (st.(target1At := Some(bar.openTime), phase := Partial), None)
      else (st, None)
    case Partial =>
      if entry && target2 then (st, Some(Verdict(Ambiguous, n, st, bar)))
      else if target2 then (st, Some(Verdict(Target2, n, st, bar)))
      else if entry then (st, Some(Verdict(BreakevenAfterTarget1, n, st, bar)))
      else (st, None)
  }

  /** Several bars that count as one observed bar. */
  function Steps(plan: Plan, st: State, bars: seq<Bar>, n: nat): (State, Option<Outcome>)
    decreases |bars|
  {
    if bars == [] then (st, None) else
    var (next, verdict) := Step(plan, st, bars[0], n);
    if verdict.Some? then (next, verdict) else Steps(plan, next, bars[1..], n)
  }

  type Refinements = map<Time, seq<Bar>>

  /** What is evaluated for a 5-minute bar: its minutes if there are any, else the bar itself. */
  function EvaluationBars(refinements: Refinements, bar: Bar): seq<Bar> {
    if bar.openTime in refinements && refinements[bar.openTime] != [] then refinements[bar.openTime] else [bar]
  }

  function Noted(outcome: Outcome, used: bool): Outcome {
    if !used || outcome.status == Ambiguous then outcome else outcome.(refined := true)
  }

  function Unresolved(st: State, n: nat): Outcome {
    Outcome(match st.phase
            case Waiting => WaitingEntry
            case Active => ActiveTrade
            case Partial => Target1Partial,
            n, st.entryAt, st.target1At, None, false)
  }

  /** Evaluates the bars from index `i` on. */
  function EvaluateFrom(plan: Plan, st: State, bars: seq<Bar>, refinements: Refinements, i: nat, used: bool): Outcome
    requires i <= |bars|
    decreases |bars| - i
  {
    if i == |bars| then Noted(Unresolved(st, |bars|), used) else
    var used' := used || bars[i].openTime in refinements;
    var (next, verdict) := Steps(plan, st, EvaluationBars(refinements, bars[i]), i + 1);
    if verdict.Some? then Noted(verdict.value, used')
    else EvaluateFrom(plan, next, bars, refinements, i + 1, used')
  }

  function Evaluate(analysis: Analysis, bars: seq<Bar>, refinements: Refinements): Outcome {
    match analysis
    case Neutral => Outcome(NeutralObservation, |bars|, None, None, None, false)
    case Directional(_, plan) => EvaluateFrom(plan, START, bars, refinements, 0, false)
  }

  // ----- the machine as the object the evaluation updates

  class OutcomeState {
    var phase: Phase
    var entryAt: Option<Time>
    var target1At: Option<Time>

    function Value(): State
      reads this
    {
      State(phase, entryAt, target1At)
    }

    constructor ()
      ensures Value() == START
    {
      phase, entryAt, target1At := Waiting, None, None;
    }

    method EvaluateBar(plan: Plan, bar: Bar, n: nat) returns (verdict: Option<Outcome>)
      modifies this
      ensures (Value(), verdict) == Step(plan, old(Value()), bar, n)
    {
      var entry := Touches(bar, plan.entry);
      var stop := Touches(bar, plan.stop);
      var target1 := Touches(bar, plan.target1);
      var target2 := Touches(bar, plan.target2);
      var at := Some(bar.openTime);
      if phase == Waiting {
        if !entry {
          if stop {
            return Some(Outcome(StoppedBeforeEntry, n, None, None, at, false));
          }
          if target1 {
            return Some(Outcome(Target1BeforeEntry, n, None, None, at, false));
          }
          return None;
        }
        entryAt := at;
        if stop || target1 || target2 {
          return Some(Outcome(Ambiguous, n, entryAt, None, at, false));
        }
        phase := Active;
        return None;
      }
      if phase == Active {
        var touched := (if stop then 1 else 0) + (if target1 then 1 else 0) + (if target2 then 1 else 0);
        if touched > 1 {
          return Some(Outcome(Ambiguous, n, entryAt, None, at, false));
        }
        if stop {
          return Some(Outcome(Stopped, n, entryAt, None, at, false));
        }
        if target2 {
          return Some(Outcome(Target2, n, entryAt, at, at, false));
        }
        if target1 {
          if entry {
            return Some(Outcome(Ambiguous, n, entryAt, at, at, false));
          }
          target1At := at;
          phase := Partial;
        }
        return None;
      }
      var breakeven := entry;
      if breakeven && target2 {
        return Some(Outcome(Ambiguous, n, entryAt, target1At, at, false));
      }
      if target2 {
        return Some(Outcome(Target2, n, entryAt, target1At, at, false));
      }
      if breakeven {
        return Some(Outcome(BreakevenAfterTarget1, n, entryAt, target1At, at, false));
      }
      return None;
    }
  }

  method EvaluateOutcome(analysis: Analysis, bars: seq<Bar>, refinements: Refinements) returns (outcome: Outcome)
    ensures outcome == Evaluate(analysis, bars, refinements)
  {
    if analysis.Neutral? {
      return Outcome(NeutralObservation, |bars|, None, None, None, false);
    }
    var plan := analysis.plan;
    var state := new OutcomeState();
    var used := false;
    var i := 0;
    while i < |bars|
      invariant 0 <= i <= |bars|
      invariant EvaluateFrom(plan, state.Value(), bars, refinements, i, used)
             == EvaluateFrom(plan, START, bars, refinements, 0, false)
    {
      var bar := bars[i];
      var evaluation := EvaluationBars(refinements, bar);
      used := used || bar.openTime in refinements;
      ghost var before := state.Value();
      var j := 0;
      while j < |evaluation|
        invariant 0 <= j <= |evaluation|
        invariant Steps(plan, state.Value(), evaluation[j..], i + 1) == Steps(plan, before, evaluation, i + 1)
      {
        assert evaluation[j..][0] == evaluation[j] && evaluation[j..][1..] == evaluation[j + 1..];
        var verdict := state.EvaluateBar(plan, evaluation[j], i + 1);
        if verdict.Some? {
          return Noted(verdict.value, used);
        }
        j := j + 1;
      }
      assert evaluation[|evaluation|..] == [];
      i := i + 1;
    }
    return Noted(Unresolved(state.Value(), |bars|), used);
  }

  // ----- lazy refinement

  function FiveMinuteWindow(t: Time): Time {
    t / FIVE_MINUTES * FIVE_MINUTES
  }

  predicate CompleteMinuteWindow(minutes: seq<Bar>, start: Time) {
    |minutes| == 5 && forall i :: 0 <= i < 5 ==> minutes[i].openTime == start + i * MINUTE
  }

  function Windows(bars: seq<Bar>): set<Time> {
    set i | 0 <= i < |bars| :: FiveMinuteWindow(bars[i].openTime)
  }

  /** Every refinement is the complete minutes the market has for its window. */
  ghost predicate FetchedFrom(market: Time -> seq<Bar>, refinements: Refinements) {
    forall w :: w in refinements ==> refinements[w] == market(w) && CompleteMinuteWindow(market(w), w)
  }

  /** Evaluates, fetches the minutes of an ambiguous window and evaluates again, until the verdict
      is not ambiguous or its window cannot be refined any further. */
  method EvaluateFromMarket(analysis: Analysis, bars: seq<Bar>, market: Time -> seq<Bar>)
    returns (outcome: Outcome, refinements: Refinements, passes: nat)
    ensures outcome == Evaluate(analysis, if analysis.Neutral? then [] else bars, refinements)
    ensures FetchedFrom(market, refinements) && refinements.Keys <= Windows(bars)
    ensures 1 <= passes == |refinements| + 1 <= |Windows(bars)| + 1
    ensures outcome.status == Ambiguous ==>
              && outcome.resolvedAt.Some?
              && var w := FiveMinuteWindow(outcome.resolvedAt.value);
              w in refinements || !CompleteMinuteWindow(market(w), w)
  {
    refinements, passes := map[], 0;
    if analysis.Neutral? {
      outcome := EvaluateOutcome(analysis, [], refinements);
      return outcome, refinements, 1;
    }
    while true
      invariant FetchedFrom(market, refinements) && refinements.Keys <= Windows(bars)
      invariant passes == |refinements|
      decreases Windows(bars) - refinements.Keys
    {
      outcome := EvaluateOutcome(analysis, bars, refinements);
      passes := passes + 1;
      SubsetIsSmaller(refinements.Keys, Windows(bars));
      AmbiguityHasWindow(analysis.plan, START, bars, refinements, market, 0, false);
      if outcome.status != Ambiguous || outcome.resolvedAt.None? {
        return;
      }
      var w := FiveMinuteWindow(outcome.resolvedAt.value);
      if w in refinements {
        return;
      }
      var minutes := market(w);
      if !CompleteMinuteWindow(minutes, w) {
        return;
      }
      assert refinements[w := minutes].Keys == refinements.Keys + {w};
      refinements := refinements[w := minutes];
    }
  }

  lemma SubsetIsSmaller<T>(a: set<T>, b: set<T>)
    requires a <= b
    ensures |a| <= |b|
  {
    assert b == a + (b - a);
  }

  /** A minute of a complete window lies in that window. */
  lemma MinuteInWindow(w: Time, i: nat)
    requires w % FIVE_MINUTES == 0 && i < 5
    ensures FiveMinuteWindow(w + i * MINUTE) == w
  {
  }

  lemma {:induction false} VerdictComesFromBar(plan: Plan, st: State, bars: seq<Bar>, n: nat)
    ensures var verdict := Steps(plan, st, bars, n).1;
            verdict.Some? ==> exists j :: 0 <= j < |bars| && verdict.value.resolvedAt == Some(bars[j].openTime)
    decreases |bars|
  {
    if bars != [] && Step(plan, st, bars[0], n).1.None? {
      var next := Step(plan, st, bars[0], n).0;
      VerdictComesFromBar(plan, next, bars[1..], n);
      var verdict := Steps(plan, st, bars, n).1;
      if verdict.Some? {
        var j :| 0 <= j < |bars[1..]| && verdict.value.resolvedAt == Some(bars[1..][j].openTime);
        assert bars[j + 1] == bars[1..][j];
      }
    }
  }

  /** An ambiguous verdict names a bar or a minute of a fetched window: its window is a window of
      the bars. */
  lemma {:induction false} AmbiguityHasWindow(plan: Plan, st: State, bars: seq<Bar>, refinements: Refinements,
                                              market: Time -> seq<Bar>, i: nat, used: bool)
    requires i <= |bars|
    requires FetchedFrom(market, refinements) && refinements.Keys <= Windows(bars)
    ensures var outcome := EvaluateFrom(plan, st, bars, refinements, i, used);
            outcome.status == Ambiguous ==>
              outcome.resolvedAt.Some? && FiveMinuteWindow(outcome.resolvedAt.value) in Windows(bars)
    decreases |bars| - i
  {
    if i < |bars| {
      var evaluation := EvaluationBars(refinements, bars[i]);
      var (next, verdict) := Steps(plan, st, evaluation, i + 1);
      VerdictComesFromBar(plan, st, evaluation, i + 1);
      if verdict.None? {
        AmbiguityHasWindow(plan, next, bars, refinements, market, i + 1, used || bars[i].openTime in refinements);
      } else {
        var j :| 0 <= j < |evaluation| && verdict.value.resolvedAt == Some(evaluation[j].openTime);
        var w := bars[i].openTime;
        if w in refinements && refinements[w] != [] {
          WindowIsAligned(bars, w);
          MinuteInWindow(w, j);
        } else {
          assert FiveMinuteWindow(bars[i].openTime) in Windows(bars);
        }
      }
    }
  }

  lemma WindowIsAligned(bars: seq<Bar>, w: Time)
    requires w in Windows(bars)
    ensures w % FIVE_MINUTES == 0
  {
  }
}
