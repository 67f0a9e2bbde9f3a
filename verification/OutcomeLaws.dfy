/** What a verdict read off bars is worth: it holds on every price path through them, it is withheld
    exactly when paths disagree (up to one harmless case), and refinement only moves forward. */
module OutcomeLaws {
  import opened Market
  import opened Outcomes

  // ----- price paths

  /** A tick at the bar's instant. */
  function Tick(bar: Bar, price: real): Bar {
    Bar(bar.openTime, price, price)
  }

  predicate IsLevel(plan: Plan, level: real) {
    level == plan.entry || level == plan.stop || level == plan.target1 || level == plan.target2
  }

  /** A path of single prices that touches exactly the plan levels the bar touches. */
  ghost predicate PathOf(plan: Plan, bar: Bar, path: seq<Bar>) {
    && (forall i :: 0 <= i < |path| ==> path[i] == Tick(bar, path[i].low))
    && (forall level :: IsLevel(plan, level) ==>
          (Touches(bar, level) <==> exists i :: 0 <= i < |path| && path[i].low == level))
  }

  /** The four level conditions, spelled out for the solver. */
  lemma PathLevels(plan: Plan, bar: Bar, path: seq<Bar>)
    requires PathOf(plan, bar, path)
    ensures forall i :: 0 <= i < |path| && IsLevel(plan, path[i].low) ==> Touches(bar, path[i].low)
    ensures Touches(bar, plan.entry) ==> exists i :: 0 <= i < |path| && path[i] == Tick(bar, plan.entry)
    ensures Touches(bar, plan.stop) ==> exists i :: 0 <= i < |path| && path[i] == Tick(bar, plan.stop)
    ensures Touches(bar, plan.target1) ==> exists i :: 0 <= i < |path| && path[i] == Tick(bar, plan.target1)
    ensures Touches(bar, plan.target2) ==> exists i :: 0 <= i < |path| && path[i] == Tick(bar, plan.target2)
  {
    assert IsLevel(plan, plan.entry) && IsLevel(plan, plan.stop);
    assert IsLevel(plan, plan.target1) && IsLevel(plan, plan.target2);
  }

  /** Ticks that leave the state alone, with at least one that decides it, give its decision. */
  lemma {:induction false} OneDecision(plan: Plan, st: State, path: seq<Bar>, n: nat, next: State,
                                       verdict: Option<Outcome>)
    requires forall i :: 0 <= i < |path| ==>
               Step(plan, st, path[i], n) == (st, None) || Step(plan, st, path[i], n) == (next, verdict)
    requires exists i :: 0 <= i < |path| && Step(plan, st, path[i], n) == (next, verdict)
    requires verdict.None? ==> forall i :: 0 <= i < |path| ==> Step(plan, next, path[i], n) == (next, None)
    ensures Steps(plan, st, path, n) == (next, verdict)
    decreases |path|
  {
    if Step(plan, st, path[0], n) == (next, verdict) {
      if verdict.None? {
        AllQuiet(plan, next, path[1..], n);
      }
    } else {
      var i :| 0 <= i < |path| && Step(plan, st, path[i], n) == (next, verdict);
      assert path[1..][i - 1] == path[i];
      OneDecision(plan, st, path[1..], n, next, verdict);
    }
  }

  lemma {:induction false} AllQuiet(plan: Plan, st: State, path: seq<Bar>, n: nat)
    requires forall i :: 0 <= i < |path| ==> Step(plan, st, path[i], n) == (st, None)
    ensures Steps(plan, st, path, n) == (st, None)
    decreases |path|
  {
    if path != [] {
      AllQuiet(plan, st, path[1..], n);
    }
  }

  predicate Unambiguous(verdict: Option<Outcome>) {
    verdict.Some? ==> verdict.value.status != Ambiguous
  }

  /** One bar: a verdict, or a change of phase, that is not ambiguous happens on every path. */
  lemma BarVerdictHoldsOnPaths(long: bool, plan: Plan, st: State, bar: Bar, n: nat, path: seq<Bar>)
    requires Contract(long, plan) && PathOf(plan, bar, path)
    requires Unambiguous(Step(plan, st, bar, n).1)
    ensures Steps(plan, st, path, n) == Step(plan, st, bar, n)
  {
    PathLevels(plan, bar, path);
    var (next, verdict) := Step(plan, st, bar, n);
    if (next, verdict) == (st, None) {
      AllQuiet(plan, st, path, n);
    } else {
      var level := match st.phase
        case Waiting => if Touches(bar, plan.entry) then plan.entry
                        else if Touches(bar, plan.stop) then plan.stop else plan.target1
        case Active => if Touches(bar, plan.stop) then plan.stop
                       else if Touches(bar, plan.target2) then plan.target2 else plan.target1
        case Partial => if Touches(bar, plan.target2) then plan.target2 else plan.entry;
      var i :| 0 <= i < |path| && path[i] == Tick(bar, level);
      assert Step(plan, st, path[i], n) == (next, verdict);
      hide Step;
      OneDecision(plan, st, path, n, next, verdict);
    }
  }

  lemma {:induction false} StepsCompose(plan: Plan, st: State, a: seq<Bar>, b: seq<Bar>, n: nat)
    ensures Steps(plan, st, a + b, n)
         == if Steps(plan, st, a, n).1.Some? then Steps(plan, st, a, n) else Steps(plan, Steps(plan, st, a, n).0, b, n)
    decreases |a|
  {
    if a == [] {
      assert a + b == b;
    } else {
      assert (a + b)[0] == a[0] && (a + b)[1..] == a[1..] + b;
      StepsCompose(plan, Step(plan, st, a[0], n).0, a[1..], b, n);
    }
  }

  function Concat(paths: seq<seq<Bar>>): seq<Bar> {
    if paths == [] then [] else paths[0] + Concat(paths[1..])
  }

  /** One path per bar. */
  ghost predicate PathsOf(plan: Plan, bars: seq<Bar>, paths: seq<seq<Bar>>) {
    |paths| == |bars| && forall i :: 0 <= i < |bars| ==> PathOf(plan, bars[i], paths[i])
  }

  lemma {:induction false} StepsHoldOnPaths(long: bool, plan: Plan, st: State, bars: seq<Bar>, n: nat,
                                            paths: seq<seq<Bar>>)
    requires Contract(long, plan) && PathsOf(plan, bars, paths)
    requires Unambiguous(Steps(plan, st, bars, n).1)
    ensures Steps(plan, st, Concat(paths), n) == Steps(plan, st, bars, n)
    decreases |bars|
  {
    if bars != [] {
      BarVerdictHoldsOnPaths(long, plan, st, bars[0], n, paths[0]);
      StepsCompose(plan, st, paths[0], Concat(paths[1..]), n);
      var (next, verdict) := Step(plan, st, bars[0], n);
      if verdict.None? {
        StepsHoldOnPaths(long, plan, next, bars[1..], n, paths[1..]);
      }
    }
  }

  /** The verdict of the price paths themselves: `paths[i]` runs through everything evaluated for
      the i-th observed bar. */
  function EvaluatePaths(plan: Plan, st: State, paths: seq<seq<seq<Bar>>>, i: nat): Outcome
    requires i <= |paths|
    decreases |paths| - i
  {
    if i == |paths| then Unresolved(st, |paths|) else
    var (next, verdict) := Steps(plan, st, Concat(paths[i]), i + 1);
    if verdict.Some? then verdict.value else EvaluatePaths(plan, next, paths, i + 1)
  }

  lemma {:induction false} EvaluateFromHoldsOnPaths(long: bool, plan: Plan, st: State, bars: seq<Bar>,
      refinements: Refinements, i: nat, used: bool, paths: seq<seq<seq<Bar>>>)
    requires Contract(long, plan) && i <= |bars| == |paths|
    requires forall j :: i <= j < |bars| ==> PathsOf(plan, EvaluationBars(refinements, bars[j]), paths[j])
    requires EvaluateFrom(plan, st, bars, refinements, i, used).status != Ambiguous
    ensures EvaluateFrom(plan, st, bars, refinements, i, used).(refined := false)
         == EvaluatePaths(plan, st, paths, i)
    decreases |bars| - i
  {
    if i < |bars| {
      var evaluation := EvaluationBars(refinements, bars[i]);
      var (next, verdict) := Steps(plan, st, evaluation, i + 1);
      VerdictIsPlain(plan, st, evaluation, i + 1);
      StepsHoldOnPaths(long, plan, st, evaluation, i + 1, paths[i]);
      if verdict.None? {
        EvaluateFromHoldsOnPaths(long, plan, next, bars, refinements, i + 1,
                                 used || bars[i].openTime in refinements, paths);
      }
    }
  }

  lemma {:induction false} VerdictIsPlain(plan: Plan, st: State, bars: seq<Bar>, n: nat)
    ensures var verdict := Steps(plan, st, bars, n).1;
            verdict.Some? ==> !verdict.value.refined && verdict.value.barsObserved == n
    decreases |bars|
  {
    if bars != [] {
      VerdictIsPlain(plan, Step(plan, st, bars[0], n).0, bars[1..], n);
    }
  }

  /** Soundness for every tick path: if the evaluation of a contract-valid plan is not ambiguous,
      then any prices that touch exactly the levels each evaluated bar touches, in any order inside
      the bar, lead to the same status at the same instants. */
  lemma VerdictHoldsOnEveryPath(long: bool, plan: Plan, bars: seq<Bar>, refinements: Refinements,
                                paths: seq<seq<seq<Bar>>>)
    requires Contract(long, plan) && |paths| == |bars|
    requires forall j :: 0 <= j < |bars| ==> PathsOf(plan, EvaluationBars(refinements, bars[j]), paths[j])
    requires Evaluate(Directional(long, plan), bars, refinements).status != Ambiguous
    ensures Evaluate(Directional(long, plan), bars, refinements).(refined := false)
         == EvaluatePaths(plan, START, paths, 0)
  {
    EvaluateFromHoldsOnPaths(long, plan, START, bars, refinements, 0, false, paths);
  }

  // ----- when ambiguity is genuine

  /** Both targets inside an active bar that touches neither the entry nor the stop: either order
      ends at the second target, yet the bar is reported as ambiguous. */
  predicate OnlyTargets(plan: Plan, st: State, bar: Bar) {
    st.phase == Active && !Touches(bar, plan.entry) && !Touches(bar, plan.stop)
  }

  ghost predicate PathsDisagree(plan: Plan, st: State, bar: Bar, n: nat) {
    exists a, b :: PathOf(plan, bar, a) && PathOf(plan, bar, b) && Steps(plan, st, a, n) != Steps(plan, st, b, n)
  }

  /** The bar's touched levels among `levels`, as ticks in that order. */
  function Ticks(bar: Bar, levels: seq<real>): seq<Bar> {
    if levels == [] then []
    else (if Touches(bar, levels[0]) then [Tick(bar, levels[0])] else []) + Ticks(bar, levels[1..])
  }

  lemma {:induction false} TicksAreTouched(bar: Bar, levels: seq<real>, i: nat)
    requires i < |Ticks(bar, levels)|
    ensures var tick := Ticks(bar, levels)[i];
            tick == Tick(bar, tick.low) && Touches(bar, tick.low) && tick.low in levels
    decreases |levels|
  {
    var head := if Touches(bar, levels[0]) then [Tick(bar, levels[0])] else [];
    assert Ticks(bar, levels) == head + Ticks(bar, levels[1..]);
    if i < |head| {
      assert Ticks(bar, levels)[i] == Tick(bar, levels[0]);
    } else {
      TicksAreTouched(bar, levels[1..], i - |head|);
      assert forall x :: x in levels[1..] ==> x in levels;
    }
  }

  lemma {:induction false} TouchedIsTicked(bar: Bar, levels: seq<real>, x: real) returns (i: nat)
    requires Touches(bar, x) && x in levels
    ensures i < |Ticks(bar, levels)| && Ticks(bar, levels)[i].low == x
    decreases |levels|
  {
    if levels[0] == x {
      i := 0;
    } else {
      i := TouchedIsTicked(bar, levels[1..], x);
      if Touches(bar, levels[0]) {
        i := i + 1;
      }
    }
  }

  /** The touched levels in a chosen order of all four make a path. */
  lemma OrderedPath(plan: Plan, bar: Bar, levels: seq<real>)
    requires forall level :: IsLevel(plan, level) ==> level in levels
    requires forall level :: level in levels ==> IsLevel(plan, level)
    ensures PathOf(plan, bar, Ticks(bar, levels))
  {
    var ticks := Ticks(bar, levels);
    forall i | 0 <= i < |ticks|
      ensures ticks[i] == Tick(bar, ticks[i].low) && Touches(bar, ticks[i].low) && ticks[i].low in levels
    {
      TicksAreTouched(bar, levels, i);
    }
    forall level | IsLevel(plan, level)
      ensures Touches(bar, level) <==> exists i :: 0 <= i < |ticks| && ticks[i].low == level
    {
      if Touches(bar, level) {
        var i := TouchedIsTicked(bar, levels, level);
      }
    }
  }

  /** The effect of two touched ticks before the rest. */
  lemma TwoTicks(plan: Plan, st: State, bar: Bar, x: real, y: real, rest: seq<real>, n: nat)
    requires Touches(bar, x) && Touches(bar, y)
    ensures var first := Step(plan, st, Tick(bar, x), n);
            var second := Step(plan, first.0, Tick(bar, y), n);
            Steps(plan, st, Ticks(bar, [x, y] + rest), n)
              == if first.1.Some? then first else if second.1.Some? then second
                 else Steps(plan, second.0, Ticks(bar, rest), n)
  {
    var levels := [x, y] + rest;
    assert levels[1..] == [y] + rest && levels[1..][1..] == rest;
    assert Ticks(bar, levels) == [Tick(bar, x)] + ([Tick(bar, y)] + Ticks(bar, rest));
    assert Ticks(bar, levels)[1..] == [Tick(bar, y)] + Ticks(bar, rest);
    assert Ticks(bar, levels)[1..][1..] == Ticks(bar, rest);
  }

  /** After the first target the stop no longer matters. */
  lemma EndOfPath(long: bool, plan: Plan, st: State, bar: Bar, n: nat)
    requires Contract(long, plan) && st.phase == Partial
    ensures var last := Steps(plan, st, Ticks(bar, [plan.target2, plan.stop]), n).1;
            last.None? || last.value.status == Target2
  {
    var levels := [plan.target2, plan.stop];
    assert levels[1..] == [plan.stop] && [plan.stop][1..] == [];
    assert Ticks(bar, [plan.stop]) == if Touches(bar, plan.stop) then [Tick(bar, plan.stop)] else [];
    if Touches(bar, plan.target2) {
      assert Ticks(bar, levels)[0] == Tick(bar, plan.target2);
    } else {
      assert Ticks(bar, levels) == Ticks(bar, [plan.stop]);
      AllQuiet(plan, st, Ticks(bar, levels), n);
    }
  }

  lemma WaitingPathsDisagree(long: bool, plan: Plan, st: State, bar: Bar, n: nat)
    requires Contract(long, plan) && st.phase == Waiting && !Unambiguous(Step(plan, st, bar, n).1)
    ensures PathsDisagree(plan, st, bar, n)
  {
    var e, s, t1, t2 := plan.entry, plan.stop, plan.target1, plan.target2;
    assert Touches(bar, e) && (Touches(bar, s) || Touches(bar, t1));
    hide Step, Steps, Ticks, PathOf;
    if Touches(bar, s) {
      OrderedPath(plan, bar, [e, s] + [t1, t2]);
      OrderedPath(plan, bar, [s, e] + [t1, t2]);
      WaitingThenStopped(long, plan, st, bar, n);
    } else {
      OrderedPath(plan, bar, [e, t1] + [t2, s]);
      OrderedPath(plan, bar, [t1, e] + [t2, s]);
      WaitingThenTarget(long, plan, st, bar, n);
    }
  }

  /** Entry then stop is a loss; stop first is not. */
  lemma WaitingThenStopped(long: bool, plan: Plan, st: State, bar: Bar, n: nat)
    requires Contract(long, plan) && st.phase == Waiting && Touches(bar, plan.entry) && Touches(bar, plan.stop)
    ensures Steps(plan, st, Ticks(bar, [plan.entry, plan.stop] + [plan.target1, plan.target2]), n)
         != Steps(plan, st, Ticks(bar, [plan.stop, plan.entry] + [plan.target1, plan.target2]), n)
  {
    TwoTicks(plan, st, bar, plan.entry, plan.stop, [plan.target1, plan.target2], n);
    TwoTicks(plan, st, bar, plan.stop, plan.entry, [plan.target1, plan.target2], n);
  }

  /** Entry then first target is a partial exit; the first target before the entry is none. */
  lemma WaitingThenTarget(long: bool, plan: Plan, st: State, bar: Bar, n: nat)
    requires Contract(long, plan) && st.phase == Waiting && Touches(bar, plan.entry) && Touches(bar, plan.target1)
    ensures Steps(plan, st, Ticks(bar, [plan.entry, plan.target1] + [plan.target2, plan.stop]), n)
         != Steps(plan, st, Ticks(bar, [plan.target1, plan.entry] + [plan.target2, plan.stop]), n)
  {
    TwoTicks(plan, st, bar, plan.entry, plan.target1, [plan.target2, plan.stop], n);
    TwoTicks(plan, st, bar, plan.target1, plan.entry, [plan.target2, plan.stop], n);
    EndOfPath(long, plan, State(Partial, Some(bar.openTime), Some(bar.openTime)), bar, n);
  }

  lemma ActivePathsDisagree(long: bool, plan: Plan, st: State, bar: Bar, n: nat)
    requires Contract(long, plan) && st.phase == Active && !Unambiguous(Step(plan, st, bar, n).1)
    requires !OnlyTargets(plan, st, bar)
    ensures PathsDisagree(plan, st, bar, n)
  {
    var e, s, t1, t2 := plan.entry, plan.stop, plan.target1, plan.target2;
    assert Touches(bar, e) && Touches(bar, t1);
    hide Step, Steps, Ticks, PathOf;
    var a := if Touches(bar, s) then [s, t1] + [t2, e] else [e, t1] + [t2, s];
    var b := [t1, e] + [t2, s];
    OrderedPath(plan, bar, a);
    OrderedPath(plan, bar, b);
    ActiveBreaksEven(long, plan, st, bar, n);
    ActiveAvoidsBreakeven(long, plan, st, bar, n);
  }

  /** The order that starts with the first target and falls back to the entry ends at breakeven. */
  lemma ActiveBreaksEven(long: bool, plan: Plan, st: State, bar: Bar, n: nat)
    requires Contract(long, plan) && st.phase == Active && Touches(bar, plan.entry) && Touches(bar, plan.target1)
    ensures var last := Steps(plan, st, Ticks(bar, [plan.target1, plan.entry] + [plan.target2, plan.stop]), n).1;
            last.Some? && last.value.status == BreakevenAfterTarget1
  {
    TwoTicks(plan, st, bar, plan.target1, plan.entry, [plan.target2, plan.stop], n);
  }

  /** The order that starts away from the first target does not end at breakeven. */
  lemma ActiveAvoidsBreakeven(long: bool, plan: Plan, st: State, bar: Bar, n: nat)
    requires Contract(long, plan) && st.phase == Active && Touches(bar, plan.entry) && Touches(bar, plan.target1)
    ensures var e, s, t1, t2 := plan.entry, plan.stop, plan.target1, plan.target2;
            var a := if Touches(bar, s) then [s, t1] + [t2, e] else [e, t1] + [t2, s];
            var last := Steps(plan, st, Ticks(bar, a), n).1;
            last.None? || last.value.status != BreakevenAfterTarget1
  {
    if Touches(bar, plan.stop) {
      TwoTicks(plan, st, bar, plan.stop, plan.target1, [plan.target2, plan.entry], n);
    } else {
      TwoTicks(plan, st, bar, plan.entry, plan.target1, [plan.target2, plan.stop], n);
      EndOfPath(long, plan, State(Partial, st.entryAt, Some(bar.openTime)), bar, n);
    }
  }

  lemma PartialPathsDisagree(long: bool, plan: Plan, st: State, bar: Bar, n: nat)
    requires Contract(long, plan) && st.phase == Partial && !Unambiguous(Step(plan, st, bar, n).1)
    ensures PathsDisagree(plan, st, bar, n)
  {
    var e, s, t1, t2 := plan.entry, plan.stop, plan.target1, plan.target2;
    OrderedPath(plan, bar, [e, t2] + [t1, s]);
    OrderedPath(plan, bar, [t2, e] + [t1, s]);
    TwoTicks(plan, st, bar, e, t2, [t1, s], n);
    TwoTicks(plan, st, bar, t2, e, [t1, s], n);
  }

  /** In the only-targets case every path ends at the second target. */
  lemma OnlyTargetsAgree(long: bool, plan: Plan, st: State, bar: Bar, n: nat, path: seq<Bar>)
    requires Contract(long, plan) && OnlyTargets(plan, st, bar) && PathOf(plan, bar, path)
    requires Touches(bar, plan.target1) && Touches(bar, plan.target2)
    ensures Steps(plan, st, path, n).1 == Some(Outcome(Target2, n, st.entryAt, Some(bar.openTime), Some(bar.openTime), false))
  {
    PathLevels(plan, bar, path);
    TargetsLead(plan, st, bar, n, path);
  }

  lemma {:induction false} TargetsLead(plan: Plan, st: State, bar: Bar, n: nat, path: seq<Bar>)
    requires plan.target1 != plan.target2 && plan.entry != plan.target2 && plan.stop != plan.target2
    requires plan.entry != plan.target1 && plan.stop != plan.target1
    requires st.phase == Active || (st.phase == Partial && st.target1At == Some(bar.openTime))
    requires forall i :: 0 <= i < |path| ==>
               path[i] == Tick(bar, path[i].low) && path[i].low != plan.entry && path[i].low != plan.stop
    requires exists i :: 0 <= i < |path| && path[i].low == plan.target2
    ensures Steps(plan, st, path, n).1 == Some(Outcome(Target2, n, st.entryAt, Some(bar.openTime), Some(bar.openTime), false))
    decreases |path|
  {
    var i :| 0 <= i < |path| && path[i].low == plan.target2;
    if path[0].low != plan.target2 {
      assert path[1..][i - 1] == path[i];
      TargetsLead(plan, Step(plan, st, path[0], n).0, bar, n, path[1..]);
    }
  }

  /** Ambiguity is reported exactly when the paths through the bar disagree, apart from the
      only-targets bar, where it is reported although all paths reach the second target. */
  lemma AmbiguousIff(long: bool, plan: Plan, st: State, bar: Bar, n: nat)
    requires Contract(long, plan)
    ensures !Unambiguous(Step(plan, st, bar, n).1)
       <==> PathsDisagree(plan, st, bar, n)
            || (OnlyTargets(plan, st, bar) && Touches(bar, plan.target1) && Touches(bar, plan.target2))
    ensures !Unambiguous(Step(plan, st, bar, n).1) && OnlyTargets(plan, st, bar) ==>
              forall path :: PathOf(plan, bar, path) ==>
                Steps(plan, st, path, n).1 == Some(Outcome(Target2, n, st.entryAt, Some(bar.openTime), Some(bar.openTime), false))
  {
    if Unambiguous(Step(plan, st, bar, n).1) {
      forall path | PathOf(plan, bar, path) ensures Steps(plan, st, path, n) == Step(plan, st, bar, n) {
        BarVerdictHoldsOnPaths(long, plan, st, bar, n, path);
      }
    } else if OnlyTargets(plan, st, bar) {
      forall path | PathOf(plan, bar, path)
        ensures Steps(plan, st, path, n).1 == Some(Outcome(Target2, n, st.entryAt, Some(bar.openTime), Some(bar.openTime), false))
      {
        OnlyTargetsAgree(long, plan, st, bar, n, path);
      }
    } else {
      match st.phase {
        case Waiting => WaitingPathsDisagree(long, plan, st, bar, n);
        case Active => ActivePathsDisagree(long, plan, st, bar, n);
        case Partial => PartialPathsDisagree(long, plan, st, bar, n);
      }
    }
  }

  // ----- refinement moves forward

  /** The machine state in which bar `k` is evaluated, unless an earlier bar decides. */
  function Reaching(plan: Plan, st: State, bars: seq<Bar>, refinements: Refinements, i: nat, k: nat): Option<State>
    requires i <= k < |bars|
    decreases k - i
  {
    if i == k then Some(st) else
    var (next, verdict) := Steps(plan, st, EvaluationBars(refinements, bars[i]), i + 1);
    if verdict.Some? then None else Reaching(plan, next, bars, refinements, i + 1, k)
  }

  lemma {:induction false} ReachedIsObserved(plan: Plan, st: State, bars: seq<Bar>, refinements: Refinements,
                                             i: nat, used: bool, k: nat)
    requires i <= k < |bars|
    ensures Reaching(plan, st, bars, refinements, i, k).Some?
       <==> EvaluateFrom(plan, st, bars, refinements, i, used).barsObserved >= k + 1
    decreases k - i
  {
    if i == k {
      ObservesOnward(plan, st, bars, refinements, i, used);
    } else {
      VerdictIsPlain(plan, st, EvaluationBars(refinements, bars[i]), i + 1);
      var (next, verdict) := Steps(plan, st, EvaluationBars(refinements, bars[i]), i + 1);
      if verdict.None? {
        ReachedIsObserved(plan, next, bars, refinements, i + 1, used || bars[i].openTime in refinements, k);
      }
    }
  }

  /** Minutes for one window leave everything before that bar alone: the machine reaches the bar in
      the same state with and without them, or is decided earlier in both cases. */
  lemma {:induction false} RefiningMovesForward(plan: Plan, st: State, bars: seq<Bar>, refinements: Refinements,
                                                i: nat, k: nat, minutes: seq<Bar>)
    requires i <= k < |bars|
    requires forall a, b :: 0 <= a < b < |bars| ==> bars[a].openTime != bars[b].openTime
    ensures Reaching(plan, st, bars, refinements[bars[k].openTime := minutes], i, k)
         == Reaching(plan, st, bars, refinements, i, k)
    decreases k - i
  {
    if i < k {
      var refined := refinements[bars[k].openTime := minutes];
      assert EvaluationBars(refined, bars[i]) == EvaluationBars(refinements, bars[i]);
      var (next, verdict) := Steps(plan, st, EvaluationBars(refinements, bars[i]), i + 1);
      if verdict.None? {
        RefiningMovesForward(plan, next, bars, refinements, i + 1, k, minutes);
      }
    }
  }

  lemma {:induction false} ObservesOnward(plan: Plan, st: State, bars: seq<Bar>, refinements: Refinements, i: nat, used: bool)
    requires i < |bars|
    ensures EvaluateFrom(plan, st, bars, refinements, i, used).barsObserved >= i + 1
    decreases |bars| - i
  {
    VerdictIsPlain(plan, st, EvaluationBars(refinements, bars[i]), i + 1);
    var next := Steps(plan, st, EvaluationBars(refinements, bars[i]), i + 1).0;
    if i + 1 < |bars| {
      ObservesOnward(plan, next, bars, refinements, i + 1, used || bars[i].openTime in refinements);
    }
  }

  /** An ambiguous verdict names the bar it was observed in, or one of that bar's minutes. */
  lemma {:induction false} AmbiguityIsObserved(plan: Plan, st: State, bars: seq<Bar>, refinements: Refinements,
                                               market: Time -> seq<Bar>, i: nat, used: bool)
    requires i <= |bars| && FetchedFrom(market, refinements)
    requires forall j :: 0 <= j < |bars| ==> bars[j].openTime % FIVE_MINUTES == 0
    requires EvaluateFrom(plan, st, bars, refinements, i, used).status == Ambiguous
    ensures var o := EvaluateFrom(plan, st, bars, refinements, i, used);
            && i < o.barsObserved <= |bars| && o.resolvedAt.Some?
            && FiveMinuteWindow(o.resolvedAt.value) == bars[o.barsObserved - 1].openTime
    decreases |bars| - i
  {
    if i < |bars| {
      var evaluation := EvaluationBars(refinements, bars[i]);
      var (next, verdict) := Steps(plan, st, evaluation, i + 1);
      VerdictIsPlain(plan, st, evaluation, i + 1);
      if verdict.None? {
        AmbiguityIsObserved(plan, next, bars, refinements, market, i + 1, used || bars[i].openTime in refinements);
      } else {
        VerdictComesFromBar(plan, st, evaluation, i + 1);
        var j :| 0 <= j < |evaluation| && verdict.value.resolvedAt == Some(evaluation[j].openTime);
        var w := bars[i].openTime;
        if w in refinements && refinements[w] != [] {
          MinuteInWindow(w, j);
        }
      }
    }
  }

  /** Each pass of the refinement loop either ends it or finds its ambiguity in a strictly later
      bar: when the verdict on refinements that include the window of an earlier ambiguity is
      ambiguous in a window without minutes, that window belongs to a later bar. */
  lemma EachPassMovesForward(long: bool, plan: Plan, bars: seq<Bar>, refinements: Refinements,
                             market: Time -> seq<Bar>)
    requires FetchedFrom(market, refinements)
    requires forall a, b :: 0 <= a < b < |bars| ==> bars[a].openTime != bars[b].openTime
    requires forall j :: 0 <= j < |bars| ==> bars[j].openTime % FIVE_MINUTES == 0
    requires var o := Evaluate(Directional(long, plan), bars, refinements);
             o.status == Ambiguous && o.resolvedAt.Some?
    requires var w := FiveMinuteWindow(Evaluate(Directional(long, plan), bars, refinements).resolvedAt.value);
             w !in refinements && CompleteMinuteWindow(market(w), w)
    ensures var o := Evaluate(Directional(long, plan), bars, refinements);
            var w := FiveMinuteWindow(o.resolvedAt.value);
            var refined := refinements[w := market(w)];
            var p := Evaluate(Directional(long, plan), bars, refined);
            && 1 <= o.barsObserved <= |bars| && w == bars[o.barsObserved - 1].openTime
            && p.barsObserved >= o.barsObserved
            && (p.status == Ambiguous ==>
                  p.resolvedAt.Some? && 1 <= p.barsObserved <= |bars|
                  && (FiveMinuteWindow(p.resolvedAt.value) !in refined ==> p.barsObserved > o.barsObserved))
  {
    var o := Evaluate(Directional(long, plan), bars, refinements);
    AmbiguityIsObserved(plan, START, bars, refinements, market, 0, false);
    var k := o.barsObserved - 1;
    var w := bars[k].openTime;
    var refined := refinements[w := market(w)];
    RefiningMovesForward(plan, START, bars, refinements, 0, k, market(w));
    ReachedIsObserved(plan, START, bars, refinements, 0, false, k);
    ReachedIsObserved(plan, START, bars, refined, 0, false, k);
    assert FetchedFrom(market, refined);
    var p := Evaluate(Directional(long, plan), bars, refined);
    if p.status == Ambiguous {
      AmbiguityIsObserved(plan, START, bars, refined, market, 0, false);
    }
  }

  /** A resolved verdict is not changed by bars that are appended later. */
  lemma {:induction false} ResolvedStaysResolved(plan: Plan, st: State, bars: seq<Bar>, more: seq<Bar>,
                                                 refinements: Refinements, i: nat, used: bool)
    requires i <= |bars|
    requires EvaluateFrom(plan, st, bars, refinements, i, used).resolvedAt.Some?
    ensures EvaluateFrom(plan, st, bars + more, refinements, i, used)
         == EvaluateFrom(plan, st, bars, refinements, i, used)
    decreases |bars| - i
  {
    if i < |bars| {
      assert (bars + more)[i] == bars[i];
      var (next, verdict) := Steps(plan, st, EvaluationBars(refinements, bars[i]), i + 1);
      if verdict.None? {
        ResolvedStaysResolved(plan, next, bars, more, refinements, i + 1, used || bars[i].openTime in refinements);
      }
    }
  }
}
