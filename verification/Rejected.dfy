/** The counterfactual outcome of a decision the risk policy rejected: a smaller machine with a
    time-to-live, the loop that refines it, and the laws both obey. */
module Rejected {
  import opened Market
  import opened Outcomes

  datatype OrderKind = MarketOrder | LimitOrder(entry: real)

  datatype RejectedPlan = RejectedPlan(
    long: bool, kind: OrderKind, stopLoss: real, takeProfit: real, evaluatedAt: Time, ttlSeconds: int)

  /** What constructing a plan checks. */
  predicate ValidPlan(plan: RejectedPlan) {
    && plan.stopLoss > 0.0 && plan.takeProfit > 0.0
    && if plan.long then plan.stopLoss < plan.takeProfit else plan.stopLoss > plan.takeProfit
  }

  datatype RejectedStatus =
    | WaitingForEntry
    | InTrade
    | TookProfit
    | StopLossHit
    | ExpiredUnfilled
    | InvalidatedBeforeEntry
    | TargetBeforeEntry
    | AmbiguousOrder

  datatype RejectedOutcome = RejectedOutcome(
    status: RejectedStatus, barsObserved: int, observedUntil: Option<Time>, entryAt: Option<Time>,
    resolvedAt: Option<Time>)

  /** `until` is the end of the last bar that was looked at. */
  datatype Watch = Watch(active: bool, entryAt: Option<Time>, until: Option<Time>)

  function Begin(plan: RejectedPlan): Watch {
    if plan.kind.MarketOrder? then Watch(true, Some(plan.evaluatedAt), None) else Watch(false, None, None)
  }

  function Expiry(plan: RejectedPlan): Time {
    plan.evaluatedAt + plan.ttlSeconds * 1000
  }

  /** A bar with the length it is labelled with. */
  datatype Sized = Sized(bar: Bar, length: Time)

  function End(sized: Sized): Time {
    sized.bar.openTime + sized.length
  }

  function Decided(status: RejectedStatus, n: int, w: Watch, bar: Bar): RejectedOutcome {
    RejectedOutcome(status, n, w.until, w.entryAt, Some(bar.openTime))
  }

  /** One evaluated bar, the `n`-th observed one. */
  function Look(plan: RejectedPlan, w: Watch, sized: Sized, n: nat): (Watch, Option<RejectedOutcome>) {
    var bar := sized.bar;
    if !w.active && End(sized) > Expiry(plan) then
      (w, Some(RejectedOutcome(ExpiredUnfilled, n - 1, w.until, w.entryAt, Some(Expiry(plan)))))
    else
      var seen := w.(until := Some(End(sized)));
      var stop := Touches(bar, plan.stopLoss);
      var target := Touches(bar, plan.takeProfit);
      if !w.active then
        var entry := plan.kind.LimitOrder? && Touches(bar, plan.kind.entry);
        if (entry && (stop || target)) || (stop && target) then (seen, Some(Decided(AmbiguousOrder, n, seen, bar)))
        else if stop then (seen, Some(Decided(InvalidatedBeforeEntry, n, seen, bar)))
        else if target then (seen, Some(Decided(TargetBeforeEntry, n, seen, bar)))
        else if entry then (seen.(active := true, entryAt := Some(bar.openTime)), None)
        else (seen, None)
      else if stop && target then (seen, Some(Decided(AmbiguousOrder, n, seen, bar)))
      else if stop then (seen, Some(Decided(StopLossHit, n, seen, bar)))
      else if target then (seen, Some(Decided(TookProfit, n, seen, bar)))
      else (seen, None)
  }

  function Looks(plan: RejectedPlan, w: Watch, bars: seq<Sized>, n: nat): (Watch, Option<RejectedOutcome>)
    decreases |bars|
  {
    if bars == [] then (w, None) else
    var (next, verdict) := Look(plan, w, bars[0], n);
    if verdict.Some? then (next, verdict) else Looks(plan, next, bars[1..], n)
  }

  /** The bars evaluated for a base bar: its refinement as minutes, or itself as five minutes. */
  function Evaluated(refinements: Refinements, bar: Bar): seq<Sized> {
    if bar.openTime in refinements
    then seq(|refinements[bar.openTime]|, i requires 0 <= i < |refinements[bar.openTime]| =>
               Sized(refinements[bar.openTime][i], MINUTE))
    else [Sized(bar, FIVE_MINUTES)]
  }

  function Final(plan: RejectedPlan, w: Watch, n: nat, observationEnd: Option<Time>): RejectedOutcome {
    if !w.active && observationEnd.Some? && observationEnd.value >= Expiry(plan)
    then RejectedOutcome(ExpiredUnfilled, n, w.until, w.entryAt, Some(Expiry(plan)))
    else RejectedOutcome(if w.active then InTrade else WaitingForEntry, n, w.until, w.entryAt, None)
  }

  function WatchFrom(plan: RejectedPlan, w: Watch, bars: seq<Bar>, refinements: Refinements, i: nat,
                     observationEnd: Option<Time>): RejectedOutcome
    requires i <= |bars|
    decreases |bars| - i
  {
    if i == |bars| then Final(plan, w, |bars|, observationEnd) else
    var (next, verdict) := Looks(plan, w, Evaluated(refinements, bars[i]), i + 1);
    if verdict.Some? then verdict.value else WatchFrom(plan, next, bars, refinements, i + 1, observationEnd)
  }

  method EvaluateRejected(plan: RejectedPlan, bars: seq<Bar>, refinements: Refinements, observationEnd: Option<Time>)
    returns (outcome: RejectedOutcome)
    ensures outcome == WatchFrom(plan, Begin(plan), bars, refinements, 0, observationEnd)
  {
    var w := Begin(plan);
    var observed := 0;
    while observed < |bars|
      invariant 0 <= observed <= |bars|
      invariant WatchFrom(plan, w, bars, refinements, observed, observationEnd)
             == WatchFrom(plan, Begin(plan), bars, refinements, 0, observationEnd)
    {
      var evaluated := Evaluated(refinements, bars[observed]);
      ghost var before := w;
      ghost var index := observed;
      observed := observed + 1;
      var j := 0;
      while j < |evaluated|
        invariant 0 <= j <= |evaluated|
        invariant Looks(plan, w, evaluated[j..], observed) == Looks(plan, before, evaluated, observed)
      {
        assert evaluated[j..][0] == evaluated[j] && evaluated[j..][1..] == evaluated[j + 1..];
        var (next, verdict) := Look(plan, w, evaluated[j], observed);
        w := next;
        if verdict.Some? {
          return verdict.value;
        }
        j := j + 1;
      }
      assert evaluated[|evaluated|..] == [];
    }
    return Final(plan, w, |bars|, observationEnd);
  }

  function Times(bars: seq<Bar>): set<Time> {
    set i | 0 <= i < |bars| :: bars[i].openTime
  }

  function PrefixRefinements(prefix: seq<Bar>): Refinements {
    map t | t in Times(prefix) :: [LastAt(prefix, t)]
  }

  /** The last bar of the list that opens at `t`: later keys overwrite earlier ones. */
  function LastAt(bars: seq<Bar>, t: Time): Bar
    requires t in Times(bars)
  {
    if bars[|bars| - 1].openTime == t then bars[|bars| - 1] else LastAt(bars[..|bars| - 1], t)
  }

  /** Minutes up to the first five-minute boundary, five-minute bars after it, and the minutes of
      an ambiguous five-minute bar as long as they are new and complete. */
  method EvaluateRejectedFromMarket(plan: RejectedPlan, prefix: seq<Bar>, main: seq<Bar>, end: Time,
                                    market: Time -> seq<Bar>)
    returns (outcome: RejectedOutcome, refinements: Refinements, passes: nat)
    ensures outcome == WatchFrom(plan, Begin(plan), prefix + main, refinements, 0, Some(end))
    ensures Fetched(prefix, main, market, refinements)
    ensures 1 <= passes <= |Times(main)| + 1 <= |main| + 1
    ensures outcome.status == AmbiguousOrder && outcome.resolvedAt.Some? ==>
              var w := outcome.resolvedAt.value;
              w !in Times(main) || w in refinements || !CompleteMinuteWindow(market(w), w)
  {
    hide WatchFrom, Times, PrefixRefinements;
    TimesAreFew(main);
    refinements, passes := PrefixRefinements(prefix), 0;
    ghost var fetched: set<Time> := {};
    PrefixIsFetched(prefix, main, market);
    while true
      invariant Fetched(prefix, main, market, refinements)
      invariant fetched <= Times(main) && fetched <= refinements.Keys
      invariant passes == |fetched|
      decreases Times(main) - fetched
    {
      outcome := EvaluateRejected(plan, prefix + main, refinements, Some(end));
      passes := passes + 1;
      SubsetIsSmaller(fetched, Times(main));
      if outcome.status != AmbiguousOrder || outcome.resolvedAt.None? {
        return;
      }
      var w := outcome.resolvedAt.value;
      if w !in Times(main) || w in refinements {
        return;
      }
      var minutes := market(w);
      if !CompleteMinuteWindow(minutes, w) {
        return;
      }
      FetchOneMore(prefix, main, market, refinements, w);
      refinements := refinements[w := minutes];
      fetched := fetched + {w};
    }
  }

  /** The prefix minutes stand for themselves; every other refinement is the complete minutes of a
      five-minute bar. */
  ghost predicate Fetched(prefix: seq<Bar>, main: seq<Bar>, market: Time -> seq<Bar>, refinements: Refinements) {
    && PrefixRefinements(prefix).Keys <= refinements.Keys
    && forall w :: w in refinements ==>
         if w in PrefixRefinements(prefix) then refinements[w] == PrefixRefinements(prefix)[w]
         else w in Times(main) && refinements[w] == market(w) && CompleteMinuteWindow(market(w), w)
  }

  lemma PrefixIsFetched(prefix: seq<Bar>, main: seq<Bar>, market: Time -> seq<Bar>)
    ensures Fetched(prefix, main, market, PrefixRefinements(prefix))
  {
  }

  lemma FetchOneMore(prefix: seq<Bar>, main: seq<Bar>, market: Time -> seq<Bar>, refinements: Refinements, w: Time)
    requires Fetched(prefix, main, market, refinements) && w !in refinements
    requires w in Times(main) && CompleteMinuteWindow(market(w), w)
    ensures Fetched(prefix, main, market, refinements[w := market(w)])
  {
    hide PrefixRefinements, Times;
  }

  lemma TimesAreFew(bars: seq<Bar>)
    ensures |Times(bars)| <= |bars|
    decreases |bars|
  {
    if bars != [] {
      var n := |bars| - 1;
      TimesAreFew(bars[..n]);
      assert Times(bars) == Times(bars[..n]) + {bars[n].openTime};
    }
  }

  // ----- the time to live

  /** The bar a reported entry came from: it reached the limit and had closed by the expiry. */
  predicate EntryBar(plan: RejectedPlan, sized: Sized, at: Time) {
    && plan.kind.LimitOrder? && Touches(sized.bar, plan.kind.entry)
    && sized.bar.openTime == at && End(sized) <= Expiry(plan)
  }

  ghost predicate EntryBarAmong(plan: RejectedPlan, bars: seq<Bar>, refinements: Refinements, from: nat, at: Time) {
    exists k, j :: from <= k < |bars| && 0 <= j < |Evaluated(refinements, bars[k])| &&
      EntryBar(plan, Evaluated(refinements, bars[k])[j], at)
  }

  lemma {:induction false} LooksRespectTtl(plan: RejectedPlan, w: Watch, bars: seq<Sized>, n: nat)
    requires plan.kind.LimitOrder? && (w.active || w.entryAt == None)
    ensures var (next, verdict) := Looks(plan, w, bars, n);
            && (next.active || next.entryAt == None)
            && (verdict.Some? ==> verdict.value.entryAt == next.entryAt)
            && (next.entryAt == w.entryAt
                || (next.entryAt.Some? && exists j :: 0 <= j < |bars| && EntryBar(plan, bars[j], next.entryAt.value)))
    decreases |bars|
  {
    if bars != [] {
      var (next, verdict) := Look(plan, w, bars[0], n);
      if verdict.None? {
        LooksRespectTtl(plan, next, bars[1..], n);
        var (last, _) := Looks(plan, w, bars, n);
        if last.entryAt != next.entryAt {
          var j :| 0 <= j < |bars[1..]| && EntryBar(plan, bars[1..][j], last.entryAt.value);
          assert EntryBar(plan, bars[j + 1], last.entryAt.value);
        }
      }
    }
  }

  lemma {:induction false} WatchRespectsTtl(plan: RejectedPlan, w: Watch, bars: seq<Bar>, refinements: Refinements,
                                            i: nat, observationEnd: Option<Time>)
    requires plan.kind.LimitOrder? && (w.active || w.entryAt == None) && i <= |bars|
    ensures var o := WatchFrom(plan, w, bars, refinements, i, observationEnd);
            o.entryAt == w.entryAt
            || (o.entryAt.Some? && EntryBarAmong(plan, bars, refinements, i, o.entryAt.value))
    decreases |bars| - i
  {
    if i < |bars| {
      var evaluated := Evaluated(refinements, bars[i]);
      LooksRespectTtl(plan, w, evaluated, i + 1);
      var (next, verdict) := Looks(plan, w, evaluated, i + 1);
      if verdict.None? {
        WatchRespectsTtl(plan, next, bars, refinements, i + 1, observationEnd);
      }
    }
  }

  /** Any reported entry of a LIMIT decision comes from an evaluated bar that reached the limit and
      closed no later than the evaluation instant plus the time to live. */
  lemma EntryIsWithinTtl(plan: RejectedPlan, bars: seq<Bar>, refinements: Refinements, observationEnd: Option<Time>)
    requires plan.kind.LimitOrder?
    ensures var o := WatchFrom(plan, Begin(plan), bars, refinements, 0, observationEnd);
            o.entryAt.Some? ==> EntryBarAmong(plan, bars, refinements, 0, o.entryAt.value)
  {
    WatchRespectsTtl(plan, Begin(plan), bars, refinements, 0, observationEnd);
  }

  // ----- price paths

  predicate IsPlanLevel(plan: RejectedPlan, level: real) {
    level == plan.stopLoss || level == plan.takeProfit || (plan.kind.LimitOrder? && level == plan.kind.entry)
  }

  function TickAt(sized: Sized, price: real): Sized {
    Sized(Bar(sized.bar.openTime, price, price), sized.length)
  }

  /** At least one price; together they touch exactly the plan levels the bar touches. */
  ghost predicate TicksOf(plan: RejectedPlan, sized: Sized, path: seq<Sized>) {
    && path != []
    && (forall i :: 0 <= i < |path| ==> path[i] == TickAt(sized, path[i].bar.low))
    && (forall level :: IsPlanLevel(plan, level) ==>
          (Touches(sized.bar, level) <==> exists i :: 0 <= i < |path| && path[i].bar.low == level))
  }

  predicate Clear(verdict: Option<RejectedOutcome>) {
    verdict.Some? ==> verdict.value.status != AmbiguousOrder
  }

  /** Ticks that only move the observation end, with at least one that decides. */
  lemma {:induction false} OneTickDecides(plan: RejectedPlan, w: Watch, seen: Watch, path: seq<Sized>, n: nat,
                                          next: Watch, verdict: Option<RejectedOutcome>)
    requires forall i :: 0 <= i < |path| ==>
               Look(plan, w, path[i], n) == (seen, None) || Look(plan, w, path[i], n) == (next, verdict)
    requires forall i :: 0 <= i < |path| ==> Look(plan, seen, path[i], n) == Look(plan, w, path[i], n)
    requires exists i :: 0 <= i < |path| && Look(plan, w, path[i], n) == (next, verdict)
    requires verdict.None? ==> forall i :: 0 <= i < |path| ==> Look(plan, next, path[i], n) == (next, None)
    ensures Looks(plan, w, path, n) == (next, verdict)
    decreases |path|
  {
    if Look(plan, w, path[0], n) == (next, verdict) {
      if verdict.None? {
        TicksAreQuiet(plan, next, path[1..], n);
      }
    } else {
      var i :| 0 <= i < |path| && Look(plan, w, path[i], n) == (next, verdict);
      assert path[1..][i - 1] == path[i];
      OneTickDecides(plan, seen, seen, path[1..], n, next, verdict);
    }
  }

  lemma {:induction false} TicksAreQuiet(plan: RejectedPlan, w: Watch, path: seq<Sized>, n: nat)
    requires forall i :: 0 <= i < |path| ==> Look(plan, w, path[i], n) == (w, None)
    ensures Looks(plan, w, path, n) == (w, None)
    decreases |path|
  {
    if path != [] {
      TicksAreQuiet(plan, w, path[1..], n);
    }
  }

  /** Soundness for every tick path: what a bar decides without ambiguity is decided by any prices
      that touch the same levels, wherever the limit lies relative to stop and target. */
  lemma LookHoldsOnPaths(plan: RejectedPlan, w: Watch, sized: Sized, n: nat, path: seq<Sized>)
    requires TicksOf(plan, sized, path) && Clear(Look(plan, w, sized, n).1)
    requires !w.active ==> plan.kind.LimitOrder?
    ensures Looks(plan, w, path, n) == Look(plan, w, sized, n)
  {
    var (next, verdict) := Look(plan, w, sized, n);
    assert IsPlanLevel(plan, plan.stopLoss) && IsPlanLevel(plan, plan.takeProfit);
    assert plan.kind.LimitOrder? ==> IsPlanLevel(plan, plan.kind.entry);
    assert path[0] == TickAt(sized, path[0].bar.low);
    if !w.active && End(sized) > Expiry(plan) {
      assert Look(plan, w, path[0], n) == (next, verdict);
    } else {
      var seen := w.(until := Some(End(sized)));
      if (next, verdict) == (seen, None) {
        TicksAreQuiet(plan, seen, path[1..], n);
      } else {
        var level := if Touches(sized.bar, plan.stopLoss) then plan.stopLoss
                     else if Touches(sized.bar, plan.takeProfit) then plan.takeProfit else plan.kind.entry;
        var i :| 0 <= i < |path| && path[i].bar.low == level;
        assert Look(plan, w, path[i], n) == (next, verdict);
        OneTickDecides(plan, w, seen, path, n, next, verdict);
      }
    }
  }

  lemma {:induction false} LooksCompose(plan: RejectedPlan, w: Watch, a: seq<Sized>, b: seq<Sized>, n: nat)
    ensures Looks(plan, w, a + b, n)
         == if Looks(plan, w, a, n).1.Some? then Looks(plan, w, a, n) else Looks(plan, Looks(plan, w, a, n).0, b, n)
    decreases |a|
  {
    if a == [] {
      assert a + b == b;
    } else {
      assert (a + b)[0] == a[0] && (a + b)[1..] == a[1..] + b;
      LooksCompose(plan, Look(plan, w, a[0], n).0, a[1..], b, n);
    }
  }

  function Join(paths: seq<seq<Sized>>): seq<Sized> {
    if paths == [] then [] else paths[0] + Join(paths[1..])
  }

  lemma {:induction false} ActiveStays(plan: RejectedPlan, w: Watch, bars: seq<Sized>, n: nat)
    requires w.active
    ensures Looks(plan, w, bars, n).0.active
    decreases |bars|
  {
    if bars != [] && Look(plan, w, bars[0], n).1.None? {
      ActiveStays(plan, Look(plan, w, bars[0], n).0, bars[1..], n);
    }
  }

  lemma {:induction false} LooksHoldOnPaths(plan: RejectedPlan, w: Watch, bars: seq<Sized>, n: nat,
                                            paths: seq<seq<Sized>>)
    requires |paths| == |bars| && forall i :: 0 <= i < |bars| ==> TicksOf(plan, bars[i], paths[i])
    requires Clear(Looks(plan, w, bars, n).1) && (!w.active ==> plan.kind.LimitOrder?)
    ensures Looks(plan, w, Join(paths), n) == Looks(plan, w, bars, n)
    decreases |bars|
  {
    if bars != [] {
      LookHoldsOnPaths(plan, w, bars[0], n, paths[0]);
      LooksCompose(plan, w, paths[0], Join(paths[1..]), n);
      var (next, verdict) := Look(plan, w, bars[0], n);
      if verdict.None? {
        LooksHoldOnPaths(plan, next, bars[1..], n, paths[1..]);
      }
    }
  }

  function WatchPaths(plan: RejectedPlan, w: Watch, paths: seq<seq<seq<Sized>>>, i: nat,
                      observationEnd: Option<Time>): RejectedOutcome
    requires i <= |paths|
    decreases |paths| - i
  {
    if i == |paths| then Final(plan, w, |paths|, observationEnd) else
    var (next, verdict) := Looks(plan, w, Join(paths[i]), i + 1);
    if verdict.Some? then verdict.value else WatchPaths(plan, next, paths, i + 1, observationEnd)
  }

  /** The whole counterfactual: a verdict that is not ambiguous is the verdict of every price path
      through the evaluated bars. */
  lemma {:induction false} CounterfactualHoldsOnPaths(plan: RejectedPlan, w: Watch, bars: seq<Bar>,
      refinements: Refinements, i: nat, observationEnd: Option<Time>, paths: seq<seq<seq<Sized>>>)
    requires i <= |bars| == |paths| && (!w.active ==> plan.kind.LimitOrder?)
    requires forall k :: i <= k < |bars| ==>
               && |paths[k]| == |Evaluated(refinements, bars[k])|
               && forall j :: 0 <= j < |paths[k]| ==> TicksOf(plan, Evaluated(refinements, bars[k])[j], paths[k][j])
    requires WatchFrom(plan, w, bars, refinements, i, observationEnd).status != AmbiguousOrder
    ensures WatchPaths(plan, w, paths, i, observationEnd) == WatchFrom(plan, w, bars, refinements, i, observationEnd)
    decreases |bars| - i
  {
    if i < |bars| {
      var evaluated := Evaluated(refinements, bars[i]);
      LooksHoldOnPaths(plan, w, evaluated, i + 1, paths[i]);
      var (next, verdict) := Looks(plan, w, evaluated, i + 1);
      if w.active {
        ActiveStays(plan, w, evaluated, i + 1);
      }
      if verdict.None? {
        CounterfactualHoldsOnPaths(plan, next, bars, refinements, i + 1, observationEnd, paths);
      }
    }
  }

  // ----- when ambiguity is genuine

  ghost predicate LooksDisagree(plan: RejectedPlan, w: Watch, sized: Sized, n: nat) {
    exists a, b :: TicksOf(plan, sized, a) && TicksOf(plan, sized, b) && Looks(plan, w, a, n) != Looks(plan, w, b, n)
  }

  /** A limit on the level of the stop or the target: one tick reaches both, so no path can tell. */
  predicate LimitOnExit(plan: RejectedPlan, w: Watch, sized: Sized) {
    && !w.active && End(sized) <= Expiry(plan) && plan.kind.LimitOrder? && Touches(sized.bar, plan.kind.entry)
    && (plan.kind.entry == plan.stopLoss || plan.kind.entry == plan.takeProfit)
  }

  /** A path through the touched levels in the given order. */
  function TicksThrough(sized: Sized, levels: seq<real>): seq<Sized> {
    if levels == [] then []
    else (if Touches(sized.bar, levels[0]) then [TickAt(sized, levels[0])] else []) + TicksThrough(sized, levels[1..])
  }

  lemma {:induction false} ThroughTouched(sized: Sized, levels: seq<real>)
    ensures var path := TicksThrough(sized, levels);
            && (forall i :: 0 <= i < |path| ==>
                  path[i] == TickAt(sized, path[i].bar.low) && path[i].bar.low in levels && Touches(sized.bar, path[i].bar.low))
            && (forall level :: level in levels && Touches(sized.bar, level) ==>
                  exists i :: 0 <= i < |path| && path[i].bar.low == level)
  {
    if levels != [] {
      ThroughTouched(sized, levels[1..]);
      var path, rest := TicksThrough(sized, levels), TicksThrough(sized, levels[1..]);
      var skip := |path| - |rest|;
      assert path[skip..] == rest;
      forall level | level in levels && Touches(sized.bar, level)
        ensures exists i :: 0 <= i < |path| && path[i].bar.low == level {
        if level == levels[0] {
          assert path[0].bar.low == level;
        } else {
          var i :| 0 <= i < |rest| && rest[i].bar.low == level;
          assert path[i + skip] == rest[i];
        }
      }
    }
  }

  lemma ThroughIsPath(plan: RejectedPlan, sized: Sized, levels: seq<real>)
    requires forall level :: level in levels <==> IsPlanLevel(plan, level)
    requires exists level :: level in levels && Touches(sized.bar, level)
    ensures TicksOf(plan, sized, TicksThrough(sized, levels))
  {
    ThroughTouched(sized, levels);
  }

  /** A first tick that decides, or one that enters and a second one that decides. */
  lemma FirstLooks(plan: RejectedPlan, w: Watch, sized: Sized, x: real, y: real, rest: seq<real>, n: nat)
    requires Touches(sized.bar, x) && Touches(sized.bar, y)
    ensures var (next, verdict) := Look(plan, w, TickAt(sized, x), n);
            Looks(plan, w, TicksThrough(sized, [x, y] + rest), n)
              == if verdict.Some? || Look(plan, next, TickAt(sized, y), n).1.Some?
                 then (if verdict.Some? then (next, verdict) else Look(plan, next, TickAt(sized, y), n))
                 else Looks(plan, Look(plan, next, TickAt(sized, y), n).0, TicksThrough(sized, rest), n)
  {
    hide Look;
    var levels := [x, y] + rest;
    var second := [y] + rest;
    assert levels[1..] == second && second[1..] == rest;
    assert TicksThrough(sized, second) == [TickAt(sized, y)] + TicksThrough(sized, rest);
    var tail := [TickAt(sized, y)] + TicksThrough(sized, rest);
    var path := TicksThrough(sized, levels);
    assert path == [TickAt(sized, x)] + tail;
    assert path[1..] == tail && tail[1..] == TicksThrough(sized, rest);
  }

  /** Stop first and target first end differently, where neither level is the limit. */
  lemma ExitOrderMatters(plan: RejectedPlan, w: Watch, sized: Sized, n: nat, rest: seq<real>)
    requires ValidPlan(plan) && (w.active || End(sized) <= Expiry(plan)) && !LimitOnExit(plan, w, sized)
    requires Touches(sized.bar, plan.stopLoss) && Touches(sized.bar, plan.takeProfit)
    ensures Looks(plan, w, TicksThrough(sized, [plan.stopLoss, plan.takeProfit] + rest), n)
         != Looks(plan, w, TicksThrough(sized, [plan.takeProfit, plan.stopLoss] + rest), n)
  {
    FirstLooks(plan, w, sized, plan.stopLoss, plan.takeProfit, rest, n);
    FirstLooks(plan, w, sized, plan.takeProfit, plan.stopLoss, rest, n);
  }

  /** Entering and then meeting an exit is a trade; meeting the exit first is none. */
  lemma EntryOrderMatters(plan: RejectedPlan, w: Watch, sized: Sized, n: nat, exit: real, rest: seq<real>)
    requires ValidPlan(plan) && !w.active && plan.kind.LimitOrder? && End(sized) <= Expiry(plan)
    requires exit == plan.stopLoss || exit == plan.takeProfit
    requires plan.kind.entry != plan.stopLoss && plan.kind.entry != plan.takeProfit
    requires Touches(sized.bar, plan.kind.entry) && Touches(sized.bar, exit)
    ensures Looks(plan, w, TicksThrough(sized, [plan.kind.entry, exit] + rest), n)
         != Looks(plan, w, TicksThrough(sized, [exit, plan.kind.entry] + rest), n)
  {
    FirstLooks(plan, w, sized, plan.kind.entry, exit, rest, n);
    FirstLooks(plan, w, sized, exit, plan.kind.entry, rest, n);
  }

  /** A counterfactual bar is called ambiguous if and only if two tick paths through it disagree, or
      the touched limit lies on the stop or the target itself. */
  lemma RejectedAmbiguousIff(plan: RejectedPlan, w: Watch, sized: Sized, n: nat)
    requires ValidPlan(plan) && (!w.active ==> plan.kind.LimitOrder?)
    ensures !Clear(Look(plan, w, sized, n).1) <==> LooksDisagree(plan, w, sized, n) || LimitOnExit(plan, w, sized)
  {
    if Clear(Look(plan, w, sized, n).1) {
      forall path | TicksOf(plan, sized, path) ensures Looks(plan, w, path, n) == Look(plan, w, sized, n) {
        LookHoldsOnPaths(plan, w, sized, n, path);
      }
    } else if !LimitOnExit(plan, w, sized) {
      var entry := if plan.kind.LimitOrder? then [plan.kind.entry] else [];
      var stop, target := plan.stopLoss, plan.takeProfit;
      var both := Touches(sized.bar, stop) && Touches(sized.bar, target);
      assert both || (!w.active && Touches(sized.bar, plan.kind.entry));
      hide Look, Looks, TicksOf, TicksThrough;
      if both {
        ThroughIsPath(plan, sized, [stop, target] + entry);
        ThroughIsPath(plan, sized, [target, stop] + entry);
        ExitOrderMatters(plan, w, sized, n, entry);
      } else {
        var (exit, other) := if Touches(sized.bar, stop) then (stop, target) else (target, stop);
        ThroughIsPath(plan, sized, [plan.kind.entry, exit] + [other]);
        ThroughIsPath(plan, sized, [exit, plan.kind.entry] + [other]);
        EntryOrderMatters(plan, w, sized, n, exit, [other]);
      }
    }
  }
}
