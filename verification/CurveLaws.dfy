/** The equity curve of a run whose provider dies: the account is rolled back, the curve is not. */
module CurveLaws {
  import opened Market
  import opened Bookkeeping
  import opened Replay
  import opened ClockLaws
  import opened RollbackLaws

  /** What a progress report at `at` puts on the curve. */
  ghost function PointOf(input: Input, l: Ledger, at: Time): EquityPoint {
    EquityPoint(at, Max(EQUITY_FLOOR, Equity(l, Marks(input.series, at))))
  }

  predicate EndsAt(curve: seq<EquityPoint>, point: EquityPoint) {
    curve != [] && curve[|curve| - 1] == point
  }

  /** The curve with the point at its end. */
  function Extended(curve: seq<EquityPoint>, point: EquityPoint): (r: seq<EquityPoint>)
    ensures EndsAt(r, point) && curve <= r
  {
    if EndsAt(curve, point) then curve else curve + [point]
  }

  lemma SameEquity(l: Ledger, r: Ledger, marks: map<Symbol, real>)
    requires SameAccount(l, r)
    ensures Equity(l, marks) == Equity(r, marks)
  {
  }

  lemma ReportExtends(input: Input, b: Account, at: Time)
    requires Reported(input, b, at).Success?
    ensures Reported(input, b, at).value.curve == Extended(b.curve, PointOf(input, b.ledger, at))
  {
    hide Total;
  }

  /** Any positive number of reports at one instant adds one point, unless it is there already. */
  lemma {:induction false} ReportsExtend(input: Input, b: Account, at: Time, n: nat)
    requires n > 0 && ReportedTimes(input, b, at, n).Success?
    ensures ReportedTimes(input, b, at, n).value.curve == Extended(b.curve, PointOf(input, b.ledger, at))
    decreases n
  {
    hide Reported, Equity;
    ReportExtends(input, b, at);
    ReportSamples(input, b, at);
    var once := Reported(input, b, at).value;
    SameEquity(b.ledger, once.ledger, Marks(input.series, at));
    if n > 1 {
      ReportsExtend(input, once, at, n - 1);
    }
  }

  /** The curve of an answered batch ends at the point of the account it saves. */
  lemma {:induction false} AnswersEndAtPoint(input: Input, k: nat, i: nat, b: Account, ready: seq<Symbol>,
                                             intents: seq<Intent>, when: Time)
    requires |ready| == |intents| > 0 && forall s :: s in ready ==> s in input.series
    requires DecideEach(input, k, i, b, ready, intents, when).Success?
    ensures var r := DecideEach(input, k, i, b, ready, intents, when).value;
            EndsAt(r.curve, PointOf(input, r.ledger, when))
    decreases |ready|
  {
    hide Decide, Reported, Equity;
    var decided := Decide(input, k, i, b, ready[0], intents[0], when).value;
    ReportExtends(input, decided, when);
    ReportSamples(input, decided, when);
    var reported := Reported(input, decided, when).value;
    SameEquity(decided.ledger, reported.ledger, Marks(input.series, when));
    if |ready| > 1 {
      AnswersEndAtPoint(input, k, i + 1, reported, ready[1..], intents[1..], when);
    } else {
      assert ready[1..] == [];
    }
  }

  // ----- one batch up to the question

  function Missing(batch: Batch): int {
    |batch.items| - |Ready(batch.items)|
  }

  /** The batch is settled and its decisions without a snapshot are reported. */
  ghost function Seen(input: Input, batch: Batch, p: Progress): Result<Progress>
    requires Consistent(input) && Known(input, batch)
  {
    ReadyInSeries(input, batch.items);
    var settled :- Advance(input, p, batch.when);
    var b :- ReportedTimes(input, Account(settled.clocked.ledger, settled.curve), batch.when, Missing(batch));
    Success(settled.(clocked := settled.clocked.(ledger := b.ledger), curve := b.curve))
  }

  lemma BatchIsSeenFirst(input: Input, k: nat, batch: Batch, p: Progress)
    requires Consistent(input) && Known(input, batch)
    ensures forall s :: s in Ready(batch.items) ==> s in input.series
    ensures RunBatch(input, k, batch, p)
         == match Seen(input, batch, p)
            case Failure(e) => Failure(e)
            case Success(seen) => if Ready(batch.items) == [] then Success(Continue(seen))
                                  else Consult(input, k, seen, Ready(batch.items), batch.when)
  {
    hide Advance, ReportedTimes, Consult, Ready;
    ReadyInSeries(input, batch.items);
  }

  // ----- after the last answered batch

  /** Where the curve stands after batches nobody answered, given what was saved and the curve then.
      `quiet` says that no decision was reported after the saved instant. */
  ghost predicate Drifted(input: Input, p: Progress, saved: Ledger, base: seq<EquityPoint>, at: Time, now: Time,
                          quiet: bool)
  {
    && at <= now && base <= p.curve
    && p.saved == saved && (now == at ==> SameAccount(saved, p.clocked.ledger))
    && (if quiet then p.curve == base || p.curve == Extended(base, PointOf(input, saved, at))
        else now > at && p.curve != [] && p.curve[|p.curve| - 1].timestamp > at)
  }

  lemma SettledAtSavedInstant(input: Input, p: Progress, at: Time)
    requires Consistent(input) && Clock(input, p.clocked, at) && Advance(input, p, at).Success?
    ensures Advance(input, p, at).value.clocked.ledger == p.clocked.ledger
  {
    hide OnTime, SettleAll;
    SettlingAllAgainIsIdle(input, p.clocked, input.seriesOrder, at, at);
  }

  lemma SeenDrifts(input: Input, batch: Batch, p: Progress, saved: Ledger, base: seq<EquityPoint>, at: Time,
                   now: Time, quiet: bool)
    requires Consistent(input) && Known(input, batch) && Clock(input, p.clocked, now) && now <= batch.when
    requires Drifted(input, p, saved, base, at, now, quiet) && Seen(input, batch, p).Success?
    ensures Drifted(input, Seen(input, batch, p).value, saved, base, at, batch.when,
                    quiet && (Missing(batch) > 0 ==> batch.when == at))
  {
    hide Clock, Advance, ReportedTimes, Ready, PointOf;
    ReadyInSeries(input, batch.items);
    var when := batch.when;
    var settled := Advance(input, p, when).value;
    AdvanceKeepsRest(input, p, when);
    if when == at {
      SettledAtSavedInstant(input, p, at);
    }
    var b := Account(settled.clocked.ledger, settled.curve);
    if Missing(batch) > 0 {
      ReportsExtend(input, b, when, Missing(batch));
      ReportsSample(input, b, when, Missing(batch));
      if when == at {
        SamePoint(input, saved, settled.clocked.ledger, at);
      } else {
        assert PointOf(input, settled.clocked.ledger, when).timestamp == when by { PointIsAt(input, b.ledger, when); }
      }
    } else {
      NoReports(input, b, when);
    }
  }

  lemma AdvanceKeepsRest(input: Input, p: Progress, when: Time)
    requires Consistent(input) && Advance(input, p, when).Success?
    ensures var q := Advance(input, p, when).value;
            q.curve == p.curve && q.saved == p.saved && q.savedAt == p.savedAt
  {
    hide SettleAll;
  }

  lemma SamePoint(input: Input, l: Ledger, r: Ledger, at: Time)
    requires SameAccount(l, r)
    ensures PointOf(input, l, at) == PointOf(input, r, at)
  {
    hide Equity;
    SameEquity(l, r, Marks(input.series, at));
  }

  lemma PointIsAt(input: Input, l: Ledger, at: Time)
    ensures PointOf(input, l, at).timestamp == at
  {
  }

  lemma NoReports(input: Input, b: Account, at: Time)
    ensures ReportedTimes(input, b, at, 0) == Success(b)
  {
  }

  // ----- along a run

  /** No decision of the batches `j..m` is reported after the instant. */
  ghost predicate Quiet(batches: seq<Batch>, j: nat, m: nat, at: Time)
    requires j <= m <= |batches|
  {
    forall i :: j <= i < m && Missing(batches[i]) > 0 ==> batches[i].when == at
  }

  function InstantOf(input: Input, batches: seq<Batch>, m: nat): Time
    requires m <= |batches|
  {
    if m == 0 then input.start else batches[m - 1].when
  }

  /** `base` is the curve of the first `j` batches: empty, or ended by the point of the saved account. */
  ghost predicate Based(input: Input, batches: seq<Batch>, l: Ledger, j: nat, base: seq<EquityPoint>, saved: Ledger)
    requires WellFormed(input, batches) && j <= |batches|
  {
    && RunPrefix(input, batches, l, j).Success?
    && RunPrefix(input, batches, l, j).value.Continue?
    && RunPrefix(input, batches, l, j).value.progress.curve == base
    && (if j == 0 then base == [] else EndsAt(base, PointOf(input, saved, InstantOf(input, batches, j))))
  }

  lemma AnsweredIsBased(input: Input, batches: seq<Batch>, l: Ledger, m: nat)
    requires WellFormed(input, batches) && m < |batches|
    requires RunPrefix(input, batches, l, m + 1).Success? && RunPrefix(input, batches, l, m + 1).value.Continue?
    requires Ready(batches[m].items) != []
    ensures var p := RunPrefix(input, batches, l, m + 1).value.progress;
            Based(input, batches, l, m + 1, p.curve, p.saved) && p.saved == p.clocked.ledger
  {
    hide Ready, DecideEach, Seen, PointOf, ReportedTimes, ObserveAt, Ask;
    var before := RunPrefix(input, batches, l, m).value.progress;
    var when := batches[m].when;
    BatchIsSeenFirst(input, m, batches[m], before);
    var seen := Seen(input, batches[m], before).value;
    var ready := Ready(batches[m].items);
    var (sampled, portfolio) := ObserveAt(seen.clocked.ledger, Marks(input.series, when), when).value;
    var intents := Ask(input, m, portfolio, |ready|, 0).value;
    AnswersEndAtPoint(input, m, 0, Account(sampled, seen.curve), ready, intents, when);
  }

  /** Where a run stands after `m` batches, relative to the last answered one. */
  lemma {:induction false} RunDrifts(input: Input, batches: seq<Batch>, l: Ledger, m: nat)
    returns (j: nat, base: seq<EquityPoint>)
    requires WellFormed(input, batches) && Chronological(input, batches) && Startable(l, input.start)
    requires m <= |batches|
    requires RunPrefix(input, batches, l, m).Success? && RunPrefix(input, batches, l, m).value.Continue?
    ensures j <= m && SavedAfter(input, batches, l, j, RunPrefix(input, batches, l, m).value.progress)
    ensures var p := RunPrefix(input, batches, l, m).value.progress;
            && Based(input, batches, l, j, base, p.saved)
            && Drifted(input, p, p.saved, base, InstantOf(input, batches, j), InstantOf(input, batches, m),
                       Quiet(batches, j, m, InstantOf(input, batches, j)))
    decreases m
  {
    hide RunBatch, Clock, PointOf, Seen, Ready, Missing, Consult;
    if m == 0 {
      j, base := 0, [];
    } else {
      j, base := RunDrifts(input, batches, l, m - 1);
      var before := RunPrefix(input, batches, l, m - 1).value.progress;
      var batch := batches[m - 1];
      BatchSaves(input, m - 1, batch, before);
      BatchIsSeenFirst(input, m - 1, batch, before);
      var p := RunPrefix(input, batches, l, m).value.progress;
      if Ready(batch.items) != [] {
        AnsweredIsBased(input, batches, l, m - 1);
        j, base := m, p.curve;
      } else {
        var at, now := InstantOf(input, batches, j), InstantOf(input, batches, m - 1);
        PrefixIsOnTime(input, batches, l, m - 1);
        SeenDrifts(input, batch, before, before.saved, base, at, now, Quiet(batches, j, m - 1, at));
        QuietOneMore(batches, j, m - 1, at);
      }
    }
  }

  lemma QuietOneMore(batches: seq<Batch>, j: nat, m: nat, at: Time)
    requires j <= m < |batches|
    ensures Quiet(batches, j, m + 1, at)
       <==> Quiet(batches, j, m, at) && (Missing(batches[m]) > 0 ==> batches[m].when == at)
  {
    hide Missing;
  }

  /** The batch at which a run died. */
  lemma {:induction false} DiesAt(input: Input, batches: seq<Batch>, l: Ledger, n: nat) returns (k: nat)
    requires WellFormed(input, batches) && n <= |batches|
    requires RunPrefix(input, batches, l, n).Success? && RunPrefix(input, batches, l, n).value.Died?
    ensures k < n
    ensures RunPrefix(input, batches, l, k).Success? && RunPrefix(input, batches, l, k).value.Continue?
    ensures RunPrefix(input, batches, l, k + 1) == RunPrefix(input, batches, l, n)
    decreases n
  {
    hide RunBatch;
    if RunPrefix(input, batches, l, n - 1).value.Died? {
      k := DiesAt(input, batches, l, n - 1);
    } else {
      k := n - 1;
    }
  }

  /** The failed decisions are reported at the instant of the restored account. */
  lemma DeathExtends(input: Input, k: nat, p: Progress, ready: seq<Symbol>, when: Time)
    requires (forall s :: s in ready ==> s in input.series) && ready != []
    requires Consult(input, k, p, ready, when).Success? && Consult(input, k, p, ready, when).value.Died?
    ensures var at := SavedAt(input, p.savedAt);
            Consult(input, k, p, ready, when).value.progress.curve == Extended(p.curve, PointOf(input, p.saved, at))
  {
    hide ReportedTimes, ObserveAt, PointOf;
    ReportsExtend(input, Account(p.saved, p.curve), SavedAt(input, p.savedAt), |ready|);
  }

  lemma DriftDecides(input: Input, p: Progress, saved: Ledger, base: seq<EquityPoint>, at: Time, now: Time, quiet: bool)
    requires Drifted(input, p, saved, base, at, now, quiet)
    requires base == [] || EndsAt(base, PointOf(input, saved, at))
    ensures base <= Extended(p.curve, PointOf(input, saved, at))
    ensures Extended(p.curve, PointOf(input, saved, at)) == Extended(base, PointOf(input, saved, at)) <==> quiet
  {
    PointIsAt(input, saved, at);
    hide PointOf;
    var point := PointOf(input, saved, at);
    if !quiet {
      assert Extended(p.curve, point) == p.curve + [point];
      assert |p.curve| > |base|;
    }
  }

  /** The curve of a run that died in batch `k`, rolled back to the first `j` batches: it always
      begins with their curve, and it is their curve (for `j == 0`, the one point of the start) if
      and only if every decision without a snapshot from then up to the failing batch was due at the
      effective end. */
  lemma RolledBackCurveIff(input: Input, batches: seq<Batch>, l: Ledger) returns (j: nat, k: nat)
    requires WellFormed(input, batches) && Chronological(input, batches) && Startable(l, input.start)
    requires RunFrom(input, batches, 0, Initial(l)).Success? && RunFrom(input, batches, 0, Initial(l)).value.Died?
    ensures j <= k < |batches|
    ensures RunPrefix(input, batches, l, k).Success? && RunPrefix(input, batches, l, k).value.Continue?
    ensures RunPrefix(input, batches, l, k + 1) == RunFrom(input, batches, 0, Initial(l))
    ensures RunFrom(input, batches[..j], 0, Initial(l)).Success?
    ensures RunFrom(input, batches[..j], 0, Initial(l)).value.Continue?
    ensures var died := RunFrom(input, batches, 0, Initial(l)).value;
            var kept := RunFrom(input, batches[..j], 0, Initial(l)).value.progress;
            var at := EffectiveEnd(input, died);
            && at == InstantOf(input, batches, j)
            && kept.clocked.ledger == died.progress.saved
            && kept.curve <= died.progress.curve
            && (died.progress.curve == (if j == 0 then [PointOf(input, l, input.start)] else kept.curve)
                <==> forall i :: j <= i <= k && Missing(batches[i]) > 0 ==> batches[i].when == at)
  {
    hide RunFrom, RunBatch, Seen, Consult, Ready, Missing, PointOf, Clock, Drifted;
    RunIsWholePrefix(input, batches, l);
    k := DiesAt(input, batches, l, |batches|);
    var base: seq<EquityPoint>;
    j, base := RunDrifts(input, batches, l, k);
    PrefixOfTruncated(input, batches, l, j, j);
    RunIsWholePrefix(input, batches[..j], l);
    var p := RunPrefix(input, batches, l, k).value.progress;
    var batch := batches[k];
    var at := InstantOf(input, batches, j);
    BatchIsSeenFirst(input, k, batch, p);
    PrefixIsOnTime(input, batches, l, k);
    SeenDrifts(input, batch, p, p.saved, base, at, InstantOf(input, batches, k), Quiet(batches, j, k, at));
    QuietOneMore(batches, j, k, at);
    var seen := Seen(input, batch, p).value;
    SeenKeepsSaved(input, batch, p);
    DeathExtends(input, k, seen, Ready(batch.items), batch.when);
    BatchSaves(input, k, batch, p);
    DriftDecides(input, seen, p.saved, base, at, batch.when, Quiet(batches, j, k + 1, at));
  }

  lemma SeenKeepsSaved(input: Input, batch: Batch, p: Progress)
    requires Consistent(input) && Known(input, batch) && Seen(input, batch, p).Success?
    ensures Seen(input, batch, p).value.saved == p.saved && Seen(input, batch, p).value.savedAt == p.savedAt
  {
    hide Advance, ReportedTimes, Ready;
    ReadyInSeries(input, batch.items);
    AdvanceKeepsRest(input, p, batch.when);
  }
}
