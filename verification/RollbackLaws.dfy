/** Rollback equals truncation. */
module RollbackLaws {
  import opened Market
  import opened Bookkeeping
  import opened Replay
  import opened ClockLaws

  // ----- rollback

  /** Nothing but the equity window differs. */
  predicate SameAccount(l: Ledger, r: Ledger) {
    r.(window := l.window) == l
  }

  /** The copy kept for a failure is the outcome of the first `j` batches. */
  ghost predicate SavedAfter(input: Input, batches: seq<Batch>, l: Ledger, j: nat, p: Progress)
    requires WellFormed(input, batches) && j <= |batches|
  {
    && RunPrefix(input, batches, l, j).Success?
    && RunPrefix(input, batches, l, j).value.Continue?
    && var q := RunPrefix(input, batches, l, j).value.progress;
    && q.clocked.ledger == p.saved && q.saved == p.saved && q.savedAt == p.savedAt
    && (if j == 0 then q.savedAt == None
        else q.savedAt == Some(batches[j - 1].when) && Ready(batches[j - 1].items) != [])
  }

  /** One batch either saves its own outcome or leaves the last saved copy alone. */
  lemma BatchSaves(input: Input, k: nat, batch: Batch, p: Progress)
    requires Consistent(input) && Known(input, batch) && RunBatch(input, k, batch, p).Success?
    ensures var step := RunBatch(input, k, batch, p).value;
            var q := step.progress;
            if step.Continue? && Ready(batch.items) != []
            then q.saved == q.clocked.ledger && q.savedAt == Some(batch.when)
            else q.saved == p.saved && q.savedAt == p.savedAt
    ensures var step := RunBatch(input, k, batch, p).value;
            step.Died? ==> SameAccount(p.saved, step.progress.clocked.ledger) && Ready(batch.items) != []
  {
    hide SettleAll, ReportedTimes, DecideEach, ObserveAt;
    ReadyInSeries(input, batch.items);
    var ready := Ready(batch.items);
    var settled := Advance(input, p, batch.when).value;
    var missing := |batch.items| - |ready|;
    var b := ReportedTimes(input, Account(settled.clocked.ledger, settled.curve), batch.when, missing).value;
    if ready != [] {
      var seen := settled.(clocked := settled.clocked.(ledger := b.ledger), curve := b.curve);
      ConsultSaves(input, k, seen, ready, batch.when);
    }
  }

  lemma ConsultSaves(input: Input, k: nat, p: Progress, ready: seq<Symbol>, when: Time)
    requires forall s :: s in ready ==> s in input.series
    requires Consult(input, k, p, ready, when).Success?
    ensures var step := Consult(input, k, p, ready, when).value;
            var q := step.progress;
            if step.Continue? then q.saved == q.clocked.ledger && q.savedAt == Some(when)
            else q.saved == p.saved && q.savedAt == p.savedAt && SameAccount(p.saved, q.clocked.ledger)
  {
    hide DecideEach, ObserveAt, ReportedTimes;
    var portfolio := ObserveAt(p.clocked.ledger, Marks(input.series, when), when).value.1;
    if Ask(input, k, portfolio, |ready|, 0).None? {
      var at := SavedTime(input, p);
      ReportsSample(input, Account(p.saved, p.curve), at, |ready|);
    }
  }

  lemma ReportSamples(input: Input, b: Account, at: Time)
    ensures Reported(input, b, at).Success? ==> SameAccount(b.ledger, Reported(input, b, at).value.ledger)
  {
    hide Equity, Observe, Marks;
  }

  lemma {:induction false} ReportsSample(input: Input, b: Account, at: Time, n: nat)
    ensures ReportedTimes(input, b, at, n).Success? ==> SameAccount(b.ledger, ReportedTimes(input, b, at, n).value.ledger)
    decreases n
  {
    hide Reported;
    ReportSamples(input, b, at);
    if n > 0 && Reported(input, b, at).Success? {
      ReportsSample(input, Reported(input, b, at).value, at, n - 1);
    }
  }

  /** At every point of a run the saved copy is the outcome of a prefix that ends with the last
      answered batch. */
  lemma {:induction false} SavedIsPrefix(input: Input, batches: seq<Batch>, l: Ledger, k: nat) returns (j: nat)
    requires WellFormed(input, batches) && k <= |batches| && RunPrefix(input, batches, l, k).Success?
    ensures j <= k && SavedAfter(input, batches, l, j, RunPrefix(input, batches, l, k).value.progress)
    ensures RunPrefix(input, batches, l, k).value.Died? ==>
              j < k && SameAccount(RunPrefix(input, batches, l, k).value.progress.saved,
                                   RunPrefix(input, batches, l, k).value.progress.clocked.ledger)
    decreases k
  {
    hide RunBatch;
    if k == 0 {
      j := 0;
    } else {
      j := SavedIsPrefix(input, batches, l, k - 1);
      var before := RunPrefix(input, batches, l, k - 1).value;
      if before.Continue? {
        BatchSaves(input, k - 1, batches[k - 1], before.progress);
        var step := RunPrefix(input, batches, l, k).value;
        if step.Continue? && Ready(batches[k - 1].items) != [] {
          j := k;
        }
      }
    }
  }

  /** Flattening does not look at the equity window. */
  lemma {:induction false} CloseEachKeepsSameness(cfg: Config, l: Ledger, r: Ledger, order: seq<Symbol>,
                                                  marks: map<Symbol, real>, when: Time)
    requires SameAccount(l, r)
    requires forall s :: s in order ==> s in l.positions
    requires forall i, j :: 0 <= i < j < |order| ==> order[i] != order[j]
    ensures var x, y := CloseEach(cfg, l, order, marks, when), CloseEach(cfg, r, order, marks, when);
            x.Success? == y.Success? && (x.Success? ==> SameAccount(x.value, y.value))
    decreases |order|
  {
    hide Gain, Share, FeeOf, Slipped;
    if order != [] {
      var s := order[0];
      var price := MarkOf(marks, s, l.positions[s]);
      var a, b := CloseAt(cfg, l, s, price, when, RunEnd), CloseAt(cfg, r, s, price, when, RunEnd);
      assert a.Success? == b.Success? && (a.Success? ==> SameAccount(a.value, b.value));
      if a.Success? {
        CloseEachKeepsSameness(cfg, a.value, b.value, order[1..], marks, when);
      }
    }
  }

  /** What a schedule of the given batches reports when it is closed out at `at`, after settling
      through that instant once more. */
  ghost function ClosedOutAt(input: Input, p: Progress, at: Time, order: seq<Symbol>): Result<Ledger>
    requires Consistent(input)
    requires SettleAll(input, p.clocked, input.symbols, at).Success?
    requires ListsPositions(SettleAll(input, p.clocked, input.symbols, at).value.ledger, order)
  {
    CloseAll(input.config, SettleAll(input, p.clocked, input.symbols, at).value.ledger, order,
             Marks(input.series, at), at)
  }

  /** Rollback is truncation: when the provider fails for good, the flattened account (cash, trades,
      cooldowns) is that of a run of only the batches up to the last answered one, closed out at its
      instant. Settlements, fills and samples after it leave no trace in the account. */
  lemma RollbackIsTruncation(input: Input, batches: seq<Batch>, l: Ledger, order: seq<Symbol>) returns (j: nat)
    requires WellFormed(input, batches) && Chronological(input, batches) && Startable(l, input.start)
    requires RunFrom(input, batches, 0, Initial(l)).Success? && RunFrom(input, batches, 0, Initial(l)).value.Died?
    requires ListsPositions(RunFrom(input, batches, 0, Initial(l)).value.progress.clocked.ledger, order)
    ensures j < |batches|
    ensures RunFrom(input, batches[..j], 0, Initial(l)).Success?
    ensures RunFrom(input, batches[..j], 0, Initial(l)).value.Continue?
    ensures var died := RunFrom(input, batches, 0, Initial(l)).value;
            var kept := RunFrom(input, batches[..j], 0, Initial(l)).value.progress;
            var at := EffectiveEnd(input, died);
            && at == (if j == 0 then input.start else batches[j - 1].when)
            && (j > 0 ==> Ready(batches[j - 1].items) != [])
            && SettleAll(input, kept.clocked, input.symbols, at).Success?
            && ListsPositions(SettleAll(input, kept.clocked, input.symbols, at).value.ledger, order)
            && var rolledBack := Flattened(input, died, died.progress.clocked.ledger, order);
            && var truncated := ClosedOutAt(input, kept, at, order);
            && rolledBack.Success? && truncated.Success?
            && SameAccount(truncated.value, rolledBack.value)
  {
    hide RunFrom, RunPrefix, SettleAll, CloseEach, OnTime;
    RunIsWholePrefix(input, batches, l);
    j := SavedIsPrefix(input, batches, l, |batches|);
    PrefixOfTruncated(input, batches, l, j, j);
    RunIsWholePrefix(input, batches[..j], l);
    var died := RunFrom(input, batches, 0, Initial(l)).value;
    var kept := RunFrom(input, batches[..j], 0, Initial(l)).value.progress;
    var at := EffectiveEnd(input, died);
    StartIsOnTime(input, l);
    RunFromIsOnTime(input, batches[..j], 0, Initial(l), input.start);
    SettlingAllAgainIsIdle(input, kept.clocked, input.symbols, at, at);
    var marks := Marks(input.series, at);
    assert SameAccount(kept.clocked.ledger, died.progress.clocked.ledger);
    CloseEachKeepsSameness(input.config, kept.clocked.ledger, died.progress.clocked.ledger, order, marks, at);
    CloseEachFailsIff(input.config, kept.clocked.ledger, order, marks, at);
  }
}
