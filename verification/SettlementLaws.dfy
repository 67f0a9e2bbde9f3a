/** Exactly-once settlement: which bars a replay hands to the exchange, over all its batches and the
    settlement that completes it. */
module SettlementLaws {
  import opened Market
  import opened Bookkeeping
  import opened Replay

  // ----- the cursor of one symbol

  /** The cursor after the visited instants. */
  function CursorAfter(cs: seq<Candle>, from: nat, instants: seq<Time>): nat
    decreases |instants|
  {
    if instants == [] then from else CursorAfter(cs, Later(from, ClosedBy(cs, instants[0])), instants[1..])
  }

  lemma {:induction false} CursorAdvances(cs: seq<Candle>, from: nat, instants: seq<Time>)
    requires from <= |cs|
    ensures from <= CursorAfter(cs, from, instants) <= |cs|
    decreases |instants|
  {
    hide ClosedBy;
    if instants != [] {
      CursorAdvances(cs, Later(from, ClosedBy(cs, instants[0])), instants[1..]);
    }
  }

  lemma {:induction false} CursorCountsClosed(cs: seq<Candle>, from: nat, instants: seq<Time>, i: nat)
    requires Spaced(cs) && from <= |cs| && from <= i < |cs|
    ensures i < CursorAfter(cs, from, instants) <==> exists t :: t in instants && ClosesAt(cs[i]) <= t
    decreases |instants|
  {
    if instants != [] {
      var t := instants[0];
      var next := Later(from, ClosedBy(cs, t));
      var rest := instants[1..];
      assert i < next <==> ClosesAt(cs[i]) <= t;
      CursorAdvances(cs, next, rest);
      assert forall u :: u in instants <==> u == t || u in rest;
      if next <= i {
        CursorCountsClosed(cs, next, rest, i);
      } else {
        assert t in instants;
      }
    }
  }

  lemma {:induction false} CursorAtLast(cs: seq<Candle>, from: nat, instants: seq<Time>, t: Time)
    ensures CursorAfter(cs, from, instants + [t]) == Later(CursorAfter(cs, from, instants), ClosedBy(cs, t))
    decreases |instants|
  {
    hide ClosedBy;
    if instants == [] {
      assert [t][1..] == [];
      assert instants + [t] == [t];
    } else {
      assert (instants + [t])[1..] == instants[1..] + [t];
      CursorAtLast(cs, Later(from, ClosedBy(cs, instants[0])), instants[1..], t);
    }
  }

  /** The stretch of the history between the start and the cursor after the visited instants: a bar
      is in it exactly when it opens at or after the start and has closed by a visited instant. */
  lemma StretchIsDue(cs: seq<Candle>, start: Time, instants: seq<Time>)
    requires Spaced(cs)
    ensures var from := OpenedBefore(cs, start);
            var until := CursorAfter(cs, from, instants);
            && from <= until <= |cs|
            && forall i :: 0 <= i < |cs| ==>
                 (from <= i < until <==> start <= cs[i].timestamp && exists t :: t in instants && ClosesAt(cs[i]) <= t)
  {
    var from := OpenedBefore(cs, start);
    CursorAdvances(cs, from, instants);
    forall i | from <= i < |cs|
      ensures start <= cs[i].timestamp
      ensures i < CursorAfter(cs, from, instants) <==> exists t :: t in instants && ClosesAt(cs[i]) <= t
    {
      CursorCountsClosed(cs, from, instants, i);
      assert cs[from].timestamp <= cs[i].timestamp;
    }
  }

  // ----- the cursors of a run

  /** The instants of the batches a run begins, from number `k` on: up to the one it dies in. */
  ghost function VisitedFrom(input: Input, batches: seq<Batch>, k: nat, p: Progress): seq<Time>
    requires WellFormed(input, batches) && k <= |batches|
    decreases |batches| - k
  {
    if k == |batches| then [] else
    var step := RunBatch(input, k, batches[k], p);
    [batches[k].when] + if step.Success? && step.value.Continue?
                        then VisitedFrom(input, batches, k + 1, step.value.progress) else []
  }

  /** The instants through which the bars of `s` are settled: those of the batches, and the end of
      the window for a symbol of the spec, unless the run died. */
  ghost function Visited(input: Input, batches: seq<Batch>, l: Ledger, s: Symbol): seq<Time>
    requires WellFormed(input, batches)
  {
    var run := RunFrom(input, batches, 0, Initial(l));
    VisitedFrom(input, batches, 0, Initial(l))
    + if run.Success? && run.value.Continue? && s in input.symbols then [input.end] else []
  }

  /** Each symbol's cursor is the one after the given instants. */
  ghost predicate CursorsAt(input: Input, cursor: map<Symbol, nat>, instants: seq<Time>) {
    forall s :: s in input.series ==>
      Cursor(input, cursor, s)
        == CursorAfter(input.series[s], OpenedBefore(input.series[s], input.start), instants)
  }

  /** Settling moves the cursor of each listed symbol past the bars closed by `through`. */
  lemma {:induction false} SettleAllMoves(input: Input, st: Clocked, symbols: seq<Symbol>, through: Time, s: Symbol)
    requires Consistent(input) && (forall t :: t in symbols ==> t in input.series) && s in input.series
    requires SettleAll(input, st, symbols, through).Success?
    ensures Cursor(input, SettleAll(input, st, symbols, through).value.cursor, s)
         == if s in symbols then Later(Cursor(input, st.cursor, s), ClosedBy(input.series[s], through))
            else Cursor(input, st.cursor, s)
    decreases |symbols|
  {
    hide SettleBars, ActivateScheduled, OpenedBefore, ClosedBy;
    if symbols != [] {
      var next := SettleUntil(input, st, symbols[0], through).value;
      SettleAllMoves(input, next, symbols[1..], through, s);
      assert s in symbols <==> s == symbols[0] || s in symbols[1..];
    }
  }

  /** The cursors already cover the instant through which everything was last settled. */
  ghost predicate Covers(input: Input, p: Progress) {
    p.settledThrough.Some? ==>
      forall s :: s in input.series ==>
        ClosedBy(input.series[s], p.settledThrough.value) <= Cursor(input, p.clocked.cursor, s)
  }

  lemma AdvanceMoves(input: Input, p: Progress, when: Time, instants: seq<Time>)
    requires Consistent(input) && CursorsAt(input, p.clocked.cursor, instants) && Covers(input, p)
    requires Advance(input, p, when).Success?
    ensures var q := Advance(input, p, when).value;
            CursorsAt(input, q.clocked.cursor, instants + [when]) && Covers(input, q)
  {
    hide SettleAll, OpenedBefore, ClosedBy, CursorAfter;
    var q := Advance(input, p, when).value;
    forall s | s in input.series
      ensures Cursor(input, q.clocked.cursor, s)
           == CursorAfter(input.series[s], OpenedBefore(input.series[s], input.start), instants + [when])
      ensures ClosedBy(input.series[s], when) <= Cursor(input, q.clocked.cursor, s)
    {
      CursorAtLast(input.series[s], OpenedBefore(input.series[s], input.start), instants, when);
      if p.settledThrough != Some(when) {
        SettleAllMoves(input, p.clocked, input.seriesOrder, when, s);
      }
    }
  }

  /** Only the advance of a batch moves cursors. */
  lemma BatchKeepsCursors(input: Input, k: nat, batch: Batch, p: Progress)
    requires Consistent(input) && Known(input, batch) && RunBatch(input, k, batch, p).Success?
    ensures Advance(input, p, batch.when).Success?
    ensures var q, r := Advance(input, p, batch.when).value, RunBatch(input, k, batch, p).value.progress;
            r.clocked.cursor == q.clocked.cursor && r.settledThrough == q.settledThrough
  {
    hide Advance, ReportedTimes, DecideEach, ObserveAt, Ask;
    ReadyInSeries(input, batch.items);
  }

  lemma {:induction false} RunMovesCursors(input: Input, batches: seq<Batch>, k: nat, p: Progress, before: seq<Time>)
    requires WellFormed(input, batches) && k <= |batches|
    requires CursorsAt(input, p.clocked.cursor, before) && Covers(input, p)
    requires RunFrom(input, batches, k, p).Success?
    ensures CursorsAt(input, RunFrom(input, batches, k, p).value.progress.clocked.cursor,
                      before + VisitedFrom(input, batches, k, p))
    decreases |batches| - k
  {
    hide RunBatch, Advance, CursorsAt, Covers;
    if k == |batches| {
      assert before + [] == before;
    } else {
      var when := batches[k].when;
      BatchKeepsCursors(input, k, batches[k], p);
      AdvanceMoves(input, p, when, before);
      var step := RunBatch(input, k, batches[k], p).value;
      SameCursors(input, Advance(input, p, when).value, step.progress);
      if step.Continue? {
        RunMovesCursors(input, batches, k + 1, step.progress, before + [when]);
        var rest := VisitedFrom(input, batches, k + 1, step.progress);
        assert before + ([when] + rest) == before + [when] + rest;
      } else {
        assert [when] + [] == [when];
      }
    }
  }

  lemma SameCursors(input: Input, p: Progress, q: Progress)
    requires q.clocked.cursor == p.clocked.cursor && q.settledThrough == p.settledThrough && Covers(input, p)
    ensures Covers(input, q)
  {
  }

  /** The clocked state whose ledger is flattened: a run that died settles nothing more. */
  ghost function SettledState(input: Input, step: Step): Result<Clocked>
    requires Consistent(input)
  {
    if step.Died? then Success(step.progress.clocked)
    else SettleAll(input, step.progress.clocked, input.symbols, input.end)
  }

  /** When everything is settled, the cursor of each symbol is the one after all instants visited. */
  lemma FinalCursor(input: Input, batches: seq<Batch>, l: Ledger, s: Symbol)
    requires WellFormed(input, batches) && s in input.series
    requires RunFrom(input, batches, 0, Initial(l)).Success?
    requires SettledState(input, RunFrom(input, batches, 0, Initial(l)).value).Success?
    ensures Cursor(input, SettledState(input, RunFrom(input, batches, 0, Initial(l)).value).value.cursor, s)
         == CursorAfter(input.series[s], OpenedBefore(input.series[s], input.start), Visited(input, batches, l, s))
  {
    hide RunFrom, SettleAll, VisitedFrom, OpenedBefore, ClosedBy;
    var cs := input.series[s];
    var from := OpenedBefore(cs, input.start);
    var visited := VisitedFrom(input, batches, 0, Initial(l));
    assert [] + visited == visited == visited + [];
    RunMovesCursors(input, batches, 0, Initial(l), []);
    var step := RunFrom(input, batches, 0, Initial(l)).value;
    if step.Continue? {
      SettleAllMoves(input, step.progress.clocked, input.symbols, input.end, s);
      CursorAtLast(cs, from, visited, input.end);
    }
  }

  /** The log of settled bars of a run: for each symbol a contiguous run of its history, without gap
      or repetition, and a bar is in it exactly when it opens at or after the start and has closed by
      an instant the run visits. */
  ghost predicate SettledOnce(input: Input, batches: seq<Batch>, l: Ledger, log: map<Symbol, seq<Candle>>)
    requires WellFormed(input, batches)
  {
    log.Keys == input.series.Keys
    && forall s :: s in log ==> EachOnce(input.series[s], input.start, Visited(input, batches, l, s), log[s])
  }

  ghost predicate EachOnce(cs: seq<Candle>, start: Time, visited: seq<Time>, log: seq<Candle>) {
    exists from: nat, until: nat ::
      && from <= until <= |cs| && log == cs[from..until]
      && forall i :: 0 <= i < |cs| ==>
           (from <= i < until <==> start <= cs[i].timestamp && exists t :: t in visited && ClosesAt(cs[i]) <= t)
  }

  /** For every symbol the log is the stretch of its history between the start and the cursor. */
  ghost predicate SettledExactly(input: Input, next: map<Symbol, nat>, log: map<Symbol, seq<Candle>>) {
    log.Keys == input.series.Keys
    && forall s :: s in input.series ==>
         var cs := input.series[s];
         var from := OpenedBefore(cs, input.start);
         from <= Cursor(input, next, s) <= |cs| && log[s] == cs[from..Cursor(input, next, s)]
  }

  /** Exactly-once settlement over a whole run, rolled back or not, in any order of instants. */
  lemma EachBarSettledOnce(input: Input, batches: seq<Batch>, l: Ledger, log: map<Symbol, seq<Candle>>)
    requires WellFormed(input, batches) && RunFrom(input, batches, 0, Initial(l)).Success?
    requires SettledState(input, RunFrom(input, batches, 0, Initial(l)).value).Success?
    requires SettledExactly(input, SettledState(input, RunFrom(input, batches, 0, Initial(l)).value).value.cursor, log)
    ensures SettledOnce(input, batches, l, log)
  {
    hide RunFrom, SettledState, Visited, OpenedBefore, CursorAfter;
    forall s | s in log ensures EachOnce(input.series[s], input.start, Visited(input, batches, l, s), log[s]) {
      FinalCursor(input, batches, l, s);
      StretchIsDue(input.series[s], input.start, Visited(input, batches, l, s));
    }
  }
}
