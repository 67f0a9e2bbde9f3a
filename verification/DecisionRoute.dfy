/** One live decision batch: providers are tried route by route in bounded rounds, and the audit
    gets one inference record per snapshot of every batch that was attempted, up to the first
    exception outside the providers. */
module DecisionRoute {
  import opened Market

  const MAX_ATTEMPTS: nat := 3
  const FAILURE_COOLDOWN: Time := MINUTE

  type Provider = string

  datatype Key = Key(symbol: Symbol, cadence: string)

  /** `version` tells a refreshed snapshot from the one it replaces. */
  datatype Snapshot = Snapshot(key: Key, version: nat)

  /** One call to a provider for a whole batch. */
  datatype Attempt = Attempt(provider: Provider, snapshots: seq<Snapshot>, failed: bool)

  /** A stored inference: which attempt it belongs to, and for which decision. */
  datatype Inference = Inference(attempt: nat, provider: Provider, key: Key, failed: bool)

  datatype RouteState = RouteState(consecutiveFailures: nat, cooldownUntil: Option<Time>)

  datatype Decision = Decision(key: Key, provider: Provider, failed: bool)

  /** What the caller sees raised. `ContextFailed` comes from completing the portfolio before a round,
      `UnknownProvider` from looking a provider up, `InputsFailed` from storing the replay inputs,
      `EvaluationFailed` from a decision of the decisive batch. */
  datatype Problem =
    | NotRunning | ThresholdReached | RefreshFailed | ContextFailed | UnknownProvider | InputsFailed
    | EvaluationFailed

  datatype RoundsEnd = Finished | RefreshRaised | ContextRaised | ProviderRaised

  /** Where the treatment of one result raises: before it is recorded, as a missing rule does, or after,
      while it is evaluated or executed. */
  datatype Fault = Clean | BeforeRecord | AfterRecord

  datatype Reply = Decided(decisions: seq<Decision>) | Raised(problem: Problem)

  function Keys(snapshots: seq<Snapshot>): (keys: seq<Key>)
    ensures |keys| == |snapshots|
    ensures forall i :: 0 <= i < |keys| ==> keys[i] == snapshots[i].key
  {
    seq(|snapshots|, i requires 0 <= i < |snapshots| => snapshots[i].key)
  }

  function Refreshed(snapshots: seq<Snapshot>, version: nat): (renewed: seq<Snapshot>)
    ensures Keys(renewed) == Keys(snapshots)
  {
    seq(|snapshots|, i requires 0 <= i < |snapshots| => Snapshot(snapshots[i].key, version))
  }

  /** The records of one attempted batch, in input order. */
  function BatchRecords(number: nat, a: Attempt): (records: seq<Inference>)
    ensures |records| == |a.snapshots|
  {
    seq(|a.snapshots|, i requires 0 <= i < |a.snapshots| =>
      Inference(number, a.provider, a.snapshots[i].key, a.failed))
  }

  /** The records of all attempts, one batch after the other. */
  function RecordsOf(attempts: seq<Attempt>): seq<Inference> {
    if attempts == [] then [] else
    RecordsOf(attempts[..|attempts| - 1]) + BatchRecords(|attempts| - 1, attempts[|attempts| - 1])
  }

  function DecisionsOf(a: Attempt): (decisions: seq<Decision>)
    ensures |decisions| == |a.snapshots|
    ensures forall i :: 0 <= i < |decisions| ==> decisions[i] == Decision(a.snapshots[i].key, a.provider, a.failed)
  {
    seq(|a.snapshots|, i requires 0 <= i < |a.snapshots| => Decision(a.snapshots[i].key, a.provider, a.failed))
  }

  /** The attempt failed exactly when the provider's answer was not one intent per snapshot, in
      input order. */
  predicate Truthful(number: nat, a: Attempt, ask: (nat, Provider, seq<Snapshot>) -> Option<seq<Key>>) {
    a.failed <==> ask(number, a.provider, a.snapshots) != Some(Keys(a.snapshots))
  }

  lemma RecordsAppend(attempts: seq<Attempt>, a: Attempt)
    ensures RecordsOf(attempts + [a]) == RecordsOf(attempts) + BatchRecords(|attempts|, a)
  {
    assert (attempts + [a])[..|attempts|] == attempts;
  }

  /** Exactly once: with batches of `m` snapshots, record number `a * m + i` is that of snapshot `i`
      of attempt `a`, and there are no others. */
  lemma {:induction false} RecordsAreExactlyOnce(attempts: seq<Attempt>, m: nat, a: nat, i: nat)
    requires forall k :: 0 <= k < |attempts| ==> |attempts[k].snapshots| == m
    requires a < |attempts| && i < m
    ensures |RecordsOf(attempts)| == |attempts| * m
    ensures 0 <= a * m + i < |RecordsOf(attempts)|
    ensures RecordsOf(attempts)[a * m + i]
         == Inference(a, attempts[a].provider, attempts[a].snapshots[i].key, attempts[a].failed)
    decreases |attempts|
  {
    var n := |attempts| - 1;
    var rest := attempts[..n];
    RecordCount(rest, m);
    assert (n + 1) * m == n * m + m;
    if a < n {
      RecordsAreExactlyOnce(rest, m, a, i);
    }
  }

  lemma {:induction false} RecordCount(attempts: seq<Attempt>, m: nat)
    requires forall k :: 0 <= k < |attempts| ==> |attempts[k].snapshots| == m
    ensures |RecordsOf(attempts)| == |attempts| * m
    decreases |attempts|
  {
    if attempts != [] {
      var n := |attempts| - 1;
      RecordCount(attempts[..n], m);
      assert (n + 1) * m == n * m + m;
    }
  }

  /** How many of `m` results are recorded when each is evaluated before the next is recorded: all up
      to the first fault, with the faulty one itself if it was recorded before it raised. */
  function Recorded(m: nat, faults: nat -> Fault): (n: nat)
    ensures n <= m
    ensures forall i :: 0 <= i < n - 1 ==> faults(i).Clean?
    ensures n > 0 ==> !faults(n - 1).BeforeRecord?
    ensures n < m ==> faults(n).BeforeRecord? || (n > 0 && faults(n - 1).AfterRecord?)
  {
    RecordedFrom(0, m, faults)
  }

  function RecordedFrom(from: nat, m: nat, faults: nat -> Fault): (n: nat)
    requires from <= m
    ensures from <= n <= m
    ensures forall i :: from <= i < n - 1 ==> faults(i).Clean?
    ensures n > from ==> !faults(n - 1).BeforeRecord?
    ensures n < m ==> faults(n).BeforeRecord? || (n > from && faults(n - 1).AfterRecord?)
    decreases m - from
  {
    if from == m then m else
    match faults(from)
    case BeforeRecord => from
    case AfterRecord => from + 1
    case Clean => RecordedFrom(from + 1, m, faults)
  }

  lemma RecordedStep(i: nat, m: nat, faults: nat -> Fault)
    requires i < m
    ensures RecordedFrom(i, m, faults) == match faults(i)
                                          case BeforeRecord => i
                                          case AfterRecord => i + 1
                                          case Clean => RecordedFrom(i + 1, m, faults)
    ensures RecordedFrom(m, m, faults) == m && RecordedFrom(0, m, faults) == Recorded(m, faults)
  {
  }

  lemma OneMore<T>(before: seq<T>, s: seq<T>, i: nat)
    requires i < |s|
    ensures s[..i + 1] == s[..i] + [s[i]]
    ensures before + s[..i + 1] == before + s[..i] + [s[i]]
  {
  }

  lemma ResultAt(number: nat, batch: Attempt, i: nat)
    requires i < |batch.snapshots|
    ensures BatchRecords(number, batch)[i]
         == Inference(number, batch.provider, batch.snapshots[i].key, batch.failed)
  {
  }

  /** Nothing keeps a result of the batch from being recorded. */
  predicate AllRecorded(m: nat, faults: nat -> Fault) {
    (forall i :: 0 <= i < m - 1 ==> faults(i).Clean?) && (m > 0 ==> !faults(m - 1).BeforeRecord?)
  }

  lemma RecordedAllIff(m: nat, faults: nat -> Fault)
    ensures Recorded(m, faults) == m <==> AllRecorded(m, faults)
  {
  }

  /** The audit after the failed batches and `n` records of the decisive one. */
  function AuditOf(attempts: seq<Attempt>, n: nat): seq<Inference>
    requires attempts != [] && n <= |attempts[|attempts| - 1].snapshots|
  {
    var last := |attempts| - 1;
    RecordsOf(attempts[..last]) + BatchRecords(last, attempts[last])[..n]
  }

  /** Records are missing exactly when fewer than all of the decisive batch are there. */
  lemma AuditIsCompleteIff(attempts: seq<Attempt>, n: nat)
    requires attempts != [] && n <= |attempts[|attempts| - 1].snapshots|
    ensures AuditOf(attempts, n) == RecordsOf(attempts) <==> n == |attempts[|attempts| - 1].snapshots|
  {
    var last := |attempts| - 1;
    var records := BatchRecords(last, attempts[last]);
    assert records[..|records|] == records;
    assert |AuditOf(attempts, n)| == |RecordsOf(attempts[..last])| + n;
    assert |RecordsOf(attempts)| == |RecordsOf(attempts[..last])| + |records|;
  }

  /** What the audit tells, by what the caller sees. If the decisive batch was reached: every failed
      batch before it, and of itself everything up to the first fault, so that all records are there
      exactly when no result but the last is faulty and the last is recorded; the decisions come back,
      in input order, exactly when nothing is faulty. If storing the replay inputs failed: the batches
      before the decisive one. If renewing the inputs failed: all batches. If completing the portfolio
      or looking a provider up failed: none of them. */
  predicate Told(before: seq<Inference>, after: seq<Inference>, attempts: seq<Attempt>, m: nat,
                 faults: nat -> Fault, reply: Reply)
  {
    if reply.Decided? || reply.problem == EvaluationFailed then
      && attempts != [] && |attempts[|attempts| - 1].snapshots| == m
      && after == before + AuditOf(attempts, Recorded(m, faults))
      && (after == before + RecordsOf(attempts) <==> AllRecorded(m, faults))
      && reply == (if forall i :: 0 <= i < m ==> faults(i).Clean? then Decided(DecisionsOf(attempts[|attempts| - 1]))
                   else Raised(EvaluationFailed))
    else match reply.problem
      case InputsFailed => attempts != [] && after == before + RecordsOf(attempts[..|attempts| - 1])
      case RefreshFailed => after == before + RecordsOf(attempts)
      case ContextFailed => after == before
      case UnknownProvider => after == before
      case _ => attempts == [] && after == before
  }

  lemma NothingTold(audit: seq<Inference>, m: nat, faults: nat -> Fault, problem: Problem)
    requires problem == NotRunning || problem == ThresholdReached
    ensures Told(audit, audit, [], m, faults, Raised(problem))
  {
  }

  lemma Cancel(before: seq<Inference>, a: seq<Inference>, b: seq<Inference>)
    ensures before + a == before + b <==> a == b
  {
    assert (before + a)[|before|..] == a && (before + b)[|before|..] == b;
  }

  /** Failed attempts on the same keys, by providers of the chain. */
  ghost predicate AllFailed(batches: seq<Attempt>, keys: seq<Key>, ask: (nat, Provider, seq<Snapshot>) -> Option<seq<Key>>,
                            chain: seq<Provider>)
  {
    forall k :: 0 <= k < |batches| ==>
      batches[k].failed && Keys(batches[k].snapshots) == keys && Truthful(k, batches[k], ask)
      && batches[k].provider in chain
  }

  lemma NoneFailed(keys: seq<Key>, ask: (nat, Provider, seq<Snapshot>) -> Option<seq<Key>>, chain: seq<Provider>)
    ensures AllFailed([], keys, ask, chain)
  {
  }

  lemma MoreFailed(before: seq<Attempt>, after: seq<Attempt>, round: seq<Provider>, current: seq<Snapshot>,
                   ask: (nat, Provider, seq<Snapshot>) -> Option<seq<Key>>, chain: seq<Provider>)
    requires AllFailed(before, Keys(current), ask, chain) && forall name :: name in round ==> name in chain
    requires before <= after && |after| <= |before| + |round|
    requires forall k :: |before| <= k < |after| ==>
               after[k] == Attempt(round[k - |before|], current, true) && Truthful(k, after[k], ask)
    ensures AllFailed(after, Keys(current), ask, chain)
  {
    hide Truthful, Keys;
    assert forall k :: 0 <= k < |before| ==> after[k] == before[k];
  }

  lemma AttemptsAreTruthful(attempts: seq<Attempt>, failedBatches: seq<Attempt>, winner: Option<Attempt>,
                            snapshots: seq<Snapshot>, ask: (nat, Provider, seq<Snapshot>) -> Option<seq<Key>>,
                            chain: seq<Provider>)
    requires AllFailed(failedBatches, Keys(snapshots), ask, chain)
    requires attempts == if winner.Some? then failedBatches + [winner.value] else failedBatches
    requires winner.Some? ==>
               && Keys(winner.value.snapshots) == Keys(snapshots) && winner.value.provider in chain
               && Truthful(|failedBatches|, winner.value, ask)
    ensures forall k :: 0 <= k < |attempts| ==>
              && Keys(attempts[k].snapshots) == Keys(snapshots) && Truthful(k, attempts[k], ask)
              && attempts[k].provider in chain
    ensures forall k :: 0 <= k < |failedBatches| ==> attempts[k].failed
  {
    hide Truthful, Keys;
  }

  class TradingEngine {
    var running: bool
    var providerChain: seq<Provider>
    var routeFailureCount: nat
    var routeStates: map<Provider, RouteState>
    var activeProvider: Option<Provider>
    /** The inference table. */
    var audit: seq<Inference>

    constructor (chain: seq<Provider>)
      ensures !running && providerChain == chain && routeFailureCount == 0 && audit == []
    {
      running, providerChain, routeFailureCount := false, chain, 0;
      routeStates, activeProvider, audit := map[], None, [];
    }

    /** The routes that are not cooling down, or else the one that recovers first. */
    method Candidates(now: Time) returns (candidates: seq<Provider>)
      requires providerChain != []
      modifies this`routeStates
      ensures candidates != [] && forall name :: name in candidates ==> name in providerChain
      ensures forall name :: name in providerChain ==> name in routeStates
      ensures (exists name :: name in candidates && Cooling(routeStates[name], now)) ==>
                && |candidates| == 1
                && forall name :: name in providerChain ==>
                     Cooling(routeStates[name], now)
                     && Recovers(routeStates[candidates[0]]) <= Recovers(routeStates[name])
    {
      candidates := [];
      var i := 0;
      while i < |providerChain|
        invariant 0 <= i <= |providerChain|
        invariant forall name :: name in providerChain[..i] ==> name in routeStates
        invariant forall name :: name in candidates ==>
                    name in providerChain[..i] && !Cooling(routeStates[name], now)
        invariant candidates == [] ==>
                    forall name :: name in providerChain[..i] ==> Cooling(routeStates[name], now)
      {
        var name := providerChain[i];
        if name !in routeStates {
          routeStates := routeStates[name := RouteState(0, None)];
        }
        if !Cooling(routeStates[name], now) {
          candidates := candidates + [name];
        }
        i := i + 1;
      }
      assert providerChain[..|providerChain|] == providerChain;
      if candidates == [] {
        var best := providerChain[0];
        var j := 1;
        while j < |providerChain|
          invariant 1 <= j <= |providerChain| && best in providerChain
          invariant forall name :: name in providerChain[..j] ==>
                      Recovers(routeStates[best]) <= Recovers(routeStates[name])
        {
          if Recovers(routeStates[providerChain[j]]) < Recovers(routeStates[best]) {
            best := providerChain[j];
          }
          j := j + 1;
        }
        candidates := [best];
      }
    }

    /** Runs one batch. `ask` is the provider (None for any exception), `refresh` the renewal of the
        inputs between rounds (None when it fails), `clock` the time of each attempt. `context`,
        `known`, `storesInputs` and `faults` say where the calls around the providers raise: completing
        the portfolio before a round, looking a provider up, storing the replay inputs, treating the
        i-th result. `attempts` are the batches that were tried. */
    method EvaluateBatch(snapshots: seq<Snapshot>, now: Time,
                         ask: (nat, Provider, seq<Snapshot>) -> Option<seq<Key>>,
                         refresh: nat -> Option<nat>, clock: nat -> Time,
                         context: nat -> bool, known: Provider -> bool, storesInputs: bool, faults: nat -> Fault)
      returns (reply: Reply, ghost attempts: seq<Attempt>, ghost rounds: nat)
      requires routeFailureCount <= MAX_ATTEMPTS
      modifies this`routeFailureCount, this`routeStates, this`activeProvider, this`audit
      ensures forall k :: 0 <= k < |attempts| ==>
                && Keys(attempts[k].snapshots) == Keys(snapshots) && Truthful(k, attempts[k], ask)
                && attempts[k].provider in providerChain
      // only the last attempt can have succeeded
      ensures forall k :: 0 <= k < |attempts| - 1 ==> attempts[k].failed
      // bounded rounds
      ensures rounds <= MAX_ATTEMPTS - old(routeFailureCount) && routeFailureCount <= MAX_ATTEMPTS
      ensures rounds > 0 ==> attempts != []
      // exactly once, up to the first exception; decisions in input order
      ensures snapshots != [] ==> Told(old(audit), audit, attempts, |snapshots|, faults, reply)
      ensures snapshots == [] <==> reply == Decided([])
      ensures snapshots == [] ==> attempts == [] && audit == old(audit)
      ensures ReachedResults(reply, snapshots) || reply == Raised(InputsFailed) ==>
                && routeFailureCount == (if attempts[|attempts| - 1].failed then MAX_ATTEMPTS else 0)
                && activeProvider == (if attempts[|attempts| - 1].failed then None
                                      else Some(attempts[|attempts| - 1].provider))
      ensures ReachedResults(reply, snapshots) || reply == Raised(InputsFailed) ==>
                attempts[|attempts| - 1].failed ==> rounds == MAX_ATTEMPTS - old(routeFailureCount)
      ensures reply.Raised? && reply.problem in {RefreshFailed, ContextFailed, UnknownProvider} ==>
                && routeFailureCount == old(routeFailureCount) + rounds < MAX_ATTEMPTS
                && forall k :: 0 <= k < |attempts| ==> attempts[k].failed
      ensures reply.Raised? && reply.problem in {NotRunning, ThresholdReached} ==>
                routeFailureCount == old(routeFailureCount)
      // only the named calls raise, and they do
      ensures reply == Raised(NotRunning) <==> snapshots != [] && (!running || providerChain == [])
      ensures reply == Raised(ThresholdReached) ==> old(routeFailureCount) == MAX_ATTEMPTS
      ensures reply == Raised(InputsFailed) ==> !storesInputs
      ensures reply == Raised(RefreshFailed) ==> rounds > 0 && refresh(routeFailureCount).None?
      ensures reply == Raised(ContextFailed) ==> context(routeFailureCount)
      ensures forall n :: old(routeFailureCount) <= n < old(routeFailureCount) + rounds ==> !context(n)
      ensures reply == Raised(UnknownProvider) ==> exists name :: name in providerChain && !known(name)
    {
      attempts, rounds := [], 0;
      hide Keys, Told, Truthful, AllFailed;
      if snapshots == [] {
        return Decided([]), attempts, rounds;
      }
      if !running || providerChain == [] {
        NothingTold(audit, |snapshots|, faults, NotRunning);
        return Raised(NotRunning), attempts, rounds;
      }
      if routeFailureCount >= MAX_ATTEMPTS {
        NothingTold(audit, |snapshots|, faults, ThresholdReached);
        return Raised(ThresholdReached), attempts, rounds;
      }
      var winner, failedBatches, end, made := RunRounds(snapshots, now, ask, refresh, clock, context, known);
      rounds := made;
      attempts := if winner.Some? then failedBatches + [winner.value] else failedBatches;
      AttemptsAreTruthful(attempts, failedBatches, winner, snapshots, ask, providerChain);
      if end == Finished {
        KeepsCount(attempts[|attempts| - 1].snapshots, snapshots);
      }
      reply := Conclude(winner, failedBatches, end, storesInputs, faults, attempts, |snapshots|);
    }

    /** What is stored and answered after the rounds. */
    method Conclude(winner: Option<Attempt>, failedBatches: seq<Attempt>, end: RoundsEnd, storesInputs: bool,
                    faults: nat -> Fault, ghost attempts: seq<Attempt>, ghost m: nat) returns (reply: Reply)
      requires attempts == if winner.Some? then failedBatches + [winner.value] else failedBatches
      requires end == Finished ==> attempts != [] && |attempts[|attempts| - 1].snapshots| == m > 0
      requires end != Finished ==> winner.None?
      modifies this`audit
      ensures Told(old(audit), audit, attempts, m, faults, reply)
      ensures match end
              case ContextRaised => reply == Raised(ContextFailed)
              case ProviderRaised => reply == Raised(UnknownProvider)
              case RefreshRaised => reply == Raised(RefreshFailed)
              case Finished => reply == Raised(InputsFailed) || reply == Raised(EvaluationFailed)
                               || (reply.Decided? && |reply.decisions| == m)
      ensures reply == Raised(InputsFailed) ==> !storesInputs
    {
      hide RecordsOf, AuditOf, Recorded;
      match end {
        case ContextRaised =>
          return Raised(ContextFailed);
        case ProviderRaised =>
          return Raised(UnknownProvider);
        case RefreshRaised =>
          RecordAll(failedBatches);
          return Raised(RefreshFailed);
        case Finished =>
          reply := RecordOutcome(winner, failedBatches, storesInputs, faults, attempts);
      }
    }

    /** Stores the failed batches, then the replay inputs, and then evaluates the decisive batch, which
        is the last failed one when no route succeeded. */
    method RecordOutcome(winner: Option<Attempt>, failedBatches: seq<Attempt>, storesInputs: bool,
                         faults: nat -> Fault, ghost attempts: seq<Attempt>) returns (reply: Reply)
      requires winner.None? ==> failedBatches != []
      requires attempts == if winner.Some? then failedBatches + [winner.value] else failedBatches
      modifies this`audit
      ensures Told(old(audit), audit, attempts, |attempts[|attempts| - 1].snapshots|, faults, reply)
      ensures if storesInputs then reply.Decided? || reply == Raised(EvaluationFailed) else reply == Raised(InputsFailed)
    {
      hide RecordsOf, Recorded, DecisionsOf;
      var last := if winner.Some? then |failedBatches| else |failedBatches| - 1;
      var decisive := if winner.Some? then winner.value else failedBatches[last];
      RecordAll(failedBatches[..last]);
      assert attempts[..last] == failedBatches[..last] && attempts[last] == decisive;
      if !storesInputs {
        return Raised(InputsFailed);
      }
      reply := RecordResults(last, decisive, faults);
      RecordedAllIff(|decisive.snapshots|, faults);
      AuditIsCompleteIff(attempts, Recorded(|decisive.snapshots|, faults));
      Cancel(old(audit), AuditOf(attempts, Recorded(|decisive.snapshots|, faults)), RecordsOf(attempts));
    }

    /** The retry loop: rounds over the routes until one answers, the rounds run out, or the inputs
        of the next round cannot be renewed. */
    method RunRounds(snapshots: seq<Snapshot>, now: Time,
                     ask: (nat, Provider, seq<Snapshot>) -> Option<seq<Key>>,
                     refresh: nat -> Option<nat>, clock: nat -> Time, context: nat -> bool,
                     known: Provider -> bool)
      returns (winner: Option<Attempt>, failedBatches: seq<Attempt>, end: RoundsEnd, ghost rounds: nat)
      requires routeFailureCount < MAX_ATTEMPTS && providerChain != []
      modifies this`routeFailureCount, this`routeStates, this`activeProvider
      ensures AllFailed(failedBatches, Keys(snapshots), ask, providerChain)
      ensures winner.Some? ==> Truthful(|failedBatches|, winner.value, ask) && winner.value.provider in providerChain
      ensures rounds > 0 ==> failedBatches != [] || winner.Some?
      ensures forall n :: old(routeFailureCount) <= n < old(routeFailureCount) + rounds ==> !context(n)
      ensures end == RefreshRaised ==> rounds > 0 && refresh(routeFailureCount).None?
      ensures end == ProviderRaised ==> winner.None? && exists name :: name in providerChain && !known(name)
      ensures rounds <= MAX_ATTEMPTS - old(routeFailureCount)
      ensures winner.Some? ==>
                && end == Finished && !winner.value.failed && Keys(winner.value.snapshots) == Keys(snapshots)
                && routeFailureCount == 0 && activeProvider == Some(winner.value.provider)
      ensures winner.None? ==> routeFailureCount == old(routeFailureCount) + rounds
      ensures winner.None? && end == Finished ==>
                failedBatches != [] && activeProvider == None && routeFailureCount == MAX_ATTEMPTS
      ensures end != Finished ==> routeFailureCount < MAX_ATTEMPTS
      ensures end == ContextRaised ==> context(routeFailureCount)
    {
      hide Cooling, Recovers, AllFailed, Truthful, Keys, Refreshed;
      NoneFailed(Keys(snapshots), ask, providerChain);
      winner, failedBatches, rounds := None, [], 0;
      var candidates := Candidates(now);
      var current := snapshots;
      var refreshInputs := false;
      while routeFailureCount < MAX_ATTEMPTS
        invariant winner.None? && routeFailureCount == old(routeFailureCount) + rounds <= MAX_ATTEMPTS
        invariant refreshInputs ==> rounds > 0
        invariant Keys(current) == Keys(snapshots)
        invariant AllFailed(failedBatches, Keys(snapshots), ask, providerChain)
        invariant forall n :: old(routeFailureCount) <= n < routeFailureCount ==> !context(n)
        invariant forall name :: name in candidates ==> name in providerChain
        invariant rounds > 0 ==> failedBatches != [] && activeProvider == None
        invariant forall name :: name in providerChain ==> name in routeStates
        decreases MAX_ATTEMPTS - routeFailureCount
      {
        var attemptNumber := routeFailureCount + 1;
        if refreshInputs {
          var version := refresh(routeFailureCount);
          if version.None? {
            end := RefreshRaised;
            return;
          }
          current := Refreshed(snapshots, version.value);
          refreshInputs := false;
        }
        if context(routeFailureCount) {
          end := ContextRaised;
          return;
        }
        var round := if attemptNumber == 1 then candidates else providerChain;
        ghost var before := failedBatches;
        var unknown;
        winner, failedBatches, unknown := TryRoutes(round, current, failedBatches, ask, clock, known);
        MoreFailed(before, failedBatches, round, current, ask, providerChain);
        if unknown {
          end := ProviderRaised;
          return;
        }
        rounds := rounds + 1;
        if winner.Some? {
          end := Finished;
          return;
        }
        activeProvider := None;
        routeFailureCount := routeFailureCount + 1;
        if routeFailureCount < MAX_ATTEMPTS {
          refreshInputs := true;
        }
      }
      end := Finished;
    }

    /** One round over the routes: stops at the first valid answer. */
    method TryRoutes(round: seq<Provider>, current: seq<Snapshot>, before: seq<Attempt>,
                     ask: (nat, Provider, seq<Snapshot>) -> Option<seq<Key>>, clock: nat -> Time,
                     known: Provider -> bool)
      returns (winner: Option<Attempt>, failedBatches: seq<Attempt>, unknown: bool)
      requires forall name :: name in round ==> name in routeStates
      modifies this`routeFailureCount, this`routeStates, this`activeProvider
      ensures before <= failedBatches && |failedBatches| <= |before| + |round|
      ensures winner.Some? ==> Truthful(|failedBatches|, winner.value, ask) && winner.value.provider in round
      ensures forall k :: |before| <= k < |failedBatches| ==>
                failedBatches[k] == Attempt(round[k - |before|], current, true) && Truthful(k, failedBatches[k], ask)
      ensures unknown ==> winner.None? && exists name :: name in round && !known(name)
      ensures winner.None? ==> routeFailureCount == old(routeFailureCount) && activeProvider == old(activeProvider)
      ensures winner.None? && !unknown ==> |failedBatches| == |before| + |round|
      ensures winner.Some? ==>
                && winner.value.snapshots == current && !winner.value.failed
                && routeFailureCount == 0 && activeProvider == Some(winner.value.provider)
      ensures routeStates.Keys == old(routeStates.Keys)
    {
      winner, failedBatches, unknown := None, before, false;
      var position := 0;
      while position < |round|
        invariant 0 <= position <= |round| && |failedBatches| == |before| + position
        invariant before <= failedBatches
        invariant forall k :: |before| <= k < |failedBatches| ==>
                    failedBatches[k] == Attempt(round[k - |before|], current, true) && Truthful(k, failedBatches[k], ask)
        invariant routeFailureCount == old(routeFailureCount) && activeProvider == old(activeProvider)
        invariant routeStates.Keys == old(routeStates.Keys)
      {
        var name := round[position];
        if !known(name) {
          unknown := true;
          return;
        }
        var answer := ask(|failedBatches|, name, current);
        if answer == Some(Keys(current)) {
          routeStates := routeStates[name := RouteState(0, None)];
          activeProvider := Some(name);
          routeFailureCount := 0;
          winner := Some(Attempt(name, current, false));
          return;
        }
        var failures := routeStates[name].consecutiveFailures + 1;
        routeStates := routeStates[name := RouteState(failures, Some(clock(|failedBatches|) + FAILURE_COOLDOWN))];
        failedBatches := failedBatches + [Attempt(name, current, true)];
        position := position + 1;
      }
    }

    /** Stores the records of the failed batches one by one. */
    method RecordAll(batches: seq<Attempt>)
      modifies this`audit
      ensures audit == old(audit) + RecordsOf(batches)
    {
      var k := 0;
      while k < |batches|
        invariant 0 <= k <= |batches|
        invariant audit == old(audit) + RecordsOf(batches[..k])
      {
        assert batches[..k + 1] == batches[..k] + [batches[k]];
        RecordsAppend(batches[..k], batches[k]);
        RecordBatch(k, batches[k]);
        k := k + 1;
      }
      assert batches[..|batches|] == batches;
    }

    method RecordBatch(number: nat, batch: Attempt)
      modifies this`audit
      ensures audit == old(audit) + BatchRecords(number, batch)
    {
      var i := 0;
      while i < |batch.snapshots|
        invariant 0 <= i <= |batch.snapshots|
        invariant audit == old(audit) + BatchRecords(number, batch)[..i]
      {
        audit := audit + [Inference(number, batch.provider, batch.snapshots[i].key, batch.failed)];
        i := i + 1;
      }
      assert BatchRecords(number, batch)[..i] == BatchRecords(number, batch);
    }

    /** Stores the inference of each result and evaluates it before storing the next. */
    method RecordResults(number: nat, batch: Attempt, faults: nat -> Fault) returns (reply: Reply)
      modifies this`audit
      ensures audit == old(audit) + BatchRecords(number, batch)[..Recorded(|batch.snapshots|, faults)]
      ensures reply == if forall i :: 0 <= i < |batch.snapshots| ==> faults(i).Clean? then Decided(DecisionsOf(batch))
                       else Raised(EvaluationFailed)
    {
      var m := |batch.snapshots|;
      ghost var records, all := BatchRecords(number, batch), DecisionsOf(batch);
      hide BatchRecords, DecisionsOf, RecordedFrom;
      var decisions := [];
      var i := 0;
      while i < m
        invariant 0 <= i <= m
        invariant audit == old(audit) + records[..i]
        invariant decisions == all[..i]
        invariant forall j :: 0 <= j < i ==> faults(j).Clean?
        invariant Recorded(m, faults) == RecordedFrom(i, m, faults)
      {
        RecordedStep(i, m, faults);
        ResultAt(number, batch, i);
        OneMore(old(audit), records, i);
        OneMore([], all, i);
        if faults(i).BeforeRecord? {
          return Raised(EvaluationFailed);
        }
        var key := batch.snapshots[i].key;
        audit := audit + [Inference(number, batch.provider, key, batch.failed)];
        if faults(i).AfterRecord? {
          return Raised(EvaluationFailed);
        }
        decisions := decisions + [Decision(key, batch.provider, batch.failed)];
        i := i + 1;
      }
      assert all[..m] == all;
      reply := Decided(decisions);
    }
  }

  /** The results of a batch were reached, and evaluated as far as they go. */
  predicate ReachedResults(reply: Reply, snapshots: seq<Snapshot>) {
    snapshots != [] && (reply.Decided? || reply.problem == EvaluationFailed)
  }

  lemma KeepsCount(a: seq<Snapshot>, b: seq<Snapshot>)
    requires Keys(a) == Keys(b)
    ensures |a| == |b|
  {
    assert |Keys(a)| == |a| && |Keys(b)| == |b|;
  }

  predicate Cooling(state: RouteState, now: Time) {
    state.cooldownUntil.Some? && state.cooldownUntil.value > now
  }

  /** When a route may be tried again; no cooldown sorts before every instant of this model. */
  function Recovers(state: RouteState): Time {
    if state.cooldownUntil.Some? then state.cooldownUntil.value else 0
  }
}
