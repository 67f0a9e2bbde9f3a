/** Two live batches after which the audit is not complete (the exact content in every case is
    DecisionRoute.Told). */
module LostRecords {
  import opened Market
  import opened DecisionRoute

  const ADA: Snapshot := Snapshot(Key("ADA", "15m"), 0)
  const BTC: Snapshot := Snapshot(Key("BTC", "15m"), 0)

  method RunningEngine() returns (engine: TradingEngine)
    ensures fresh(engine) && engine.running && engine.providerChain == ["codex"]
    ensures engine.routeFailureCount == 0 && engine.audit == []
  {
    engine := new TradingEngine(["codex"]);
    engine.running := true;
  }

  /** The provider answers for two symbols; executing the first decision raises, as a failing emergency
      flattening does, and the second is never recorded. */
  method FaultLosesRecord() returns (reply: Reply, audit: seq<Inference>, ghost attempts: seq<Attempt>)
    ensures |attempts| == 1 && !attempts[0].failed && |attempts[0].snapshots| == 2
    ensures reply == Raised(EvaluationFailed)
    ensures audit == [Inference(0, "codex", ADA.key, false)] && audit != RecordsOf(attempts)
  {
    var engine := RunningEngine();
    var answers := (n: nat, name: Provider, current: seq<Snapshot>) => Some(Keys(current));
    var faults: nat -> Fault := (i: nat) => if i == 0 then AfterRecord else Clean;
    var snapshots := [ADA, BTC];
    ghost var rounds;
    reply, attempts, rounds := engine.EvaluateBatch(snapshots, 0, answers, n => None, n => 0, n => false, name => true,
                                                    true, faults);
    audit := engine.audit;
    assert Recorded(2, faults) == 1;
    assert !AllRecorded(2, faults) by { assert !faults(0).Clean?; }
    assert Truthful(0, attempts[0], answers);
    assert |attempts| == 1;
    KeepsCount(attempts[0].snapshots, snapshots);
    assert Keys(attempts[0].snapshots)[0] == Keys(snapshots)[0];
    assert attempts[..0] == [] && RecordsOf([]) == [];
    assert BatchRecords(0, attempts[0])[..1] == [Inference(0, "codex", ADA.key, false)];
  }

  /** The provider fails in the first round, and completing the portfolio raises before the second:
      the failed batch is in no record. */
  method ContextLosesFailedBatch() returns (reply: Reply, audit: seq<Inference>, ghost attempts: seq<Attempt>)
    ensures attempts != [] && attempts[0].failed && |attempts[0].snapshots| == 2
    ensures reply == Raised(ContextFailed) && audit == []
  {
    var engine := RunningEngine();
    var snapshots := [ADA, BTC];
    var answers := (n: nat, name: Provider, current: seq<Snapshot>) => None;
    var context: nat -> bool := (n: nat) => n == 1;
    ghost var rounds;
    reply, attempts, rounds := engine.EvaluateBatch(snapshots, 0, answers, n => Some(n), n => 0, context, name => true,
                                                    true, i => Clean);
    audit := engine.audit;
    assert context(1);
    assert attempts != [] ==> Truthful(|attempts| - 1, attempts[|attempts| - 1], answers);
    if attempts != [] {
      KeepsCount(attempts[0].snapshots, snapshots);
    }
  }
}
