/** The live engine's order gate under interleaving. Decision tasks and pending-entry tasks advance
    from one await to the next in any order, mixed with starts, stops, automatic stops and emergency
    stops; risk evaluations, modes and timing are arbitrary. */
module OrderGate {
  import opened Market

  datatype Decision = Decision(accepted: bool, pending: bool, shadow: bool)
  datatype Evaluation = Evaluation(decision: Decision, hasOrder: bool)

  /** A task between two awaits. The first three belong to a fresh decision, the others to the
      processing of a stored pending entry under its symbol's lock. */
  datatype Task =
    | Inferred(id: nat, hold: bool, shadowMode: bool)        // inference recorded
    | Assessed(id: nat, shadowMode: bool, eval: Evaluation)  // risk evaluated, re-entry looked up
    | Recorded(id: nat, eval: Evaluation)                    // risk decision stored
    | Loaded(id: nat, prior: Decision)                       // pending entry read
    | Renewing(id: nat, prior: Decision)                     // fresh market and portfolio awaited
    | Settled(id: nat, eval: Evaluation)                     // outcome of the entry stored

  /** A broker call, with the state and the decision it was made in. */
  datatype Call = Call(id: nat, running: bool, locked: bool, stopping: bool, decision: Decision)

  datatype Engine = Engine(
    running: bool,
    locked: bool,                 // emergency_locked
    stopping: bool,               // auto_stop_reason is set
    nextId: nat,                  // inference ids handed out so far
    stored: map<nat, Decision>,   // the risk table
    tasks: map<nat, Task>,
    calls: seq<Call>)

  const INIT: Engine := Engine(false, false, false, 0, map[], map[], [])

  predicate Blocked(s: Engine) {
    s.locked || s.stopping || !s.running
  }

  predicate HasAcceptedOrder(e: Evaluation) {
    e.hasOrder && e.decision.accepted
  }

  /** The final gate every live path applies. */
  predicate Eligible(e: Evaluation) {
    HasAcceptedOrder(e) && !e.decision.pending && !e.decision.shadow
  }

  predicate OnEntry(t: Task) {
    t.Loaded? || t.Renewing? || t.Settled?
  }

  /** One atomic step; `verdict` is whatever the risk policy answers. */
  datatype Action =
    | StartBegins
    | StartEnds
    | Stop
    | AutoStop
    | EmergencyStop
    | Unlock
    | CancelEntry(id: nat)
    | Infer(task: nat, hold: bool, shadowMode: bool)
    | Assess(task: nat, verdict: Evaluation)
    | Record(task: nat)
    | Load(task: nat, id: nat)
    | Check(task: nat, expired: bool)
    | Reassess(task: nat, verdict: Evaluation)
    | Submit(task: nat)

  function Finish(s: Engine, task: nat): Engine {
    s.(tasks := s.tasks - {task})
  }

  function Store(s: Engine, id: nat, d: Decision): Engine {
    s.(stored := s.stored[id := d])
  }

  /** `_execute_order`: the gate is checked in the same step that calls the broker. */
  function ExecuteOrder(s: Engine, id: nat, e: Evaluation): Engine {
    if Blocked(s) then s
    else s.(calls := s.calls + [Call(id, s.running, s.locked, s.stopping, e.decision)])
  }

  const REJECTED: Decision := Decision(false, false, false)

  function Cancelled(d: Decision): Decision {
    d.(accepted := false, pending := false)
  }

  /** The symbol lock: no other task is processing an entry of the same symbol. */
  predicate LockFree(s: Engine, symbolOf: nat -> Symbol, id: nat) {
    forall t :: t in s.tasks && OnEntry(s.tasks[t]) ==> symbolOf(s.tasks[t].id) != symbolOf(id)
  }

  predicate Enabled(s: Engine, a: Action, symbolOf: nat -> Symbol) {
    match a
    case StartBegins => !s.running && !s.locked
    case StartEnds => true
    case Stop => true
    case AutoStop => true
    case EmergencyStop => true
    case Unlock => true
    case CancelEntry(id) => id in s.stored
    case Infer(task, _, _) => task !in s.tasks
    case Assess(task, _) => task in s.tasks && s.tasks[task].Inferred?
    case Record(task) => task in s.tasks && s.tasks[task].Assessed?
    case Load(task, id) =>
      task !in s.tasks && id in s.stored && s.stored[id].pending && LockFree(s, symbolOf, id)
    case Check(task, _) => task in s.tasks && s.tasks[task].Loaded?
    case Reassess(task, _) => task in s.tasks && s.tasks[task].Renewing?
    case Submit(task) => task in s.tasks && (s.tasks[task].Recorded? || s.tasks[task].Settled?)
  }

  /** What is stored for an assessed decision: rejected if the gate has closed, marked shadow-only in
      shadow mode. */
  function Final(s: Engine, t: Task): Evaluation
    requires t.Assessed?
  {
    var gated := if HasAcceptedOrder(t.eval) && Blocked(s) then Evaluation(REJECTED, false) else t.eval;
    if t.shadowMode then gated.(decision := gated.decision.(shadow := true)) else gated
  }

  function RecordStep(s: Engine, task: nat): Engine
    requires task in s.tasks && s.tasks[task].Assessed?
  {
    var t := s.tasks[task];
    Store(s, t.id, Final(s, t).decision).(tasks := s.tasks[task := Recorded(t.id, Final(s, t))])
  }

  /** The renewed evaluation of a stored entry keeps the entry's shadow mark. */
  function Renewed(prior: Decision, verdict: Evaluation): Evaluation {
    verdict.(decision := verdict.decision.(shadow := prior.shadow))
  }

  function ReassessStep(s: Engine, task: nat, verdict: Evaluation): Engine
    requires task in s.tasks && s.tasks[task].Renewing?
  {
    var t := s.tasks[task];
    var eval := Renewed(t.prior, verdict);
    var kept := Store(s, t.id, eval.decision);
    if eval.decision.pending then Finish(kept, task)
    else kept.(tasks := s.tasks[task := Settled(t.id, eval)])
  }

  function Apply(s: Engine, a: Action, symbolOf: nat -> Symbol): Engine
    requires Enabled(s, a, symbolOf)
  {
    match a
    case StartBegins => s
    case StartEnds => s.(running := true, stopping := false)
    case Stop => s.(running := false)
    case AutoStop => s.(stopping := true)
    case EmergencyStop => s.(running := false, locked := true)
    case Unlock => s.(locked := false)
    case CancelEntry(id) => Store(s, id, Cancelled(s.stored[id]))
    case Infer(task, hold, shadowMode) =>
      s.(nextId := s.nextId + 1, tasks := s.tasks[task := Inferred(s.nextId, hold, shadowMode)])
    case Assess(task, verdict) =>
      var t := s.tasks[task];
      if !t.hold && Blocked(s) then Finish(Store(s, t.id, REJECTED), task)
      else s.(tasks := s.tasks[task := Assessed(t.id, t.shadowMode, verdict)])
    case Record(task) => RecordStep(s, task)
    case Load(task, id) => s.(tasks := s.tasks[task := Loaded(id, s.stored[id])])
    case Check(task, expired) =>
      var t := s.tasks[task];
      if Blocked(s) || expired then Finish(Store(s, t.id, Cancelled(t.prior)), task)
      else s.(tasks := s.tasks[task := Renewing(t.id, t.prior)])
    case Reassess(task, verdict) => ReassessStep(s, task, verdict)
    case Submit(task) =>
      var t := s.tasks[task];
      var done := Finish(s, task);
      if !Eligible(t.eval) then done
      else if t.Settled? && Blocked(s) then Store(done, t.id, t.eval.decision.(accepted := false))
      else ExecuteOrder(done, t.id, t.eval)
  }

  // ----- the invariant

  /** The call was made in an open state, with a decision that was accepted and neither pending nor
      shadow-only. */
  predicate OpenCall(c: Call) {
    c.running && !c.locked && !c.stopping && c.decision.accepted && !c.decision.pending && !c.decision.shadow
  }

  /** Tasks that may still submit their inference, or hold its entry's lock. */
  predicate Submitter(t: Task) {
    t.Inferred? || t.Assessed? || OnEntry(t) || (t.Recorded? && Eligible(t.eval))
  }

  predicate TaskSound(s: Engine, t: Task) {
    && t.id < s.nextId
    && ((t.Inferred? || t.Assessed?) <==> t.id !in s.stored)
    // what the task carries and what is stored agree on the shadow mark
    && (t.Recorded? || t.Settled? ==> t.eval.decision.shadow == s.stored[t.id].shadow)
    && (t.Loaded? || t.Renewing? ==> t.prior.shadow == s.stored[t.id].shadow)
    // an inference that may be submitted is not pending in the table
    && ((t.Recorded? || t.Settled?) && Eligible(t.eval) ==> !s.stored[t.id].pending)
  }

  /** The inference of a call is stored, neither shadow-only nor pending. */
  predicate CallSound(s: Engine, c: Call) {
    OpenCall(c) && c.id in s.stored && !s.stored[c.id].shadow && !s.stored[c.id].pending
  }

  ghost predicate Inv(s: Engine) {
    && (forall id :: id in s.stored ==> id < s.nextId)
    && (forall t :: t in s.tasks ==> TaskSound(s, s.tasks[t]))
    && OneSubmitter(s)
    && (forall i :: 0 <= i < |s.calls| ==> CallSound(s, s.calls[i]))
    && (forall i, t :: 0 <= i < |s.calls| && t in s.tasks && s.tasks[t].id == s.calls[i].id ==> !Submitter(s.tasks[t]))
    && (forall i, j :: 0 <= i < j < |s.calls| ==> s.calls[i].id != s.calls[j].id)
  }

  ghost predicate OneSubmitter(s: Engine) {
    forall t, u :: t in s.tasks && u in s.tasks && t != u && s.tasks[t].id == s.tasks[u].id ==>
      !(Submitter(s.tasks[t]) && Submitter(s.tasks[u]))
  }

  lemma FinishKeepsInv(s: Engine, task: nat)
    requires Inv(s)
    ensures Inv(Finish(s, task))
  {
  }

  /** No other task on the inference can submit. */
  predicate Alone(s: Engine, id: nat) {
    forall t :: t in s.tasks && s.tasks[t].id == id ==> !Submitter(s.tasks[t])
  }

  predicate Uncalled(s: Engine, id: nat) {
    forall i :: 0 <= i < |s.calls| ==> s.calls[i].id != id
  }

  lemma OwnerIsAlone(s: Engine, task: nat)
    requires Inv(s) && task in s.tasks && Submitter(s.tasks[task])
    ensures Alone(Finish(s, task), s.tasks[task].id) && Uncalled(s, s.tasks[task].id)
  {
  }

  /** The first risk decision of an inference. */
  lemma StoreNewKeepsInv(s: Engine, id: nat, d: Decision)
    requires Inv(s) && id < s.nextId && id !in s.stored && Alone(s, id)
    ensures Inv(Store(s, id, d))
  {
    var r := Store(s, id, d);
    forall t | t in r.tasks ensures TaskSound(r, r.tasks[t]) {
      assert TaskSound(s, s.tasks[t]);
    }
  }

  /** A later decision keeps the shadow mark; it becomes pending only while nobody may submit. */
  lemma StoreAgainKeepsInv(s: Engine, id: nat, d: Decision)
    requires Inv(s) && id in s.stored && d.shadow == s.stored[id].shadow
    requires d.pending ==> Alone(s, id) && Uncalled(s, id)
    ensures Inv(Store(s, id, d))
  {
    var r := Store(s, id, d);
    forall t | t in r.tasks ensures TaskSound(r, r.tasks[t]) {
      assert TaskSound(s, s.tasks[t]);
    }
  }

  lemma AddTaskKeepsInv(s: Engine, task: nat, t: Task)
    requires Inv(s) && task !in s.tasks && TaskSound(s, t)
    requires Submitter(t) ==> Alone(s, t.id) && Uncalled(s, t.id)
    ensures Inv(s.(tasks := s.tasks[task := t]))
  {
    var r := s.(tasks := s.tasks[task := t]);
    forall u | u in r.tasks ensures TaskSound(r, r.tasks[u]) {
    }
  }

  lemma ExecuteKeepsInv(s: Engine, id: nat, e: Evaluation)
    requires Inv(s) && Eligible(e) && Alone(s, id) && Uncalled(s, id)
    requires id in s.stored && !s.stored[id].shadow && !s.stored[id].pending
    ensures Inv(ExecuteOrder(s, id, e))
  {
  }

  /** Putting a task back in another state: it is taken out, something may be stored, it returns. */
  lemma AdvanceKeepsInv(s: Engine, task: nat, t: Task)
    requires Inv(s) && task in s.tasks && Submitter(s.tasks[task]) && t.id == s.tasks[task].id && TaskSound(s, t)
    ensures Inv(s.(tasks := s.tasks[task := t]))
  {
    FinishKeepsInv(s, task);
    OwnerIsAlone(s, task);
    AddTaskKeepsInv(Finish(s, task), task, t);
    assert Finish(s, task).(tasks := Finish(s, task).tasks[task := t]) == s.(tasks := s.tasks[task := t]);
  }

  /** Every step keeps the invariant. */
  lemma StepKeepsInv(s: Engine, a: Action, symbolOf: nat -> Symbol)
    requires Inv(s) && Enabled(s, a, symbolOf)
    ensures Inv(Apply(s, a, symbolOf))
  {
    hide Inv, TaskSound;
    match a {
      case CancelEntry(id) =>
        StoreAgainKeepsInv(s, id, Cancelled(s.stored[id]));
      case Infer(task, hold, shadowMode) =>
        InferKeepsInv(s, task, hold, shadowMode);
      case Assess(task, verdict) =>
        AssessKeepsInv(s, task, verdict, symbolOf);
      case Record(task) =>
        RecordKeepsInv(s, task, symbolOf);
      case Load(task, id) =>
        LoadKeepsInv(s, task, id, symbolOf);
      case Check(task, expired) =>
        CheckKeepsInv(s, task, expired, symbolOf);
      case Reassess(task, verdict) =>
        ReassessKeepsInv(s, task, verdict, symbolOf);
      case Submit(task) =>
        SubmitKeepsInv(s, task, symbolOf);
      case _ =>
        SwitchesKeepInv(s, Apply(s, a, symbolOf));
    }
  }

  lemma SwitchesKeepInv(s: Engine, r: Engine)
    requires Inv(s) && r == s.(running := r.running, locked := r.locked, stopping := r.stopping)
    ensures Inv(r)
  {
    forall t | t in r.tasks ensures TaskSound(r, r.tasks[t]) {
      assert TaskSound(s, s.tasks[t]);
    }
    forall i | 0 <= i < |r.calls| ensures CallSound(r, r.calls[i]) {
      assert CallSound(s, s.calls[i]);
    }
  }

  lemma InferKeepsInv(s: Engine, task: nat, hold: bool, shadowMode: bool)
    requires Inv(s) && task !in s.tasks
    ensures Inv(s.(nextId := s.nextId + 1, tasks := s.tasks[task := Inferred(s.nextId, hold, shadowMode)]))
  {
    var wider := s.(nextId := s.nextId + 1);
    forall t | t in s.tasks ensures TaskSound(wider, s.tasks[t]) && s.tasks[t].id != s.nextId {
      assert TaskSound(s, s.tasks[t]);
    }
    forall i | 0 <= i < |s.calls| ensures CallSound(wider, s.calls[i]) && s.calls[i].id != s.nextId {
      assert CallSound(s, s.calls[i]);
    }
    assert Inv(wider);
    AddTaskKeepsInv(wider, task, Inferred(s.nextId, hold, shadowMode));
  }

  lemma AssessKeepsInv(s: Engine, task: nat, verdict: Evaluation, symbolOf: nat -> Symbol)
    requires Inv(s) && task in s.tasks && s.tasks[task].Inferred?
    ensures Inv(Apply(s, Assess(task, verdict), symbolOf))
  {
    var t := s.tasks[task];
    assert TaskSound(s, t);
    if !t.hold && Blocked(s) {
      FinishKeepsInv(s, task);
      OwnerIsAlone(s, task);
      StoreNewKeepsInv(Finish(s, task), t.id, REJECTED);
    } else {
      AdvanceKeepsInv(s, task, Assessed(t.id, t.shadowMode, verdict));
    }
  }

  lemma RecordKeepsInv(s: Engine, task: nat, symbolOf: nat -> Symbol)
    requires Inv(s) && task in s.tasks && s.tasks[task].Assessed?
    ensures Inv(Apply(s, Record(task), symbolOf))
  {
    assert Apply(s, Record(task), symbolOf) == RecordStep(s, task);
    hide Apply;
    var t := s.tasks[task];
    var final := Final(s, t);
    assert TaskSound(s, t);
    FinishKeepsInv(s, task);
    OwnerIsAlone(s, task);
    var done := Finish(s, task);
    var kept := Store(done, t.id, final.decision);
    hide Inv, Final;
    StoreNewKeepsInv(done, t.id, final.decision);
    AddTaskKeepsInv(kept, task, Recorded(t.id, final));
    PutBack(s.tasks, task, Recorded(t.id, final));
  }

  /** Ending a task and starting another under its number is replacing it. */
  lemma PutBack(tasks: map<nat, Task>, task: nat, t: Task)
    ensures (tasks - {task})[task := t] == tasks[task := t]
  {
  }

  lemma LoadKeepsInv(s: Engine, task: nat, id: nat, symbolOf: nat -> Symbol)
    requires Inv(s) && Enabled(s, Load(task, id), symbolOf)
    ensures Inv(Apply(s, Load(task, id), symbolOf))
  {
    forall t | t in s.tasks && s.tasks[t].id == id ensures !Submitter(s.tasks[t]) {
      assert TaskSound(s, s.tasks[t]);
    }
    forall i | 0 <= i < |s.calls| ensures s.calls[i].id != id {
      assert CallSound(s, s.calls[i]);
    }
    AddTaskKeepsInv(s, task, Loaded(id, s.stored[id]));
  }

  lemma CheckKeepsInv(s: Engine, task: nat, expired: bool, symbolOf: nat -> Symbol)
    requires Inv(s) && task in s.tasks && s.tasks[task].Loaded?
    ensures Inv(Apply(s, Check(task, expired), symbolOf))
  {
    var t := s.tasks[task];
    assert TaskSound(s, t);
    if Blocked(s) || expired {
      FinishKeepsInv(s, task);
      StoreAgainKeepsInv(Finish(s, task), t.id, Cancelled(t.prior));
    } else {
      AdvanceKeepsInv(s, task, Renewing(t.id, t.prior));
    }
  }

  lemma ReassessKeepsInv(s: Engine, task: nat, verdict: Evaluation, symbolOf: nat -> Symbol)
    requires Inv(s) && task in s.tasks && s.tasks[task].Renewing?
    ensures Inv(Apply(s, Reassess(task, verdict), symbolOf))
  {
    assert Apply(s, Reassess(task, verdict), symbolOf) == ReassessStep(s, task, verdict);
    hide Apply;
    var t := s.tasks[task];
    assert TaskSound(s, t);
    var eval := Renewed(t.prior, verdict);
    FinishKeepsInv(s, task);
    OwnerIsAlone(s, task);
    var done := Finish(s, task);
    var kept := Store(done, t.id, eval.decision);
    hide Inv;
    StoreAgainKeepsInv(done, t.id, eval.decision);
    if !eval.decision.pending {
      AddTaskKeepsInv(kept, task, Settled(t.id, eval));
      PutBack(s.tasks, task, Settled(t.id, eval));
    }
  }

  lemma SubmitKeepsInv(s: Engine, task: nat, symbolOf: nat -> Symbol)
    requires Inv(s) && task in s.tasks && (s.tasks[task].Recorded? || s.tasks[task].Settled?)
    ensures Inv(Apply(s, Submit(task), symbolOf))
  {
    var t := s.tasks[task];
    assert TaskSound(s, t);
    FinishKeepsInv(s, task);
    if Eligible(t.eval) {
      OwnerIsAlone(s, task);
      if t.Settled? && Blocked(s) {
        StoreAgainKeepsInv(Finish(s, task), t.id, t.eval.decision.(accepted := false));
      } else {
        ExecuteKeepsInv(Finish(s, task), t.id, t.eval);
      }
    }
  }

  // ----- whole runs

  /** A run that takes every listed step. */
  ghost predicate Runs(s: Engine, actions: seq<Action>, symbolOf: nat -> Symbol, end: Engine)
    decreases |actions|
  {
    if actions == [] then end == s
    else Enabled(s, actions[0], symbolOf) && Runs(Apply(s, actions[0], symbolOf), actions[1..], symbolOf, end)
  }

  lemma InitHasInv()
    ensures Inv(INIT)
  {
  }

  lemma {:induction false} RunKeepsInv(s: Engine, actions: seq<Action>, symbolOf: nat -> Symbol, end: Engine)
    requires Inv(s) && Runs(s, actions, symbolOf, end)
    ensures Inv(end)
    decreases |actions|
  {
    hide Inv;
    if actions != [] {
      StepKeepsInv(s, actions[0], symbolOf);
      RunKeepsInv(Apply(s, actions[0], symbolOf), actions[1..], symbolOf, end);
    }
  }

  /** The order gate, for every interleaving: each broker call was made while the engine was
      running, unlocked and not stopping, with a decision that was accepted, not pending and not
      shadow-only; and no inference is submitted twice. */
  lemma EveryCallPassedTheGate(actions: seq<Action>, symbolOf: nat -> Symbol, end: Engine)
    requires Runs(INIT, actions, symbolOf, end)
    ensures forall i :: 0 <= i < |end.calls| ==> OpenCall(end.calls[i])
    ensures forall i, j :: 0 <= i < j < |end.calls| ==> end.calls[i].id != end.calls[j].id
  {
    InitHasInv();
    RunKeepsInv(INIT, actions, symbolOf, end);
    forall i | 0 <= i < |end.calls| ensures OpenCall(end.calls[i]) {
      assert CallSound(end, end.calls[i]);
    }
  }

  lemma {:induction false} ShadowStaysStored(s: Engine, actions: seq<Action>, symbolOf: nat -> Symbol, end: Engine,
                                             id: nat)
    requires Inv(s) && Runs(s, actions, symbolOf, end) && id in s.stored
    ensures id in end.stored && end.stored[id].shadow == s.stored[id].shadow
    decreases |actions|
  {
    if actions != [] {
      StepKeepsShadow(s, actions[0], symbolOf, id);
      StepKeepsInv(s, actions[0], symbolOf);
      ShadowStaysStored(Apply(s, actions[0], symbolOf), actions[1..], symbolOf, end, id);
    }
  }

  lemma StepKeepsShadow(s: Engine, a: Action, symbolOf: nat -> Symbol, id: nat)
    requires Inv(s) && Enabled(s, a, symbolOf) && id in s.stored
    ensures var r := Apply(s, a, symbolOf);
            id in r.stored && r.stored[id].shadow == s.stored[id].shadow
  {
    match a {
      case Assess(task, _) => assert TaskSound(s, s.tasks[task]);
      case Record(task) => assert TaskSound(s, s.tasks[task]);
      case Check(task, _) => assert TaskSound(s, s.tasks[task]);
      case Reassess(task, _) => assert TaskSound(s, s.tasks[task]);
      case Submit(task) => assert TaskSound(s, s.tasks[task]);
      case _ =>
    }
  }

  /** Shadow-only is for ever: once an inference is stored as shadow-only, no continuation of the run
      ever submits it, whatever later risk evaluations return. */
  lemma ShadowIsNeverSubmitted(before: seq<Action>, mid: Engine, after: seq<Action>, symbolOf: nat -> Symbol,
                               end: Engine, id: nat)
    requires Runs(INIT, before, symbolOf, mid) && Runs(mid, after, symbolOf, end)
    requires id in mid.stored && mid.stored[id].shadow
    ensures id in end.stored && end.stored[id].shadow
    ensures forall i :: 0 <= i < |end.calls| ==> end.calls[i].id != id
  {
    InitHasInv();
    RunKeepsInv(INIT, before, symbolOf, mid);
    RunKeepsInv(mid, after, symbolOf, end);
    ShadowStaysStored(mid, after, symbolOf, end, id);
    forall i | 0 <= i < |end.calls| ensures end.calls[i].id != id {
      assert CallSound(end, end.calls[i]);
    }
  }

  /** After an emergency stop nothing is submitted until the lock is lifted, even if a start that was
      already under way completes. */
  lemma {:induction false} NothingAfterEmergencyStop(s: Engine, actions: seq<Action>, symbolOf: nat -> Symbol,
                                                     end: Engine)
    requires s.locked && Runs(s, actions, symbolOf, end)
    requires forall i :: 0 <= i < |actions| ==> !actions[i].Unlock?
    ensures end.locked && end.calls == s.calls
    decreases |actions|
  {
    if actions != [] {
      NothingAfterEmergencyStop(Apply(s, actions[0], symbolOf), actions[1..], symbolOf, end);
    }
  }
}
