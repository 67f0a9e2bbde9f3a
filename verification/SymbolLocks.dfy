/** The scheduler's symbol locks and the engine's provider-route lock. Any number of cycles, guard
    passes and single evaluations run concurrently; between two awaits a task performs one lock
    operation. The locks are asyncio's: a flag and a first-come first-served queue. */
module SymbolLocks {

  /** `rank` is the symbol's place in the sort order of symbol names. */
  datatype Lock = OfSymbol(rank: nat) | Route

  predicate Below(a: Lock, b: Lock) {
    a.OfSymbol? && (b.OfSymbol? ==> a.rank < b.rank)
  }

  /** `TryTake` is the guard's acquisition: a locked symbol is skipped with its release. */
  datatype Op = Take(lock: Lock) | TryTake(lock: Lock) | Drop(lock: Lock)

  datatype Task = Task(todo: seq<Op>, held: set<Lock>, waiting: bool)

  /** `line` holds the waiting tasks in order of arrival, whatever lock they wait for. */
  datatype System = System(tasks: seq<Task>, locked: set<Lock>, line: seq<nat>)

  // ---------------------------------------------------------------- what the tasks run

  datatype Program = Cycle(symbols: seq<nat>) | Guard(symbols: seq<nat>) | Single

  predicate Distinct(s: seq<nat>) {
    forall i, j :: 0 <= i < j < |s| ==> s[i] != s[j]
  }

  function FirstSeen(symbols: seq<nat>): (r: seq<nat>)
    ensures forall x :: x in r <==> x in symbols
    ensures Distinct(r)
  {
    if symbols == [] then []
    else
      var rest := FirstSeen(symbols[..|symbols| - 1]);
      var x := symbols[|symbols| - 1];
      if x in rest then rest else rest + [x]
  }

  predicate Increasing(s: seq<nat>) {
    forall i, j :: 0 <= i < j < |s| ==> s[i] < s[j]
  }

  function Insert(s: seq<nat>, x: nat): (r: seq<nat>)
    requires Increasing(s) && x !in s
    ensures Increasing(r)
    ensures forall y :: y in r <==> y == x || y in s
  {
    if s == [] || x < s[0] then [x] + s
    else
      var rest := Insert(s[1..], x);
      assert forall y :: y in rest ==> s[0] < y by {
        assert forall y :: y in s[1..] ==> s[0] < y;
      }
      assert forall j :: 0 <= j < |rest| ==> rest[j] in rest;
      [s[0]] + rest
  }

  function Sorted(s: seq<nat>): (r: seq<nat>)
    requires Distinct(s)
    ensures Increasing(r)
    ensures forall y :: y in r <==> y in s
  {
    if s == [] then []
    else
      assert forall y :: y in s <==> y == s[0] || y in s[1..];
      Insert(Sorted(s[1..]), s[0])
  }

  function Canonical(symbols: seq<nat>): (r: seq<nat>)
    ensures Increasing(r)
    ensures forall x :: x in r <==> x in symbols
  {
    Sorted(FirstSeen(symbols))
  }

  function Takes(symbols: seq<nat>): (r: seq<Op>) {
    if symbols == [] then [] else [Take(OfSymbol(symbols[0]))] + Takes(symbols[1..])
  }

  /** The exit stack lets go in reverse order. */
  function Drops(symbols: seq<nat>): (r: seq<Op>) {
    if symbols == [] then [] else Drops(symbols[1..]) + [Drop(OfSymbol(symbols[0]))]
  }

  const DECIDE: seq<Op> := [Take(Route), Drop(Route)]

  function GuardPass(symbols: seq<nat>): seq<Op> {
    if symbols == [] then []
    else [TryTake(OfSymbol(symbols[0])), Drop(OfSymbol(symbols[0]))] + GuardPass(symbols[1..])
  }

  function Script(p: Program): seq<Op> {
    match p
    case Cycle(symbols) => Takes(Canonical(symbols)) + DECIDE + Drops(Canonical(symbols))
    case Guard(symbols) => GuardPass(symbols)
    case Single => DECIDE
  }

  function Start(programs: seq<Program>): System {
    System(seq(|programs|, i requires 0 <= i < |programs| => Task(Script(programs[i]), {}, false)), {}, [])
  }

  // ---------------------------------------------------------------- the steps

  /** `Wake` names a place in the line; `Abandon` is an exception or a cancellation, which unwinds
      the task's locks and its place in the line. */
  datatype Action = Advance(task: nat) | Wake(place: nat) | Abandon(task: nat)

  predicate Unfinished(s: System, t: nat) {
    t < |s.tasks| && s.tasks[t].todo != []
  }

  predicate Awaits(s: System, t: nat, l: Lock) {
    Unfinished(s, t) && s.tasks[t].todo[0].lock == l
  }

  predicate Enabled(s: System, a: Action) {
    match a
    case Advance(t) => Unfinished(s, t) && !s.tasks[t].waiting
    case Wake(i) =>
      && i < |s.line|
      && Unfinished(s, s.line[i])
      && s.tasks[s.line[i]].todo[0].lock !in s.locked
      && forall j | 0 <= j < i :: !Awaits(s, s.line[j], s.tasks[s.line[i]].todo[0].lock)
    case Abandon(t) => Unfinished(s, t)
  }

  function Without(line: seq<nat>, t: nat): (r: seq<nat>)
    ensures forall u :: u in r <==> u in line && u != t
    ensures Distinct(line) ==> Distinct(r)
  {
    if line == [] then []
    else
      assert forall u :: u in line <==> u == line[0] || u in line[1..];
      var rest := Without(line[1..], t);
      assert forall j :: 0 <= j < |rest| ==> rest[j] in rest;
      if line[0] == t then rest
      else
        assert Distinct(line) ==> line[0] !in rest;
        [line[0]] + rest
  }

  function Put(s: System, t: nat, task: Task): System
    requires t < |s.tasks|
  {
    s.(tasks := s.tasks[t := task])
  }

  /** The lock is taken at once only when it is free and nobody queues for it. */
  function Acquire(s: System, t: nat, l: Lock): System
    requires Unfinished(s, t)
  {
    var task := s.tasks[t];
    if l in s.locked || exists i :: 0 <= i < |s.line| && Awaits(s, s.line[i], l) then
      Put(s, t, task.(waiting := true)).(line := s.line + [t])
    else
      Grant(s, t, l)
  }

  function Grant(s: System, t: nat, l: Lock): System
    requires Unfinished(s, t)
  {
    var task := s.tasks[t];
    Put(s, t, Task(task.todo[1..], task.held + {l}, false)).(locked := s.locked + {l})
  }

  function Next(s: System, a: Action): System
    requires Enabled(s, a)
  {
    match a
    case Advance(t) =>
      var task := s.tasks[t];
      (match task.todo[0]
       case Take(l) => Acquire(s, t, l)
       case TryTake(l) =>
         if l in s.locked && |task.todo| >= 2 then Put(s, t, task.(todo := task.todo[2..]))
         else Acquire(s, t, l)
       case Drop(l) =>
         Put(s, t, Task(task.todo[1..], task.held - {l}, false)).(locked := s.locked - {l}))
    case Wake(i) =>
      var t := s.line[i];
      Grant(s, t, s.tasks[t].todo[0].lock).(line := s.line[..i] + s.line[i + 1..])
    case Abandon(t) =>
      Put(s, t, Task([], {}, false)).(locked := s.locked - s.tasks[t].held, line := Without(s.line, t))
  }

  // ---------------------------------------------------------------- the discipline and the invariant

  /** Every lock is asked for above all locks held, released while held, and nothing is kept. */
  predicate Disciplined(todo: seq<Op>, held: set<Lock>)
    decreases |todo|
  {
    if todo == [] then held == {}
    else
      match todo[0]
      case Take(l) => (forall h :: h in held ==> Below(h, l)) && Disciplined(todo[1..], held + {l})
      case TryTake(l) =>
        && (forall h :: h in held ==> Below(h, l))
        && |todo| >= 2 && todo[1] == Drop(l)
        && Disciplined(todo[1..], held + {l})
      case Drop(l) => l in held && Disciplined(todo[1..], held - {l})
  }

  predicate TaskOk(task: Task) {
    && Disciplined(task.todo, task.held)
    && (task.waiting ==> task.todo != [] && !task.todo[0].Drop?)
  }

  predicate LineOk(s: System) {
    && Distinct(s.line)
    && (forall t :: t in s.line ==> t < |s.tasks|)
    && (forall t :: 0 <= t < |s.tasks| ==> (t in s.line <==> s.tasks[t].waiting))
  }

  predicate Holds(s: System, t: nat, l: Lock) {
    t < |s.tasks| && l in s.tasks[t].held
  }

  /** A lock's flag is up exactly when one task holds it, and two tasks never hold the same lock. */
  ghost predicate Exclusive(s: System) {
    && (forall t: nat, l :: Holds(s, t, l) ==> l in s.locked)
    && (forall l :: l in s.locked ==> exists t: nat :: Holds(s, t, l))
    && (forall t: nat, u: nat, l :: Holds(s, t, l) && Holds(s, u, l) ==> t == u)
  }

  ghost predicate Inv(s: System) {
    && (forall t :: 0 <= t < |s.tasks| ==> TaskOk(s.tasks[t]))
    && LineOk(s)
    && Exclusive(s)
  }

  // ---------------------------------------------------------------- every program is disciplined

  function Locks(symbols: seq<nat>): set<Lock> {
    set x | x in symbols :: OfSymbol(x)
  }

  /** Reverse-order releases of exactly the held symbols are disciplined. */
  lemma {:induction false} DropsAreDisciplined(symbols: seq<nat>, held: set<Lock>, rest: seq<Op>)
    requires Increasing(symbols) && held !! Locks(symbols) && Disciplined(rest, held)
    ensures Disciplined(Drops(symbols) + rest, held + Locks(symbols))
    decreases |symbols|
  {
    if symbols == [] {
      assert Drops(symbols) + rest == rest && held + Locks(symbols) == held;
    } else {
      var x := OfSymbol(symbols[0]);
      var after := [Drop(x)] + rest;
      assert after[1..] == rest && held + {x} - {x} == held;
      assert Disciplined(after, held + {x});
      assert x !in Locks(symbols[1..]) && Locks(symbols) == {x} + Locks(symbols[1..]);
      DropsAreDisciplined(symbols[1..], held + {x}, after);
      assert Drops(symbols) + rest == Drops(symbols[1..]) + after;
      assert held + {x} + Locks(symbols[1..]) == held + Locks(symbols);
    }
  }

  lemma LocksSplit(symbols: seq<nat>)
    requires symbols != []
    ensures Locks(symbols) == {OfSymbol(symbols[0])} + Locks(symbols[1..])
  {
  }

  lemma TakesSplit(symbols: seq<nat>, rest: seq<Op>)
    requires symbols != []
    ensures var script := Takes(symbols) + rest;
            script[0] == Take(OfSymbol(symbols[0])) && script[1..] == Takes(symbols[1..]) + rest
  {
    var first := Take(OfSymbol(symbols[0]));
    var tail := Takes(symbols[1..]);
    assert Takes(symbols) == [first] + tail;
    hide Takes;
    Regroup(first, tail, rest);
  }

  lemma Regroup(first: Op, tail: seq<Op>, rest: seq<Op>)
    ensures ([first] + tail + rest)[0] == first && ([first] + tail + rest)[1..] == tail + rest
  {
    assert [first] + tail + rest == [first] + (tail + rest);
  }

  lemma TakeFirst(todo: seq<Op>, l: Lock, held: set<Lock>)
    requires todo != [] && todo[0] == Take(l) && Disciplined(todo[1..], held + {l})
    requires forall h :: h in held ==> Below(h, l)
    ensures Disciplined(todo, held)
  {
  }

  lemma {:induction false} TakesAreDisciplined(symbols: seq<nat>, held: set<Lock>, rest: seq<Op>)
    requires Increasing(symbols)
    requires forall h, x :: h in held && x in symbols ==> Below(h, OfSymbol(x))
    requires Disciplined(rest, held + Locks(symbols))
    ensures Disciplined(Takes(symbols) + rest, held)
    decreases |symbols|
  {
    if symbols == [] {
      assert Takes(symbols) + rest == rest && held + Locks(symbols) == held;
    } else {
      var x := OfSymbol(symbols[0]);
      var script := Takes(symbols) + rest;
      LocksSplit(symbols);
      TakesSplit(symbols, rest);
      hide Disciplined, Locks, Takes;
      assert held + {x} + Locks(symbols[1..]) == held + ({x} + Locks(symbols[1..]));
      forall h, y | h in held + {x} && y in symbols[1..] ensures Below(h, OfSymbol(y)) {
        assert y in symbols;
      }
      TakesAreDisciplined(symbols[1..], held + {x}, rest);
      assert symbols[0] in symbols;
      TakeFirst(script, x, held);
    }
  }

  lemma {:induction false} GuardIsDisciplined(symbols: seq<nat>)
    ensures Disciplined(GuardPass(symbols), {})
  {
    if symbols != [] {
      var l := OfSymbol(symbols[0]);
      var script := GuardPass(symbols);
      GuardIsDisciplined(symbols[1..]);
      assert script[1..][1..] == GuardPass(symbols[1..]);
      assert {l} - {l} == {} && {} + {l} == {l};
      assert Disciplined(script[1..], {l});
    }
  }

  lemma DecideIsDisciplined(held: set<Lock>, rest: seq<Op>)
    requires Route !in held && Disciplined(rest, held)
    ensures Disciplined(DECIDE + rest, held)
  {
    var script := DECIDE + rest;
    assert script[1..][1..] == rest && held + {Route} - {Route} == held;
    assert Disciplined(script[1..], held + {Route});
  }

  lemma ScriptIsDisciplined(p: Program)
    ensures Disciplined(Script(p), {})
  {
    match p
    case Cycle(symbols) =>
      var c := Canonical(symbols);
      assert {} + Locks(c) == Locks(c);
      DropsAreDisciplined(c, {}, []);
      assert Drops(c) + [] == Drops(c);
      DecideIsDisciplined(Locks(c), Drops(c));
      TakesAreDisciplined(c, {}, DECIDE + Drops(c));
      assert Script(p) == Takes(c) + (DECIDE + Drops(c));
    case Guard(symbols) => GuardIsDisciplined(symbols);
    case Single =>
      DecideIsDisciplined({}, []);
      assert DECIDE + [] == DECIDE;
  }

  lemma StartIsOk(programs: seq<Program>)
    ensures Inv(Start(programs))
  {
    forall t | 0 <= t < |programs| ensures TaskOk(Start(programs).tasks[t]) {
      ScriptIsDisciplined(programs[t]);
    }
  }

  // ---------------------------------------------------------------- every step keeps it

  lemma GrantKeepsTasks(s: System, t: nat, l: Lock)
    requires Inv(s) && Awaits(s, t, l) && !s.tasks[t].todo[0].Drop? && l !in s.locked
    ensures forall u :: 0 <= u < |s.tasks| ==> TaskOk(Grant(s, t, l).tasks[u])
    ensures Exclusive(Grant(s, t, l))
  {
    var n := Grant(s, t, l);
    assert TaskOk(s.tasks[t]);
    forall k | k in n.locked ensures exists u: nat :: Holds(n, u, k) {
      if k == l {
        assert Holds(n, t, k);
      } else {
        var u: nat :| Holds(s, u, k);
        assert Holds(n, u, k);
      }
    }
    forall u: nat, k | Holds(n, u, k) ensures k in n.locked && (k == l ==> u == t) && (k != l ==> Holds(s, u, k)) {
      assert k != l || u != t ==> Holds(s, u, k);
    }
  }

  lemma ReleaseKeepsExclusive(s: System, t: nat, task: Task, freed: set<Lock>)
    requires Exclusive(s) && t < |s.tasks|
    requires task.held == s.tasks[t].held - freed && freed <= s.tasks[t].held
    ensures Exclusive(Put(s, t, task).(locked := s.locked - freed))
  {
    var n := Put(s, t, task).(locked := s.locked - freed);
    forall u: nat, k | Holds(n, u, k) ensures Holds(s, u, k) && k in n.locked {
      assert Holds(s, u, k);
      assert k in freed ==> Holds(s, t, k);
    }
    forall k | k in n.locked ensures exists u: nat :: Holds(n, u, k) {
      var u: nat :| Holds(s, u, k);
      assert Holds(n, u, k);
    }
  }

  lemma SkipIsDisciplined(todo: seq<Op>, held: set<Lock>, l: Lock)
    requires todo != [] && todo[0] == TryTake(l) && Disciplined(todo, held)
    ensures |todo| >= 2 && Disciplined(todo[2..], held)
  {
    assert l !in held;
    assert todo[1..][1..] == todo[2..] && held + {l} - {l} == held;
  }

  lemma AdvanceKeepsInv(s: System, t: nat)
    requires Inv(s) && Enabled(s, Advance(t))
    ensures Inv(Next(s, Advance(t)))
  {
    var task, n := s.tasks[t], Next(s, Advance(t));
    assert TaskOk(task);
    match task.todo[0] {
      case Take(l) => AcquireKeepsInv(s, t, l);
      case TryTake(l) =>
        SkipIsDisciplined(task.todo, task.held, l);
        if l in s.locked {
          ReleaseKeepsExclusive(s, t, task.(todo := task.todo[2..]), {});
          assert s.locked - {} == s.locked;
        } else {
          AcquireKeepsInv(s, t, l);
        }
      case Drop(l) =>
        ReleaseKeepsExclusive(s, t, n.tasks[t], {l});
    }
  }

  lemma AcquireKeepsInv(s: System, t: nat, l: Lock)
    requires Inv(s) && Awaits(s, t, l) && !s.tasks[t].todo[0].Drop? && !s.tasks[t].waiting
    ensures Inv(Acquire(s, t, l))
  {
    hide Disciplined;
    var n := Acquire(s, t, l);
    if l in s.locked || exists i :: 0 <= i < |s.line| && Awaits(s, s.line[i], l) {
      assert forall u: nat, k :: Holds(n, u, k) <==> Holds(s, u, k);
      assert TaskOk(s.tasks[t]);
    } else {
      GrantKeepsTasks(s, t, l);
    }
  }

  lemma WakeKeepsInv(s: System, i: nat)
    requires Inv(s) && Enabled(s, Wake(i))
    ensures Inv(Next(s, Wake(i)))
  {
    hide Disciplined;
    var t, n := s.line[i], Next(s, Wake(i));
    assert t in s.line && TaskOk(s.tasks[t]);
    GrantKeepsTasks(s, t, s.tasks[t].todo[0].lock);
    var g := Grant(s, t, s.tasks[t].todo[0].lock);
    assert forall u: nat, k :: Holds(n, u, k) <==> Holds(g, u, k);
    assert s.line == s.line[..i] + [t] + s.line[i + 1..];
    assert t !in n.line;
    assert forall u :: u in n.line <==> u in s.line && u != t;
  }

  lemma AbandonKeepsInv(s: System, t: nat)
    requires Inv(s) && Enabled(s, Abandon(t))
    ensures Inv(Next(s, Abandon(t)))
  {
    var n := Next(s, Abandon(t));
    ReleaseKeepsExclusive(s, t, Task([], {}, false), s.tasks[t].held);
    var r := Put(s, t, Task([], {}, false)).(locked := s.locked - s.tasks[t].held);
    assert forall u: nat, k :: Holds(n, u, k) <==> Holds(r, u, k);
  }

  lemma StepKeepsInv(s: System, a: Action)
    requires Inv(s) && Enabled(s, a)
    ensures Inv(Next(s, a))
  {
    match a
    case Advance(t) => AdvanceKeepsInv(s, t);
    case Wake(i) => WakeKeepsInv(s, i);
    case Abandon(t) => AbandonKeepsInv(s, t);
  }

  // ---------------------------------------------------------------- no deadlock

  lemma FirstInLine(s: System, i: nat, l: Lock) returns (first: nat)
    requires LineOk(s) && i < |s.line| && Awaits(s, s.line[i], l) && l !in s.locked
    ensures Enabled(s, Wake(first))
  {
    first := i;
    if j :| 0 <= j < i && Awaits(s, s.line[j], l) {
      first := FirstInLine(s, j, l);
    }
  }

  function NotBelow(locks: set<Lock>, l: Lock): set<Lock> {
    set k | k in locks && !Below(k, l)
  }

  /** A held lock's owner is at work or waits for a higher lock, so following owners upward ends at
      a task that can move. */
  lemma {:induction false} Climb(s: System, t: nat) returns (a: Action)
    requires Inv(s) && Unfinished(s, t)
    ensures Enabled(s, a) && !a.Abandon?
    decreases NotBelow(s.locked, s.tasks[t].todo[0].lock)
  {
    assert TaskOk(s.tasks[t]);
    var l := s.tasks[t].todo[0].lock;
    if !s.tasks[t].waiting {
      a := Advance(t);
    } else if l in s.locked {
      var u: nat :| Holds(s, u, l);
      assert TaskOk(s.tasks[u]);
      if !s.tasks[u].waiting {
        a := Advance(u);
      } else {
        var m := s.tasks[u].todo[0].lock;
        assert Below(l, m);
        assert forall k :: Below(k, l) ==> Below(k, m);
        assert l in NotBelow(s.locked, l) && l !in NotBelow(s.locked, m);
        a := Climb(s, u);
      }
    } else {
      assert t in s.line;
      var i :| 0 <= i < |s.line| && s.line[i] == t;
      var first := FirstInLine(s, i, l);
      a := Wake(first);
    }
  }

  // ---------------------------------------------------------------- every run ends

  function Cost(task: Task): int {
    2 * |task.todo| - if task.waiting then 1 else 0
  }

  /** Lock operations left, a wait being half of one. */
  function Work(tasks: seq<Task>): int {
    if tasks == [] then 0 else Cost(tasks[0]) + Work(tasks[1..])
  }

  lemma {:induction false} WorkOfUpdate(tasks: seq<Task>, t: nat, task: Task)
    requires t < |tasks|
    ensures Work(tasks[t := task]) == Work(tasks) - Cost(tasks[t]) + Cost(task)
  {
    var n := tasks[t := task];
    if t == 0 {
      assert n[1..] == tasks[1..];
    } else {
      assert n[1..] == tasks[1..][t - 1 := task];
      WorkOfUpdate(tasks[1..], t - 1, task);
    }
  }

  lemma {:induction false} WorkIsNatural(tasks: seq<Task>)
    requires forall t :: 0 <= t < |tasks| ==> TaskOk(tasks[t])
    ensures Work(tasks) >= 0
  {
    if tasks != [] {
      assert TaskOk(tasks[0]);
      WorkIsNatural(tasks[1..]);
    }
  }

  function Mover(s: System, a: Action): nat
    requires Enabled(s, a)
  {
    if a.Wake? then s.line[a.place] else a.task
  }

  lemma StepDoesWork(s: System, a: Action)
    requires Inv(s) && Enabled(s, a)
    ensures Work(Next(s, a).tasks) < Work(s.tasks)
  {
    hide Disciplined;
    var t := Mover(s, a);
    assert a.Wake? ==> t in s.line;
    var n := Next(s, a);
    assert n.tasks == s.tasks[t := n.tasks[t]];
    WorkOfUpdate(s.tasks, t, n.tasks[t]);
    assert Cost(n.tasks[t]) < Cost(s.tasks[t]);
  }

  // ---------------------------------------------------------------- whole runs

  predicate IsRun(s: System, actions: seq<Action>)
    decreases |actions|
  {
    actions == [] || (Enabled(s, actions[0]) && IsRun(Next(s, actions[0]), actions[1..]))
  }

  function After(s: System, actions: seq<Action>): System
    requires IsRun(s, actions)
    decreases |actions|
  {
    if actions == [] then s else After(Next(s, actions[0]), actions[1..])
  }

  lemma {:induction false} RunKeepsInv(s: System, actions: seq<Action>)
    requires Inv(s) && IsRun(s, actions)
    ensures Inv(After(s, actions))
    ensures Work(After(s, actions).tasks) + |actions| <= Work(s.tasks)
    decreases |actions|
  {
    if actions != [] {
      StepKeepsInv(s, actions[0]);
      StepDoesWork(s, actions[0]);
      RunKeepsInv(Next(s, actions[0]), actions[1..]);
    }
  }

  /** Deadlock freedom: whatever has happened, while any task is unfinished some task can take its
      next lock operation, without anyone being cancelled. */
  lemma NoDeadlock(programs: seq<Program>, actions: seq<Action>, t: nat)
    requires IsRun(Start(programs), actions) && Unfinished(After(Start(programs), actions), t)
    ensures exists a :: Enabled(After(Start(programs), actions), a) && !a.Abandon?
  {
    StartIsOk(programs);
    RunKeepsInv(Start(programs), actions);
    var a := Climb(After(Start(programs), actions), t);
  }

  /** No run is longer than twice the lock operations in it, and a run that cannot be continued has
      finished every task, released every lock and emptied the queue. */
  lemma EveryRunFinishes(programs: seq<Program>, actions: seq<Action>)
    requires IsRun(Start(programs), actions)
    ensures |actions| <= Work(Start(programs).tasks)
    ensures
      var end := After(Start(programs), actions);
      (forall a :: Enabled(end, a) ==> a.Abandon?) ==>
        && (forall t :: 0 <= t < |end.tasks| ==> end.tasks[t].todo == [])
        && end.locked == {} && end.line == []
  {
    StartIsOk(programs);
    RunKeepsInv(Start(programs), actions);
    var end := After(Start(programs), actions);
    WorkIsNatural(end.tasks);
    if forall a :: Enabled(end, a) ==> a.Abandon? {
      forall t | 0 <= t < |end.tasks| ensures end.tasks[t].todo == [] && TaskOk(end.tasks[t]) {
        if Unfinished(end, t) {
          var a := Climb(end, t);
        }
      }
      NothingLeft(end);
    }
  }

  lemma NothingLeft(s: System)
    requires Inv(s) && forall t :: 0 <= t < |s.tasks| ==> s.tasks[t].todo == []
    ensures s.locked == {} && s.line == []
  {
    assert |s.line| > 0 ==> s.line[0] in s.line;
    forall t | 0 <= t < |s.tasks| ensures s.tasks[t].held == {} && !s.tasks[t].waiting {
      assert TaskOk(s.tasks[t]);
    }
    assert forall l :: l in s.locked ==> exists t: nat :: Holds(s, t, l);
  }

  // ---------------------------------------------------------------- overlapping cycles

  /** Past the acquisition of its symbols: the shared snapshot is being analysed. */
  predicate Deciding(task: Task, symbols: seq<nat>) {
    var tail := DECIDE + Drops(Canonical(symbols));
    task.todo == tail || task.todo == tail[1..]
  }

  /** A lock still to be released, with no acquisition before, is held. */
  lemma {:induction false} DropMeansHeld(todo: seq<Op>, held: set<Lock>, j: nat)
    requires Disciplined(todo, held) && j < |todo| && todo[j].Drop?
    requires forall i :: 0 <= i < j ==> todo[i].lock != todo[j].lock
    ensures todo[j].lock in held
    decreases |todo|
  {
    if j > 0 {
      var after := if todo[0].Drop? then held - {todo[0].lock} else held + {todo[0].lock};
      DropMeansHeld(todo[1..], after, j - 1);
    }
  }

  lemma {:induction false} DropsAreOrdered(symbols: seq<nat>, x: nat) returns (j: nat)
    requires Increasing(symbols) && x in symbols
    ensures j < |Drops(symbols)| && Drops(symbols)[j] == Drop(OfSymbol(x))
    ensures forall i :: 0 <= i < j ==> Drops(symbols)[i].lock != OfSymbol(x)
    ensures forall i :: 0 <= i < |Drops(symbols)| ==> Drops(symbols)[i].Drop?
  {
    DropsListSymbols(symbols[1..]);
    if x == symbols[0] {
      j := |Drops(symbols[1..])|;
    } else {
      j := DropsAreOrdered(symbols[1..], x);
    }
  }

  lemma {:induction false} DropsListSymbols(symbols: seq<nat>)
    ensures forall i :: 0 <= i < |Drops(symbols)| ==>
      Drops(symbols)[i].Drop? && Drops(symbols)[i].lock in Locks(symbols)
  {
    if symbols != [] {
      DropsListSymbols(symbols[1..]);
      assert Locks(symbols) == {OfSymbol(symbols[0])} + Locks(symbols[1..]);
    }
  }

  lemma DecidingHoldsSymbols(task: Task, symbols: seq<nat>, x: nat)
    requires TaskOk(task) && Deciding(task, symbols) && x in symbols
    ensures OfSymbol(x) in task.held
  {
    hide Disciplined, Drops, Canonical;
    var drops := Drops(Canonical(symbols));
    var j := DropsAreOrdered(Canonical(symbols), x);
    var skip := |task.todo| - |drops|;
    assert task.todo[skip..] == drops;
    assert forall i :: skip <= i < |task.todo| ==> task.todo[i] == drops[i - skip];
    DropMeansHeld(task.todo, task.held, skip + j);
  }

  /** Two cycles never analyse a common symbol at the same time, in any reachable state. */
  lemma DecidingCyclesAreDisjoint(programs: seq<Program>, actions: seq<Action>,
                                  t: nat, u: nat, a: seq<nat>, b: seq<nat>, x: nat)
    requires IsRun(Start(programs), actions)
    requires
      var s := After(Start(programs), actions);
      t < |s.tasks| && u < |s.tasks| && t != u && Deciding(s.tasks[t], a) && Deciding(s.tasks[u], b)
    ensures !(x in a && x in b)
  {
    StartIsOk(programs);
    RunKeepsInv(Start(programs), actions);
    var s := After(Start(programs), actions);
    if x in a && x in b {
      DecidingHoldsSymbols(s.tasks[t], a, x);
      DecidingHoldsSymbols(s.tasks[u], b, x);
      assert Holds(s, t, OfSymbol(x)) && Holds(s, u, OfSymbol(x));
      assert false;
    }
  }
}
