// The engine never deadlocks and never runs forever: waiting goes from the
// idempotency key to the wallets and up the wallet ids, and every step brings
// its request nearer to an answer.
module Progress {
  import opened Entities
  import opened Engine
  import opened Totals
  import opened Protocol
  import opened Invariant
  import opened Runs
  import Webhook

  // ---------- waiting ----------

  predicate WaitsForKey(p: Process, q: Process) {
    p.pc.Start? && HoldsKey(q) && Validate(p.request).None? && Validate(q.request).None?
      && KeyOf(p.request) == KeyOf(q.request)
  }

  predicate WaitsForRow(p: Process, q: Process) {
    p.pc.Locking? && p.pc.waiting != [] && p.pc.waiting[0] in HeldRows(q)
  }

  // p cannot go on before q has ended.
  ghost predicate Waits(s: System, p: Pid, q: Pid) {
    p in s.processes && q in s.processes && p != q
    && (WaitsForKey(s.processes[p], s.processes[q]) || WaitsForRow(s.processes[p], s.processes[q]))
  }

  // What a process still has to wait for, in the order in which it may wait:
  // first its key, then wallets in ascending order, then nothing.
  datatype Rank = Key | Row(id: Id) | Nothing

  function RankOf(p: Process): Rank {
    match p.pc
    case Start => Key
    case Locking(_, waiting, _) => if waiting != [] then Row(waiting[0]) else Nothing
    case _ => Nothing
  }

  predicate Below(a: Rank, b: Rank) {
    (a.Key? && !b.Key?) || (a.Row? && b.Row? && a.id < b.id) || (a.Row? && b.Nothing?)
  }

  lemma WaitingClimbs(s: System, p: Pid, q: Pid)
    requires AllOk(s.config, s.tables, s.clock, s.processes) && Waits(s, p, q)
    ensures Below(RankOf(s.processes[p]), RankOf(s.processes[q]))
  {
    assert ProcessOk(s.config, s.tables, s.clock, s.processes[q]);
    if WaitsForRow(s.processes[p], s.processes[q]) && s.processes[q].pc.Locking? && s.processes[q].pc.waiting != [] {
      var held, wanted := s.processes[p].pc.waiting[0], s.processes[q].pc.waiting[0];
      assert held in s.processes[q].pc.rows && wanted in s.processes[q].pc.waiting;
    }
  }

  ghost predicate WaitingPath(s: System, path: seq<Pid>) {
    forall i, j :: 0 <= i && j == i + 1 && j < |path| ==> Waits(s, path[i], path[j])
  }

  lemma {:induction false} PathClimbs(s: System, path: seq<Pid>)
    requires AllOk(s.config, s.tables, s.clock, s.processes) && WaitingPath(s, path) && |path| >= 2
    ensures path[0] in s.processes && path[|path| - 1] in s.processes
    ensures Below(RankOf(s.processes[path[0]]), RankOf(s.processes[path[|path| - 1]]))
  {
    var n := |path| - 1;
    assert Waits(s, path[n - 1], path[n]);
    WaitingClimbs(s, path[n - 1], path[n]);
    if n >= 2 {
      assert WaitingPath(s, path[..n]) by {
        forall i, j | 0 <= i && j == i + 1 && j < n ensures Waits(s, path[..n][i], path[..n][j]) {
          assert Waits(s, path[i], path[j]);
        }
      }
      PathClimbs(s, path[..n]);
    }
  }

  // In every reachable state the wait-for graph has no cycle.
  lemma NoWaitingCycle(c: Webhook.Config, now: Time, steps: seq<Step>, path: seq<Pid>)
    requires Legal(Initial(c, now), steps) && WaitingPath(After(Initial(c, now), steps), path) && |path| >= 2
    ensures path[0] != path[|path| - 1]
  {
    InitialInv(c, now);
    InvAlways(Initial(c, now), steps);
    PathClimbs(After(Initial(c, now), steps), path);
  }

  // ---------- the next step ----------

  predicate Unfinished(p: Process) {
    !p.pc.Done?
  }

  ghost predicate Blocked(s: System, pid: Pid) {
    exists q :: Waits(s, pid, q)
  }

  // The process that a step advances.
  function Actor(step: Step): Option<Pid> {
    match step
    case Commit(pid, _) => Some(pid)
    case Arrival(_, _) => None
    case _ => Mover(step)
  }

  lemma Unused(used: set<Id>) returns (bound: Id)
    ensures forall id :: id in used ==> id < bound
    decreases |used|
  {
    bound := 0;
    if used != {} {
      var id :| id in used;
      var below := Unused(used - {id});
      bound := if below <= id then id + 1 else below;
      assert forall other :: other in used ==> other == id || other in used - {id};
    }
  }

  lemma FreshDraw(used: set<Id>) returns (draw: Draw)
    ensures IdsOf(draw) !! used && draw.firstEntry != draw.secondEntry
  {
    var n := Unused(used);
    draw := Draw(n, n + 1, n + 2, n + 3, n + 4, n + 5, 0, 0);
  }

  // A request that is neither finished nor blocked has a step that does not fail it.
  lemma FreeProcessSteps(s: System, pid: Pid) returns (step: Step)
    requires AllOk(s.config, s.tables, s.clock, s.processes)
    requires pid in s.processes && Unfinished(s.processes[pid]) && !Blocked(s, pid)
    ensures Enabled(s, step) && Actor(step) == Some(pid) && !step.Failing?
  {
    var p := s.processes[pid];
    assert ProcessOk(s.config, s.tables, s.clock, p);
    match p.pc
    case Start =>
      var draw := FreshDraw(s.used);
      KeyIsFree(s, pid);
      step := Reservation(pid, draw);
    case Losing => step := Fetch(pid);
    case Reserved => step := Lookup(pid);
    case Resolved(_) => step := LockStart(pid);
    case Locking(_, waiting, _) =>
      if waiting != [] {
        RowIsFree(s, pid);
        assert waiting[0] in waiting;
        step := LockRow(pid);
      } else {
        step := Decision(pid, s.clock, s.clock);
      }
    case Writing(_, _, todo, _, _) => step := if todo != [] then Statement(pid) else Commit(pid, s.clock + 1);
    case Announcing(_, _) => step := Announcement(pid);
  }

  lemma KeyIsFree(s: System, pid: Pid)
    requires pid in s.processes && s.processes[pid].pc.Start? && Validate(s.processes[pid].request).None?
             && !Blocked(s, pid)
    ensures KeyFree(s, pid, KeyOf(s.processes[pid].request))
  {
    forall q | q in s.processes && q != pid && HoldsKey(s.processes[q]) && Validate(s.processes[q].request).None?
      ensures KeyOf(s.processes[q].request) != KeyOf(s.processes[pid].request)
    {
      assert !Waits(s, pid, q);
    }
  }

  lemma RowIsFree(s: System, pid: Pid)
    requires pid in s.processes && s.processes[pid].pc.Locking? && s.processes[pid].pc.waiting != [] && !Blocked(s, pid)
    ensures RowFree(s, pid, s.processes[pid].pc.waiting[0])
  {
    forall q | q in s.processes && q != pid ensures s.processes[pid].pc.waiting[0] !in HeldRows(s.processes[q]) {
      assert !Waits(s, pid, q);
    }
  }

  // The processes of higher rank.
  ghost function Higher(s: System, p: Pid): set<Pid>
    requires p in s.processes
  {
    set q | q in s.processes && Below(RankOf(s.processes[p]), RankOf(s.processes[q]))
  }

  // Following the waits from any unfinished request leads to one that can step.
  lemma {:induction false} SomeoneSteps(s: System, pid: Pid) returns (step: Step)
    requires AllOk(s.config, s.tables, s.clock, s.processes) && pid in s.processes && Unfinished(s.processes[pid])
    ensures Enabled(s, step) && Actor(step).Some? && !step.Failing?
    decreases |Higher(s, pid)|
  {
    if Blocked(s, pid) {
      var q :| Waits(s, pid, q);
      WaitingClimbs(s, pid, q);
      HigherShrinks(s, pid, q);
      step := SomeoneSteps(s, q);
    } else {
      step := FreeProcessSteps(s, pid);
    }
  }

  lemma HigherShrinks(s: System, p: Pid, q: Pid)
    requires p in s.processes && q in s.processes && Below(RankOf(s.processes[p]), RankOf(s.processes[q]))
    ensures |Higher(s, q)| < |Higher(s, p)|
  {
    assert q in Higher(s, p) && q !in Higher(s, q);
    Cardinalities(Higher(s, q), Higher(s, p));
  }

  lemma {:induction false} Cardinalities(a: set<Pid>, b: set<Pid>)
    requires a < b
    ensures |a| < |b|
  {
    var x :| x in b && x !in a;
    if a != {} {
      var y :| y in a;
      Cardinalities(a - {y}, b - {y});
    }
  }

  // ---------- every step counts ----------

  // An upper bound on the steps a request can still take.
  function StepsLeft(p: Process): nat {
    match p.pc
    case Start => 15
    case Losing => 1
    case Reserved => 14
    case Resolved(_) => 13
    case Locking(_, waiting, _) => |waiting| + 10
    case Writing(_, _, todo, _, _) => |todo| + 2
    case Announcing(_, _) => 1
    case Done(_) => 0
  }

  lemma {:induction false} PresentIsShort(wallets: map<Id, Wallet>, ids: seq<Id>)
    ensures |Present(wallets, ids)| <= |ids|
  {
    if ids != [] {
      PresentIsShort(wallets, ids[1..]);
    }
  }

  lemma PlanIsShort(c: Webhook.Config, r: Request, own: Id, rows: map<Id, Wallet>, draw: Draw)
    requires Validate(r).None? && Refuse(r, own, rows).None?
    ensures |PlanOf(c, r, own, rows, draw).writes| <= 7
  {
  }

  // A step of a request brings it nearer to its end and moves no other request.
  lemma ActingStepCounts(s: System, step: Step)
    requires Enabled(s, step) && Actor(step).Some?
    ensures var s', pid := Next(s, step), Actor(step).value;
            && pid in s.processes && pid in s'.processes && s'.processes == s.processes[pid := s'.processes[pid]]
            && StepsLeft(s'.processes[pid]) < StepsLeft(s.processes[pid])
  {
    if step.LockStart? {
      PresentIsShort(s.tables.wallets, Targets(s.processes[step.pid].request, s.processes[step.pid].pc.own));
    } else if step.Decision? {
      var p := s.processes[step.pid];
      if Refuse(p.request, p.pc.own, p.pc.rows).None? {
        PlanIsShort(s.config, p.request, p.pc.own, p.pc.rows,
          p.draw.(firstTime := step.first, secondTime := step.second));
      }
    }
  }

  ghost function TotalLeft(s: System): nat {
    Total(s.processes, StepsLeft)
  }

  function Acting(steps: seq<Step>): nat {
    if steps == [] then 0 else (if Actor(steps[0]).Some? then 1 else 0) + Acting(steps[1..])
  }

  lemma StepSpends(s: System, step: Step)
    requires Enabled(s, step) && !step.Arrival?
    ensures (if Actor(step).Some? then 1 else 0) + TotalLeft(Next(s, step)) <= TotalLeft(s)
  {
    if Actor(step).Some? {
      var pid := Actor(step).value;
      ActingStepCounts(s, step);
      TotalUpdate(s.processes, StepsLeft, pid, Next(s, step).processes[pid]);
    }
  }

  // However it is scheduled, a system without new arrivals takes at most
  // TotalLeft request steps: no request retries or loops forever.
  lemma {:induction false} RunsAreShort(s: System, steps: seq<Step>)
    requires Legal(s, steps) && forall step :: step in steps ==> !step.Arrival?
    ensures Acting(steps) + TotalLeft(After(s, steps)) <= TotalLeft(s)
    decreases |steps|
  {
    if steps != [] {
      StepSpends(s, steps[0]);
      RunsAreShort(Next(s, steps[0]), steps[1..]);
    }
  }

  // ---------- everyone finishes ----------

  // In every reachable state, while any request is unfinished, some request has
  // a step that does not fail it.
  lemma NoDeadlock(c: Webhook.Config, now: Time, steps: seq<Step>, pid: Pid) returns (step: Step)
    requires Legal(Initial(c, now), steps)
    requires var s := After(Initial(c, now), steps); pid in s.processes && Unfinished(s.processes[pid])
    ensures var s := After(Initial(c, now), steps); Enabled(s, step) && Actor(step).Some? && !step.Failing?
  {
    InitialInv(c, now);
    InvAlways(Initial(c, now), steps);
    step := SomeoneSteps(After(Initial(c, now), steps), pid);
  }

  ghost predicate Finishes(s: System, steps: seq<Step>) {
    Legal(s, steps) && (forall step :: step in steps ==> Actor(step).Some? && !step.Failing?)
    && forall pid :: pid in After(s, steps).processes ==> !Unfinished(After(s, steps).processes[pid])
  }

  lemma AlreadyFinished(s: System)
    requires forall pid :: pid in s.processes ==> !Unfinished(s.processes[pid])
    ensures Finishes(s, [])
  {
  }

  lemma FinishesAfter(s: System, step: Step, rest: seq<Step>)
    requires Enabled(s, step) && Actor(step).Some? && !step.Failing? && Finishes(Next(s, step), rest)
    ensures Finishes(s, [step] + rest)
  {
    assert ([step] + rest)[1..] == rest;
  }

  lemma {:induction false} CanFinish(s: System) returns (steps: seq<Step>)
    requires Inv(s)
    ensures Finishes(s, steps)
    decreases TotalLeft(s)
  {
    steps := [];
    if pid :| pid in s.processes && Unfinished(s.processes[pid]) {
      var step := SomeoneSteps(s, pid);
      StepSpends(s, step);
      StepKeepsInv(s, step);
      var rest := CanFinish(Next(s, step));
      FinishesAfter(s, step, rest);
      steps := [step] + rest;
    } else {
      AlreadyFinished(s);
    }
  }

  // From every reachable state all requests can be run to their answers, without
  // failing any of them on the way.
  lemma EveryoneCanFinish(c: Webhook.Config, now: Time, steps: seq<Step>) returns (rest: seq<Step>)
    requires Legal(Initial(c, now), steps)
    ensures Finishes(After(Initial(c, now), steps), rest)
  {
    InitialInv(c, now);
    InvAlways(Initial(c, now), steps);
    rest := CanFinish(After(Initial(c, now), steps));
  }
}
