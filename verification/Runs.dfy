// Every reachable state of the concurrent engine, for any number of processes
// and any interleaving of their steps.
module Runs {
  import opened Entities
  import opened Protocol
  import opened Invariant
  import opened QuietSteps
  import opened LoudSteps
  import opened CommitSteps

  // Which process a step moves, if it moves one and commits nothing.
  function Mover(step: Step): Option<Pid> {
    match step
    case Registration(_, _) => None
    case Arrival(pid, _) => Some(pid)
    case Reservation(pid, _) => Some(pid)
    case Fetch(pid) => Some(pid)
    case Lookup(pid) => Some(pid)
    case LockStart(pid) => Some(pid)
    case LockRow(pid) => Some(pid)
    case Decision(pid, _, _) => Some(pid)
    case Statement(pid) => Some(pid)
    case Failing(pid) => Some(pid)
    case Commit(_, _) => None
    case Announcement(pid) => Some(pid)
    case Worker(_) => None
    case Tick(_) => None
    case Restart => None
  }

  lemma QuietStepIsQuiet(s: System, step: Step)
    requires Inv(s) && Enabled(s, step) && Mover(step).Some?
    ensures QuietStep(s, Next(s, step), Mover(step).value)
  {
    match step
    case Arrival(pid, r) => ArrivalIsQuiet(s, pid, r);
    case Reservation(pid, draw) => ReservationIsQuiet(s, pid, draw);
    case Fetch(pid) => FetchIsQuiet(s, pid);
    case Lookup(pid) => LookupIsQuiet(s, pid);
    case LockStart(pid) => LockStartIsQuiet(s, pid);
    case LockRow(pid) => LockRowIsQuiet(s, pid);
    case Decision(pid, first, second) => DecisionIsQuiet(s, pid, first, second);
    case Statement(pid) => StatementIsQuiet(s, pid);
    case Failing(pid) => FailingIsQuiet(s, pid);
    case Announcement(pid) => AnnouncementIsQuiet(s, pid);
  }

  lemma StepKeepsInv(s: System, step: Step)
    requires Inv(s) && Enabled(s, step)
    ensures Inv(Next(s, step))
  {
    if Mover(step).Some? {
      QuietStepIsQuiet(s, step);
      var pid := Mover(step).value;
      QuietKeepsInv(s, Next(s, step), pid, Next(s, step).processes[pid]);
    } else {
      LoudStepKeepsInv(s, step);
    }
  }

  lemma LoudStepKeepsInv(s: System, step: Step)
    requires Inv(s) && Enabled(s, step) && Mover(step).None?
    ensures Inv(Next(s, step))
  {
    match step
    case Registration(user, wallet) => RegistrationKeepsInv(s, user, wallet);
    case Commit(pid, now) =>
      CommitIsCommitted(s, pid, now);
      CommittedKeepsInv(s, Next(s, step), pid, now);
    case Worker(turn) => WorkerKeepsInv(s, turn);
    case Tick(now) => TickKeepsInv(s, now);
    case Restart => RestartKeepsInv(s);
  }

  lemma {:induction false} InvAlways(s: System, steps: seq<Step>)
    requires Inv(s) && Legal(s, steps)
    ensures Inv(After(s, steps))
    decreases |steps|
  {
    if steps != [] {
      StepKeepsInv(s, steps[0]);
      InvAlways(Next(s, steps[0]), steps[1..]);
    }
  }

  // ---------- putting runs together ----------

  lemma {:induction false} RunConcat(s: System, a: seq<Step>, b: seq<Step>)
    requires Legal(s, a) && Legal(After(s, a), b)
    ensures Legal(s, a + b) && After(s, a + b) == After(After(s, a), b)
    decreases |a|
  {
    if a == [] {
      assert a + b == b;
    } else {
      RunConcat(Next(s, a[0]), a[1..], b);
      assert (a + b)[1..] == a[1..] + b;
    }
  }

  lemma RunOne(s: System, step: Step)
    requires Enabled(s, step)
    ensures Legal(s, [step]) && After(s, [step]) == Next(s, step)
  {
    assert [step][1..] == [];
  }

  lemma RunSnoc(s: System, a: seq<Step>, step: Step)
    requires Legal(s, a) && Enabled(After(s, a), step)
    ensures Legal(s, a + [step]) && After(s, a + [step]) == Next(After(s, a), step)
  {
    RunOne(After(s, a), step);
    RunConcat(s, a, [step]);
  }

  lemma {:induction false} RunPrefix(s: System, steps: seq<Step>, n: nat)
    requires Legal(s, steps) && n <= |steps|
    ensures Legal(s, steps[..n]) && Legal(After(s, steps[..n]), steps[n..])
    ensures After(s, steps) == After(After(s, steps[..n]), steps[n..])
    decreases |steps|
  {
    if n == 0 {
      assert steps[..0] == [] && steps[0..] == steps;
    } else {
      RunPrefix(Next(s, steps[0]), steps[1..], n - 1);
      assert steps[..n][1..] == steps[1..][..n - 1] && steps[1..][n - 1..] == steps[n..];
    }
  }

  // The last step of a run, taken apart.
  lemma RunUnsnoc(s: System, steps: seq<Step>)
    requires Legal(s, steps) && steps != []
    ensures var n := |steps| - 1;
            Legal(s, steps[..n]) && Enabled(After(s, steps[..n]), steps[n])
            && After(s, steps) == Next(After(s, steps[..n]), steps[n])
  {
    var n := |steps| - 1;
    RunPrefix(s, steps, n);
    assert steps[n..] == [steps[n]] && steps[n..][1..] == [];
  }

  lemma {:induction false} ConfigKept(s: System, steps: seq<Step>)
    requires Legal(s, steps)
    ensures After(s, steps).config == s.config
    decreases |steps|
  {
    if steps != [] {
      ConfigKept(Next(s, steps[0]), steps[1..]);
    }
  }
}
