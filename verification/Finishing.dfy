// Deliveries in the running system: what is final stands, and among commits,
// announcements, pops and scans the budget of what is old wears down.
module Finishing {
  import opened Entities
  import opened Engine
  import opened Protocol
  import opened Invariant
  import opened CommitSteps
  import opened Runs
  import opened Retries
  import Webhook

  // What is still to be committed was, or will be, created after t.
  ghost predicate Settled(s: System, t: Time) {
    t < s.clock
    && forall pid :: pid in s.processes && s.processes[pid].pc.Writing? && s.processes[pid].pc.delivery.Some? ==>
         s.processes[pid].pc.delivery.value.createdAt > t
  }

  lemma PlanIsNew(c: Webhook.Config, r: Request, own: Id, rows: map<Id, Wallet>, draw: Draw)
    requires Validate(r).None? && Refuse(r, own, rows).None?
    ensures var d := PlanOf(c, r, own, rows, draw).delivery; d.Some? ==> d.value.createdAt == draw.secondTime
  {
  }

  lemma DecisionSettled(s: System, pid: Pid, first: Time, second: Time, t: Time)
    requires Enabled(s, Decision(pid, first, second)) && Settled(s, t)
    ensures Settled(Next(s, Decision(pid, first, second)), t)
  {
    var p := s.processes[pid];
    if Refuse(p.request, p.pc.own, p.pc.rows).None? {
      PlanIsNew(s.config, p.request, p.pc.own, p.pc.rows, p.draw.(firstTime := first, secondTime := second));
    }
  }

  lemma OtherStepSettled(s: System, step: Step, t: Time)
    requires Enabled(s, step) && !step.Decision? && Settled(s, t)
    ensures Settled(Next(s, step), t)
  {
  }

  lemma StepSettled(s: System, step: Step, t: Time)
    requires Enabled(s, step) && Settled(s, t)
    ensures Settled(Next(s, step), t)
  {
    if step.Decision? {
      DecisionSettled(s, step.pid, step.first, step.second, t);
    } else {
      OtherStepSettled(s, step, t);
    }
  }

  // ---------- what is final stands ----------

  lemma PersistsTransitive(m: map<Id, Webhook.Delivery>, n: map<Id, Webhook.Delivery>, p: map<Id, Webhook.Delivery>)
    requires Webhook.Persists(m, n) && Webhook.Persists(n, p)
    ensures Webhook.Persists(m, p)
  {
  }

  // A commit only adds a delivery under a new id.
  lemma CommitIsNew(s: System, s': System, pid: Pid, now: Time)
    requires Inv(s) && Committed(s, s', pid, now)
    ensures var d := s.processes[pid].pc.delivery; d.Some? ==> d.value.id !in s.outbox.deliveries
  {
    var x := CommittedTables(s, s', pid, now);
  }

  lemma CommitPersists(s: System, s': System, pid: Pid, now: Time)
    requires Inv(s) && Committed(s, s', pid, now)
    ensures Webhook.Persists(s.outbox.deliveries, s'.outbox.deliveries)
  {
    CommitIsNew(s, s', pid, now);
    PostedPersists(s.outbox, s.processes[pid].pc.delivery);
  }

  lemma PostedPersists(o: Webhook.Outbox, d: Option<Webhook.Delivery>)
    requires d.Some? ==> d.value.id !in o.deliveries
    ensures Webhook.Persists(o.deliveries, Posted(o, d).deliveries)
  {
  }

  lemma OtherStepPersists(s: System, step: Step)
    requires Enabled(s, step) && !step.Commit? && !step.Worker?
    ensures Next(s, step).outbox.deliveries == s.outbox.deliveries
  {
  }

  lemma CommitStepPersists(s: System, step: Step)
    requires Inv(s) && Enabled(s, step) && step.Commit?
    ensures Webhook.Persists(s.outbox.deliveries, Next(s, step).outbox.deliveries)
  {
    CommitIsCommitted(s, step.pid, step.now);
    CommitPersists(s, Next(s, step), step.pid, step.now);
  }

  lemma WorkStepPersists(s: System, step: Step)
    requires Webhook.OutboxOk(s.config, s.outbox) && Enabled(s, step) && step.Worker?
    ensures Webhook.Persists(s.outbox.deliveries, Next(s, step).outbox.deliveries)
  {
    Webhook.WorkKeepsOk(s.config, s.outbox, step.turn);
  }

  lemma UnchangedPersists(m: map<Id, Webhook.Delivery>, m': map<Id, Webhook.Delivery>)
    requires m' == m
    ensures Webhook.Persists(m, m')
  {
  }

  lemma OtherPersists(s: System, step: Step)
    requires Enabled(s, step) && !step.Commit? && !step.Worker?
    ensures Webhook.Persists(s.outbox.deliveries, Next(s, step).outbox.deliveries)
  {
    OtherStepPersists(s, step);
    UnchangedPersists(s.outbox.deliveries, Next(s, step).outbox.deliveries);
  }

  lemma StepPersists(s: System, step: Step)
    requires Inv(s) && Enabled(s, step)
    ensures Webhook.Persists(s.outbox.deliveries, Next(s, step).outbox.deliveries)
  {
    if step.Commit? {
      CommitStepPersists(s, step);
    } else if step.Worker? {
      WorkStepPersists(s, step);
    } else {
      OtherPersists(s, step);
    }
  }

  lemma {:induction false} RunPersists(s: System, steps: seq<Step>)
    requires Inv(s) && Legal(s, steps)
    ensures Webhook.Persists(s.outbox.deliveries, After(s, steps).outbox.deliveries)
    decreases |steps|
  {
    if steps == [] {
      UnchangedPersists(s.outbox.deliveries, After(s, steps).outbox.deliveries);
    } else {
      var s' := Next(s, steps[0]);
      var m, n, p := s.outbox.deliveries, s'.outbox.deliveries, After(s', steps[1..]).outbox.deliveries;
      assert Webhook.Persists(m, n) by { StepPersists(s, steps[0]); }
      assert Webhook.Persists(n, p) by {
        StepKeepsInv(s, steps[0]);
        RunPersists(s', steps[1..]);
      }
      PersistsTransitive(m, n, p);
    }
  }

  // In every run, no mix of pops, scans, commits and restarts loses a delivery,
  // and one that has succeeded or failed is never touched again.
  lemma OutcomesAreFinal(c: Webhook.Config, now: Time, earlier: seq<Step>, later: seq<Step>)
    requires Legal(Initial(c, now), earlier) && Legal(After(Initial(c, now), earlier), later)
    ensures var m := After(Initial(c, now), earlier).outbox.deliveries;
            var m' := After(After(Initial(c, now), earlier), later).outbox.deliveries;
            forall id :: id in m ==> id in m' && (Webhook.Terminal(m[id]) ==> m'[id] == m[id])
  {
    InitialInv(c, now);
    InvAlways(Initial(c, now), earlier);
    RunPersists(After(Initial(c, now), earlier), later);
  }

  // ---------- what is old finishes ----------

  ghost predicate IsUseful(s: System, step: Step, t: Time)
    requires Enabled(s, step)
  {
    step.Worker? && Useful(s.outbox, step.turn, t)
  }

  // A step spends from the budget, or at least does not add to it.
  ghost predicate Spends(s: System, s': System, t: Time, useful: bool) {
    var before, after := Budget(s.outbox.deliveries, t), Budget(s'.outbox.deliveries, t);
    after <= before && (useful && before > 0 ==> after < before)
  }

  lemma PostedSpends(o: Webhook.Outbox, d: Option<Webhook.Delivery>, t: Time)
    requires d.Some? ==> d.value.id !in o.deliveries && d.value.createdAt > t
    ensures Budget(Posted(o, d).deliveries, t) == Budget(o.deliveries, t)
  {
    if d.Some? {
      LaterDeliveryIsFree(o.deliveries, d.value, t);
    }
  }

  lemma CommitSpends(s: System, s': System, pid: Pid, now: Time, t: Time)
    requires Inv(s) && Settled(s, t) && Committed(s, s', pid, now)
    ensures Spends(s, s', t, false)
  {
    CommitIsNew(s, s', pid, now);
    PostedSpends(s.outbox, s.processes[pid].pc.delivery, t);
  }

  lemma StepSpends(s: System, step: Step, t: Time)
    requires Inv(s) && Settled(s, t) && Enabled(s, step)
    ensures Spends(s, Next(s, step), t, IsUseful(s, step, t))
  {
    if step.Commit? {
      CommitIsCommitted(s, step.pid, step.now);
      CommitSpends(s, Next(s, step), step.pid, step.now, t);
    } else if step.Worker? {
      UsefulSpends(s.config, s.outbox, step.turn, t);
    } else {
      OtherStepPersists(s, step);
    }
  }

  ghost function UsefulSteps(s: System, steps: seq<Step>, t: Time): nat
    requires Legal(s, steps)
    decreases |steps|
  {
    if steps == [] then 0
    else (if IsUseful(s, steps[0], t) then 1 else 0) + UsefulSteps(Next(s, steps[0]), steps[1..], t)
  }

  lemma {:induction false} RunSpends(s: System, steps: seq<Step>, t: Time)
    requires Inv(s) && Settled(s, t) && Legal(s, steps)
    ensures var m, m' := s.outbox.deliveries, After(s, steps).outbox.deliveries;
            && Budget(m', t) <= Budget(m, t)
            && (Budget(m', t) > 0 ==> Budget(m', t) + UsefulSteps(s, steps, t) <= Budget(m, t))
    decreases |steps|
  {
    if steps != [] {
      StepKeepsInv(s, steps[0]);
      StepSettled(s, steps[0], t);
      StepSpends(s, steps[0], t);
      RunSpends(Next(s, steps[0]), steps[1..], t);
    }
  }

  // From every reachable state, whatever is committed, announced, popped, lost,
  // scanned or restarted in between: as many turns as the deliveries created up to
  // t have budget, each saving an attempt on one of them or scanning after their
  // scheduled retries, leave each of them succeeded or failed. Newer deliveries
  // cannot hold them up, because the oldest come first.
  lemma DeliveriesFinish(c: Webhook.Config, now: Time, earlier: seq<Step>, later: seq<Step>, t: Time)
    requires Legal(Initial(c, now), earlier) && Legal(After(Initial(c, now), earlier), later)
    requires Settled(After(Initial(c, now), earlier), t)
    requires var s := After(Initial(c, now), earlier); UsefulSteps(s, later, t) >= Budget(s.outbox.deliveries, t)
    ensures var m := After(Initial(c, now), earlier).outbox.deliveries;
            var m' := After(After(Initial(c, now), earlier), later).outbox.deliveries;
            Webhook.Persists(m, m') && FinishedUpTo(m', t)
  {
    InitialInv(c, now);
    InvAlways(Initial(c, now), earlier);
    var s := After(Initial(c, now), earlier);
    RunSpends(s, later, t);
    RunPersists(s, later);
    InvAlways(s, later);
    var s' := After(s, later);
    assert Webhook.OutboxOk(s'.config, s'.outbox);
    NoBudgetMeansFinished(s'.outbox.deliveries, t);
  }
}
