// Deliveries in every reachable state: each carries the configuration, is sent no
// more often than that allows, and is handed to the queue after its commit.
module Deliveries {
  import opened Entities
  import opened Engine
  import opened Protocol
  import opened Invariant
  import opened CommitSteps
  import opened Runs
  import opened Finishing
  import Webhook

  // ---------- the configuration of every row ----------

  ghost predicate AllConfigured(c: Webhook.Config, m: map<Id, Webhook.Delivery>) {
    forall id :: id in m ==> Webhook.Configured(c, m[id])
  }

  lemma PlannedDelivery(c: Webhook.Config, t: Tables, clock: Time, p: Process)
    requires ProcessOk(c, t, clock, p) && p.pc.Writing?
    ensures p.pc.delivery.Some? ==> Webhook.Configured(c, p.pc.delivery.value)
  {
  }

  lemma PostedConfigured(c: Webhook.Config, o: Webhook.Outbox, d: Option<Webhook.Delivery>)
    requires AllConfigured(c, o.deliveries) && (d.Some? ==> Webhook.Configured(c, d.value))
    ensures AllConfigured(c, Posted(o, d).deliveries)
  {
  }

  lemma CommitConfigured(s: System, s': System, pid: Pid, now: Time)
    requires AllOk(s.config, s.tables, s.clock, s.processes) && Committed(s, s', pid, now)
    requires AllConfigured(s.config, s.outbox.deliveries)
    ensures AllConfigured(s.config, s'.outbox.deliveries)
  {
    PlannedDelivery(s.config, s.tables, s.clock, s.processes[pid]);
    PostedConfigured(s.config, s.outbox, s.processes[pid].pc.delivery);
  }

  lemma DescendantsConfigured(c: Webhook.Config, m: map<Id, Webhook.Delivery>, m': map<Id, Webhook.Delivery>)
    requires AllConfigured(c, m) && Webhook.Descends(m, m')
    ensures AllConfigured(c, m')
  {
    forall id | id in m' ensures Webhook.Configured(c, m'[id]) {
      assert Webhook.SameOrigin(m[id], m'[id]);
    }
  }

  lemma StepConfigured(s: System, step: Step)
    requires Inv(s) && Enabled(s, step) && AllConfigured(s.config, s.outbox.deliveries)
    ensures AllConfigured(s.config, Next(s, step).outbox.deliveries)
  {
    if step.Commit? {
      CommitIsCommitted(s, step.pid, step.now);
      CommitConfigured(s, Next(s, step), step.pid, step.now);
    } else if step.Worker? {
      Webhook.WorkKeepsOk(s.config, s.outbox, step.turn);
      DescendantsConfigured(s.config, s.outbox.deliveries, Next(s, step).outbox.deliveries);
    } else {
      OtherStepPersists(s, step);
    }
  }

  lemma {:induction false} RunConfigured(s: System, steps: seq<Step>)
    requires Inv(s) && Legal(s, steps) && AllConfigured(s.config, s.outbox.deliveries)
    ensures AllConfigured(s.config, After(s, steps).outbox.deliveries)
    decreases |steps|
  {
    if steps != [] {
      StepKeepsInv(s, steps[0]);
      StepConfigured(s, steps[0]);
      ConfigKept(s, [steps[0]]);
      RunConfigured(Next(s, steps[0]), steps[1..]);
    }
  }

  // In every reachable state each delivery goes to the configured target with the
  // configured secret and number of attempts, 3 if none is configured; it has
  // failed no more often than that, and was sent no more often than that and the
  // updates of it that were lost.
  lemma DeliveriesAsConfigured(c: Webhook.Config, now: Time, steps: seq<Step>, id: Id)
    requires Legal(Initial(c, now), steps) && id in After(Initial(c, now), steps).outbox.deliveries
    ensures var o := After(Initial(c, now), steps).outbox;
            var d, budget := o.deliveries[id], if c.maxRetry < 1 then 3 else c.maxRetry;
            && c.enabled && c.targetUrl != "" && d.targetUrl == c.targetUrl
            && d.secret == (if c.secret == "" then None else Some(c.secret))
            && d.maxRetry == budget && 0 <= d.retryCount <= budget
            && (d.status == Webhook.Failed <==> d.retryCount == budget)
            && multiset(o.sent)[id] <= budget + multiset(o.lost)[id]
  {
    InitialInv(c, now);
    InvAlways(Initial(c, now), steps);
    RunConfigured(Initial(c, now), steps);
    ConfigKept(Initial(c, now), steps);
    var s := After(Initial(c, now), steps);
    assert Webhook.Configured(c, s.outbox.deliveries[id]);
    Webhook.SendsBounded(c, s.outbox, id);
    assert Webhook.DeliveryOk(s.outbox.deliveries[id]);
  }

  // ---------- the hand-over ----------

  // The delivery that a commit hands over is new and tells of its transaction.
  ghost predicate HandsOver(c: Webhook.Config, s: System, s': System, announced: Option<Id>) {
    (announced.Some? <==> c.enabled && c.targetUrl != "")
    && (announced.Some? ==>
          && announced.value !in s.outbox.deliveries && announced.value in s'.outbox.deliveries
          && s'.tables.transactions != []
          && Tells(s'.outbox.deliveries[announced.value], s'.tables.transactions[|s'.tables.transactions| - 1]))
  }

  lemma CommitHandsOver(s: System, s': System, pid: Pid, now: Time)
    requires Inv(s) && Committed(s, s', pid, now)
    ensures pid in s'.processes && s'.processes[pid].pc.Announcing?
    ensures HandsOver(s.config, s, s', s'.processes[pid].pc.announced)
  {
    var x := CommittedTables(s, s', pid, now);
  }

  // In every reachable state a commit leaves its caller with a new delivery to
  // announce exactly if webhooks are on and have a target.
  lemma CommitAnnounces(c: Webhook.Config, now: Time, steps: seq<Step>, pid: Pid, time: Time)
    requires Legal(Initial(c, now), steps) && Enabled(After(Initial(c, now), steps), Commit(pid, time))
    ensures var s := After(Initial(c, now), steps);
            var s' := Next(s, Commit(pid, time));
            && pid in s'.processes && s'.processes[pid].pc.Announcing?
            && HandsOver(c, s, s', s'.processes[pid].pc.announced)
  {
    InitialInv(c, now);
    InvAlways(Initial(c, now), steps);
    ConfigKept(Initial(c, now), steps);
    var s := After(Initial(c, now), steps);
    CommitIsCommitted(s, pid, time);
    CommitHandsOver(s, Next(s, Commit(pid, time)), pid, time);
  }

  // A commit's delivery is queued when it is announced, unless the queue holds
  // twice the batch already; the worker takes ids from the front; a restart loses
  // them; nothing else touches the queue.
  lemma QueueMoves(c: Webhook.Config, now: Time, steps: seq<Step>, step: Step)
    requires Legal(Initial(c, now), steps) && Enabled(After(Initial(c, now), steps), step)
    ensures var s := After(Initial(c, now), steps);
            var capacity := 2 * (if c.workerBatchSize < 1 then 20 else c.workerBatchSize);
            Next(s, step).outbox.queue ==
            match step
            case Announcement(pid) =>
              var announced := s.processes[pid].pc.announced;
              if announced.Some? && c.enabled && |s.outbox.queue| < capacity then s.outbox.queue + [announced.value]
              else s.outbox.queue
            case Worker(turn) => if turn.Pop? then s.outbox.queue[1..] else s.outbox.queue
            case Restart => []
            case _ => s.outbox.queue
  {
    ConfigKept(Initial(c, now), steps);
    StepMovesQueue(After(Initial(c, now), steps), step);
  }

  lemma {:induction false} ProcessAllKeepsQueue(c: Webhook.Config, o: Webhook.Outbox, batch: seq<Id>,
                                                replies: seq<Webhook.Reply>)
    requires |batch| == |replies|
    ensures Webhook.ProcessAll(c, o, batch, replies).queue == o.queue
  {
    if batch != [] {
      ProcessAllKeepsQueue(c, o, batch[..|batch| - 1], replies[..|batch| - 1]);
    }
  }

  lemma {:induction false} DeliverKeepsQueue(o: Webhook.Outbox, writes: seq<Write>)
    ensures Deliver(o, writes).queue == o.queue
  {
    if writes != [] {
      DeliverKeepsQueue(o, writes[..|writes| - 1]);
    }
  }

  lemma StepMovesQueue(s: System, step: Step)
    requires Enabled(s, step)
    ensures var q, c := s.outbox.queue, s.config;
            Next(s, step).outbox.queue ==
            match step
            case Announcement(pid) =>
              if s.processes[pid].pc.announced.Some?
              then Webhook.Announce(c, s.outbox, s.processes[pid].pc.announced.value).queue else q
            case Worker(turn) => if turn.Pop? then q[1..] else q
            case Restart => []
            case _ => q
  {
    match step
    case Commit(pid, _) => DeliverKeepsQueue(s.outbox, s.processes[pid].buffer);
    case Worker(turn) =>
      if turn.Scan? {
        ProcessAllKeepsQueue(s.config, s.outbox, turn.batch, turn.replies);
      }
    case _ =>
  }
}
