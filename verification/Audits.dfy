// What an audit sees of a running system: the reconciliation checker, the
// idempotency table and the outbox, in every reachable state.
module Audits {
  import opened Entities
  import opened Ledger
  import opened Reconciliation
  import opened Conservation
  import opened Engine
  import opened Honesty
  import opened EndToEnd
  import opened Protocol
  import opened Invariant
  import opened CommitSteps
  import opened EarlySends
  import opened Runs
  import Webhook

  // The state a run reaches from the empty database.
  ghost function Reached(c: Webhook.Config, now: Time, steps: seq<Step>): System
    requires Legal(Initial(c, now), steps)
  {
    After(Initial(c, now), steps)
  }

  lemma ReachedInv(c: Webhook.Config, now: Time, steps: seq<Step>)
    requires Legal(Initial(c, now), steps)
    ensures Inv(Reached(c, now, steps))
  {
    InitialInv(c, now);
    InvAlways(Initial(c, now), steps);
  }

  // Every reachable state is healthy, however its rows are listed: no wallet,
  // transaction or ledger issue.
  lemma EveryStateIsHealthy(c: Webhook.Config, now: Time, steps: seq<Step>,
                            ws: seq<Wallet>, ts: seq<Transaction>, ls: seq<LedgerEntry>)
    requires Legal(Initial(c, now), steps)
    requires var t := Reached(c, now, steps).tables;
             ListsWallets(t, ws) && multiset(ts) == multiset(t.transactions) && multiset(ls) == multiset(t.ledger)
    ensures var r := ReportOf(ws, ts, ls);
            r.healthy && r.wallets == [] && r.transactions == [] && r.ledger == []
  {
    ReachedInv(c, now, steps);
    HonestIsHealthy(Reached(c, now, steps).tables, ws, ts, ls);
  }

  // Every reachable state conserves money exactly, and every balance is the
  // mathematical sum of its entries: nothing ever wrapped.
  lemma EveryStateConserves(c: Webhook.Config, now: Time, steps: seq<Step>, ws: seq<Wallet>)
    requires Legal(Initial(c, now), steps) && ListsWallets(Reached(c, now, steps).tables, ws)
    ensures var t := Reached(c, now, steps).tables;
            && TotalBalance(ws) == TotalTopUps(t.transactions)
            && forall w :: w in t.wallets ==>
                 t.wallets[w].balance >= 0 && t.wallets[w].balance == Net(Group(ByWallet, w, t.ledger))
  {
    ReachedInv(c, now, steps);
    var t := Reached(c, now, steps).tables;
    HonestConservesMoney(t, ws);
    forall w | w in t.wallets
      ensures t.wallets[w].balance >= 0 && t.wallets[w].balance == Net(Group(ByWallet, w, t.ledger))
    {
      BalanceIsNet(t, w);
    }
  }

  // Every reachable state has completed records only, one for each transaction,
  // and nobody is ever told that a request is still being processed.
  lemma EveryRecordIsComplete(c: Webhook.Config, now: Time, steps: seq<Step>)
    requires Legal(Initial(c, now), steps)
    ensures var s := Reached(c, now, steps);
            && (forall k :: k in s.tables.records ==> s.tables.records[k].status == 200)
            && (forall k :: k in s.tables.records ==>
                  exists x :: x in s.tables.transactions && KeyOfTransaction(x) == k)
            && (forall x :: x in s.tables.transactions ==> KeyOfTransaction(x) in s.tables.records)
            && (forall i, j :: 0 <= i < j < |s.tables.transactions| ==>
                  KeyOfTransaction(s.tables.transactions[i]) != KeyOfTransaction(s.tables.transactions[j]))
            && (forall pid :: pid in s.processes ==> s.processes[pid].pc != Done(Failure(StillProcessing)))
  {
    ReachedInv(c, now, steps);
    var s := Reached(c, now, steps);
    assert RecordsOk(s.tables) && TransactionsDistinct(s.tables.transactions);
    forall pid | pid in s.processes ensures s.processes[pid].pc != Done(Failure(StillProcessing)) {
      assert ProcessOk(s.config, s.tables, s.clock, s.processes[pid]);
    }
  }

  // The queue holds ids of the table and never outgrows its capacity; a delivery
  // that was never tried is pending and due at any time, even if its announcement
  // was dropped; and the endpoint sees none more often than its budget and its
  // lost updates allow, and each that
  // succeeded at least once.
  ghost predicate OutboxSound(c: Webhook.Config, o: Webhook.Outbox) {
    (forall id :: id in o.queue ==> id in o.deliveries)
    && |o.queue| <= 2 * (if c.workerBatchSize < 1 then 20 else c.workerBatchSize)
    && (forall id, time :: id in o.deliveries && id !in o.tried ==>
          o.deliveries[id].status == Webhook.Pending && Webhook.Due(o.deliveries[id], time))
    && (forall id :: id in o.deliveries ==> Webhook.DeliveryOk(o.deliveries[id]))
    && (forall id :: id in o.deliveries ==>
          multiset(o.sent)[id] <= o.deliveries[id].maxRetry + multiset(o.lost)[id])
    && (forall id :: id in o.deliveries && o.deliveries[id].status == Webhook.Succeeded ==> id in o.sent)
  }

  lemma OutboxIsSound(c: Webhook.Config, o: Webhook.Outbox)
    requires Webhook.OutboxOk(c, o)
    ensures OutboxSound(c, o)
  {
    forall id, time | id in o.deliveries && id !in o.tried
      ensures o.deliveries[id].status == Webhook.Pending && Webhook.Due(o.deliveries[id], time)
    {
      Webhook.PendingUntilTried(c, o, id, time);
    }
    forall id | id in o.deliveries ensures multiset(o.sent)[id] <= o.deliveries[id].maxRetry + multiset(o.lost)[id] {
      Webhook.SendsBounded(c, o, id);
    }
  }

  // In every reachable state the outbox is sound, and its deliveries correspond
  // one to one to the committed transactions while webhooks are active.
  lemma OutboxAgrees(c: Webhook.Config, now: Time, steps: seq<Step>)
    requires Legal(Initial(c, now), steps)
    ensures var s := Reached(c, now, steps);
            DeliveriesMatch(c, s.outbox.deliveries, s.tables.transactions) && OutboxSound(c, s.outbox)
  {
    ReachedInv(c, now, steps);
    ConfigKept(Initial(c, now), steps);
    OutboxIsSound(c, Reached(c, now, steps).outbox);
  }

  // In every reachable state a turn of the worker sends something before its
  // scheduled retry exactly if it pops a delivery that is RETRYING and whose time
  // has not come; scans never do.
  lemma EarlySendsInRuns(c: Webhook.Config, now: Time, steps: seq<Step>, turn: Webhook.Turn)
    requires Legal(Initial(c, now), steps) && Enabled(Reached(c, now, steps), Worker(turn)) && OnTime(turn)
    ensures var o := Reached(c, now, steps).outbox;
            && Webhook.Work(c, o, turn).sent == o.sent + SentIds(Sends(c, o, turn))
            && ((exists x :: x in Sends(c, o, turn) && Early(x)) <==>
                  && turn.Pop? && turn.reply.read && !turn.reply.answer.BadUrl? && o.queue[0] in o.deliveries
                  && o.deliveries[o.queue[0]].status == Webhook.Retrying
                  && o.deliveries[o.queue[0]].nextRetryAt.Some?
                  && turn.reply.now < o.deliveries[o.queue[0]].nextRetryAt.value)
  {
    ReachedInv(c, now, steps);
    ConfigKept(Initial(c, now), steps);
    EarlyIffWaiting(c, Reached(c, now, steps).outbox, turn);
  }

  // ---------- an audit that straddles commits ----------

  lemma CommitExtends(s: System, s': System, pid: Pid, now: Time)
    requires Inv(s) && Committed(s, s', pid, now)
    ensures Extends(s.tables, s'.tables)
  {
    var x := CommittedTables(s, s', pid, now);
  }

  lemma OtherStepExtends(s: System, step: Step)
    requires Enabled(s, step) && !step.Commit?
    ensures Extends(s.tables, Next(s, step).tables)
  {
  }

  lemma StepExtends(s: System, step: Step)
    requires Inv(s) && Enabled(s, step)
    ensures Extends(s.tables, Next(s, step).tables)
  {
    if step.Commit? {
      CommitIsCommitted(s, step.pid, step.now);
      CommitExtends(s, Next(s, step), step.pid, step.now);
    } else {
      OtherStepExtends(s, step);
    }
  }

  lemma {:induction false} RunExtends(s: System, steps: seq<Step>)
    requires Inv(s) && Legal(s, steps)
    ensures Inv(After(s, steps)) && Extends(s.tables, After(s, steps).tables)
    decreases |steps|
  {
    if steps != [] {
      var s' := Next(s, steps[0]);
      StepKeepsInv(s, steps[0]);
      StepExtends(s, steps[0]);
      RunExtends(s', steps[1..]);
      var t := After(s', steps[1..]).tables;
      Prefixes(s.tables.transactions, s'.tables.transactions, t.transactions);
      Prefixes(s.tables.ledger, s'.tables.ledger, t.ledger);
    }
  }

  // Run reads the wallets, lets any steps happen, reads the transactions, lets
  // any steps happen, and reads the ledger. The report has no transaction, chain
  // or arithmetic issue; the rest is explained entirely by the commits between.
  lemma AuditDuringRun(c: Webhook.Config, now: Time, first: seq<Step>, second: seq<Step>, third: seq<Step>,
                       ws: seq<Wallet>, ts: seq<Transaction>, ls: seq<LedgerEntry>)
    requires Legal(Initial(c, now), first)
    requires Legal(Reached(c, now, first), second)
    requires Legal(After(Reached(c, now, first), second), third)
    requires var s0 := Reached(c, now, first);
             var s1 := After(s0, second);
             var s2 := After(s1, third);
             ListsWallets(s0.tables, ws)
             && multiset(ts) == multiset(s1.tables.transactions) && multiset(ls) == multiset(s2.tables.ledger)
    ensures var t0 := Reached(c, now, first).tables;
            var t1 := After(Reached(c, now, first), second).tables;
            var t2 := After(After(Reached(c, now, first), second), third).tables;
            var r := ReportOf(ws, ts, ls);
            && |t0.ledger| <= |t2.ledger|
            && r.transactions == []
            && (forall i :: i in r.ledger <==> exists e :: e in t2.ledger && TooLate(t0, t1, e, i))
            && (forall i :: i in r.wallets <==> exists w :: w in ws && BehindBy(t0, t2, w, i))
  {
    var s0 := Reached(c, now, first);
    ReachedInv(c, now, first);
    RunExtends(s0, second);
    RunExtends(After(s0, second), third);
    NonAtomicReads(s0.tables, After(s0, second).tables, After(After(s0, second), third).tables, ws, ts, ls);
  }
}
