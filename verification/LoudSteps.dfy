// The steps that change what others can see keep the invariant.
module LoudSteps {
  import opened Int64
  import opened Entities
  import opened Engine
  import opened Honesty
  import opened Meaning
  import opened Preservation
  import opened Protocol
  import opened Invariant
  import opened QuietSteps
  import Webhook

  // ---------- the worker and the clock ----------

  lemma MatchDescends(c: Webhook.Config, m: map<Id, Webhook.Delivery>, m': map<Id, Webhook.Delivery>,
                      xs: seq<Transaction>)
    requires DeliveriesMatch(c, m, xs) && Webhook.Descends(m, m')
    ensures DeliveriesMatch(c, m', xs)
  {
    forall x | x in xs && Webhook.Active(c) ensures Told(m', x) {
      assert Told(m, x);
      var id :| id in m && Tells(m[id], x);
      assert Tells(m'[id], x);
    }
    forall id | id in m' && Webhook.Active(c) ensures TellsSome(xs, m'[id]) {
      assert TellsSome(xs, m[id]);
      var x :| x in xs && Tells(m[id], x);
      assert Tells(m'[id], x);
    }
  }

  lemma WorkedOutbox(c: Webhook.Config, o: Webhook.Outbox, turn: Webhook.Turn, processes: map<Pid, Process>,
                     xs: seq<Transaction>)
    requires Webhook.OutboxOk(c, o) && Webhook.Possible(c, o, turn)
    requires DeliveriesMatch(c, o.deliveries, xs) && AnnouncedOk(processes, o.deliveries)
    ensures var o' := Webhook.Work(c, o, turn);
            Webhook.OutboxOk(c, o') && o'.deliveries.Keys == o.deliveries.Keys
            && DeliveriesMatch(c, o'.deliveries, xs) && AnnouncedOk(processes, o'.deliveries)
  {
    Webhook.WorkKeepsOk(c, o, turn);
    MatchDescends(c, o.deliveries, Webhook.Work(c, o, turn).deliveries, xs);
  }

  lemma OutboxKeepsInv(s: System, o: Webhook.Outbox)
    requires Inv(s) && Webhook.OutboxOk(s.config, o) && o.deliveries.Keys == s.outbox.deliveries.Keys
    requires DeliveriesMatch(s.config, o.deliveries, s.tables.transactions) && AnnouncedOk(s.processes, o.deliveries)
    ensures Inv(s.(outbox := o))
  {
    var s' := s.(outbox := o);
    assert s'.config == s.config && s'.tables == s.tables && s'.processes == s.processes;
    assert s'.log == s.log && s'.clock == s.clock && s'.used == s.used && s'.outbox == o;
    assert Known(s'.tables, s'.outbox) == Known(s.tables, s.outbox);
    assert Outgoing(s');
  }

  lemma RestartKeepsInv(s: System)
    requires Inv(s)
    ensures Inv(s.(outbox := Webhook.Restarted(s.outbox)))
  {
    OutboxKeepsInv(s, Webhook.Restarted(s.outbox));
  }

  lemma WorkerKeepsInv(s: System, turn: Webhook.Turn)
    requires Inv(s) && Webhook.Possible(s.config, s.outbox, turn)
    ensures Inv(s.(outbox := Webhook.Work(s.config, s.outbox, turn)))
  {
    WorkedOutbox(s.config, s.outbox, turn, s.processes, s.tables.transactions);
    OutboxKeepsInv(s, Webhook.Work(s.config, s.outbox, turn));
  }

  lemma TickKeepsInv(s: System, now: Time)
    requires Inv(s) && s.clock <= now
    ensures Inv(s.(clock := now))
  {
    forall pid | pid in s.processes ensures ProcessOk(s.config, s.tables, now, s.processes[pid]) {
      OlderOk(s.config, s.tables, s.clock, now, s.processes[pid]);
    }
    assert Known(s.(clock := now).tables, s.(clock := now).outbox) == Known(s.tables, s.outbox);
  }

  // ---------- registration ----------

  lemma RegisteredOthers(c: Webhook.Config, t: Tables, clock: Time, p: Process, user: Id, wallet: Id)
    requires ProcessOk(c, t, clock, p) && user !in t.owner && wallet !in t.wallets
    ensures ProcessOk(c, Register(t, user, wallet), clock, p)
  {
  }

  lemma LogRegisters(c: Webhook.Config, t: Tables, log: seq<Event>, user: Id, wallet: Id)
    requires LogOk(c, t, log)
    ensures LogOk(c, Register(t, user, wallet), log + [Registered(user, wallet)])
  {
    var log' := log + [Registered(user, wallet)];
    assert log'[..|log|] == log;
    forall i | 0 <= i < |log'| && log'[i].Answered?
      ensures log'[i].outcome.Success? && Validate(log'[i].request).None?
              && log'[i].outcome == Execute(c, Serial(c, log'[..i]), log'[i].request, log'[i].draw).outcome
    {
      assert log'[..i] == log[..i];
    }
  }

  lemma RegisteredFresh(known: set<Id>, used: set<Id>, processes: map<Pid, Process>, ids: set<Id>)
    requires AllFresh(known, used, processes) && ids !! used
    ensures AllFresh(known + ids, used + ids, processes)
  {
    forall pid | pid in processes ensures IdsFresh(known + ids, used + ids, processes[pid]) {
      assert IdsFresh(known, used, processes[pid]);
    }
  }

  lemma RegisteredSteady(s: System, s': System, user: Id, wallet: Id)
    requires Steady(s) && Known(s.tables, s.outbox) <= s.used && user !in s.used && wallet !in s.used
    requires s' == s.(tables := Register(s.tables, user, wallet), used := s.used + {user, wallet},
                      log := s.log + [Registered(user, wallet)])
    ensures Steady(s') && Known(s'.tables, s'.outbox) == Known(s.tables, s.outbox) + {user, wallet}
  {
    var known, known' := Known(s.tables, s.outbox), Known(s'.tables, s'.outbox);
    assert user !in known && wallet !in known;
    assert known' == known + {user, wallet};
    LogRegisters(s.config, s.tables, s.log, user, wallet);
    forall pid | pid in s.processes ensures ProcessOk(s.config, s'.tables, s.clock, s.processes[pid]) {
      RegisteredOthers(s.config, s.tables, s.clock, s.processes[pid], user, wallet);
    }
    RegisteredFresh(known, s.used, s.processes, {user, wallet});
  }

  lemma RegistrationKeepsInv(s: System, user: Id, wallet: Id)
    requires Inv(s) && user !in s.used && wallet !in s.used
    ensures Inv(s.(tables := Register(s.tables, user, wallet), used := s.used + {user, wallet},
                   log := s.log + [Registered(user, wallet)]))
  {
    var s' := s.(tables := Register(s.tables, user, wallet), used := s.used + {user, wallet},
                 log := s.log + [Registered(user, wallet)]);
    assert Steady(s') && Known(s'.tables, s'.outbox) <= s'.used by { RegisteredSteady(s, s', user, wallet); }
    assert Honest(s'.tables) by {
      assert user !in Known(s.tables, s.outbox) && wallet !in Known(s.tables, s.outbox);
      RegisterKeepsHonest(s.tables, user, wallet);
    }
  }

  // ---------- commit: the buffer is the atomic operation ----------

  // What the transaction has executed is what the operation does when run alone
  // on the tables as they are at the commit.
  lemma CommitIsExecute(c: Webhook.Config, t: Tables, clock: Time, p: Process)
    requires ProcessOk(c, t, clock, p) && p.pc.Writing? && p.pc.todo == []
    ensures Validate(p.request).None?
    ensures Execute(c, t, p.request, p.draw)
            == Effect(ApplyAll(t, p.buffer), Success(200, p.pc.body, false), p.pc.delivery)
  {
    var plan := PlanOf(c, p.request, p.pc.own, p.pc.rows, p.draw);
    assert p.buffer + p.pc.todo == p.buffer;
    assert forall w :: w in plan.writes ==> w in [InsertRecord(PendingRecord(p.request, p.draw))] + plan.writes;
  }

  lemma {:induction false} DeliverConcat(o: Webhook.Outbox, a: seq<Write>, b: seq<Write>)
    ensures Deliver(o, a + b) == Deliver(Deliver(o, a), b)
  {
    if b == [] {
      assert a + b == a;
    } else {
      assert (a + b)[..|a + b| - 1] == a + b[..|b| - 1];
      DeliverConcat(o, a, b[..|b| - 1]);
    }
  }

  lemma {:induction false} DeliverNothing(o: Webhook.Outbox, a: seq<Write>)
    requires forall w :: w in a ==> !w.InsertDelivery?
    ensures Deliver(o, a) == o
  {
    if a != [] {
      DeliverNothing(o, a[..|a| - 1]);
    }
  }

  lemma DeliverAssembled(o: Webhook.Outbox, first: Write, key: IdemKey, middle: seq<Write>, body: Body,
                         delivery: Option<Webhook.Delivery>)
    requires !first.InsertDelivery? && forall w :: w in middle ==> !w.InsertDelivery?
    ensures Deliver(o, [first] + Assemble(key, middle, body, delivery).writes)
            == if delivery.Some? then Webhook.Insert(o, delivery.value) else o
  {
    var last := [CompleteRecord(key, 200, body)];
    assert [first] + Assemble(key, middle, body, delivery).writes == ([first] + middle) + Notice(delivery) + last;
    DeliverConcat(o, ([first] + middle) + Notice(delivery), last);
    DeliverConcat(o, [first] + middle, Notice(delivery));
    DeliverNothing(o, [first] + middle);
    DeliverNothing(Deliver(o, ([first] + middle) + Notice(delivery)), last);
    if delivery.Some? {
      assert Notice(delivery)[..0] == [];
      assert Deliver(o, Notice(delivery)) == Webhook.Insert(o, delivery.value);
    }
  }

  lemma CommitDelivers(c: Webhook.Config, t: Tables, clock: Time, p: Process, o: Webhook.Outbox)
    requires ProcessOk(c, t, clock, p) && p.pc.Writing? && p.pc.todo == []
    ensures Deliver(o, p.buffer) == if p.pc.delivery.Some? then Webhook.Insert(o, p.pc.delivery.value) else o
  {
    var r, draw := p.request, p.draw;
    var plan := PlanOf(c, r, p.pc.own, p.pc.rows, draw);
    assert p.buffer + p.pc.todo == p.buffer;
    if r.TopUpRequest? {
      TopUpDelivers(c, r, p.pc.rows[p.pc.own], draw, o);
    } else {
      TransferDelivers(c, r, p.pc.rows[p.pc.own], p.pc.rows[r.recipient.value], draw, o);
    }
  }

  lemma TopUpDelivers(c: Webhook.Config, r: Request, w: Wallet, draw: Draw, o: Webhook.Outbox)
    requires Validate(r).None? && r.TopUpRequest?
    ensures var plan := TopUpPlan(c, r, w, draw);
            Deliver(o, [InsertRecord(PendingRecord(r, draw))] + plan.writes)
            == if plan.delivery.Some? then Webhook.Insert(o, plan.delivery.value) else o
  {
    var x := TopUpTransaction(r, w.id, draw);
    var after := w.(balance := Wrap(w.balance + r.amount));
    var entry := CreditFor(x, w, after.balance, draw.firstEntry, draw.firstTime);
    var middle := [InsertTransaction(x), SaveWallet(after), InsertEntries([entry]), InsertAudit];
    DeliverAssembled(o, InsertRecord(PendingRecord(r, draw)), KeyOf(r), middle, TopUpBody(x, after),
      TopUpPlan(c, r, w, draw).delivery);
  }

  lemma TransferDelivers(c: Webhook.Config, r: Request, s: Wallet, d: Wallet, draw: Draw, o: Webhook.Outbox)
    requires Validate(r).None? && r.TransferRequest?
    ensures var plan := TransferPlan(c, r, s, d, draw);
            Deliver(o, [InsertRecord(PendingRecord(r, draw))] + plan.writes)
            == if plan.delivery.Some? then Webhook.Insert(o, plan.delivery.value) else o
  {
    var x := TransferTransaction(r, s.id, d.id, draw);
    var sAfter, dAfter := s.(balance := Wrap(s.balance - r.amount)), d.(balance := Wrap(d.balance + r.amount));
    var entries := [DebitFor(x, s, sAfter.balance, draw.firstEntry, draw.firstTime),
                    CreditFor(x, d, dAfter.balance, draw.secondEntry, draw.secondTime)];
    var middle := [InsertTransaction(x), SaveWallet(sAfter), SaveWallet(dAfter), InsertEntries(entries), InsertAudit];
    DeliverAssembled(o, InsertRecord(PendingRecord(r, draw)), KeyOf(r), middle, TransferBody(x, sAfter, dAfter),
      TransferPlan(c, r, s, d, draw).delivery);
  }
}
