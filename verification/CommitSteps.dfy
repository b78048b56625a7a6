// A commit keeps the invariant: it shows the others the whole effect of one
// atomic operation, on rows and a key that nobody else holds.
module CommitSteps {
  import opened Int64
  import opened Entities
  import opened Engine
  import opened Honesty
  import opened Meaning
  import opened Preservation
  import opened Protocol
  import opened Invariant
  import opened QuietSteps
  import opened LoudSteps
  import Webhook

  // ---------- what a committed operation touches ----------

  // Only wallets among rows, the record of key, and new entries of rows.
  ghost predicate OnlyTouches(t: Tables, t': Tables, rows: set<Id>, key: IdemKey) {
    t'.owner == t.owner && t'.wallets.Keys == t.wallets.Keys
    && (forall w :: w in t.wallets && w !in rows ==> t'.wallets[w] == t.wallets[w])
    && t'.records.Keys == t.records.Keys + {key}
    && (forall e :: e in t'.ledger ==> e in t.ledger || e.walletId in rows)
  }

  // One new transaction; new entries carry the drawn ids and times.
  ghost predicate Adds(t: Tables, t': Tables, x: Transaction, draw: Draw) {
    t'.transactions == t.transactions + [x] && x.id == draw.transaction
    && t.ledger <= t'.ledger && (forall e :: e in t.ledger ==> e in t'.ledger)
    && (forall e :: e in t'.ledger ==>
          e in t.ledger || (e.id in {draw.firstEntry, draw.secondEntry}
            && e.createdAt in {draw.firstTime, draw.secondTime}))
  }

  // A delivery for x exactly if webhooks are active.
  ghost predicate Reports(c: Webhook.Config, delivery: Option<Webhook.Delivery>, x: Transaction, draw: Draw) {
    (delivery.Some? <==> Webhook.Active(c))
    && (delivery.Some? ==>
          Tells(delivery.value, x) && delivery.value.id == draw.delivery
          && Webhook.DeliveryOk(delivery.value) && delivery.value.status == Webhook.Pending)
  }

  lemma TopUpTouches(t: Tables, r: Request, w: Wallet, draw: Draw, rows: set<Id>)
    requires r.TopUpRequest? && Validate(r).None? && w.balance + r.amount <= MAX_INT64 && Holds(t, w) && w.id in rows
    ensures var t' := AfterTopUp(t, r, w, draw);
            OnlyTouches(t, t', rows, KeyOf(r)) && Adds(t, t', TopUpTransaction(r, w.id, draw), draw)
  {
  }

  lemma TransferTouches(t: Tables, r: Request, s: Wallet, d: Wallet, draw: Draw, rows: set<Id>)
    requires r.TransferRequest? && Validate(r).None? && 0 <= s.balance - r.amount && d.balance + r.amount <= MAX_INT64
    requires Holds(t, s) && Holds(t, d) && s.id in rows && d.id in rows
    ensures var t' := AfterTransfer(t, r, s, d, draw);
            OnlyTouches(t, t', rows, KeyOf(r)) && Adds(t, t', TransferTransaction(r, s.id, d.id, draw), draw)
  {
  }

  lemma NewDeliveryReports(c: Webhook.Config, event: Webhook.Event, x: Transaction, draw: Draw)
    requires NoticeOk(c) && (event == Webhook.TopUpSuccess <==> x.kind == TopUp)
    ensures Reports(c, Webhook.NewDelivery(c, draw.delivery, event, x, draw.secondTime), x, draw)
  {
    if Webhook.Active(c) {
      Webhook.NewDeliveryOk(c, draw.delivery, event, x, draw.secondTime);
    }
  }

  lemma CommitEffect(c: Webhook.Config, t: Tables, r: Request, draw: Draw, rows: set<Id>) returns (x: Transaction)
    requires WalletsOk(t) && Executed(Execute(c, t, r, draw))
    requires Validate(r).None? && r.user.value in t.owner && t.owner[r.user.value] in rows
    requires r.TransferRequest? ==> r.recipient.value in rows
    ensures var e := Execute(c, t, r, draw);
            OnlyTouches(t, e.tables, rows, KeyOf(r)) && Adds(t, e.tables, x, draw) && Reports(c, e.delivery, x, draw)
  {
    var own := t.owner[r.user.value];
    if r.TopUpRequest? {
      TopUpMeaning(c, t, r, draw);
      x := TopUpTransaction(r, own, draw);
      TopUpTouches(t, r, t.wallets[own], draw, rows);
      NewDeliveryReports(c, Webhook.TopUpSuccess, x, draw);
    } else {
      TransferMeaning(c, t, r, draw);
      x := TransferTransaction(r, own, r.recipient.value, draw);
      TransferTouches(t, r, t.wallets[own], t.wallets[r.recipient.value], draw, rows);
      NewDeliveryReports(c, Webhook.TransferSuccess, x, draw);
    }
  }

  // ---------- the others ----------

  lemma StillLater(t: Tables, t': Tables, rows: set<Id>, key: IdemKey, w: Id, now: Time)
    requires OnlyTouches(t, t', rows, key) && LaterOn(t.ledger, w, now) && w !in rows
    ensures LaterOn(t'.ledger, w, now)
  {
  }

  // A process that holds neither the key nor any of the rows does not notice.
  lemma OtherOk(c: Webhook.Config, t: Tables, t': Tables, clock: Time, rows: set<Id>, key: IdemKey, q: Process)
    requires ProcessOk(c, t, clock, q) && OnlyTouches(t, t', rows, key)
    requires HeldRows(q) !! rows && (HoldsKey(q) ==> KeyOf(q.request) != key)
    ensures ProcessOk(c, t', clock, q)
  {
    if q.pc.Writing? {
      var own := q.pc.own;
      assert q.pc.rows == RowsOf(t'.wallets, Targets(q.request, own));
      StillLater(t, t', rows, key, own, q.draw.firstTime);
      if q.request.TransferRequest? {
        StillLater(t, t', rows, key, q.request.recipient.value, q.draw.secondTime);
      }
    }
  }

  lemma OtherFresh(known: set<Id>, known': set<Id>, used: set<Id>, p: Process, q: Process)
    requires IdsFresh(known, used, q) && known' <= known + IdsOf(p.draw) && Compatible(p, q) && HoldsKey(p)
    ensures IdsFresh(known', used, q)
  {
  }

  // ---------- the outbox ----------

  lemma ToldGrows(m: map<Id, Webhook.Delivery>, y: Transaction, d: Webhook.Delivery)
    requires Told(m, y) && d.id !in m
    ensures Told(m[d.id := d], y)
  {
    var id :| id in m && Tells(m[id], y);
    assert m[d.id := d][id] == m[id];
  }

  lemma TellsSomeGrows(xs: seq<Transaction>, x: Transaction, d: Webhook.Delivery)
    requires TellsSome(xs, d) || Tells(d, x)
    ensures TellsSome(xs + [x], d)
  {
    if TellsSome(xs, d) {
      var y :| y in xs && Tells(d, y);
      assert y in xs + [x];
    } else {
      assert x in xs + [x];
    }
  }

  lemma MatchGrows(c: Webhook.Config, m: map<Id, Webhook.Delivery>, xs: seq<Transaction>, x: Transaction,
                   d: Webhook.Delivery)
    requires DeliveriesMatch(c, m, xs) && Webhook.Active(c) && Tells(d, x)
    requires d.id !in m && forall y :: y in xs ==> y.id != x.id
    ensures DeliveriesMatch(c, m[d.id := d], xs + [x])
  {
    var m' := m[d.id := d];
    forall y | y in xs + [x] ensures Told(m', y) {
      if y in xs {
        ToldGrows(m, y, d);
      } else {
        assert m'[d.id] == d;
      }
    }
    forall id | id in m' ensures TellsSome(xs + [x], m'[id]) {
      TellsSomeGrows(xs, x, m'[id]);
    }
    forall id | id in m ensures m[id].transactionId != d.transactionId {
      assert TellsSome(xs, m[id]);
    }
  }

  lemma KnownGrows(t: Tables, t': Tables, o: Webhook.Outbox, o': Webhook.Outbox, x: Transaction, draw: Draw)
    requires t'.wallets.Keys == t.wallets.Keys && t'.owner == t.owner && Adds(t, t', x, draw)
    requires o'.deliveries.Keys <= o.deliveries.Keys + {draw.delivery}
    ensures Known(t', o') <= Known(t, o) + IdsOf(draw)
  {
  }

  // ---------- the commit ----------

  lemma DrawIsFresh(t: Tables, o: Webhook.Outbox, used: set<Id>, p: Process)
    requires IdsFresh(Known(t, o), used, p) && HoldsKey(p)
    ensures DrawFresh(t, p.draw) && p.draw.delivery !in o.deliveries
  {
    forall x | x in t.transactions ensures x.id != p.draw.transaction {
      assert x.id in Known(t, o);
    }
    forall e | e in t.ledger ensures e.id != p.draw.firstEntry && e.id != p.draw.secondEntry {
      assert e.id in Known(t, o);
    }
  }

  lemma CommittedEffect(c: Webhook.Config, t: Tables, clock: Time, p: Process, o: Webhook.Outbox, used: set<Id>)
      returns (x: Transaction)
    requires Honest(t) && ProcessOk(c, t, clock, p) && p.pc.Writing? && p.pc.todo == []
    requires IdsFresh(Known(t, o), used, p)
    ensures Validate(p.request).None?
    ensures var t' := ApplyAll(t, p.buffer);
            Honest(t') && OnlyTouches(t, t', HeldRows(p), KeyOf(p.request)) && Adds(t, t', x, p.draw)
            && Reports(c, p.pc.delivery, x, p.draw)
  {
    DrawIsFresh(t, o, used, p);
    CommitIsExecute(c, t, clock, p);
    ExecuteKeepsHonest(c, t, p.request, p.draw);
    x := CommitEffect(c, t, p.request, p.draw, HeldRows(p));
  }

  // The outbox after the commit.
  function Posted(o: Webhook.Outbox, delivery: Option<Webhook.Delivery>): Webhook.Outbox {
    if delivery.Some? then Webhook.Insert(o, delivery.value) else o
  }

  lemma CommittedOutbox(c: Webhook.Config, o: Webhook.Outbox, xs: seq<Transaction>, x: Transaction,
                        delivery: Option<Webhook.Delivery>, draw: Draw)
    requires Webhook.OutboxOk(c, o) && DeliveriesMatch(c, o.deliveries, xs) && Reports(c, delivery, x, draw)
    requires draw.delivery !in o.deliveries && forall y :: y in xs ==> y.id != x.id
    ensures Webhook.OutboxOk(c, Posted(o, delivery)) && DeliveriesMatch(c, Posted(o, delivery).deliveries, xs + [x])
    ensures o.deliveries.Keys <= Posted(o, delivery).deliveries.Keys <= o.deliveries.Keys + {draw.delivery}
  {
    if delivery.Some? {
      Webhook.InsertKeepsOk(c, o, delivery.value);
      MatchGrows(c, o.deliveries, xs, x, delivery.value);
    }
  }

  lemma CommittedOthers(c: Webhook.Config, t: Tables, t': Tables, clock: Time, now: Time, processes: map<Pid, Process>,
                        pid: Pid, p': Process)
    requires pid in processes && AllOk(c, t, clock, processes) && AllCompatible(processes) && clock <= now
    requires HoldsKey(processes[pid]) && Validate(processes[pid].request).None?
    requires OnlyTouches(t, t', HeldRows(processes[pid]), KeyOf(processes[pid].request))
    requires p'.pc.Announcing? && p'.pc.result.Success?
    ensures AllOk(c, t', now, processes[pid := p']) && AllCompatible(processes[pid := p'])
  {
    var p := processes[pid];
    forall q | q in processes && q != pid ensures ProcessOk(c, t', now, processes[q]) {
      assert ProcessOk(c, t, clock, processes[q]) && Compatible(p, processes[q]);
      OtherOk(c, t, t', clock, HeldRows(p), KeyOf(p.request), processes[q]);
      OlderOk(c, t', clock, now, processes[q]);
    }
    FitOne(processes, pid, p');
  }

  lemma CommittedFresh(known: set<Id>, known': set<Id>, used: set<Id>, processes: map<Pid, Process>, pid: Pid,
                       p': Process)
    requires pid in processes && AllFresh(known, used, processes) && AllCompatible(processes)
    requires HoldsKey(processes[pid]) && known' <= known + IdsOf(processes[pid].draw) && !HoldsKey(p')
    ensures AllFresh(known', used, processes[pid := p'])
  {
    forall q | q in processes && q != pid ensures IdsFresh(known', used, processes[q]) {
      assert Compatible(processes[pid], processes[q]);
      OtherFresh(known, known', used, processes[pid], processes[q]);
    }
  }

  lemma CommittedClock(t: Tables, t': Tables, x: Transaction, draw: Draw, clock: Time, now: Time)
    requires Adds(t, t', x, draw) && ClockAhead(t, clock) && draw.firstTime <= clock && draw.secondTime <= clock < now
    ensures ClockAhead(t', now)
  {
  }

  // The state after a commit, with the outbox it is known to leave.
  ghost predicate Committed(s: System, s': System, pid: Pid, now: Time)
  {
    pid in s.processes && s.clock < now
    && var p := s.processes[pid];
    p.pc.Writing? && p.pc.todo == []
    && var outcome := Success(200, p.pc.body, false);
    var id := if p.pc.delivery.Some? then Some(p.pc.delivery.value.id) else None;
    s' == System(s.config, ApplyAll(s.tables, p.buffer), Posted(s.outbox, p.pc.delivery),
                 s.processes[pid := p.(pc := Announcing(outcome, id), buffer := [])],
                 s.log + [Answered(pid, p.request, p.draw, outcome)], now, s.used, s.grants)
  }

  lemma CommittedLog(s: System, s': System, pid: Pid, now: Time)
    requires LogOk(s.config, s.tables, s.log) && Committed(s, s', pid, now)
    requires ProcessOk(s.config, s.tables, s.clock, s.processes[pid])
    ensures LogOk(s'.config, s'.tables, s'.log)
  {
    var p := s.processes[pid];
    CommitIsExecute(s.config, s.tables, s.clock, p);
    LogGrows(s.config, s.tables, s.log, pid, p.request, p.draw, Success(200, p.pc.body, false));
  }

  lemma AnnouncedGrows(processes: map<Pid, Process>, earlier: set<Id>, deliveries: map<Id, Webhook.Delivery>, pid: Pid,
                       p': Process)
    requires forall q :: q in processes && processes[q].pc.Announcing? && processes[q].pc.announced.Some? ==>
               processes[q].pc.announced.value in earlier
    requires earlier <= deliveries.Keys && p'.pc.Announcing?
             && (p'.pc.announced.Some? ==> p'.pc.announced.value in deliveries)
    ensures AnnouncedOk(processes[pid := p'], deliveries)
  {
  }

  lemma CommittedTables(s: System, s': System, pid: Pid, now: Time) returns (x: Transaction)
    requires Inv(s) && Committed(s, s', pid, now)
    ensures var p := s.processes[pid];
            Validate(p.request).None? && Honest(s'.tables) && LogOk(s'.config, s'.tables, s'.log)
            && OnlyTouches(s.tables, s'.tables, HeldRows(p), KeyOf(p.request))
            && Adds(s.tables, s'.tables, x, p.draw) && Reports(s.config, p.pc.delivery, x, p.draw)
            && DrawFresh(s.tables, p.draw) && p.draw.delivery !in s.outbox.deliveries
            && p.draw.firstTime <= s.clock && p.draw.secondTime <= s.clock
  {
    var p := s.processes[pid];
    assert ProcessOk(s.config, s.tables, s.clock, p) && IdsFresh(Known(s.tables, s.outbox), s.used, p);
    DrawIsFresh(s.tables, s.outbox, s.used, p);
    x := CommittedEffect(s.config, s.tables, s.clock, p, s.outbox, s.used);
    CommittedLog(s, s', pid, now);
  }

  lemma CommittedKeepsInv(s: System, s': System, pid: Pid, now: Time)
    requires Inv(s) && Committed(s, s', pid, now)
    ensures Inv(s')
  {
    var p := s.processes[pid];
    var known, known' := Known(s.tables, s.outbox), Known(s'.tables, s'.outbox);
    var x := CommittedTables(s, s', pid, now);
    assert Webhook.OutboxOk(s'.config, s'.outbox)
      && DeliveriesMatch(s'.config, s'.outbox.deliveries, s'.tables.transactions)
        && s.outbox.deliveries.Keys <= s'.outbox.deliveries.Keys <= s.outbox.deliveries.Keys + {p.draw.delivery} by {
      CommittedOutbox(s.config, s.outbox, s.tables.transactions, x, p.pc.delivery, p.draw);
    }
    assert AllOk(s'.config, s'.tables, s'.clock, s'.processes) && AllCompatible(s'.processes) by {
      CommittedOthers(s.config, s.tables, s'.tables, s.clock, now, s.processes, pid, s'.processes[pid]);
    }
    assert known' <= known + IdsOf(p.draw) by { KnownGrows(s.tables, s'.tables, s.outbox, s'.outbox, x, p.draw); }
    assert AllFresh(known', s.used, s'.processes) && IdsOf(p.draw) <= s.used by {
      assert IdsFresh(known, s.used, p);
      CommittedFresh(known, known', s.used, s.processes, pid, s'.processes[pid]);
    }
    assert ClockAhead(s'.tables, now) by { CommittedClock(s.tables, s'.tables, x, p.draw, s.clock, now); }
    assert AnnouncedOk(s'.processes, s'.outbox.deliveries) by {
      AnnouncedGrows(s.processes, s.outbox.deliveries.Keys, s'.outbox.deliveries, pid, s'.processes[pid]);
    }
  }

  lemma CommitIsCommitted(s: System, pid: Pid, now: Time)
    requires AllOk(s.config, s.tables, s.clock, s.processes) && Enabled(s, Commit(pid, now))
    ensures Committed(s, Next(s, Commit(pid, now)), pid, now)
  {
    assert ProcessOk(s.config, s.tables, s.clock, s.processes[pid]);
    CommitDelivers(s.config, s.tables, s.clock, s.processes[pid], s.outbox);
  }
}
