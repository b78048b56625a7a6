// What holds in every reachable state of the concurrent engine.
module Invariant {
  import opened Entities
  import opened Engine
  import opened Honesty
  import opened Preservation
  import opened Protocol
  import Webhook

  predicate Admitted(p: Process) {
    p.pc.Start? || p.pc.Losing? || HoldsKey(p)
  }

  // The locked rows are the committed rows: nobody else can write them.
  ghost predicate RowsCurrent(wallets: map<Id, Wallet>, rows: map<Id, Wallet>) {
    forall w :: w in rows ==> w in wallets && wallets[w] == rows[w]
  }

  // Every locked row precedes every row still waited for.
  ghost predicate LocksAscend(rows: map<Id, Wallet>, waiting: seq<Id>) {
    (forall i, j :: 0 <= i < j < |waiting| ==> waiting[i] < waiting[j])
    && (forall w, v :: w in rows && v in waiting ==> w < v)
  }

  ghost predicate ResolvedOk(t: Tables, p: Process, own: Id)
    requires Validate(p.request).None?
  {
    p.request.user.value in t.owner && t.owner[p.request.user.value] == own && !ToSelf(p.request, own)
  }

  ghost predicate LockingOk(t: Tables, p: Process)
    requires p.pc.Locking? && Validate(p.request).None?
  {
    ResolvedOk(t, p, p.pc.own)
    && RowsCurrent(t.wallets, p.pc.rows)
    && LocksAscend(p.pc.rows, p.pc.waiting)
    && (forall w :: w in p.pc.rows || w in p.pc.waiting ==> w in Targets(p.request, p.pc.own) && w in t.wallets)
  }

  // The transaction is executing exactly the plan made from the committed rows.
  ghost predicate WritingOk(c: Webhook.Config, t: Tables, clock: Time, p: Process)
    requires p.pc.Writing? && Validate(p.request).None?
  {
    ResolvedOk(t, p, p.pc.own)
    && p.pc.rows == RowsOf(t.wallets, Targets(p.request, p.pc.own))
    && Refuse(p.request, p.pc.own, p.pc.rows).None?
    && (var plan := PlanOf(c, p.request, p.pc.own, p.pc.rows, p.draw);
        p.buffer + p.pc.todo == [InsertRecord(PendingRecord(p.request, p.draw))] + plan.writes
        && p.pc.body == plan.body && p.pc.delivery == plan.delivery)
    && (forall w :: w in p.buffer ==> RowOk(w))
    && p.draw.firstTime <= clock && p.draw.secondTime <= clock
    && ClockOk(t, p.request, p.draw)
  }

  ghost predicate ProcessOk(c: Webhook.Config, t: Tables, clock: Time, p: Process) {
    (Admitted(p) ==> Validate(p.request).None?)
    && (p.pc.Losing? ==> KeyOf(p.request) in t.records)
    && (HoldsKey(p) ==> KeyOf(p.request) !in t.records)
    && (HoldsKey(p) && !p.pc.Writing? ==> p.buffer == [InsertRecord(PendingRecord(p.request, p.draw))])
    && (p.pc.Resolved? ==> ResolvedOk(t, p, p.pc.own))
    && (p.pc.Locking? ==> LockingOk(t, p))
    && (p.pc.Writing? ==> WritingOk(c, t, clock, p))
    && (p.pc.Announcing? ==> p.pc.result.Success?)
    && (p.pc.Done? ==> p.pc.outcome != Failure(StillProcessing))
  }

  // Two transactions never hold the same key, the same row or the same new id.
  ghost predicate Compatible(p: Process, q: Process) {
    HeldRows(p) !! HeldRows(q)
    && (HoldsKey(p) && HoldsKey(q) ==>
          IdsOf(p.draw) !! IdsOf(q.draw)
          && (Validate(p.request).None? && Validate(q.request).None? ==> KeyOf(p.request) != KeyOf(q.request)))
  }

  // The primary keys visible in the committed state.
  ghost function Known(t: Tables, o: Webhook.Outbox): set<Id> {
    t.wallets.Keys + t.owner.Keys + (set x | x in t.transactions :: x.id) + (set e | e in t.ledger :: e.id)
    + o.deliveries.Keys
  }

  ghost predicate IdsFresh(known: set<Id>, used: set<Id>, p: Process) {
    HoldsKey(p) ==> IdsOf(p.draw) <= used && IdsOf(p.draw) !! known && p.draw.firstEntry != p.draw.secondEntry
  }

  ghost predicate AllOk(c: Webhook.Config, t: Tables, clock: Time, processes: map<Pid, Process>) {
    forall pid :: pid in processes ==> ProcessOk(c, t, clock, processes[pid])
  }

  ghost predicate AllFresh(known: set<Id>, used: set<Id>, processes: map<Pid, Process>) {
    forall pid :: pid in processes ==> IdsFresh(known, used, processes[pid])
  }

  ghost predicate AllCompatible(processes: map<Pid, Process>) {
    forall p, q :: p in processes && q in processes && p != q ==> Compatible(processes[p], processes[q])
  }

  // p fits in beside everyone but pid.
  ghost predicate FitsIn(processes: map<Pid, Process>, pid: Pid, p: Process) {
    forall q :: q in processes && q != pid ==> Compatible(p, processes[q])
  }

  ghost predicate ClockAhead(t: Tables, clock: Time) {
    forall e :: e in t.ledger ==> e.createdAt < clock
  }

  // d tells the outside world about x.
  predicate Tells(d: Webhook.Delivery, x: Transaction) {
    d.transactionId == x.id && d.transactionRef == x.ref && (d.event == Webhook.TopUpSuccess <==> x.kind == TopUp)
  }

  ghost predicate Told(m: map<Id, Webhook.Delivery>, x: Transaction) {
    exists id :: id in m && Tells(m[id], x)
  }

  ghost predicate TellsSome(transactions: seq<Transaction>, d: Webhook.Delivery) {
    exists x :: x in transactions && Tells(d, x)
  }

  // Deliveries and committed transactions correspond one to one while webhooks
  // are active; otherwise there is no delivery at all.
  ghost predicate DeliveriesMatch(c: Webhook.Config, m: map<Id, Webhook.Delivery>, transactions: seq<Transaction>) {
    if c.enabled && c.targetUrl != "" then
      (forall x :: x in transactions ==> Told(m, x))
      && (forall id :: id in m ==> TellsSome(transactions, m[id]))
      && (forall i, j :: i in m && j in m && i != j ==> m[i].transactionId != m[j].transactionId)
    else m == map[]
  }

  // An id about to be queued names a committed delivery.
  ghost predicate AnnouncedOk(processes: map<Pid, Process>, deliveries: map<Id, Webhook.Delivery>) {
    forall pid :: pid in processes && processes[pid].pc.Announcing? && processes[pid].pc.announced.Some? ==>
      processes[pid].pc.announced.value in deliveries
  }

  ghost predicate Outgoing(s: System) {
    Webhook.OutboxOk(s.config, s.outbox)
    && AnnouncedOk(s.processes, s.outbox.deliveries)
    && DeliveriesMatch(s.config, s.outbox.deliveries, s.tables.transactions)
  }

  // The committed tables are those of the logged operations run one at a time.
  ghost predicate LogOk(c: Webhook.Config, t: Tables, log: seq<Event>) {
    t == Serial(c, log) && Faithful(c, log)
  }

  ghost predicate Inv(s: System) {
    Honest(s.tables)
    && AllOk(s.config, s.tables, s.clock, s.processes)
    && AllFresh(Known(s.tables, s.outbox), s.used, s.processes)
    && AllCompatible(s.processes)
    && ClockAhead(s.tables, s.clock)
    && Known(s.tables, s.outbox) <= s.used
    && Outgoing(s)
    && LogOk(s.config, s.tables, s.log)
  }

  lemma InitialInv(c: Webhook.Config, now: Time)
    ensures Inv(Initial(c, now))
  {
    EmptyIsHonest();
  }
}
