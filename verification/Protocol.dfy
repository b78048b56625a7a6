// Concurrent execution of the engine. Any number of requests run at once, each as
// one database transaction at READ COMMITTED, one statement per step.
module Protocol {
  import opened Entities
  import opened Engine
  import Webhook

  type Pid = nat

  // Where a request stands in its transaction.
  datatype Pc =
    | Start
    // The key belongs to a committed record: Get comes next.
    | Losing
    // The key is reserved by this transaction: GetByUserID comes next.
    | Reserved
    // Only the id of the unlocked wallet read is kept: LockByIDs comes next.
    | Resolved(own: Id)
    // Inside LockByIDs: rows are locked, waiting remains, in ascending order.
    | Locking(own: Id, waiting: seq<Id>, rows: map<Id, Wallet>)
    // The checks passed: the statements in todo remain.
    | Writing(own: Id, rows: map<Id, Wallet>, todo: seq<Write>, body: Body, delivery: Option<Webhook.Delivery>)
    // Committed: Enqueue comes next.
    | Announcing(result: Outcome, announced: Option<Id>)
    | Done(outcome: Outcome)

  // buffer holds the executed statements that nobody else can see yet.
  datatype Process = Process(request: Request, pc: Pc, draw: Draw, buffer: seq<Write>)

  // The committed operations, in commit order.
  datatype Event =
    | Registered(user: Id, wallet: Id)
    | Answered(pid: Pid, request: Request, draw: Draw, outcome: Outcome)

  // A row lock, granted to a transaction.
  datatype Grant = Grant(holder: Pid, row: Id)

  // used holds every id ever drawn, grants every row lock in the order granted.
  datatype System = System(
    config: Webhook.Config, tables: Tables, outbox: Webhook.Outbox,
    processes: map<Pid, Process>, log: seq<Event>, clock: Time, used: set<Id>, grants: seq<Grant>)

  datatype Step =
    | Registration(user: Id, wallet: Id)
    | Arrival(pid: Pid, request: Request)
    | Reservation(pid: Pid, draw: Draw)
    | Fetch(pid: Pid)
    | Lookup(pid: Pid)
    | LockStart(pid: Pid)
    | LockRow(pid: Pid)
    | Decision(pid: Pid, first: Time, second: Time)
    | Statement(pid: Pid)
    | Failing(pid: Pid)
    | Commit(pid: Pid, now: Time)
    | Announcement(pid: Pid)
    | Worker(turn: Webhook.Turn)
    | Tick(now: Time)
    | Restart

  const NO_DRAW := Draw(0, 0, 0, 0, 0, 0, 0, 0)

  function Initial(c: Webhook.Config, now: Time): System {
    System(c, EMPTY_TABLES, Webhook.EMPTY_OUTBOX, map[], [], now, {}, [])
  }

  // ---------- locks ----------

  predicate HoldsKey(p: Process) {
    p.pc.Reserved? || p.pc.Resolved? || p.pc.Locking? || p.pc.Writing?
  }

  function HeldRows(p: Process): set<Id> {
    if p.pc.Locking? || p.pc.Writing? then p.pc.rows.Keys else {}
  }

  // No other transaction holds the key uncommitted.
  ghost predicate KeyFree(s: System, pid: Pid, key: IdemKey) {
    forall q :: q in s.processes && q != pid && HoldsKey(s.processes[q]) && Validate(s.processes[q].request).None? ==>
      KeyOf(s.processes[q].request) != key
  }

  ghost predicate RowFree(s: System, pid: Pid, row: Id) {
    forall q :: q in s.processes && q != pid ==> row !in HeldRows(s.processes[q])
  }

  function IdsOf(d: Draw): set<Id> {
    {d.record, d.transaction, d.ref, d.firstEntry, d.secondEntry, d.delivery}
  }

  // ---------- steps ----------

  function Present(wallets: map<Id, Wallet>, ids: seq<Id>): seq<Id> {
    if ids == [] then []
    else (if ids[0] in wallets then [ids[0]] else []) + Present(wallets, ids[1..])
  }

  // The deliveries a committed buffer makes visible.
  function Deliver(o: Webhook.Outbox, writes: seq<Write>): Webhook.Outbox {
    if writes == [] then o
    else
      var o' := Deliver(o, writes[..|writes| - 1]);
      if writes[|writes| - 1].InsertDelivery? then Webhook.Insert(o', writes[|writes| - 1].delivery) else o'
  }

  // Arrival validates a request before its transaction starts; restated so that
  // every step is well defined on its own.
  predicate At(s: System, pid: Pid) {
    pid in s.processes && (s.processes[pid].pc.Start? || s.processes[pid].pc.Losing? || HoldsKey(s.processes[pid]) ==>
      Validate(s.processes[pid].request).None?)
  }

  ghost predicate Enabled(s: System, step: Step) {
    match step
    case Registration(user, wallet) => user !in s.used && wallet !in s.used && user != wallet
    case Arrival(pid, _) => pid !in s.processes
    case Reservation(pid, draw) =>
      At(s, pid) && s.processes[pid].pc.Start? && KeyFree(s, pid, KeyOf(s.processes[pid].request))
      && IdsOf(draw) !! s.used && draw.firstEntry != draw.secondEntry
    case Fetch(pid) =>
      At(s, pid) && s.processes[pid].pc.Losing? && KeyOf(s.processes[pid].request) in s.tables.records
    case Lookup(pid) => At(s, pid) && s.processes[pid].pc.Reserved?
    case LockStart(pid) =>
      At(s, pid) && s.processes[pid].pc.Resolved? && !ToSelf(s.processes[pid].request, s.processes[pid].pc.own)
    case LockRow(pid) =>
      At(s, pid) && s.processes[pid].pc.Locking? && s.processes[pid].pc.waiting != []
      && s.processes[pid].pc.waiting[0] in s.tables.wallets && RowFree(s, pid, s.processes[pid].pc.waiting[0])
    case Decision(pid, first, second) =>
      At(s, pid) && s.processes[pid].pc.Locking? && s.processes[pid].pc.waiting == [] && s.clock <= first <= second
    case Statement(pid) => At(s, pid) && s.processes[pid].pc.Writing? && s.processes[pid].pc.todo != []
    case Failing(pid) => At(s, pid) && (s.processes[pid].pc.Start? || s.processes[pid].pc.Losing?
      || HoldsKey(s.processes[pid]))
    case Commit(pid, now) =>
      At(s, pid) && s.processes[pid].pc.Writing? && s.processes[pid].pc.todo == [] && s.clock < now
    case Announcement(pid) => At(s, pid) && s.processes[pid].pc.Announcing?
    case Worker(turn) => Webhook.Possible(s.config, s.outbox, turn)
    case Tick(now) => s.clock <= now
    case Restart => true
  }

  function Moved(s: System, pid: Pid, p: Process): System {
    s.(processes := s.processes[pid := p])
  }

  // ROLLBACK: locks and buffered statements are gone, the caller sees the error.
  function Abort(p: Process, e: Error): Process {
    p.(pc := Done(Failure(e)), buffer := [])
  }

  function Next(s: System, step: Step): System
    requires Enabled(s, step)
  {
    match step
    case Registration(user, wallet) =>
      s.(tables := Register(s.tables, user, wallet), used := s.used + {user, wallet},
        log := s.log + [Registered(user, wallet)])
    case Arrival(pid, r) =>
      Moved(s, pid, Process(r, if Validate(r).Some? then Done(Failure(Validate(r).value)) else Start, NO_DRAW, []))
    case Reservation(pid, draw) =>
      var p := s.processes[pid];
      var s' := s.(used := s.used + IdsOf(draw));
      if KeyOf(p.request) in s.tables.records then Moved(s', pid, p.(pc := Losing))
      else Moved(s', pid, p.(pc := Reserved, draw := draw, buffer := [InsertRecord(PendingRecord(p.request, draw))]))
    case Fetch(pid) =>
      var p := s.processes[pid];
      var outcome := ReplayOutcome(s.tables.records[KeyOf(p.request)], p.request.hash);
      var s' := Moved(s, pid, p.(pc := Done(outcome)));
      if outcome.Success? then s'.(log := s.log + [Answered(pid, p.request, p.draw, outcome)]) else s'
    case Lookup(pid) =>
      var p := s.processes[pid];
      if p.request.user.value !in s.tables.owner then Moved(s, pid, Abort(p, Internal))
      else
        var own := s.tables.owner[p.request.user.value];
        if ToSelf(p.request, own) then Moved(s, pid, Abort(p, SameWallet)) else Moved(s, pid, p.(pc := Resolved(own)))
    case LockStart(pid) =>
      var p := s.processes[pid];
      Moved(s, pid, p.(pc := Locking(p.pc.own, Present(s.tables.wallets, Targets(p.request, p.pc.own)), map[])))
    case LockRow(pid) =>
      var p := s.processes[pid];
      var row := p.pc.waiting[0];
      var s' := s.(grants := s.grants + [Grant(pid, row)]);
      Moved(s', pid, p.(pc := Locking(p.pc.own, p.pc.waiting[1..], p.pc.rows[row := s.tables.wallets[row]])))
    case Decision(pid, first, second) =>
      var p := s.processes[pid];
      var s' := s.(clock := second);
      var refusal := Refuse(p.request, p.pc.own, p.pc.rows);
      if refusal.Some? then Moved(s', pid, Abort(p, refusal.value))
      else
        var draw := p.draw.(firstTime := first, secondTime := second);
        var plan := PlanOf(s.config, p.request, p.pc.own, p.pc.rows, draw);
        Moved(s', pid, p.(draw := draw, pc := Writing(p.pc.own, p.pc.rows, plan.writes, plan.body, plan.delivery)))
    case Statement(pid) =>
      var p := s.processes[pid];
      var w := p.pc.todo[0];
      if RowOk(w) then Moved(s, pid, p.(pc := p.pc.(todo := p.pc.todo[1..]), buffer := p.buffer + [w]))
      else Moved(s, pid, Abort(p, Internal))
    case Failing(pid) => Moved(s, pid, Abort(s.processes[pid], Internal))
    case Commit(pid, now) =>
      var p := s.processes[pid];
      var outcome := Success(200, p.pc.body, false);
      var id := if p.pc.delivery.Some? then Some(p.pc.delivery.value.id) else None;
      System(s.config, ApplyAll(s.tables, p.buffer), Deliver(s.outbox, p.buffer),
             s.processes[pid := p.(pc := Announcing(outcome, id), buffer := [])],
             s.log + [Answered(pid, p.request, p.draw, outcome)], now, s.used, s.grants)
    case Announcement(pid) =>
      var p := s.processes[pid];
      var s' := Moved(s, pid, p.(pc := Done(p.pc.result)));
      if p.pc.announced.Some? then s'.(outbox := Webhook.Announce(s.config, s.outbox, p.pc.announced.value)) else s'
    case Worker(turn) => s.(outbox := Webhook.Work(s.config, s.outbox, turn))
    case Tick(now) => s.(clock := now)
    // Requests in flight fail or stay where they are; the queue is gone.
    case Restart => s.(outbox := Webhook.Restarted(s.outbox))
  }

  // ---------- runs ----------

  ghost predicate Legal(s: System, steps: seq<Step>)
    decreases |steps|
  {
    steps == [] || (Enabled(s, steps[0]) && Legal(Next(s, steps[0]), steps[1..]))
  }

  ghost function After(s: System, steps: seq<Step>): System
    requires Legal(s, steps)
    decreases |steps|
  {
    if steps == [] then s else After(Next(s, steps[0]), steps[1..])
  }

  // ---------- one at a time ----------

  function Replayed(c: Webhook.Config, t: Tables, e: Event): Tables {
    match e
    case Registered(user, wallet) => Register(t, user, wallet)
    case Answered(_, r, draw, _) => Execute(c, t, r, draw).tables
  }

  // Running the logged operations alone, in order.
  function Serial(c: Webhook.Config, log: seq<Event>): Tables {
    if log == [] then EMPTY_TABLES else Replayed(c, Serial(c, log[..|log| - 1]), log[|log| - 1])
  }

  // Every logged answer is the one the operation gives when run alone there.
  ghost predicate Faithful(c: Webhook.Config, log: seq<Event>) {
    forall i :: 0 <= i < |log| && log[i].Answered? ==>
      log[i].outcome.Success? && Validate(log[i].request).None?
      && log[i].outcome == Execute(c, Serial(c, log[..i]), log[i].request, log[i].draw).outcome
  }
}
