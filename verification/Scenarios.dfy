// Two concrete runs from the empty database: a refusal that has become stale,
// and a webhook that is sent before its scheduled retry.
module Scenarios {
  import opened Entities
  import opened Engine
  import opened Meaning
  import opened Protocol
  import opened Invariant
  import opened LoudSteps
  import opened Runs
  import opened Refusals
  import opened EarlySends
  import Webhook

  // User 1 owns wallet 2; request 0 draws the ids 11 to 16.
  const DRAW := Draw(11, 12, 13, 14, 15, 16, 0, 0)

  const OPENING := Register(EMPTY_TABLES, 1, 2)

  // A request of user 1 that is not a transfer to wallet 2.
  predicate Asks(r: Request) {
    Validate(r).None? && r.user == Some(1) && !ToSelf(r, 2)
  }

  function Asking(r: Request, pc: Pc, buffer: seq<Write>): Process {
    Process(r, pc, DRAW, buffer)
  }

  // The only request is p; nothing has been committed but the registration.
  ghost predicate Alone(c: Webhook.Config, now: Time, s: System, p: Process) {
    s.config == c && s.tables == OPENING && s.outbox == Webhook.EMPTY_OUTBOX && s.processes == map[0 := p]
    && s.clock == now && s.used == {1, 2, 11, 12, 13, 14, 15, 16} && s.log == [Registered(1, 2)]
  }

  lemma Reserving(c: Webhook.Config, now: Time, r: Request) returns (steps: seq<Step>)
    requires Asks(r)
    ensures Legal(Initial(c, now), steps)
    ensures Alone(c, now, After(Initial(c, now), steps), Asking(r, Reserved, [InsertRecord(PendingRecord(r, DRAW))]))
  {
    var s0 := Initial(c, now);
    var s1 := Next(s0, Registration(1, 2));
    var s2 := Next(s1, Arrival(0, r));
    RunOne(s0, Registration(1, 2));
    RunSnoc(s0, [Registration(1, 2)], Arrival(0, r));
    RunSnoc(s0, [Registration(1, 2)] + [Arrival(0, r)], Reservation(0, DRAW));
    steps := [Registration(1, 2)] + [Arrival(0, r)] + [Reservation(0, DRAW)];
  }

  lemma Looking(c: Webhook.Config, now: Time, s: System, r: Request)
    requires Asks(r) && Alone(c, now, s, Asking(r, Reserved, [InsertRecord(PendingRecord(r, DRAW))]))
    ensures Enabled(s, Lookup(0))
    ensures Alone(c, now, Next(s, Lookup(0)), Asking(r, Resolved(2), [InsertRecord(PendingRecord(r, DRAW))]))
  {
  }

  lemma Starting(c: Webhook.Config, now: Time, s: System, r: Request)
    requires Asks(r) && Alone(c, now, s, Asking(r, Resolved(2), [InsertRecord(PendingRecord(r, DRAW))]))
    ensures Enabled(s, LockStart(0))
    ensures Alone(c, now, Next(s, LockStart(0)),
                  Asking(r, Locking(2, Present(OPENING.wallets, Targets(r, 2)), map[]),
                    [InsertRecord(PendingRecord(r, DRAW))]))
  {
  }

  // The request has started its locking statement.
  lemma ReachLocking(c: Webhook.Config, now: Time, r: Request) returns (steps: seq<Step>)
    requires Asks(r)
    ensures Legal(Initial(c, now), steps)
    ensures Alone(c, now, After(Initial(c, now), steps),
                  Asking(r, Locking(2, Present(OPENING.wallets, Targets(r, 2)), map[]),
                    [InsertRecord(PendingRecord(r, DRAW))]))
  {
    steps := Reserving(c, now, r);
    Looking(c, now, After(Initial(c, now), steps), r);
    RunSnoc(Initial(c, now), steps, Lookup(0));
    steps := steps + [Lookup(0)];
    Starting(c, now, After(Initial(c, now), steps), r);
    RunSnoc(Initial(c, now), steps, LockStart(0));
    steps := steps + [LockStart(0)];
  }

  const WALLET := Wallet(2, 1, 0, Active)

  // ---------- a stale "wallet not found" ----------

  // 5 from user 1 to a wallet that nobody has registered yet.
  const TRANSFER := TransferRequest(Some(1), Some(10), 5, None, "key", "hash")

  // The state before and after the row lock, wallet 10 registered meanwhile.
  ghost predicate Overlooked(c: Webhook.Config, now: Time, s: System, waiting: seq<Id>, rows: map<Id, Wallet>) {
    s.config == c && s.tables == Register(OPENING, 9, 10) && s.clock == now
    && s.processes == map[0 := Asking(TRANSFER, Locking(2, waiting, rows),
          [InsertRecord(PendingRecord(TRANSFER, DRAW))])]
  }

  lemma OnlyTheSender()
    ensures Present(OPENING.wallets, Targets(TRANSFER, 2)) == [2]
  {
    assert Targets(TRANSFER, 2) == [2, 10] && [2, 10][1..] == [10];
    assert Present(OPENING.wallets, [10]) == [] + Present(OPENING.wallets, [10][1..]);
    assert Present(OPENING.wallets, [10][1..]) == [];
  }

  lemma Overlooking(c: Webhook.Config, now: Time) returns (steps: seq<Step>)
    ensures Legal(Initial(c, now), steps)
    ensures Overlooked(c, now, After(Initial(c, now), steps), [2], map[])
  {
    steps := ReachLocking(c, now, TRANSFER);
    OnlyTheSender();
    RunSnoc(Initial(c, now), steps, Registration(9, 10));
    steps := steps + [Registration(9, 10)];
  }

  lemma OverlookedLocks(c: Webhook.Config, now: Time, s: System)
    requires Overlooked(c, now, s, [2], map[])
    ensures Enabled(s, LockRow(0)) && Overlooked(c, now, Next(s, LockRow(0)), [], map[2 := WALLET])
  {
    assert [2][1..] == [];
  }

  lemma OverlookedDecides(c: Webhook.Config, now: Time, s: System)
    requires Overlooked(c, now, s, [], map[2 := WALLET])
    ensures EndsWith(s, Decision(0, now, now), 0, WalletNotFound)
    ensures AnswerAlone(s, Next(s, Decision(0, now, now)).processes[0]) == Failure(InsufficientBalance)
  {
    assert 2 in Targets(TRANSFER, 2) && 10 in Targets(TRANSFER, 2);
    assert s.tables.wallets == map[2 := WALLET, 10 := Wallet(10, 9, 0, Active)];
    OverlookedAlone(s.config, s.tables, DRAW);
  }

  lemma OverlookedAlone(c: Webhook.Config, t: Tables, draw: Draw)
    requires t.wallets == map[2 := WALLET, 10 := Wallet(10, 9, 0, Active)] && 1 in t.owner && t.owner[1] == 2
    requires t.records == map[]
    ensures Execute(c, t, TRANSFER, draw).outcome == Failure(InsufficientBalance)
  {
    ExecuteTransfer(c, t, TRANSFER, draw);
  }

  // A run in which "wallet not found" is no longer the answer when it is given.
  lemma StaleNotFound(c: Webhook.Config, now: Time) returns (steps: seq<Step>, step: Step)
    ensures Legal(Initial(c, now), steps)
    ensures var s := After(Initial(c, now), steps);
            EndsWith(s, step, 0, WalletNotFound) && !step.Failing?
            && AnswerAlone(s, Next(s, step).processes[0]) == Failure(InsufficientBalance)
  {
    steps := Overlooking(c, now);
    OverlookedLocks(c, now, After(Initial(c, now), steps));
    RunSnoc(Initial(c, now), steps, LockRow(0));
    steps, step := steps + [LockRow(0)], Decision(0, now, now);
    OverlookedDecides(c, now, After(Initial(c, now), steps));
  }

  // ---------- an early send ----------

  const TOP_UP := TopUpRequest(Some(1), 5, None, "key", "hash")

  function TopUpDraw(now: Time): Draw {
    DRAW.(firstTime := now, secondTime := now)
  }

  function TopUpOf(c: Webhook.Config, now: Time): Plan {
    TopUpPlan(c, TOP_UP, WALLET, TopUpDraw(now))
  }

  // The top up has buffered some of its statements; todo remain.
  ghost predicate Toiling(c: Webhook.Config, now: Time, s: System, p: Process) {
    Alone(c, now, s, p) && p.pc.Writing? && p.request == TOP_UP && p.draw == TopUpDraw(now)
    && p.pc.body == TopUpOf(c, now).body && p.pc.delivery == TopUpOf(c, now).delivery
    && p.buffer + p.pc.todo == [InsertRecord(PendingRecord(TOP_UP, DRAW))] + TopUpOf(c, now).writes
    && forall w :: w in p.pc.todo ==> RowOk(w)
  }

  lemma TopUpLocks(c: Webhook.Config, now: Time) returns (steps: seq<Step>)
    ensures Legal(Initial(c, now), steps)
    ensures Alone(c, now, After(Initial(c, now), steps),
                  Asking(TOP_UP, Locking(2, [], map[2 := WALLET]), [InsertRecord(PendingRecord(TOP_UP, DRAW))]))
  {
    steps := ReachLocking(c, now, TOP_UP);
    assert Present(OPENING.wallets, [2]) == [2] by { assert [2][1..] == []; }
    LocksWallet(c, now, After(Initial(c, now), steps));
    RunSnoc(Initial(c, now), steps, LockRow(0));
    steps := steps + [LockRow(0)];
  }

  lemma LocksWallet(c: Webhook.Config, now: Time, s: System)
    requires Alone(c, now, s, Asking(TOP_UP, Locking(2, [2], map[]), [InsertRecord(PendingRecord(TOP_UP, DRAW))]))
    ensures Enabled(s, LockRow(0))
    ensures Alone(c, now, Next(s, LockRow(0)),
                  Asking(TOP_UP, Locking(2, [], map[2 := WALLET]), [InsertRecord(PendingRecord(TOP_UP, DRAW))]))
  {
    assert [2][1..] == [];
  }

  lemma Decides(c: Webhook.Config, now: Time, s: System)
    requires Alone(c, now, s, Asking(TOP_UP, Locking(2, [], map[2 := WALLET]),
             [InsertRecord(PendingRecord(TOP_UP, DRAW))]))
    requires NoticeOk(c)
    ensures Enabled(s, Decision(0, now, now))
    ensures Toiling(c, now, Next(s, Decision(0, now, now)), Next(s, Decision(0, now, now)).processes[0])
  {
    TopUpPasses(c, now);
    assert map[2 := WALLET][2] == WALLET;
  }

  lemma TopUpPasses(c: Webhook.Config, now: Time)
    requires NoticeOk(c)
    ensures forall w :: w in TopUpOf(c, now).writes ==> RowOk(w)
  {
    TopUpStatements(c, TOP_UP, WALLET, TopUpDraw(now));
  }

  lemma Toils(c: Webhook.Config, now: Time, s: System, p: Process)
    requires Toiling(c, now, s, p) && p.pc.todo != []
    ensures Enabled(s, Statement(0))
    ensures var p' := p.(pc := p.pc.(todo := p.pc.todo[1..]), buffer := p.buffer + [p.pc.todo[0]]);
            Toiling(c, now, Next(s, Statement(0)), p')
  {
    assert p.buffer + [p.pc.todo[0]] + p.pc.todo[1..] == p.buffer + p.pc.todo;
  }

  lemma {:induction false} ToilsOn(c: Webhook.Config, now: Time, s: System, p: Process)
      returns (steps: seq<Step>, p': Process)
    requires Toiling(c, now, s, p)
    ensures Legal(s, steps) && Toiling(c, now, After(s, steps), p') && p'.pc.todo == []
    decreases |p.pc.todo|
  {
    if p.pc.todo == [] {
      steps, p' := [], p;
    } else {
      Toils(c, now, s, p);
      var p1 := p.(pc := p.pc.(todo := p.pc.todo[1..]), buffer := p.buffer + [p.pc.todo[0]]);
      var rest;
      rest, p' := ToilsOn(c, now, Next(s, Statement(0)), p1);
      RunOne(s, Statement(0));
      RunConcat(s, [Statement(0)], rest);
      steps := [Statement(0)] + rest;
    }
  }

  // The reply to a request on the wire that is refused, and to one that is not.
  function Refusal(now: Time): Webhook.Reply {
    Webhook.Reply(true, Webhook.NetworkError("refused"), now, true)
  }

  function Delivery(c: Webhook.Config, now: Time): Option<Webhook.Delivery> {
    TopUpOf(c, now).delivery
  }

  // The top up is committed and its delivery announced.
  ghost predicate Announced(c: Webhook.Config, now: Time, s: System)
    requires Webhook.Active(c)
  {
    s.config == c
    && s.outbox == Webhook.Announce(c, Webhook.Insert(Webhook.EMPTY_OUTBOX, Delivery(c, now).value),
          Delivery(c, now).value.id)
  }

  lemma CommitsAndAnnounces(c: Webhook.Config, now: Time, s: System, p: Process)
    requires Inv(s) && Toiling(c, now, s, p) && p.pc.todo == [] && Webhook.Active(c)
    ensures Legal(s, [Commit(0, now + 1)] + [Announcement(0)])
    ensures Announced(c, now, After(s, [Commit(0, now + 1)] + [Announcement(0)]))
  {
    assert ProcessOk(s.config, s.tables, s.clock, s.processes[0]);
    CommitDelivers(c, s.tables, s.clock, p, s.outbox);
    var s' := Next(s, Commit(0, now + 1));
    assert s'.processes[0].pc.Announcing? && s'.outbox == Webhook.Insert(s.outbox, p.pc.delivery.value);
    RunOne(s, Commit(0, now + 1));
    RunSnoc(s, [Commit(0, now + 1)], Announcement(0));
  }

  lemma ReachAnnounced(c: Webhook.Config, now: Time) returns (steps: seq<Step>)
    requires Webhook.Active(c) && NoticeOk(c)
    ensures Legal(Initial(c, now), steps) && Announced(c, now, After(Initial(c, now), steps))
  {
    var s0 := Initial(c, now);
    steps := TopUpLocks(c, now);
    Decides(c, now, After(s0, steps));
    RunSnoc(s0, steps, Decision(0, now, now));
    steps := steps + [Decision(0, now, now)];
    var rest, p := ToilsOn(c, now, After(s0, steps), After(s0, steps).processes[0]);
    RunConcat(s0, steps, rest);
    steps := steps + rest;
    InitialInv(c, now);
    InvAlways(s0, steps);
    CommitsAndAnnounces(c, now, After(s0, steps), p);
    RunConcat(s0, steps, [Commit(0, now + 1)] + [Announcement(0)]);
    steps := steps + ([Commit(0, now + 1)] + [Announcement(0)]);
  }

  // The turns of the overtaking: a scan that fails, and a pop right after it.
  function FailingScan(id: Id, now: Time): Webhook.Turn {
    Webhook.Scan(now, [id], [Refusal(now)])
  }

  function AcceptedPop(now: Time): Webhook.Turn {
    Webhook.Pop(Webhook.Reply(true, Webhook.Response(200), now, true))
  }

  // One delivery, announced and never tried.
  ghost predicate JustAnnounced(c: Webhook.Config, o: Webhook.Outbox, d: Webhook.Delivery) {
    c.enabled && o.queue == [d.id] && o.deliveries == map[d.id := d]
    && Webhook.DeliveryOk(d) && d.status == Webhook.Pending && d.maxRetry > 1
  }

  lemma ScanFails(c: Webhook.Config, o: Webhook.Outbox, d: Webhook.Delivery, now: Time)
    requires JustAnnounced(c, o, d)
    ensures Webhook.Possible(c, o, FailingScan(d.id, now))
    ensures Webhook.Work(c, o, FailingScan(d.id, now)) == Webhook.Process(c, o, d.id, Refusal(now))
  {
    assert Webhook.ProcessAll(c, o, [d.id][..0], [Refusal(now)][..0]) == o;
  }

  // The scan finds the delivery before the worker has popped it, and fails; the
  // pop then comes too soon.
  lemma ScanOvertakesPop(c: Webhook.Config, o: Webhook.Outbox, d: Webhook.Delivery, now: Time)
    requires JustAnnounced(c, o, d)
    ensures var o' := Webhook.Process(c, o, d.id, Refusal(now));
            Webhook.Possible(c, o', AcceptedPop(now)) && Overtaken(o', AcceptedPop(now))
  {
    Webhook.AttemptOk(c, d, Refusal(now).answer, now);
    Webhook.AttemptOutcome(c, d, Refusal(now).answer, now);
  }

  lemma AnnouncedOnce(c: Webhook.Config, now: Time, s: System)
    requires Webhook.Active(c) && NoticeOk(c) && Webhook.NormalizedMaxRetry(c) > 1 && Announced(c, now, s)
    ensures Delivery(c, now).value.id == 16 && JustAnnounced(c, s.outbox, Delivery(c, now).value)
  {
    Webhook.NewDeliveryOk(c, 16, Webhook.TopUpSuccess, TopUpTransaction(TOP_UP, 2, TopUpDraw(now)), now);
  }

  // A run, from the empty database, in which a delivery is sent before its
  // scheduled retry.
  lemma EarlySendHappens(c: Webhook.Config, now: Time) returns (steps: seq<Step>, turn: Webhook.Turn)
    requires c.enabled && c.targetUrl != "" && NoticeOk(c) && c.maxRetry != 1
    ensures Legal(Initial(c, now), steps)
    ensures var s := After(Initial(c, now), steps);
            && Enabled(s, Worker(turn)) && OnTime(turn)
            && exists x :: x in Sends(c, s.outbox, turn) && Early(x)
  {
    steps := ReachAnnounced(c, now);
    var s := After(Initial(c, now), steps);
    AnnouncedOnce(c, now, s);
    var d := Delivery(c, now).value;
    ScanFails(c, s.outbox, d, now + 1);
    ScanOvertakesPop(c, s.outbox, d, now + 1);
    RunSnoc(Initial(c, now), steps, Worker(FailingScan(16, now + 1)));
    steps, turn := steps + [Worker(FailingScan(16, now + 1))], AcceptedPop(now + 1);
    EarlyIffOvertaken(c, After(Initial(c, now), steps).outbox, turn);
  }
}
