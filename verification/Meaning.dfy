// What the atomic operations do, stated without their code: when they commit,
// and exactly which rows they leave, in mathematical integers.
module Meaning {
  import opened Int64
  import opened Entities
  import opened Engine
  import opened Honesty
  import Webhook

  // The webhook row, if one is written, has a target that is not just blanks.
  predicate NoticeOk(c: Webhook.Config) {
    c.enabled && c.targetUrl != "" ==> exists ch :: ch in c.targetUrl && ch != ' '
  }

  // What the caller has to send.
  predicate WellFormed(r: Request) {
    r.key != "" && r.amount > 0 && r.user.Some? && (r.TransferRequest? ==> r.recipient.Some?)
  }

  // The key under which the answer of r is kept.
  function RequestKey(r: Request): IdemKey
    requires r.user.Some?
  {
    match r
    case TopUpRequest(user, _, _, key, _) => IdemKey(key, user.value, TopUpEndpoint)
    case TransferRequest(user, _, _, _, key, _) => IdemKey(key, user.value, TransferEndpoint)
  }

  // A fresh execution of the request is possible at all.
  predicate Startable(t: Tables, r: Request) {
    WellFormed(r) && RequestKey(r) !in t.records && r.user.value in t.owner
  }

  predicate Executed(e: Effect) {
    e.outcome.Success? && !e.outcome.replay
  }

  function CompletedRecord(r: Request, draw: Draw, body: Body): Record
    requires Validate(r).None?
  {
    Record(draw.record, KeyOf(r), r.hash, 200, body)
  }

  // ---- top up ----

  function CreditFor(x: Transaction, w: Wallet, after: int64, id: Id, now: Time): LedgerEntry {
    LedgerEntry(id, x.id, w.id, Credit, x.amount, w.balance, after, now)
  }

  function DebitFor(x: Transaction, w: Wallet, after: int64, id: Id, now: Time): LedgerEntry {
    LedgerEntry(id, x.id, w.id, Debit, x.amount, w.balance, after, now)
  }

  // The transaction that a request leaves behind.
  function Booked(r: Request, source: Option<Id>, destination: Option<Id>, draw: Draw): Transaction
    requires r.user.Some?
  {
    Transaction(draw.transaction, draw.ref, if r.TopUpRequest? then TopUp else Transfer, source, destination,
                r.amount, r.key, r.user.value, r.description)
  }

  // The tables after a top up of w, in mathematical integers.
  function AfterTopUp(t: Tables, r: Request, w: Wallet, draw: Draw): Tables
    requires r.user.Some? && r.amount > 0 && w.balance + r.amount <= MAX_INT64
  {
    var x := Booked(r, None, Some(w.id), draw);
    var after := w.(balance := w.balance + r.amount);
    Tables(t.wallets[w.id := after], t.owner, t.transactions + [x],
           t.ledger + [CreditFor(x, w, after.balance, draw.firstEntry, draw.firstTime)],
           t.records[RequestKey(r) := Record(draw.record, RequestKey(r), r.hash, 200, TopUpBody(x, after))])
  }

  // What the statements of a top up write, with the balance the code computes.
  function PostedTopUp(t: Tables, r: Request, w: Wallet, draw: Draw): Tables
    requires Validate(r).None?
  {
    var x := TopUpTransaction(r, w.id, draw);
    var after := w.(balance := Wrap(w.balance + r.amount));
    Tables(t.wallets[w.id := after], t.owner, t.transactions + [x],
           t.ledger + [CreditFor(x, w, after.balance, draw.firstEntry, draw.firstTime)],
           t.records[KeyOf(r) := CompletedRecord(r, draw, TopUpBody(x, after))])
  }

  lemma TopUpApplied(c: Webhook.Config, t: Tables, r: Request, w: Wallet, draw: Draw)
    requires Validate(r).None? && r.TopUpRequest?
    ensures ApplyAll(t, [InsertRecord(PendingRecord(r, draw))] + TopUpPlan(c, r, w, draw).writes)
            == PostedTopUp(t, r, w, draw)
  {
    var x := TopUpTransaction(r, w.id, draw);
    var after := w.(balance := Wrap(w.balance + r.amount));
    var entry := CreditFor(x, w, after.balance, draw.firstEntry, draw.firstTime);
    var middle := [InsertTransaction(x), SaveWallet(after), InsertEntries([entry]), InsertAudit];
    ApplyFour(t.(records := t.records[KeyOf(r) := PendingRecord(r, draw)]),
              InsertTransaction(x), SaveWallet(after), InsertEntries([entry]), InsertAudit);
    ApplyPlan(t, PendingRecord(r, draw), middle, TopUpBody(x, after), TopUpPlan(c, r, w, draw).delivery);
  }

  // The rows a top up writes pass their CHECKs.
  predicate TopUpRowsOk(c: Webhook.Config, r: Request, w: Wallet)
    requires Validate(r).None?
  {
    WalletRowOk(w.(balance := Wrap(w.balance + r.amount))) && NoticeOk(c)
  }

  // An operation's statements pass exactly if its own do and the delivery does.
  lemma AssembledRows(key: IdemKey, middle: seq<Write>, body: Body, delivery: Option<Webhook.Delivery>)
    ensures (exists s :: s in Assemble(key, middle, body, delivery).writes && !RowOk(s)) <==>
            (exists s :: s in middle && !RowOk(s)) || (delivery.Some? && !Webhook.DeliveryRowOk(delivery.value))
  {
    var writes := Assemble(key, middle, body, delivery).writes;
    assert forall s :: s in writes <==> s in middle || s in Notice(delivery) || s == CompleteRecord(key, 200, body);
    if delivery.Some? {
      assert InsertDelivery(delivery.value) in Notice(delivery);
    }
  }

  lemma TopUpStatements(c: Webhook.Config, r: Request, w: Wallet, draw: Draw)
    requires Validate(r).None? && r.TopUpRequest?
    ensures (exists s :: s in TopUpPlan(c, r, w, draw).writes && !RowOk(s)) <==> !TopUpRowsOk(c, r, w)
  {
    var x := TopUpTransaction(r, w.id, draw);
    var after := w.(balance := Wrap(w.balance + r.amount));
    var entry := CreditFor(x, w, after.balance, draw.firstEntry, draw.firstTime);
    var middle := [InsertTransaction(x), SaveWallet(after), InsertEntries([entry]), InsertAudit];
    FourRows(InsertTransaction(x), SaveWallet(after), InsertEntries([entry]), InsertAudit);
    TopUpEntryOk(entry, r.amount);
    AssembledRows(KeyOf(r), middle, TopUpBody(x, after), TopUpPlan(c, r, w, draw).delivery);
  }

  lemma TopUpEntryOk(credit: LedgerEntry, amount: int64)
    requires credit.kind == Credit && credit.amount == amount && amount > 0
    ensures RowOk(InsertEntries([credit]))
  {
  }

  lemma FourRows(a: Write, b: Write, c: Write, d: Write)
    ensures (exists w :: w in [a, b, c, d] && !RowOk(w)) <==> !(RowOk(a) && RowOk(b) && RowOk(c) && RowOk(d))
  {
    var s := [a, b, c, d];
    assert s[0] == a && s[1] == b && s[2] == c && s[3] == d;
    assert a in s && b in s && c in s && d in s;
  }

  // The answer to an admitted top up: its refusals in order, or its whole effect.
  predicate TopUpAnswer(c: Webhook.Config, t: Tables, r: Request, draw: Draw, e: Effect)
    requires r.TopUpRequest? && Startable(t, r)
  {
    var own := t.owner[r.user.value];
    if own !in t.wallets then e == Rejected(t, WalletNotFound)
    else
      var w := t.wallets[own];
      if w.status != Active then e == Rejected(t, WalletInactive)
      else if !TopUpRowsOk(c, r, w) then e == Rejected(t, Internal)
      else
        var plan := TopUpPlan(c, r, w, draw);
        e == Effect(PostedTopUp(t, r, w, draw), Success(200, plan.body, false), plan.delivery)
  }

  lemma ExecuteTopUp(c: Webhook.Config, t: Tables, r: Request, draw: Draw)
    requires r.TopUpRequest? && Startable(t, r)
    ensures TopUpAnswer(c, t, r, draw, Execute(c, t, r, draw))
  {
    var own := t.owner[r.user.value];
    if own in t.wallets {
      TopUpStatements(c, r, t.wallets[own], draw);
      TopUpApplied(c, t, r, t.wallets[own], draw);
    }
  }

  // Only overflow (or a bad webhook target) stops the statements, and otherwise
  // nothing wraps.
  lemma TopUpExact(c: Webhook.Config, t: Tables, r: Request, w: Wallet, draw: Draw)
    requires r.TopUpRequest? && Validate(r).None? && WalletRowOk(w)
    ensures TopUpRowsOk(c, r, w) <==> NoticeOk(c) && w.balance + r.amount <= MAX_INT64
    ensures w.balance + r.amount <= MAX_INT64 ==> PostedTopUp(t, r, w, draw) == AfterTopUp(t, r, w, draw)
  {
    OverflowShowsAsNegative(w.balance, r.amount);
  }

  // A committed top up credits the caller's wallet by exactly the amount and
  // leaves one entry; it happens exactly when nothing forbids it, overflow included.
  lemma TopUpMeaning(c: Webhook.Config, t: Tables, r: Request, draw: Draw)
    requires WalletsOk(t) && r.TopUpRequest?
    ensures var e := Execute(c, t, r, draw);
            && (Executed(e) <==>
                && Startable(t, r) && NoticeOk(c)
                && t.wallets[t.owner[r.user.value]].balance + r.amount <= MAX_INT64)
            && (!Executed(e) ==> e.tables == t && e.delivery.None?)
            && (Executed(e) ==>
                var w := t.wallets[t.owner[r.user.value]];
                var after := w.(balance := w.balance + r.amount);
                var x := Booked(r, None, Some(w.id), draw);
                && e.tables == AfterTopUp(t, r, w, draw)
                && e.outcome == Success(200, TopUpBody(x, after), false)
                && e.delivery == Webhook.NewDelivery(c, draw.delivery, Webhook.TopUpSuccess, x, draw.secondTime))
  {
    if Startable(t, r) {
      ExecuteTopUp(c, t, r, draw);
      TopUpExact(c, t, r, t.wallets[t.owner[r.user.value]], draw);
    }
  }

  // ---- transfer ----

  // The tables after a transfer from s to d, in mathematical integers.
  function AfterTransfer(t: Tables, r: Request, s: Wallet, d: Wallet, draw: Draw): Tables
    requires r.user.Some? && r.amount > 0 && 0 <= s.balance - r.amount && d.balance + r.amount <= MAX_INT64
  {
    var x := Booked(r, Some(s.id), Some(d.id), draw);
    var sAfter, dAfter := s.(balance := s.balance - r.amount), d.(balance := d.balance + r.amount);
    Tables(t.wallets[s.id := sAfter][d.id := dAfter], t.owner, t.transactions + [x],
           t.ledger + [DebitFor(x, s, sAfter.balance, draw.firstEntry, draw.firstTime),
                       CreditFor(x, d, dAfter.balance, draw.secondEntry, draw.secondTime)],
           t.records[RequestKey(r) := Record(draw.record, RequestKey(r), r.hash, 200, TransferBody(x, sAfter, dAfter))])
  }

  // What the statements of a transfer write, with the balances the code computes.
  function PostedTransfer(t: Tables, r: Request, s: Wallet, d: Wallet, draw: Draw): Tables
    requires Validate(r).None?
  {
    var x := TransferTransaction(r, s.id, d.id, draw);
    var sAfter, dAfter := s.(balance := Wrap(s.balance - r.amount)), d.(balance := Wrap(d.balance + r.amount));
    Tables(t.wallets[s.id := sAfter][d.id := dAfter], t.owner, t.transactions + [x],
           t.ledger + [DebitFor(x, s, sAfter.balance, draw.firstEntry, draw.firstTime),
                       CreditFor(x, d, dAfter.balance, draw.secondEntry, draw.secondTime)],
           t.records[KeyOf(r) := CompletedRecord(r, draw, TransferBody(x, sAfter, dAfter))])
  }

  lemma TransferApplied(c: Webhook.Config, t: Tables, r: Request, s: Wallet, d: Wallet, draw: Draw)
    requires Validate(r).None? && r.TransferRequest?
    ensures ApplyAll(t, [InsertRecord(PendingRecord(r, draw))] + TransferPlan(c, r, s, d, draw).writes)
            == PostedTransfer(t, r, s, d, draw)
  {
    var x := TransferTransaction(r, s.id, d.id, draw);
    var sAfter, dAfter := s.(balance := Wrap(s.balance - r.amount)), d.(balance := Wrap(d.balance + r.amount));
    var entries := [DebitFor(x, s, sAfter.balance, draw.firstEntry, draw.firstTime),
                    CreditFor(x, d, dAfter.balance, draw.secondEntry, draw.secondTime)];
    var middle := [InsertTransaction(x), SaveWallet(sAfter), SaveWallet(dAfter), InsertEntries(entries), InsertAudit];
    ApplyFive(t.(records := t.records[KeyOf(r) := PendingRecord(r, draw)]),
              InsertTransaction(x), SaveWallet(sAfter), SaveWallet(dAfter), InsertEntries(entries), InsertAudit);
    ApplyPlan(t, PendingRecord(r, draw), middle, TransferBody(x, sAfter, dAfter),
      TransferPlan(c, r, s, d, draw).delivery);
  }

  // The rows a transfer writes pass their CHECKs.
  predicate TransferRowsOk(c: Webhook.Config, r: Request, s: Wallet, d: Wallet)
    requires Validate(r).None?
  {
    s.id != d.id
    && WalletRowOk(s.(balance := Wrap(s.balance - r.amount)))
    && WalletRowOk(d.(balance := Wrap(d.balance + r.amount))) && NoticeOk(c)
  }

  // The statements of a transfer between its reservation and its webhook row.
  function TransferMiddle(x: Transaction, s: Wallet, sAfter: Wallet, d: Wallet, dAfter: Wallet,
                          draw: Draw): seq<Write> {
    [InsertTransaction(x), SaveWallet(sAfter), SaveWallet(dAfter),
     InsertEntries([DebitFor(x, s, sAfter.balance, draw.firstEntry, draw.firstTime),
                    CreditFor(x, d, dAfter.balance, draw.secondEntry, draw.secondTime)]), InsertAudit]
  }

  lemma TransferMiddleRows(x: Transaction, s: Wallet, sAfter: Wallet, d: Wallet, dAfter: Wallet, draw: Draw)
    requires x.amount > 0
    ensures (exists w :: w in TransferMiddle(x, s, sAfter, d, dAfter, draw) && !RowOk(w)) <==>
            !(TransactionRowOk(x) && WalletRowOk(sAfter) && WalletRowOk(dAfter))
  {
    var debit := DebitFor(x, s, sAfter.balance, draw.firstEntry, draw.firstTime);
    var credit := CreditFor(x, d, dAfter.balance, draw.secondEntry, draw.secondTime);
    TransferEntriesOk(debit, credit, x.amount);
    FiveRows(InsertTransaction(x), SaveWallet(sAfter), SaveWallet(dAfter), InsertEntries([debit, credit]), InsertAudit);
  }

  lemma TransferStatements(c: Webhook.Config, r: Request, s: Wallet, d: Wallet, draw: Draw)
    requires Validate(r).None? && r.TransferRequest?
    ensures (exists w :: w in TransferPlan(c, r, s, d, draw).writes && !RowOk(w)) <==> !TransferRowsOk(c, r, s, d)
  {
    var x := TransferTransaction(r, s.id, d.id, draw);
    var sAfter, dAfter := s.(balance := Wrap(s.balance - r.amount)), d.(balance := Wrap(d.balance + r.amount));
    TransferMiddleRows(x, s, sAfter, d, dAfter, draw);
    AssembledRows(KeyOf(r), TransferMiddle(x, s, sAfter, d, dAfter, draw), TransferBody(x, sAfter, dAfter),
                  TransferPlan(c, r, s, d, draw).delivery);
  }

  lemma TransferEntriesOk(debit: LedgerEntry, credit: LedgerEntry, amount: int64)
    requires debit.kind == Debit && credit.kind == Credit && debit.amount == amount && credit.amount == amount
             && amount > 0
    ensures RowOk(InsertEntries([debit, credit]))
  {
  }

  lemma FiveRows(a: Write, b: Write, c: Write, d: Write, e: Write)
    ensures (exists w :: w in [a, b, c, d, e] && !RowOk(w))
            <==> !(RowOk(a) && RowOk(b) && RowOk(c) && RowOk(d) && RowOk(e))
  {
    var s := [a, b, c, d, e];
    assert s[0] == a && s[1] == b && s[2] == c && s[3] == d && s[4] == e;
    assert a in s && b in s && c in s && d in s && e in s;
  }

  // The answer to an admitted transfer: its refusals in order, or its whole effect.
  predicate TransferAnswer(c: Webhook.Config, t: Tables, r: Request, draw: Draw, e: Effect)
    requires r.TransferRequest? && Startable(t, r)
  {
    var own, to := t.owner[r.user.value], r.recipient.value;
    if to == own then e == Rejected(t, SameWallet)
    else if own !in t.wallets || to !in t.wallets then e == Rejected(t, WalletNotFound)
    else
      var s, d := t.wallets[own], t.wallets[to];
      if s.status != Active || d.status != Active then e == Rejected(t, WalletInactive)
      else if s.balance < r.amount then e == Rejected(t, InsufficientBalance)
      else if !TransferRowsOk(c, r, s, d) then e == Rejected(t, Internal)
      else
        var plan := TransferPlan(c, r, s, d, draw);
        e == Effect(PostedTransfer(t, r, s, d, draw), Success(200, plan.body, false), plan.delivery)
  }

  lemma ExecuteTransfer(c: Webhook.Config, t: Tables, r: Request, draw: Draw)
    requires r.TransferRequest? && Startable(t, r)
    ensures TransferAnswer(c, t, r, draw, Execute(c, t, r, draw))
  {
    var own, to := t.owner[r.user.value], r.recipient.value;
    if to != own && own in t.wallets && to in t.wallets {
      TransferStatements(c, r, t.wallets[own], t.wallets[to], draw);
      TransferApplied(c, t, r, t.wallets[own], t.wallets[to], draw);
    }
  }

  // When the sender can pay, only overflow at the recipient (or a bad webhook
  // target) stops the statements, and otherwise nothing wraps.
  lemma TransferExact(c: Webhook.Config, t: Tables, r: Request, s: Wallet, d: Wallet, draw: Draw)
    requires r.TransferRequest? && Validate(r).None?
    requires s.id != d.id && WalletRowOk(s) && WalletRowOk(d) && s.balance >= r.amount
    ensures TransferRowsOk(c, r, s, d) <==> NoticeOk(c) && d.balance + r.amount <= MAX_INT64
    ensures d.balance + r.amount <= MAX_INT64 ==> PostedTransfer(t, r, s, d, draw) == AfterTransfer(t, r, s, d, draw)
  {
    OverflowShowsAsNegative(d.balance, r.amount);
    WrapExact(s.balance - r.amount);
  }

  // The two wallets of a transfer exist, differ, and the sender can pay.
  predicate Payable(t: Tables, r: Request)
    requires r.TransferRequest? && Startable(t, r) && t.owner[r.user.value] in t.wallets
  {
    r.recipient.value in t.wallets && r.recipient.value != t.owner[r.user.value]
    && t.wallets[t.owner[r.user.value]].balance >= r.amount
  }

  // A committed transfer moves exactly the amount and leaves a debit and a
  // credit; it happens exactly when nothing forbids it, overflow included.
  lemma TransferMeaning(c: Webhook.Config, t: Tables, r: Request, draw: Draw)
    requires WalletsOk(t) && r.TransferRequest?
    ensures var e := Execute(c, t, r, draw);
            && (Executed(e) <==>
                && Startable(t, r) && NoticeOk(c) && Payable(t, r)
                && t.wallets[r.recipient.value].balance + r.amount <= MAX_INT64)
            && (!Executed(e) ==> e.tables == t && e.delivery.None?)
            && (Executed(e) ==>
                var s, d := t.wallets[t.owner[r.user.value]], t.wallets[r.recipient.value];
                var sAfter, dAfter := s.(balance := s.balance - r.amount), d.(balance := d.balance + r.amount);
                var x := Booked(r, Some(s.id), Some(d.id), draw);
                && e.tables == AfterTransfer(t, r, s, d, draw)
                && e.outcome == Success(200, TransferBody(x, sAfter, dAfter), false)
                && e.delivery == Webhook.NewDelivery(c, draw.delivery, Webhook.TransferSuccess, x, draw.secondTime))
  {
    if Startable(t, r) {
      ExecuteTransfer(c, t, r, draw);
      if Payable(t, r) {
        var s, d := t.wallets[t.owner[r.user.value]], t.wallets[r.recipient.value];
        TransferExact(c, t, r, s, d, draw);
      }
    }
  }
}
