// The money engine (internal/usecase/transaction.go) as atomic operations on the
// committed tables.
module Engine {
  import opened Int64
  import opened Entities
  import Webhook

  // ---------- requests, records, tables ----------

  datatype Endpoint = TopUpEndpoint | TransferEndpoint

  // The unique key of idempotency_records.
  datatype IdemKey = IdemKey(key: string, user: Id, endpoint: Endpoint)

  // The JSON documents the engine stores and returns.
  datatype Body =
    | EmptyBody
    | TopUpBody(transaction: Transaction, wallet: Wallet)
    | TransferBody(transaction: Transaction, source: Wallet, destination: Wallet)

  datatype Record = Record(id: Id, key: IdemKey, hash: string, status: int, body: Body)

  // wallets.user_id is unique: owner is that index.
  datatype Tables = Tables(
    wallets: map<Id, Wallet>, owner: map<Id, Id>,
    transactions: seq<Transaction>, ledger: seq<LedgerEntry>,
    records: map<IdemKey, Record>)

  const EMPTY_TABLES := Tables(map[], map[], [], [], map[])

  // None stands for a string that is not a UUID.
  datatype Request =
    | TopUpRequest(user: Option<Id>, amount: int64, description: Option<string>, key: string, hash: string)
    | TransferRequest(user: Option<Id>, recipient: Option<Id>, amount: int64, description: Option<string>, key: string,
      hash: string)

  datatype Error =
    | KeyRequired | AmountNotPositive | InvalidUser | InvalidRecipient
    | DifferentPayload | StillProcessing
    | SameWallet | WalletNotFound | WalletInactive | InsufficientBalance
    | Internal

  datatype Outcome = Success(status: int, body: Body, replay: bool) | Failure(error: Error)

  // The results of uuid.New and time.Now during one call.
  datatype Draw = Draw(
    record: Id, transaction: Id, ref: Id, firstEntry: Id, secondEntry: Id, delivery: Id,
    firstTime: Time, secondTime: Time)

  // ---------- the pieces of an operation ----------

  function Validate(r: Request): Option<Error> {
    if r.key == "" then Some(KeyRequired)
    else if r.amount <= 0 then Some(AmountNotPositive)
    else if r.user.None? then Some(InvalidUser)
    else if r.TransferRequest? && r.recipient.None? then Some(InvalidRecipient)
    else None
  }

  function KeyOf(r: Request): IdemKey
    requires Validate(r).None?
  {
    IdemKey(r.key, r.user.value, if r.TopUpRequest? then TopUpEndpoint else TransferEndpoint)
  }

  function PendingRecord(r: Request, draw: Draw): Record
    requires Validate(r).None?
  {
    Record(draw.record, KeyOf(r), r.hash, 0, EmptyBody)
  }

  // The answer to a request whose key is already taken by a committed record.
  function ReplayOutcome(record: Record, hash: string): Outcome {
    if record.hash != hash then Failure(DifferentPayload)
    else if record.status == 0 then Failure(StillProcessing)
    else Success(record.status, record.body, true)
  }

  predicate ToSelf(r: Request, own: Id)
    requires Validate(r).None?
  {
    r.TransferRequest? && r.recipient.value == own
  }

  // The ids of LockByIDs, in the order in which ORDER BY id ASC locks them.
  function Targets(r: Request, own: Id): (ids: seq<Id>)
    requires Validate(r).None? && !ToSelf(r, own)
    ensures forall i, j :: 0 <= i < j < |ids| ==> ids[i] < ids[j]
    ensures own in ids && (r.TransferRequest? ==> r.recipient.value in ids)
  {
    if r.TopUpRequest? then [own]
    else if own < r.recipient.value then [own, r.recipient.value] else [r.recipient.value, own]
  }

  // The rows that exist among ids.
  function RowsOf(wallets: map<Id, Wallet>, ids: seq<Id>): map<Id, Wallet> {
    map id | id in ids && id in wallets :: wallets[id]
  }

  // The checks on the locked rows.
  function Refuse(r: Request, own: Id, rows: map<Id, Wallet>): Option<Error>
    requires Validate(r).None?
  {
    match r
    case TopUpRequest(_, _, _, _, _) =>
      if own !in rows then Some(WalletNotFound)
      else if rows[own].status != Active then Some(WalletInactive)
      else None
    case TransferRequest(_, recipient, amount, _, _, _) =>
      if own !in rows || recipient.value !in rows then Some(WalletNotFound)
      else if rows[own].status != Active || rows[recipient.value].status != Active then Some(WalletInactive)
      else if rows[own].balance < amount then Some(InsufficientBalance)
      else None
  }

  // ---------- statements ----------

  datatype Write =
    | InsertRecord(record: Record)
    | InsertTransaction(transaction: Transaction)
    | SaveWallet(wallet: Wallet)
    | InsertEntries(entries: seq<LedgerEntry>)
    | InsertAudit
    | InsertDelivery(delivery: Webhook.Delivery)
    | CompleteRecord(key: IdemKey, status: int, body: Body)

  // The CHECK constraints of migration 000003.
  predicate TransactionRowOk(t: Transaction) {
    t.amount > 0
    && ((t.kind == TopUp && t.source.None? && t.destination.Some?)
        || (t.kind == Transfer && t.source.Some? && t.destination.Some? && t.source != t.destination))
  }

  predicate WalletRowOk(w: Wallet) {
    w.balance >= 0 && w.status == Active
  }

  predicate EntryRowOk(e: LedgerEntry) {
    (e.kind == Debit || e.kind == Credit) && e.amount > 0
  }

  predicate RowOk(w: Write) {
    match w
    case InsertRecord(record) => record.status >= 0
    case InsertTransaction(t) => TransactionRowOk(t)
    case SaveWallet(wallet) => WalletRowOk(wallet)
    case InsertEntries(entries) => forall e :: e in entries ==> EntryRowOk(e)
    case InsertAudit => true
    case InsertDelivery(d) => Webhook.DeliveryRowOk(d)
    case CompleteRecord(_, status, _) => status >= 0
  }

  function Apply(t: Tables, w: Write): Tables {
    match w
    case InsertRecord(record) => t.(records := t.records[record.key := record])
    case InsertTransaction(transaction) => t.(transactions := t.transactions + [transaction])
    case SaveWallet(wallet) => t.(wallets := t.wallets[wallet.id := wallet])
    case InsertEntries(entries) => t.(ledger := t.ledger + entries)
    case InsertAudit => t
    case InsertDelivery(_) => t
    case CompleteRecord(key, status, body) =>
      if key in t.records then t.(records := t.records[key := t.records[key].(status := status, body := body)]) else t
  }

  // Committing a transaction makes its statements visible in order, all at once.
  function ApplyAll(t: Tables, writes: seq<Write>): Tables
    decreases |writes|
  {
    if writes == [] then t else ApplyAll(Apply(t, writes[0]), writes[1..])
  }

  // The statements after the checks, the response, and the delivery to announce.
  datatype Plan = Plan(writes: seq<Write>, body: Body, delivery: Option<Webhook.Delivery>)

  function Notice(delivery: Option<Webhook.Delivery>): seq<Write> {
    if delivery.Some? then [InsertDelivery(delivery.value)] else []
  }

  // Both operations end by writing the delivery and completing their record.
  function Assemble(key: IdemKey, middle: seq<Write>, body: Body, delivery: Option<Webhook.Delivery>): Plan {
    Plan(middle + Notice(delivery) + [CompleteRecord(key, 200, body)], body, delivery)
  }

  function TopUpTransaction(r: Request, own: Id, draw: Draw): Transaction
    requires Validate(r).None?
  {
    Transaction(draw.transaction, draw.ref, TopUp, None, Some(own), r.amount, r.key, r.user.value, r.description)
  }

  function TopUpPlan(c: Webhook.Config, r: Request, wallet: Wallet, draw: Draw): Plan
    requires Validate(r).None?
  {
    var transaction := TopUpTransaction(r, wallet.id, draw);
    var after := wallet.(balance := Wrap(wallet.balance + r.amount));
    var credit := LedgerEntry(draw.firstEntry, draw.transaction, wallet.id, Credit, r.amount,
                              wallet.balance, after.balance, draw.firstTime);
    var delivery := Webhook.NewDelivery(c, draw.delivery, Webhook.TopUpSuccess, transaction, draw.secondTime);
    var body := TopUpBody(transaction, after);
    Assemble(KeyOf(r), [InsertTransaction(transaction), SaveWallet(after), InsertEntries([credit]), InsertAudit], body,
      delivery)
  }

  function TransferTransaction(r: Request, source: Id, destination: Id, draw: Draw): Transaction
    requires Validate(r).None?
  {
    Transaction(draw.transaction, draw.ref, Transfer, Some(source), Some(destination), r.amount, r.key, r.user.value,
      r.description)
  }

  function TransferPlan(c: Webhook.Config, r: Request, sender: Wallet, recipient: Wallet, draw: Draw): Plan
    requires Validate(r).None?
  {
    var transaction := TransferTransaction(r, sender.id, recipient.id, draw);
    var senderAfter := sender.(balance := Wrap(sender.balance - r.amount));
    var recipientAfter := recipient.(balance := Wrap(recipient.balance + r.amount));
    var debit := LedgerEntry(draw.firstEntry, draw.transaction, sender.id, Debit, r.amount,
                             sender.balance, senderAfter.balance, draw.firstTime);
    var credit := LedgerEntry(draw.secondEntry, draw.transaction, recipient.id, Credit, r.amount,
                              recipient.balance, recipientAfter.balance, draw.secondTime);
    var delivery := Webhook.NewDelivery(c, draw.delivery, Webhook.TransferSuccess, transaction, draw.secondTime);
    var body := TransferBody(transaction, senderAfter, recipientAfter);
    Assemble(KeyOf(r), [InsertTransaction(transaction), SaveWallet(senderAfter), SaveWallet(recipientAfter),
                        InsertEntries([debit, credit]), InsertAudit], body, delivery)
  }

  function PlanOf(c: Webhook.Config, r: Request, own: Id, rows: map<Id, Wallet>, draw: Draw): Plan
    requires Validate(r).None? && Refuse(r, own, rows).None?
  {
    if r.TopUpRequest? then TopUpPlan(c, r, rows[own], draw)
    else TransferPlan(c, r, rows[own], rows[r.recipient.value], draw)
  }

  // ---------- the atomic operation ----------

  datatype Effect = Effect(tables: Tables, outcome: Outcome, delivery: Option<Webhook.Delivery>)

  function Rejected(t: Tables, e: Error): Effect {
    Effect(t, Failure(e), None)
  }

  // TopUp or Transfer, run alone on the committed tables.
  function Execute(c: Webhook.Config, t: Tables, r: Request, draw: Draw): Effect {
    if Validate(r).Some? then Rejected(t, Validate(r).value)
    else if KeyOf(r) in t.records then Effect(t, ReplayOutcome(t.records[KeyOf(r)], r.hash), None)
    else if r.user.value !in t.owner then Rejected(t, Internal)
    else
      var own := t.owner[r.user.value];
      if ToSelf(r, own) then Rejected(t, SameWallet)
      else
        var rows := RowsOf(t.wallets, Targets(r, own));
        var refusal := Refuse(r, own, rows);
        if refusal.Some? then Rejected(t, refusal.value)
        else
          var plan := PlanOf(c, r, own, rows, draw);
          if exists w :: w in plan.writes && !RowOk(w) then Rejected(t, Internal)
          else Effect(ApplyAll(t, [InsertRecord(PendingRecord(r, draw))] + plan.writes),
                      Success(200, plan.body, false), plan.delivery)
  }

  // Register (and the admin seed): a user and an empty wallet.
  function Register(t: Tables, user: Id, wallet: Id): Tables {
    t.(wallets := t.wallets[wallet := Wallet(wallet, user, 0, Active)], owner := t.owner[user := wallet])
  }

  // ---------- applying statements ----------

  lemma ApplyConcat(t: Tables, a: seq<Write>, b: seq<Write>)
    ensures ApplyAll(t, a + b) == ApplyAll(ApplyAll(t, a), b)
    decreases |a|
  {
    if a == [] {
      assert a + b == b;
    } else {
      assert (a + b)[1..] == a[1..] + b;
      ApplyConcat(Apply(t, a[0]), a[1..], b);
    }
  }

  lemma ApplyOne(t: Tables, w: Write)
    ensures ApplyAll(t, [w]) == Apply(t, w)
  {
    assert [w][1..] == [];
  }

  lemma ApplyTwo(t: Tables, a: Write, b: Write)
    ensures ApplyAll(t, [a, b]) == Apply(Apply(t, a), b)
  {
    assert [a, b] == [a] + [b];
    ApplyConcat(t, [a], [b]);
    ApplyOne(t, a);
    ApplyOne(Apply(t, a), b);
  }

  lemma ApplyFour(t: Tables, a: Write, b: Write, c: Write, d: Write)
    ensures ApplyAll(t, [a, b, c, d]) == Apply(Apply(Apply(Apply(t, a), b), c), d)
  {
    assert [a, b, c, d] == [a, b] + [c, d];
    ApplyConcat(t, [a, b], [c, d]);
    ApplyTwo(t, a, b);
    ApplyTwo(Apply(Apply(t, a), b), c, d);
  }

  lemma ApplyFive(t: Tables, a: Write, b: Write, c: Write, d: Write, e: Write)
    ensures ApplyAll(t, [a, b, c, d, e]) == Apply(Apply(Apply(Apply(Apply(t, a), b), c), d), e)
  {
    assert [a, b, c, d, e] == [a, b, c, d] + [e];
    ApplyConcat(t, [a, b, c, d], [e]);
    ApplyFour(t, a, b, c, d);
    ApplyOne(ApplyAll(t, [a, b, c, d]), e);
  }

  // Every operation reserves its record first and completes it last; in between
  // its statements do not touch the records.
  lemma ApplyPlan(t: Tables, record: Record, middle: seq<Write>, body: Body, delivery: Option<Webhook.Delivery>)
    requires ApplyAll(t.(records := t.records[record.key := record]), middle).records == t.records[record.key := record]
    ensures var u := ApplyAll(t.(records := t.records[record.key := record]), middle);
            ApplyAll(t, [InsertRecord(record)] + Assemble(record.key, middle, body, delivery).writes)
            == u.(records := t.records[record.key := record.(status := 200, body := body)])
  {
    var t0 := Apply(t, InsertRecord(record));
    var u := ApplyAll(t0, middle);
    var last := CompleteRecord(record.key, 200, body);
    ApplyConcat(t, [InsertRecord(record)], middle + Notice(delivery) + [last]);
    ApplyOne(t, InsertRecord(record));
    ApplyConcat(t0, middle + Notice(delivery), [last]);
    ApplyConcat(t0, middle, Notice(delivery));
    if delivery.Some? {
      ApplyOne(u, InsertDelivery(delivery.value));
    }
    ApplyOne(u, last);
    assert t0.records[record.key := record.(status := 200, body := body)]
        == t.records[record.key := record.(status := 200, body := body)];
  }
}
