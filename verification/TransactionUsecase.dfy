// TopUp and Transfer as the code runs them: statement after statement on the
// database, rolled back as a whole on any error, announced after the commit.
module TransactionUsecase {
  import opened Int64
  import opened Entities
  import opened Engine
  import opened Meaning
  import opened Answers
  import Store
  import Webhook
  import WebhookService

  class Usecase {
    const db: Store.Database
    const webhooks: WebhookService.Service

    constructor (db: Store.Database, webhooks: WebhookService.Service)
      requires webhooks.db == db
      ensures this.db == db && this.webhooks == webhooks && webhooks.db == db
    {
      this.db, this.webhooks := db, webhooks;
    }

    ghost predicate Wired() {
      webhooks.db == db
    }

    // uuid.New does not repeat an id.
    ghost predicate Fresh(draw: Draw)
      reads db
    {
      forall k :: k in db.records ==> db.records[k].id != draw.record
    }

    // The delivery rows after an operation that announced d.
    function Outgoing(rows: map<Id, Webhook.Delivery>, d: Option<Webhook.Delivery>): map<Id, Webhook.Delivery> {
      if d.Some? then rows[d.value.id := d.value] else rows
    }

    // The answer for a key that is already taken.
    method Replay(key: IdemKey, hash: string) returns (outcome: Outcome)
      requires key in db.records
      ensures Store.Getting !in db.broken ==>
                && outcome == ReplayOutcome(db.records[key], hash)
                && (outcome == Failure(DifferentPayload) <==> db.records[key].hash != hash)
                && (db.records[key].hash == hash && db.records[key].status != 0 ==>
                      outcome == Success(db.records[key].status, db.records[key].body, true))
      ensures Store.Getting in db.broken ==> outcome == Failure(Internal)
    {
      var existing := db.Get(key);
      if existing.None? {
        return Failure(Internal);
      }
      if existing.value.hash != hash {
        return Failure(DifferentPayload);
      }
      if existing.value.status == 0 {
        return Failure(StillProcessing);
      }
      outcome := Success(existing.value.status, existing.value.body, true);
    }

    // The opening of both operations: reserve the key or replay, then find the
    // caller's wallet. done is the answer when the operation ends here.
    method Admit(r: Request, draw: Draw) returns (done: Option<Outcome>, own: Id)
      requires Validate(r).None? && db.Keyed() && Fresh(draw)
      modifies db`records
      ensures done.None? ==>
                && KeyOf(r) !in old(db.records) && r.user.value in db.owner && own == db.owner[r.user.value]
                && db.records == old(db.records)[KeyOf(r) := PendingRecord(r, draw)] && Reserved(r, draw)
      ensures done.Some? && KeyOf(r) in old(db.records) ==>
                && db.records == old(db.records)
                && (done.value == Failure(Internal) || done.value == ReplayOutcome(db.records[KeyOf(r)], r.hash))
      ensures done.Some? && KeyOf(r) !in old(db.records) ==> done.value == Failure(Internal)
      ensures db.broken == {} ==>
                && (done.None? <==> KeyOf(r) !in old(db.records) && r.user.value in db.owner)
                && (KeyOf(r) in old(db.records) ==>
                      done.Some? && done.value == ReplayOutcome(db.records[KeyOf(r)], r.hash))
    {
      own := 0;
      var key := IdemKey(r.key, r.user.value, if r.TopUpRequest? then TopUpEndpoint else TransferEndpoint);
      var record := Record(draw.record, key, r.hash, 0, EmptyBody);
      var ok, inserted := db.Reserve(record);
      if !ok {
        return Some(Failure(Internal)), own;
      }
      if !inserted {
        var replay := Replay(key, r.hash);
        return Some(replay), own;
      }
      var found := db.GetByUserID(r.user.value);
      if found.None? {
        return Some(Failure(Internal)), own;
      }
      return None, found.value;
    }

    // The function TopUp hands to WithinTransaction.
    method TopUpInTransaction(r: Request, draw: Draw) returns (outcome: Outcome, announced: Option<Webhook.Delivery>)
      requires Wired() && r.TopUpRequest? && Validate(r).None? && db.Keyed() && Fresh(draw)
      modifies db
      ensures db.broken == old(db.broken)
      ensures Ran(old(db.Contents()), old(db.deliveries), r, draw, outcome, announced)
    {
      ghost var before := db.Contents();
      var done, own := Admit(r, draw);
      if done.Some? {
        return done.value, None;
      }
      ExecuteTopUp(webhooks.config, before, r, draw);
      outcome, announced := LockAndTopUp(r, own, draw, before, Execute(webhooks.config, before, r, draw));
    }

    // The key of r is reserved, and nothing else has changed since before.
    ghost predicate Reserving(before: Tables, r: Request, draw: Draw)
      requires Validate(r).None?
      reads db
    {
      Startable(before, r) && Reserved(r, draw) && db.Keyed()
      && db.Contents() == before.(records := before.records[KeyOf(r) := PendingRecord(r, draw)])
    }

    // A top up after its key is reserved; e is what it should come to.
    method LockAndTopUp(r: Request, own: Id, draw: Draw, ghost before: Tables, ghost e: Effect)
      returns (outcome: Outcome, announced: Option<Webhook.Delivery>)
      requires Wired() && r.TopUpRequest? && Validate(r).None? && Reserving(before, r, draw)
      requires own == before.owner[r.user.value] && TopUpAnswer(webhooks.config, before, r, draw, e)
      modifies db
      ensures db.broken == old(db.broken)
      ensures Ended(e, old(db.deliveries), outcome, announced)
    {
      var ok, locked := db.LockByIDs([own]);
      if !ok {
        return Failure(Internal), None;
      }
      OneRow(db.wallets, own);
      if |locked| != 1 {
        return Failure(WalletNotFound), None;
      }
      var wallet := locked[0];
      if wallet.status != Active {
        return Failure(WalletInactive), None;
      }
      outcome, announced := WriteTopUp(r, wallet, draw);
      PostedOnReserved(before, r, wallet, draw);
    }

    // What the body of a transaction does: if it succeeds, the whole effect of
    // the operation; if it fails, nothing is known of the tables but why.
    ghost predicate Ran(t: Tables, rows: map<Id, Webhook.Delivery>, r: Request, draw: Draw,
                        outcome: Outcome, announced: Option<Webhook.Delivery>)
      reads this, db, webhooks
    {
      Ended(Execute(webhooks.config, t, r, draw), rows, outcome, announced)
    }

    ghost predicate Ended(e: Effect, rows: map<Id, Webhook.Delivery>, outcome: Outcome,
                          announced: Option<Webhook.Delivery>)
      reads this, db, webhooks
    {
      (db.broken == {} ==> outcome == e.outcome)
      && (outcome == e.outcome || outcome == Failure(Internal))
      && (outcome.Failure? ==> announced == None)
      && (outcome.Success? ==>
            announced == e.delivery && db.Contents() == e.tables && db.deliveries == Outgoing(rows, e.delivery))
    }

    // The statements of a top up after the checks.
    method WriteTopUp(r: Request, locked: Wallet, draw: Draw)
      returns (outcome: Outcome, announced: Option<Webhook.Delivery>)
      requires Wired() && r.TopUpRequest? && Validate(r).None?
      requires Reserved(r, draw)
      modifies db
      ensures db.broken == old(db.broken)
      ensures var plan := TopUpPlan(webhooks.config, r, locked, draw);
              && (outcome.Success? ==> TopUpRowsOk(webhooks.config, r, locked))
              && (db.broken == {} && TopUpRowsOk(webhooks.config, r, locked) ==> outcome.Success?)
              && (outcome.Failure? ==> outcome.error == Internal && announced == None)
              && (outcome.Success? ==>
                    && outcome == Success(200, plan.body, false) && announced == plan.delivery
                    && db.deliveries == Outgoing(old(db.deliveries), plan.delivery)
                    && db.Contents() == PostedTopUp(old(db.Contents()), r, locked, draw))
    {
      announced := None;
      var wallet := locked;
      var before := wallet.balance;
      wallet := wallet.(balance := Wrap(wallet.balance + r.amount));
      var transaction := Transaction(draw.transaction, draw.ref, TopUp, None, Some(wallet.id), r.amount, r.key,
        r.user.value, r.description);
      var ok := db.CreateTransaction(transaction);
      if !ok {
        return Failure(Internal), None;
      }
      ok := db.UpdateWallet(wallet);
      if !ok {
        return Failure(Internal), None;
      }
      var entry := LedgerEntry(draw.firstEntry, transaction.id, wallet.id, Credit, r.amount, before, wallet.balance,
        draw.firstTime);
      ok := db.CreateEntries([entry]);
      if !ok {
        return Failure(Internal), None;
      }
      var body := TopUpBody(transaction, wallet);
      outcome, announced := Finish(r, draw, Webhook.TopUpSuccess, transaction, body);
    }

    // Locks both wallets of a transfer and looks each one up by id.
    method LockPair(own: Id, to: Id) returns (ok: bool, pair: Option<(Wallet, Wallet)>)
      requires own != to && db.Keyed()
      ensures ok <==> Store.LockingWallets !in db.broken
      ensures ok ==> pair == if own in db.wallets
              && to in db.wallets then Some((db.wallets[own], db.wallets[to])) else None
    {
      pair := None;
      var locked;
      ok, locked := db.LockByIDs([own, to]);
      if !ok {
        return;
      }
      TwoRows(db.wallets, own, to);
      if |locked| != 2 {
        return;
      }
      var byId := map[locked[0].id := locked[0], locked[1].id := locked[1]];
      if own !in byId || to !in byId {
        return;
      }
      pair := Some((byId[own], byId[to]));
    }

    // The function Transfer hands to WithinTransaction.
    method TransferInTransaction(r: Request, draw: Draw) returns (outcome: Outcome, announced: Option<Webhook.Delivery>)
      requires Wired() && r.TransferRequest? && Validate(r).None? && db.Keyed() && Fresh(draw)
      modifies db
      ensures db.broken == old(db.broken)
      ensures Ran(old(db.Contents()), old(db.deliveries), r, draw, outcome, announced)
    {
      ghost var before := db.Contents();
      var done, own := Admit(r, draw);
      if done.Some? {
        return done.value, None;
      }
      ExecuteTransfer(webhooks.config, before, r, draw);
      outcome, announced := LockAndTransfer(r, own, draw, before, Execute(webhooks.config, before, r, draw));
    }

    // A transfer after its key is reserved; e is what it should come to.
    method LockAndTransfer(r: Request, own: Id, draw: Draw, ghost before: Tables, ghost e: Effect)
      returns (outcome: Outcome, announced: Option<Webhook.Delivery>)
      requires Wired() && r.TransferRequest? && Validate(r).None? && Reserving(before, r, draw)
      requires own == before.owner[r.user.value] && TransferAnswer(webhooks.config, before, r, draw, e)
      modifies db
      ensures db.broken == old(db.broken)
      ensures Ended(e, old(db.deliveries), outcome, announced)
    {
      var to := r.recipient.value;
      if own == to {
        return Failure(SameWallet), None;
      }
      var ok, pair := LockPair(own, to);
      if !ok {
        return Failure(Internal), None;
      }
      if pair.None? {
        return Failure(WalletNotFound), None;
      }
      var (sender, recipient) := pair.value;
      if sender.status != Active || recipient.status != Active {
        return Failure(WalletInactive), None;
      }
      if sender.balance < r.amount {
        return Failure(InsufficientBalance), None;
      }
      outcome, announced := WriteTransfer(r, sender, recipient, draw);
      TransferredOnReserved(before, r, sender, recipient, draw);
    }

    // The statements of a transfer after the checks.
    method WriteTransfer(r: Request, lockedSender: Wallet, lockedRecipient: Wallet, draw: Draw)
      returns (outcome: Outcome, announced: Option<Webhook.Delivery>)
      requires Wired() && r.TransferRequest? && Validate(r).None? && lockedSender.id != lockedRecipient.id
      requires Reserved(r, draw)
      modifies db
      ensures db.broken == old(db.broken)
      ensures var plan := TransferPlan(webhooks.config, r, lockedSender, lockedRecipient, draw);
              var rowsOk := TransferRowsOk(webhooks.config, r, lockedSender, lockedRecipient);
              && (outcome.Success? ==> rowsOk)
              && (db.broken == {} && rowsOk ==> outcome.Success?)
              && (outcome.Failure? ==> outcome.error == Internal && announced == None)
              && (outcome.Success? ==>
                    && outcome == Success(200, plan.body, false) && announced == plan.delivery
                    && db.deliveries == Outgoing(old(db.deliveries), plan.delivery)
                    && db.Contents() == PostedTransfer(old(db.Contents()), r, lockedSender, lockedRecipient, draw))
    {
      announced := None;
      var senderBefore, recipientBefore := lockedSender.balance, lockedRecipient.balance;
      var sender := lockedSender.(balance := Wrap(lockedSender.balance - r.amount));
      var recipient := lockedRecipient.(balance := Wrap(lockedRecipient.balance + r.amount));
      var transaction := Transaction(draw.transaction, draw.ref, Transfer, Some(sender.id), Some(recipient.id),
                                     r.amount, r.key, r.user.value, r.description);
      var ok := db.CreateTransaction(transaction);
      if !ok {
        return Failure(Internal), None;
      }
      ok := db.UpdateWallet(sender);
      if !ok {
        return Failure(Internal), None;
      }
      ok := db.UpdateWallet(recipient);
      if !ok {
        return Failure(Internal), None;
      }
      var debit := LedgerEntry(draw.firstEntry, transaction.id, sender.id, Debit, r.amount,
                               senderBefore, sender.balance, draw.firstTime);
      var credit := LedgerEntry(draw.secondEntry, transaction.id, recipient.id, Credit, r.amount,
                                recipientBefore, recipient.balance, draw.secondTime);
      TransferEntriesOk(debit, credit, r.amount);
      ok := db.CreateEntries([debit, credit]);
      if !ok {
        return Failure(Internal), None;
      }
      var body := TransferBody(transaction, sender, recipient);
      outcome, announced := Finish(r, draw, Webhook.TransferSuccess, transaction, body);
    }

    // The key is reserved by this transaction.
    ghost predicate Reserved(r: Request, draw: Draw)
      requires Validate(r).None?
      reads db
    {
      KeyOf(r) in db.records && db.records[KeyOf(r)] == PendingRecord(r, draw)
      && forall k :: k in db.records && k != KeyOf(r) ==> db.records[k].id != draw.record
    }

    // What both operations end with: audit, delivery, completed record.
    method Finish(r: Request, draw: Draw, event: Webhook.Event, t: Transaction, body: Body)
      returns (outcome: Outcome, announced: Option<Webhook.Delivery>)
      requires Wired() && Validate(r).None? && Reserved(r, draw)
      modifies db`records, db`deliveries
      ensures var d := Webhook.NewDelivery(webhooks.config, draw.delivery, event, t, draw.secondTime);
              var rowOk := d.Some? ==> Webhook.DeliveryRowOk(d.value);
              && (outcome.Success? ==> rowOk)
              && (db.broken == {} && rowOk ==> outcome.Success?)
              && (outcome.Failure? ==> outcome.error == Internal && announced == None)
              && (outcome.Success? ==>
                    && outcome == Success(200, body, false) && announced == d
                    && db.deliveries == Outgoing(old(db.deliveries), d)
                    && db.records == old(db.records)[KeyOf(r) := CompletedRecord(r, draw, body)])
    {
      announced := None;
      var ok := db.CreateAudit();
      if !ok {
        return Failure(Internal), None;
      }
      announced, ok := webhooks.CreateDelivery(event, t, draw.delivery, draw.secondTime);
      if !ok {
        return Failure(Internal), None;
      }
      ok := db.MarkCompleted(draw.record, 200, body);
      if !ok {
        return Failure(Internal), None;
      }
      assert db.records == old(db.records)[KeyOf(r) := CompletedRecord(r, draw, body)];
      outcome := Success(200, body, false);
    }

    // TopUp and Transfer: validation, WithinTransaction, and after the commit the
    // hand-over of the delivery to the queue. Any failure leaves no trace.
    method Run(r: Request, draw: Draw) returns (outcome: Outcome)
      requires Wired() && db.Keyed() && Fresh(draw)
      modifies db, webhooks`queue
      ensures outcome == Failure(KeyRequired) <==> r.key == ""
      ensures outcome == Failure(AmountNotPositive) <==> r.key != "" && r.amount <= 0
      ensures db.broken == {} && Repeats(old(db.Contents()), r) ==>
                var rec := old(db.Contents()).records[RequestKey(r)];
                rec.status != 0 ==> outcome == Success(rec.status, rec.body, true)
      ensures var e := Execute(webhooks.config, old(db.Contents()), r, draw);
              && (db.broken == {} ==> outcome == e.outcome)
              && (outcome == e.outcome ==>
                    && db.Contents() == e.tables
                    && db.deliveries == (if e.delivery.None? then old(db.deliveries)
                                         else old(db.deliveries)[e.delivery.value.id := e.delivery.value])
                    && webhooks.queue == old(webhooks.queue) + Queued(e.delivery, |old(webhooks.queue)|))
              && (outcome != e.outcome ==>
                    && outcome == Failure(Internal)
                    && db.Contents() == old(db.Contents()) && db.deliveries == old(db.deliveries)
                    && webhooks.queue == old(webhooks.queue))
    {
      InvalidAnswers(webhooks.config, db.Contents(), r, draw);
      RepeatAnswers(webhooks.config, db.Contents(), r, draw);
      var invalid := Validate(r);
      if invalid.Some? {
        return Failure(invalid.value);
      }
      FailureChangesNothing(webhooks.config, db.Contents(), r, draw);
      var saved := db.Begin();
      var announced;
      if r.TopUpRequest? {
        outcome, announced := TopUpInTransaction(r, draw);
      } else {
        outcome, announced := TransferInTransaction(r, draw);
      }
      if outcome.Success? {
        var ok := db.Commit();
        if !ok {
          outcome := Failure(Internal);
        }
      }
      if outcome.Failure? {
        db.Rollback(saved);
        return;
      }
      if announced.Some? {
        webhooks.Enqueue(announced.value.id);
      }
    }

    // What is queued behind n others: the delivery, unless the queue is full.
    function Queued(d: Option<Webhook.Delivery>, n: nat): seq<Id> {
      var c := webhooks.config;
      if d.Some? && c.enabled && n < 2 * (if c.workerBatchSize < 1 then 20 else c.workerBatchSize) then [d.value.id]
      else []
    }
  }

  // Posting completes the reserved record, so it does not matter whether the
  // reservation is already in the table.
  lemma PostedOnReserved(t: Tables, r: Request, w: Wallet, draw: Draw)
    requires Validate(r).None?
    ensures var reserved := t.(records := t.records[KeyOf(r) := PendingRecord(r, draw)]);
            PostedTopUp(reserved, r, w, draw) == PostedTopUp(t, r, w, draw)
  {
  }

  lemma TransferredOnReserved(t: Tables, r: Request, s: Wallet, d: Wallet, draw: Draw)
    requires Validate(r).None?
    ensures var reserved := t.(records := t.records[KeyOf(r) := PendingRecord(r, draw)]);
            PostedTransfer(reserved, r, s, d, draw) == PostedTransfer(t, r, s, d, draw)
  {
  }

  lemma FailureChangesNothing(c: Webhook.Config, t: Tables, r: Request, draw: Draw)
    ensures var e := Execute(c, t, r, draw);
            e.outcome.Failure? ==> e == Rejected(t, e.outcome.error)
  {
  }

  lemma TwoRows(wallets: map<Id, Wallet>, a: Id, b: Id)
    requires a != b
    ensures Store.ExistingRows(wallets, Store.SortIds([a, b])) ==
            (if (if a < b then a else b) in wallets then [wallets[if a < b then a else b]] else [])
            + (if (if a < b then b else a) in wallets then [wallets[if a < b then b else a]] else [])
  {
    assert [a, b][1..] == [b];
    assert Store.SortIds([b]) == [b];
    assert Store.PlaceId([b], a) == if a <= b then [a, b] else [b] + Store.PlaceId([b][1..], a);
    assert Store.PlaceId([b][1..], a) == [a];
    assert Store.SortIds([a, b]) == if a <= b then [a, b] else [b, a];
    var lo, hi := if a < b then a else b, if a < b then b else a;
    assert [lo, hi][1..] == [hi];
    assert Store.ExistingRows(wallets, [hi]) == if hi in wallets then [wallets[hi]] else [];
  }

  lemma OneRow(wallets: map<Id, Wallet>, id: Id)
    ensures Store.ExistingRows(wallets, Store.SortIds([id])) == if id in wallets then [wallets[id]] else []
  {
    assert Store.SortIds([id]) == [id];
  }
}
