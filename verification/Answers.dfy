// Which answer a request gets, told from what the caller sent and what the tables
// hold, without the code that decides it.
module Answers {
  import opened Int64
  import opened Entities
  import opened Engine
  import opened Honesty
  import opened Meaning
  import Webhook

  // ---------- requests that never start ----------

  // Each validation error is given exactly in its case, the first one in this
  // order; whatever is not well formed changes nothing.
  lemma InvalidAnswers(c: Webhook.Config, t: Tables, r: Request, draw: Draw)
    ensures var e := Execute(c, t, r, draw);
            && (e.outcome == Failure(KeyRequired) <==> r.key == "")
            && (e.outcome == Failure(AmountNotPositive) <==> r.key != "" && r.amount <= 0)
            && (e.outcome == Failure(InvalidUser) <==> r.key != "" && r.amount > 0 && r.user == None)
            && (e.outcome == Failure(InvalidRecipient) <==>
                  && r.key != "" && r.amount > 0 && r.user != None
                  && r.TransferRequest? && r.recipient == None)
            && (!WellFormed(r) ==> e == Rejected(t, e.outcome.error))
  {
    if Startable(t, r) {
      StartableAnswers(c, t, r, draw);
    }
  }

  lemma StartableAnswers(c: Webhook.Config, t: Tables, r: Request, draw: Draw)
    requires Startable(t, r)
    ensures r.TopUpRequest? ==> TopUpAnswer(c, t, r, draw, Execute(c, t, r, draw))
    ensures r.TransferRequest? ==> TransferAnswer(c, t, r, draw, Execute(c, t, r, draw))
  {
    if r.TopUpRequest? {
      ExecuteTopUp(c, t, r, draw);
    } else {
      ExecuteTransfer(c, t, r, draw);
    }
  }

  // ---------- requests whose key is on record ----------

  // The key of r is on record with another payload.
  predicate Conflicts(t: Tables, r: Request) {
    WellFormed(r) && RequestKey(r) in t.records && t.records[RequestKey(r)].hash != r.hash
  }

  // r repeats a request that is on record.
  predicate Repeats(t: Tables, r: Request) {
    WellFormed(r) && RequestKey(r) in t.records && t.records[RequestKey(r)].hash == r.hash
  }

  // A repeat gets the stored status and body; a key that comes with another
  // payload is refused, and nothing else is refused for that reason. Neither
  // changes anything.
  lemma RepeatAnswers(c: Webhook.Config, t: Tables, r: Request, draw: Draw)
    ensures var e := Execute(c, t, r, draw);
            && (e.outcome == Failure(DifferentPayload) <==> Conflicts(t, r))
            && (e.outcome == Failure(StillProcessing) <==> Repeats(t, r) && t.records[RequestKey(r)].status == 0)
            && (e.outcome.Success? && e.outcome.replay <==> Repeats(t, r) && t.records[RequestKey(r)].status != 0)
            && (Repeats(t, r) && t.records[RequestKey(r)].status != 0 ==>
                  var rec := t.records[RequestKey(r)]; e.outcome == Success(rec.status, rec.body, true))
            && (Conflicts(t, r) || Repeats(t, r) ==> e.tables == t && e.delivery == None)
  {
    if Startable(t, r) {
      StartableAnswers(c, t, r, draw);
    }
  }

  // ---------- requests that are refused ----------

  // The wallets that r moves money between: the recipient of a top up is the caller.
  function Payer(t: Tables, r: Request): Id
    requires Startable(t, r)
  {
    t.owner[r.user.value]
  }

  function Payee(t: Tables, r: Request): Id
    requires Startable(t, r)
  {
    match r
    case TopUpRequest(_, _, _, _, _) => t.owner[r.user.value]
    case TransferRequest(_, recipient, _, _, _, _) => recipient.value
  }

  // A transfer of the caller to itself.
  predicate Circular(t: Tables, r: Request) {
    Startable(t, r) && r.TransferRequest? && Payee(t, r) == Payer(t, r)
  }

  predicate Found(t: Tables, r: Request) {
    Startable(t, r) && !Circular(t, r) && Payer(t, r) in t.wallets && Payee(t, r) in t.wallets
  }

  predicate BothActive(t: Tables, r: Request) {
    Found(t, r) && t.wallets[Payer(t, r)].status == Active && t.wallets[Payee(t, r)].status == Active
  }

  // Each refusal is given exactly in its case, on any tables.
  lemma RefusalAnswers(c: Webhook.Config, t: Tables, r: Request, draw: Draw)
    ensures var e := Execute(c, t, r, draw);
            && (e.outcome == Failure(SameWallet) <==> Circular(t, r))
            && (e.outcome == Failure(WalletNotFound) <==> Startable(t, r) && !Circular(t, r) && !Found(t, r))
            && (e.outcome == Failure(WalletInactive) <==> Found(t, r) && !BothActive(t, r))
            && (e.outcome == Failure(InsufficientBalance) <==>
                  BothActive(t, r) && r.TransferRequest? && t.wallets[Payer(t, r)].balance < r.amount)
            && (e.outcome.Failure? ==> e == Rejected(t, e.outcome.error))
  {
    if Startable(t, r) {
      StartableAnswers(c, t, r, draw);
    }
  }

  // The caller has no wallet row to start from.
  predicate Unknown(t: Tables, r: Request) {
    WellFormed(r) && RequestKey(r) !in t.records && r.user.value !in t.owner
  }

  predicate Solvent(t: Tables, r: Request) {
    Found(t, r) && (r.TransferRequest? ==> t.wallets[Payer(t, r)].balance >= r.amount)
  }

  // An internal error means an unknown caller, a credit that does not fit an
  // int64, or a blank webhook target; in all other cases the request gets the
  // answer of its own.
  lemma InternalAnswers(c: Webhook.Config, t: Tables, r: Request, draw: Draw)
    requires WalletsOk(t)
    ensures Execute(c, t, r, draw).outcome == Failure(Internal) <==>
              || Unknown(t, r)
              || (Solvent(t, r) && (t.wallets[Payee(t, r)].balance + r.amount > MAX_INT64 || !NoticeOk(c)))
  {
    if Startable(t, r) {
      StartableAnswers(c, t, r, draw);
      if r.TopUpRequest? {
        TopUpExact(c, t, r, t.wallets[Payer(t, r)], draw);
      } else if Solvent(t, r) {
        TransferExact(c, t, r, t.wallets[Payer(t, r)], t.wallets[Payee(t, r)], draw);
      }
    }
  }
}
