// What every committed operation keeps true of the tables.
module Honesty {
  import opened Entities
  import opened Ledger
  import opened Engine
  import opened Consistency

  // The user index and the wallet table agree; every wallet row passes its CHECKs.
  ghost predicate WalletsOk(t: Tables) {
    (forall u :: u in t.owner ==> t.owner[u] in t.wallets && t.wallets[t.owner[u]].userId == u)
    && (forall w :: w in t.wallets ==> t.wallets[w].id == w && WalletRowOk(t.wallets[w]))
    && (forall w :: w in t.wallets ==> t.wallets[w].userId in t.owner && t.owner[t.wallets[w].userId] == w)
  }

  // The exact arithmetic of an entry, in mathematical integers.
  predicate EntryExact(e: LedgerEntry) {
    EntryRowOk(e) && e.balanceAfter == e.balanceBefore + Signed(e)
  }

  // In commit order: starts from zero, each entry continues the previous one,
  // the last one left the wallet at balance, and creation times increase.
  ghost predicate HistoryOk(h: seq<LedgerEntry>, balance: int) {
    Chained(h)
    && balance == (if h == [] then 0 else h[|h| - 1].balanceAfter)
    && (forall i, j :: 0 <= i < j < |h| ==> h[i].createdAt < h[j].createdAt)
  }

  // The entries a transaction left behind.
  ghost predicate FootprintOk(x: Transaction, rows: seq<LedgerEntry>) {
    TransactionRowOk(x)
    && if x.kind == TopUp then
         |rows| == 1 && rows[0].kind == Credit && rows[0].walletId == x.destination.value && rows[0].amount == x.amount
       else
         |rows| == 2
         && rows[0].kind == Debit && rows[0].walletId == x.source.value && rows[0].amount == x.amount
         && rows[1].kind == Credit && rows[1].walletId == x.destination.value && rows[1].amount == x.amount
  }

  function KeyOfTransaction(x: Transaction): IdemKey {
    IdemKey(x.key, x.initiatedBy, if x.kind == TopUp then TopUpEndpoint else TransferEndpoint)
  }

  ghost predicate TransactionsDistinct(xs: seq<Transaction>) {
    forall i, j :: 0 <= i < j < |xs| ==> xs[i].id != xs[j].id && KeyOfTransaction(xs[i]) != KeyOfTransaction(xs[j])
  }

  // Records and transactions are in bijection by (key, user, endpoint), and
  // every record is complete.
  ghost predicate RecordsOk(t: Tables) {
    (forall k :: k in t.records ==>
      && t.records[k].status == 200 && t.records[k].key == k
      && exists x :: x in t.transactions && KeyOfTransaction(x) == k)
    && (forall x :: x in t.transactions ==> KeyOfTransaction(x) in t.records)
  }

  ghost predicate HistoriesOk(wallets: map<Id, Wallet>, ledger: seq<LedgerEntry>) {
    forall w {:trigger Group(ByWallet, w, ledger)} :: w in wallets
      ==> HistoryOk(Group(ByWallet, w, ledger), wallets[w].balance)
  }

  ghost predicate FootprintsOk(transactions: seq<Transaction>, ledger: seq<LedgerEntry>) {
    forall x {:trigger Group(ByTransaction, x.id, ledger)} :: x in transactions
      ==> FootprintOk(x, Group(ByTransaction, x.id, ledger))
  }

  ghost predicate LedgerOk(t: Tables) {
    DistinctIds(t.ledger)
    && (forall e :: e in t.ledger ==>
      EntryExact(e) && e.walletId in t.wallets && exists x :: x in t.transactions && x.id == e.transactionId)
    && HistoriesOk(t.wallets, t.ledger)
    && FootprintsOk(t.transactions, t.ledger)
  }

  ghost predicate Honest(t: Tables) {
    WalletsOk(t) && TransactionsDistinct(t.transactions) && RecordsOk(t) && LedgerOk(t)
  }
}
