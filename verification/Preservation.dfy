// Every committed operation keeps the tables honest.
module Preservation {
  import opened Int64
  import opened Entities
  import opened Sequences
  import opened Ledger
  import opened Engine
  import opened Honesty
  import opened Meaning
  import Webhook

  // Fresh primary keys.
  ghost predicate DrawFresh(t: Tables, draw: Draw) {
    draw.firstEntry != draw.secondEntry
    && (forall x :: x in t.transactions ==> x.id != draw.transaction)
    && (forall e :: e in t.ledger ==> e.id != draw.firstEntry && e.id != draw.secondEntry)
  }

  // The clock read for a new entry of w is later than every stored entry of w.
  ghost predicate LaterOn(ledger: seq<LedgerEntry>, w: Id, now: Time) {
    forall e :: e in ledger && e.walletId == w ==> e.createdAt < now
  }

  ghost predicate ClockOk(t: Tables, r: Request, draw: Draw) {
    (r.user.Some? && r.user.value in t.owner ==> LaterOn(t.ledger, t.owner[r.user.value], draw.firstTime))
    && (r.TransferRequest? && r.recipient.Some? ==> LaterOn(t.ledger, r.recipient.value, draw.secondTime))
  }

  lemma HistoryGrows(h: seq<LedgerEntry>, balance: int, e: LedgerEntry)
    requires HistoryOk(h, balance) && e.balanceBefore == balance
    requires forall x :: x in h ==> x.createdAt < e.createdAt
    ensures HistoryOk(h + [e], e.balanceAfter)
  {
    forall i, j | 0 <= i < j < |h + [e]| ensures (h + [e])[i].createdAt < (h + [e])[j].createdAt {
      assert h[i] in h;
    }
  }

  lemma {:induction false} GroupEmpty(c: Column, id: Id, s: seq<LedgerEntry>)
    requires forall e :: e in s ==> ColumnOf(c, e) != id
    ensures Group(c, id, s) == []
  {
    if s != [] {
      GroupEmpty(c, id, s[..|s| - 1]);
    }
  }

  // Posting one exact entry whose wallet balance becomes its balanceAfter keeps
  // all histories in order.
  lemma PostEntry(wallets: map<Id, Wallet>, ledger: seq<LedgerEntry>, e: LedgerEntry, after: Wallet)
    requires e.walletId in wallets && after.balance == e.balanceAfter && e.balanceBefore == wallets[e.walletId].balance
    requires HistoriesOk(wallets, ledger)
    requires forall x :: x in ledger && x.walletId == e.walletId ==> x.createdAt < e.createdAt
    ensures HistoriesOk(wallets[e.walletId := after], ledger + [e])
  {
    forall w | w in wallets
      ensures HistoryOk(Group(ByWallet, w, ledger + [e]), wallets[e.walletId := after][w].balance)
    {
      GroupSnoc(ByWallet, w, ledger, e);
      if w == e.walletId {
        HistoryGrows(Group(ByWallet, w, ledger), wallets[w].balance, e);
      } else {
        assert Group(ByWallet, w, ledger) + [] == Group(ByWallet, w, ledger);
      }
    }
  }

  // The new entries belong to the new transaction alone.
  lemma PostFootprint(transactions: seq<Transaction>, ledger: seq<LedgerEntry>, x: Transaction,
                      entries: seq<LedgerEntry>)
    requires FootprintsOk(transactions, ledger) && forall y :: y in transactions ==> y.id != x.id
    requires forall e :: e in ledger ==> exists y :: y in transactions && y.id == e.transactionId
    requires forall e :: e in entries ==> e.transactionId == x.id
    requires FootprintOk(x, entries)
    ensures FootprintsOk(transactions + [x], ledger + entries)
  {
    forall y | y in transactions + [x] ensures FootprintOk(y, Group(ByTransaction, y.id, ledger + entries)) {
      GroupConcat(ByTransaction, y.id, ledger, entries);
      if y in transactions {
        GroupEmpty(ByTransaction, y.id, entries);
        assert Group(ByTransaction, y.id, ledger) + [] == Group(ByTransaction, y.id, ledger);
      } else {
        GroupEmpty(ByTransaction, x.id, ledger);
        GroupAll(ByTransaction, x.id, entries);
        assert [] + entries == entries;
      }
    }
  }

  lemma {:induction false} GroupAll(c: Column, id: Id, s: seq<LedgerEntry>)
    requires forall e :: e in s ==> ColumnOf(c, e) == id
    ensures Group(c, id, s) == s
  {
    if s != [] {
      Unsnoc(s);
      GroupAll(c, id, s[..|s| - 1]);
    }
  }

  // Adding the transaction and its completed record keeps the bijection.
  lemma PostRecord(t: Tables, t': Tables, x: Transaction, record: Record)
    requires RecordsOk(t) && TransactionsDistinct(t.transactions)
    requires KeyOfTransaction(x) == record.key && record.key !in t.records && record.status == 200
    requires forall y :: y in t.transactions ==> y.id != x.id
    requires t'.transactions == t.transactions + [x] && t'.records == t.records[record.key := record]
    ensures RecordsOk(t') && TransactionsDistinct(t'.transactions)
  {
    forall k | k in t'.records ensures exists y :: y in t'.transactions && KeyOfTransaction(y) == k {
      if k == record.key {
        assert x in t'.transactions;
      } else {
        var y :| y in t.transactions && KeyOfTransaction(y) == k;
        assert y in t'.transactions;
      }
    }
    forall i, j | 0 <= i < j < |t'.transactions|
      ensures t'.transactions[i].id != t'.transactions[j].id
      ensures KeyOfTransaction(t'.transactions[i]) != KeyOfTransaction(t'.transactions[j])
    {
      assert t.transactions[i] in t.transactions;
    }
  }

  lemma DistinctGrows(ledger: seq<LedgerEntry>, e: LedgerEntry)
    requires DistinctIds(ledger) && forall x :: x in ledger ==> x.id != e.id
    ensures DistinctIds(ledger + [e])
  {
    forall i, j | 0 <= i < j < |ledger + [e]| ensures (ledger + [e])[i].id != (ledger + [e])[j].id {
      assert ledger[i] in ledger;
    }
  }

  lemma PostWallet(t: Tables, w: Id, after: Wallet)
    requires WalletsOk(t) && w in t.wallets && WalletRowOk(after)
    requires after.id == w && after.userId == t.wallets[w].userId
    ensures WalletsOk(t.(wallets := t.wallets[w := after]))
  {
  }

  lemma ReferencesKept(t: Tables, t': Tables, entries: seq<LedgerEntry>, x: Transaction)
    requires LedgerOk(t) && t'.ledger == t.ledger + entries && t'.transactions == t.transactions + [x]
    requires t.wallets.Keys <= t'.wallets.Keys
    requires forall e :: e in entries ==> EntryExact(e) && e.walletId in t'.wallets && e.transactionId == x.id
    ensures forall e :: e in t'.ledger ==>
              EntryExact(e) && e.walletId in t'.wallets && exists y :: y in t'.transactions && y.id == e.transactionId
  {
    assert x in t'.transactions;
    forall e | e in t.ledger ensures exists y :: y in t'.transactions && y.id == e.transactionId {
      var y :| y in t.transactions && y.id == e.transactionId;
      assert y in t'.transactions;
    }
  }

  // The ledger after posting entries for x, once the histories are known to be kept.
  lemma PostLedger(t: Tables, t': Tables, x: Transaction, entries: seq<LedgerEntry>)
    requires LedgerOk(t) && t'.wallets.Keys == t.wallets.Keys
    requires t'.transactions == t.transactions + [x] && t'.ledger == t.ledger + entries
    requires forall y :: y in t.transactions ==> y.id != x.id
    requires forall e :: e in entries ==> EntryExact(e) && e.walletId in t'.wallets && e.transactionId == x.id
    requires FootprintOk(x, entries) && DistinctIds(t'.ledger)
    requires HistoriesOk(t'.wallets, t'.ledger)
    ensures LedgerOk(t')
  {
    PostFootprint(t.transactions, t.ledger, x, entries);
    ReferencesKept(t, t', entries, x);
  }

  ghost predicate Holds(t: Tables, w: Wallet) {
    w.id in t.wallets && t.wallets[w.id] == w
  }

  lemma TopUpEntry(r: Request, w: Wallet, draw: Draw)
    requires r.TopUpRequest? && Validate(r).None? && 0 <= w.balance <= w.balance + r.amount <= MAX_INT64
    ensures var x := TopUpTransaction(r, w.id, draw);
            var entries := [CreditFor(x, w, w.balance + r.amount, draw.firstEntry, draw.firstTime)];
            FootprintOk(x, entries)
            && forall e :: e in entries ==> EntryExact(e) && e.walletId == w.id && e.transactionId == x.id
  {
  }

  lemma TransferEntries(r: Request, s: Wallet, d: Wallet, draw: Draw)
    requires r.TransferRequest? && Validate(r).None? && s.id != d.id
    requires 0 <= s.balance - r.amount && 0 <= d.balance <= d.balance + r.amount <= MAX_INT64
    ensures var x := TransferTransaction(r, s.id, d.id, draw);
            var entries := [DebitFor(x, s, s.balance - r.amount, draw.firstEntry, draw.firstTime),
                            CreditFor(x, d, d.balance + r.amount, draw.secondEntry, draw.secondTime)];
            FootprintOk(x, entries)
            && forall e :: e in entries ==> EntryExact(e) && e.walletId in {s.id, d.id} && e.transactionId == x.id
  {
  }

  lemma TopUpKeepsLedger(t: Tables, r: Request, w: Wallet, draw: Draw)
    requires LedgerOk(t) && DrawFresh(t, draw) && r.TopUpRequest? && Validate(r).None?
    requires Holds(t, w) && 0 <= w.balance <= w.balance + r.amount <= MAX_INT64
    requires LaterOn(t.ledger, w.id, draw.firstTime)
    ensures LedgerOk(AfterTopUp(t, r, w, draw))
  {
    var after := w.(balance := w.balance + r.amount);
    var x := TopUpTransaction(r, w.id, draw);
    var e := CreditFor(x, w, after.balance, draw.firstEntry, draw.firstTime);
    DistinctGrows(t.ledger, e);
    TopUpEntry(r, w, draw);
    PostEntry(t.wallets, t.ledger, e, after);
    PostLedger(t, AfterTopUp(t, r, w, draw), x, [e]);
  }

  lemma TransferKeepsLedger(t: Tables, r: Request, s: Wallet, d: Wallet, draw: Draw)
    requires LedgerOk(t) && DrawFresh(t, draw) && r.TransferRequest? && Validate(r).None?
    requires Holds(t, s) && Holds(t, d) && s.id != d.id
    requires 0 <= s.balance - r.amount && 0 <= d.balance <= d.balance + r.amount <= MAX_INT64
    requires LaterOn(t.ledger, s.id, draw.firstTime) && LaterOn(t.ledger, d.id, draw.secondTime)
    ensures LedgerOk(AfterTransfer(t, r, s, d, draw))
  {
    var sAfter, dAfter := s.(balance := s.balance - r.amount), d.(balance := d.balance + r.amount);
    var x := TransferTransaction(r, s.id, d.id, draw);
    var debit := DebitFor(x, s, sAfter.balance, draw.firstEntry, draw.firstTime);
    var credit := CreditFor(x, d, dAfter.balance, draw.secondEntry, draw.secondTime);
    AppendTwo(t.ledger, debit, credit);
    DistinctGrows(t.ledger, debit);
    DistinctGrows(t.ledger + [debit], credit);
    TransferEntries(r, s, d, draw);
    PostEntry(t.wallets, t.ledger, debit, sAfter);
    PostEntry(t.wallets[s.id := sAfter], t.ledger + [debit], credit, dAfter);
    PostLedger(t, AfterTransfer(t, r, s, d, draw), x, [debit, credit]);
  }

  lemma PostTwoWallets(t: Tables, a: Wallet, b: Wallet)
    requires WalletsOk(t) && a.id in t.wallets && b.id in t.wallets && a.id != b.id && WalletRowOk(a) && WalletRowOk(b)
    requires a.userId == t.wallets[a.id].userId && b.userId == t.wallets[b.id].userId
    ensures WalletsOk(t.(wallets := t.wallets[a.id := a][b.id := b]))
  {
    PostWallet(t, a.id, a);
    PostWallet(t.(wallets := t.wallets[a.id := a]), b.id, b);
  }

  lemma TransferKeepsWallets(t: Tables, r: Request, s: Wallet, d: Wallet, draw: Draw)
    requires WalletsOk(t) && r.TransferRequest? && Validate(r).None?
    requires Holds(t, s) && Holds(t, d) && s.id != d.id
    requires 0 <= s.balance - r.amount && d.balance + r.amount <= MAX_INT64
    ensures WalletsOk(AfterTransfer(t, r, s, d, draw))
  {
    var sAfter, dAfter := s.(balance := s.balance - r.amount), d.(balance := d.balance + r.amount);
    PostTwoWallets(t, sAfter, dAfter);
    SameWallets(t.(wallets := t.wallets[s.id := sAfter][d.id := dAfter]), AfterTransfer(t, r, s, d, draw));
  }

  lemma SameWallets(t: Tables, t': Tables)
    requires WalletsOk(t) && t'.wallets == t.wallets && t'.owner == t.owner
    ensures WalletsOk(t')
  {
  }

  lemma TransferKeepsRecords(t: Tables, r: Request, s: Wallet, d: Wallet, draw: Draw)
    requires RecordsOk(t) && TransactionsDistinct(t.transactions) && DrawFresh(t, draw)
    requires r.TransferRequest? && Startable(t, r)
    requires 0 <= s.balance - r.amount && d.balance + r.amount <= MAX_INT64
    ensures RecordsOk(AfterTransfer(t, r, s, d, draw))
    ensures TransactionsDistinct(AfterTransfer(t, r, s, d, draw).transactions)
  {
    var sAfter, dAfter := s.(balance := s.balance - r.amount), d.(balance := d.balance + r.amount);
    var x := TransferTransaction(r, s.id, d.id, draw);
    PostRecord(t, AfterTransfer(t, r, s, d, draw), x, CompletedRecord(r, draw, TransferBody(x, sAfter, dAfter)));
  }

  lemma TopUpKeepsHonest(t: Tables, r: Request, w: Wallet, draw: Draw)
    requires Honest(t) && DrawFresh(t, draw) && r.TopUpRequest? && Startable(t, r)
    requires Holds(t, w) && w.balance + r.amount <= MAX_INT64 && LaterOn(t.ledger, w.id, draw.firstTime)
    ensures Honest(AfterTopUp(t, r, w, draw))
  {
    var t' := AfterTopUp(t, r, w, draw);
    var after := w.(balance := w.balance + r.amount);
    var x := TopUpTransaction(r, w.id, draw);
    assert WalletsOk(t') by { PostWallet(t, w.id, after); }
    PostRecord(t, t', x, CompletedRecord(r, draw, TopUpBody(x, after)));
    TopUpKeepsLedger(t, r, w, draw);
  }

  lemma TransferKeepsHonest(t: Tables, r: Request, s: Wallet, d: Wallet, draw: Draw)
    requires Honest(t) && DrawFresh(t, draw) && r.TransferRequest? && Startable(t, r)
    requires Holds(t, s) && Holds(t, d) && s.id != d.id
    requires 0 <= s.balance - r.amount && d.balance + r.amount <= MAX_INT64
    requires LaterOn(t.ledger, s.id, draw.firstTime) && LaterOn(t.ledger, d.id, draw.secondTime)
    ensures Honest(AfterTransfer(t, r, s, d, draw))
  {
    TransferKeepsWallets(t, r, s, d, draw);
    TransferKeepsRecords(t, r, s, d, draw);
    TransferKeepsLedger(t, r, s, d, draw);
  }

  // Whatever is requested, the tables it leaves are honest.
  lemma ExecuteKeepsHonest(c: Webhook.Config, t: Tables, r: Request, draw: Draw)
    requires Honest(t) && DrawFresh(t, draw) && ClockOk(t, r, draw)
    ensures Honest(Execute(c, t, r, draw).tables)
  {
    var e := Execute(c, t, r, draw);
    if r.TopUpRequest? {
      TopUpMeaning(c, t, r, draw);
      if Executed(e) {
        TopUpKeepsHonest(t, r, t.wallets[t.owner[r.user.value]], draw);
      }
    } else {
      TransferMeaning(c, t, r, draw);
      if Executed(e) {
        TransferKeepsHonest(t, r, t.wallets[t.owner[r.user.value]], t.wallets[r.recipient.value], draw);
      }
    }
  }

  lemma RegisterKeepsHonest(t: Tables, user: Id, wallet: Id)
    requires Honest(t) && user !in t.owner && wallet !in t.wallets
    ensures Honest(Register(t, user, wallet))
  {
    var t' := Register(t, user, wallet);
    RegisterKeepsLedger(t, user, wallet);
    assert WalletsOk(t');
  }

  lemma RegisterKeepsLedger(t: Tables, user: Id, wallet: Id)
    requires LedgerOk(t) && wallet !in t.wallets
    ensures LedgerOk(Register(t, user, wallet))
  {
    var t' := Register(t, user, wallet);
    GroupEmpty(ByWallet, wallet, t.ledger);
    forall w | w in t'.wallets ensures HistoryOk(Group(ByWallet, w, t.ledger), t'.wallets[w].balance) {
      if w != wallet {
        assert t'.wallets[w] == t.wallets[w];
      }
    }
    assert t'.ledger == t.ledger && t'.transactions == t.transactions;
  }

  lemma EmptyIsHonest()
    ensures Honest(EMPTY_TABLES)
  {
  }
}
