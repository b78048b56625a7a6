// The checker meets the engine: honest tables are healthy, and a report whose
// three reads straddle later commits shows only what those commits explain.
module EndToEnd {
  import opened Int64
  import opened Entities
  import opened Sequences
  import opened Ledger
  import opened Reconciliation
  import opened Consistency
  import opened Conservation
  import opened Engine
  import opened Honesty

  // ws lists the wallet table, in any order.
  ghost predicate ListsWallets(t: Tables, ws: seq<Wallet>) {
    NoRepeats(WalletIdList(ws))
    && (forall w :: w in ws ==> w.id in t.wallets && t.wallets[w.id] == w)
    && (forall id :: id in t.wallets ==> t.wallets[id] in ws)
  }

  // ---------- one history ----------

  lemma StrictTimesAreOrdered(h: seq<LedgerEntry>)
    requires forall i, j :: 0 <= i < j < |h| ==> h[i].createdAt < h[j].createdAt
    ensures Ordered(h)
  {
  }

  // Sorting by creation time and id recovers the order of the commits, however
  // the ledger is listed.
  lemma SortingRecoversHistory(t: Tables, ls: seq<LedgerEntry>, w: Id)
    requires LedgerOk(t) && multiset(ls) == multiset(t.ledger) && w in t.wallets
    ensures WalletHistory(w, ls) == Group(ByWallet, w, t.ledger)
    ensures HistoryOk(WalletHistory(w, ls), t.wallets[w].balance)
  {
    var h := Group(ByWallet, w, t.ledger);
    assert HistoryOk(h, t.wallets[w].balance);
    StrictTimesAreOrdered(h);
    GroupPermutes(ByWallet, w, ls, t.ledger);
    GroupDistinct(ByWallet, w, t.ledger);
    DistinctIdsPermute(h, Group(ByWallet, w, ls));
    HistoryUnique(Group(ByWallet, w, ls), h);
  }

  // In exact histories the stored balance is the mathematical net.
  lemma {:induction false} ExactNet(h: seq<LedgerEntry>, balance: int)
    requires HistoryOk(h, balance) && forall e :: e in h ==> EntryExact(e)
    ensures balance == Net(h)
  {
    if h != [] {
      var n := |h| - 1;
      assert h[n] in h;
      if n > 0 {
        assert h[..n][n - 1] == h[n - 1];
        ExactNet(h[..n], h[n - 1].balanceAfter);
      }
    }
  }

  lemma BalanceIsNet(t: Tables, w: Id)
    requires LedgerOk(t) && w in t.wallets
    ensures t.wallets[w].balance == Net(Group(ByWallet, w, t.ledger))
  {
    ExactNet(Group(ByWallet, w, t.ledger), t.wallets[w].balance);
  }

  lemma ExactIsConsistent(e: LedgerEntry)
    requires EntryExact(e)
    ensures EntryConsistent(e) && EntryMath(e).None?
  {
    EntryMathMeaning(e);
  }

  lemma FootprintIsConsistent(x: Transaction, rows: seq<LedgerEntry>)
    requires FootprintOk(x, rows)
    ensures TransactionConsistent(x, multiset(rows))
  {
    if x.kind == TopUp {
      assert rows == [rows[0]];
      assert multiset(rows) == multiset{rows[0]} && IsCreditFor(x, rows[0]);
    } else {
      assert rows == [rows[0], rows[1]];
      assert multiset(rows) == multiset{rows[0], rows[1]} && IsDebitFor(x, rows[0]) && IsCreditFor(x, rows[1]);
    }
  }

  // ---------- three reads at three moments ----------

  // t2 is a later state than t1: rows are only added, balances may move.
  ghost predicate Extends(t1: Tables, t2: Tables) {
    t1.wallets.Keys <= t2.wallets.Keys && t1.transactions <= t2.transactions && t1.ledger <= t2.ledger
  }

  // What the commits after t0 did to wallet w.
  function LateNet(t0: Tables, t2: Tables, w: Id): int
    requires |t0.ledger| <= |t2.ledger|
  {
    Net(Group(ByWallet, w, t2.ledger[|t0.ledger|..]))
  }

  lemma LateBalance(t0: Tables, t2: Tables, w: Id)
    requires LedgerOk(t0) && LedgerOk(t2) && Extends(t0, t2) && w in t0.wallets
    ensures t2.wallets[w].balance == t0.wallets[w].balance + LateNet(t0, t2, w)
  {
    var late := t2.ledger[|t0.ledger|..];
    assert t2.ledger == t0.ledger + late;
    BalanceIsNet(t0, w);
    BalanceIsNet(t2, w);
    GroupConcat(ByWallet, w, t0.ledger, late);
    NetConcat(Group(ByWallet, w, t0.ledger), Group(ByWallet, w, late));
  }

  lemma DerivedIsBalance(t: Tables, ls: seq<LedgerEntry>, w: Id)
    requires LedgerOk(t) && multiset(ls) == multiset(t.ledger) && w in t.wallets
    ensures ChainIssues(WalletHistory(w, ls)) == []
    ensures DerivedBalance(WalletHistory(w, ls)) == t.wallets[w].balance
  {
    SortingRecoversHistory(t, ls, w);
    ChainMeaning(WalletHistory(w, ls));
    DerivedMeaning(WalletHistory(w, ls));
    BalanceIsNet(t, w);
    WrapExact(t.wallets[w].balance);
  }

  // i reports that w, read at t0, is behind the ledger read at t2 by the net of
  // the commits in between.
  ghost predicate BehindBy(t0: Tables, t2: Tables, w: Wallet, i: WalletIssue)
    requires |t0.ledger| <= |t2.ledger|
  {
    var late := LateNet(t0, t2, w.id);
    late != 0
    && i.walletId == w.id && i.userId == w.userId && i.stored == w.balance
    && i.derived - i.stored == late
    && i.entryCount == |Group(ByWallet, w.id, t2.ledger)|
  }

  lemma LateWallet(t0: Tables, t2: Tables, ls: seq<LedgerEntry>, w: Wallet)
    requires LedgerOk(t0) && LedgerOk(t2) && Extends(t0, t2) && multiset(ls) == multiset(t2.ledger)
    requires w.id in t0.wallets && t0.wallets[w.id] == w
    ensures ChainCheck(ls)(w) == []
    ensures forall i :: i in BalanceCheck(ls)(w) <==> BehindBy(t0, t2, w, i)
  {
    DerivedIsBalance(t2, ls, w.id);
    LateBalance(t0, t2, w.id);
    var h := WalletHistory(w.id, ls);
    assert h == Group(ByWallet, w.id, t2.ledger) by {
      SortingRecoversHistory(t2, ls, w.id);
    }
    LateIssue(t0, t2, w, h);
  }

  lemma LateIssue(t0: Tables, t2: Tables, w: Wallet, h: seq<LedgerEntry>)
    requires |t0.ledger| <= |t2.ledger| && DerivedBalance(h) == w.balance + LateNet(t0, t2, w.id)
    requires |h| == |Group(ByWallet, w.id, t2.ledger)|
    ensures forall i :: i in WalletIssues(w, h) <==> BehindBy(t0, t2, w, i)
  {
  }

  lemma LateShape(t1: Tables, t2: Tables, ls: seq<LedgerEntry>, x: Transaction)
    requires LedgerOk(t2) && Extends(t1, t2) && multiset(ls) == multiset(t2.ledger) && x in t1.transactions
    ensures ShapeCheck(ls)(x) == []
  {
    assert x in t2.transactions;
    FootprintIsConsistent(x, Group(ByTransaction, x.id, t2.ledger));
    GroupPermutes(ByTransaction, x.id, ls, t2.ledger);
    ShapeMeaning(x, ls);
  }

  // i reports that e was committed after the read that should have known its
  // wallet or its transaction.
  ghost predicate TooLate(t0: Tables, t1: Tables, e: LedgerEntry, i: LedgerIssue) {
    (i == NewLedgerIssue(e, MissingWallet) && e.walletId !in t0.wallets)
    || (i == NewLedgerIssue(e, OrphanEntry) && e.transactionId !in TransactionIds(t1.transactions))
  }

  // The arithmetic of a committed entry is never in doubt.
  lemma LateEntry(t0: Tables, t1: Tables, t2: Tables, e: LedgerEntry)
    requires LedgerOk(t2) && e in t2.ledger
    ensures forall i :: i in EntryCheck(t0.wallets.Keys, TransactionIds(t1.transactions))(e) <==> TooLate(t0, t1, e, i)
  {
    ExactIsConsistent(e);
  }

  // Run reads wallets, transactions and ledger in separate statements. Whatever
  // is committed in between, the report has no transaction, chain or arithmetic
  // issue; its ledger issues are the entries whose wallet or transaction came
  // too late, and its balance issues are off by exactly the later net.
  lemma NonAtomicReads(t0: Tables, t1: Tables, t2: Tables, ws: seq<Wallet>, ts: seq<Transaction>, ls: seq<LedgerEntry>)
    requires Honest(t0) && Honest(t1) && Honest(t2) && Extends(t0, t1) && Extends(t1, t2)
    requires ListsWallets(t0, ws) && multiset(ts) == multiset(t1.transactions) && multiset(ls) == multiset(t2.ledger)
    ensures var r := ReportOf(ws, ts, ls);
            && r.transactions == []
            && (forall i :: i in r.ledger <==> exists e :: e in t2.ledger && TooLate(t0, t1, e, i))
            && (forall i :: i in r.wallets <==> exists w :: w in ws && BehindBy(t0, t2, w, i))
  {
    assert Extends(t0, t2) by {
      Prefixes(t0.transactions, t1.transactions, t2.transactions);
      Prefixes(t0.ledger, t1.ledger, t2.ledger);
    }
    LateTransactions(t1, t2, ts, ls);
    LateWallets(t0, t2, ws, ls);
    LateEntries(t0, t1, t2, ls);
    assert TransactionIds(ts) == TransactionIds(t1.transactions) by { SameElements(ts, t1.transactions); }
    assert WalletIds(ws) == t0.wallets.Keys by { ListedKeys(t0, ws); }
    ReportParts(ws, ts, ls);
  }

  lemma Prefixes<T>(a: seq<T>, b: seq<T>, c: seq<T>)
    requires a <= b && b <= c
    ensures a <= c
  {
  }

  lemma ReportParts(ws: seq<Wallet>, ts: seq<Transaction>, ls: seq<LedgerEntry>)
    ensures var r := ReportOf(ws, ts, ls);
            && r.transactions == FlatMap(ShapeCheck(ls), ts) && r.wallets == FlatMap(BalanceCheck(ls), ws)
            && (FlatMap(ChainCheck(ls), ws) == [] ==>
                  r.ledger == FlatMap(EntryCheck(WalletIds(ws), TransactionIds(ts)), ls))
  {
    var entryIssues := FlatMap(EntryCheck(WalletIds(ws), TransactionIds(ts)), ls);
    assert entryIssues + [] == entryIssues;
  }

  lemma LateTransactions(t1: Tables, t2: Tables, ts: seq<Transaction>, ls: seq<LedgerEntry>)
    requires LedgerOk(t2) && Extends(t1, t2) && multiset(ts) == multiset(t1.transactions)
             && multiset(ls) == multiset(t2.ledger)
    ensures FlatMap(ShapeCheck(ls), ts) == []
  {
    SameElements(ts, t1.transactions);
    forall x | x in ts ensures ShapeCheck(ls)(x) == [] {
      LateShape(t1, t2, ls, x);
    }
    FlatMapEmpty(ShapeCheck(ls), ts);
  }

  lemma LateWallets(t0: Tables, t2: Tables, ws: seq<Wallet>, ls: seq<LedgerEntry>)
    requires LedgerOk(t0) && LedgerOk(t2) && Extends(t0, t2) && ListsWallets(t0, ws)
             && multiset(ls) == multiset(t2.ledger)
    ensures FlatMap(ChainCheck(ls), ws) == []
    ensures forall i :: i in FlatMap(BalanceCheck(ls), ws) <==> exists w :: w in ws && BehindBy(t0, t2, w, i)
  {
    forall w | w in ws
      ensures ChainCheck(ls)(w) == []
      ensures forall i :: i in BalanceCheck(ls)(w) <==> BehindBy(t0, t2, w, i)
    {
      LateWallet(t0, t2, ls, w);
    }
    FlatMapEmpty(ChainCheck(ls), ws);
    CollectWallets(t0, t2, ws, ls);
  }

  lemma CollectWallets(t0: Tables, t2: Tables, ws: seq<Wallet>, ls: seq<LedgerEntry>)
    requires |t0.ledger| <= |t2.ledger|
    requires forall w :: w in ws ==> forall i :: i in BalanceCheck(ls)(w) <==> BehindBy(t0, t2, w, i)
    ensures forall i :: i in FlatMap(BalanceCheck(ls), ws) <==> exists w :: w in ws && BehindBy(t0, t2, w, i)
  {
    forall i ensures i in FlatMap(BalanceCheck(ls), ws) <==> exists w :: w in ws && BehindBy(t0, t2, w, i) {
      FlatMapIn(BalanceCheck(ls), ws, i);
    }
  }

  lemma LateEntries(t0: Tables, t1: Tables, t2: Tables, ls: seq<LedgerEntry>)
    requires LedgerOk(t2) && multiset(ls) == multiset(t2.ledger)
    ensures var issues := FlatMap(EntryCheck(t0.wallets.Keys, TransactionIds(t1.transactions)), ls);
            forall i :: i in issues <==> exists e :: e in t2.ledger && TooLate(t0, t1, e, i)
  {
    SameElements(ls, t2.ledger);
    var check := EntryCheck(t0.wallets.Keys, TransactionIds(t1.transactions));
    forall e | e in ls ensures forall i :: i in check(e) <==> TooLate(t0, t1, e, i) {
      LateEntry(t0, t1, t2, e);
    }
    forall i ensures i in FlatMap(check, ls) <==> exists e :: e in t2.ledger && TooLate(t0, t1, e, i) {
      FlatMapIn(check, ls, i);
    }
  }

  lemma ListedKeys(t: Tables, ws: seq<Wallet>)
    requires ListsWallets(t, ws)
    requires forall id :: id in t.wallets ==> t.wallets[id].id == id
    ensures WalletIds(ws) == t.wallets.Keys
  {
    forall id | id in t.wallets ensures id in WalletIds(ws) {
      assert t.wallets[id] in ws;
    }
  }

  // ---------- one moment ----------

  lemma NothingTooLate(t: Tables)
    requires LedgerOk(t)
    ensures forall e, i :: e in t.ledger ==> !TooLate(t, t, e, i)
  {
    forall e | e in t.ledger ensures e.transactionId in TransactionIds(t.transactions) {
      var x :| x in t.transactions && x.id == e.transactionId;
    }
  }

  lemma NothingBehind(t: Tables)
    ensures forall w, i :: !BehindBy(t, t, w, i)
  {
    assert t.ledger[|t.ledger|..] == [];
  }

  // Read at one moment, honest tables are healthy: no issue of any kind.
  lemma HonestIsHealthy(t: Tables, ws: seq<Wallet>, ts: seq<Transaction>, ls: seq<LedgerEntry>)
    requires Honest(t) && ListsWallets(t, ws) && multiset(ts) == multiset(t.transactions)
             && multiset(ls) == multiset(t.ledger)
    ensures var r := ReportOf(ws, ts, ls);
            r.healthy && r.wallets == [] && r.transactions == [] && r.ledger == []
  {
    NonAtomicReads(t, t, t, ws, ts, ls);
    NothingTooLate(t);
    NothingBehind(t);
    var r := ReportOf(ws, ts, ls);
    SomeElement(r.ledger);
    SomeElement(r.wallets);
  }

  // In honest tables the balances add up to the top ups exactly, not only
  // modulo 2^64.
  lemma HonestConservesMoney(t: Tables, ws: seq<Wallet>)
    requires Honest(t) && ListsWallets(t, ws)
    ensures TotalBalance(ws) == TotalTopUps(t.transactions)
  {
    assert TotalTopUps(t.transactions) == Net(t.ledger) by { TopUpsAreTheLedger(t); }
    assert TotalBalance(ws) == Net(t.ledger) by {
      ListedKeys(t, ws);
      BalancesAreTheLedger(t, ws);
    }
  }

  lemma TopUpsAreTheLedger(t: Tables)
    requires LedgerOk(t) && TransactionsDistinct(t.transactions)
    ensures TotalTopUps(t.transactions) == Net(t.ledger)
  {
    forall x | x in t.transactions ensures TransactionConsistent(x, multiset(Group(ByTransaction, x.id, t.ledger))) {
      FootprintIsConsistent(x, Group(ByTransaction, x.id, t.ledger));
    }
    TopUpsAreNets(t.transactions, t.ledger);
    forall e | e in t.ledger ensures e.transactionId in TransactionIdList(t.transactions) {
      ListedTransaction(t.transactions, e.transactionId);
    }
    GroupsPartition(ByTransaction, TransactionIdList(t.transactions), t.ledger);
  }

  lemma BalancesAreTheLedger(t: Tables, ws: seq<Wallet>)
    requires LedgerOk(t) && ListsWallets(t, ws) && WalletIds(ws) == t.wallets.Keys
    ensures TotalBalance(ws) == Net(t.ledger)
  {
    ExactBalances(t, ws);
    forall e | e in t.ledger ensures e.walletId in WalletIdList(ws) {
      ListedWallet(ws, e.walletId);
    }
    GroupsPartition(ByWallet, WalletIdList(ws), t.ledger);
  }

  lemma {:induction false} ExactBalances(t: Tables, ws: seq<Wallet>)
    requires LedgerOk(t) && forall w :: w in ws ==> w.id in t.wallets && t.wallets[w.id] == w
    ensures TotalBalance(ws) == NetOfGroups(ByWallet, WalletIdList(ws), t.ledger)
  {
    if ws != [] {
      var n := |ws| - 1;
      assert ws[n] in ws;
      ExactBalances(t, ws[..n]);
      BalanceIsNet(t, ws[n].id);
      OneMoreWallet(ws, t.ledger);
    }
  }
}
