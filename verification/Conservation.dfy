// Consequences of a healthy report: money is conserved, and the report does not
// depend on the order in which the tables are listed.
module Conservation {
  import opened Int64
  import opened Entities
  import opened Sequences
  import opened Ledger
  import opened Reconciliation
  import opened Consistency

  function WalletIdList(wallets: seq<Wallet>): seq<Id> {
    Map((w: Wallet) => w.id, wallets)
  }

  function TransactionIdList(transactions: seq<Transaction>): seq<Id> {
    Map((t: Transaction) => t.id, transactions)
  }

  function TotalBalance(wallets: seq<Wallet>): int {
    if wallets == [] then 0 else TotalBalance(wallets[..|wallets| - 1]) + wallets[|wallets| - 1].balance
  }

  function TopUpAmountOf(t: Transaction): int {
    if t.kind == TopUp then t.amount else 0
  }

  function TotalTopUps(transactions: seq<Transaction>): int {
    if transactions == [] then 0
    else TotalTopUps(transactions[..|transactions| - 1]) + TopUpAmountOf(transactions[|transactions| - 1])
  }

  // ---------- conservation ----------

  // What a consistent transaction adds to all wallets together: a transfer
  // moves money without making any.
  lemma TransactionNet(t: Transaction, rows: seq<LedgerEntry>)
    requires TransactionConsistent(t, multiset(rows))
    ensures Net(rows) == TopUpAmountOf(t)
  {
    if t.kind == TopUp {
      var c :| multiset(rows) == multiset{c} && IsCreditFor(t, c);
      NetOfOne(rows, c);
    } else {
      var d, c :| multiset(rows) == multiset{d, c} && IsDebitFor(t, d) && IsCreditFor(t, c);
      NetOfTwo(rows, d, c);
    }
  }

  lemma NetOfOne(rows: seq<LedgerEntry>, c: LedgerEntry)
    requires multiset(rows) == multiset{c}
    ensures Net(rows) == Signed(c)
  {
    NetPermutes(rows, [c]);
    NetSnoc([], c);
    assert [] + [c] == [c];
  }

  lemma NetOfTwo(rows: seq<LedgerEntry>, d: LedgerEntry, c: LedgerEntry)
    requires multiset(rows) == multiset{d, c}
    ensures Net(rows) == Signed(d) + Signed(c)
  {
    NetPermutes(rows, [d, c]);
    NetOfOne([d], d);
    NetSnoc([d], c);
    assert [d] + [c] == [d, c];
  }

  lemma OneMoreTransaction(transactions: seq<Transaction>, ledger: seq<LedgerEntry>)
    requires transactions != []
    ensures var n := |transactions| - 1;
            NetOfGroups(ByTransaction, TransactionIdList(transactions), ledger)
            == NetOfGroups(ByTransaction, TransactionIdList(transactions[..n]), ledger)
               + Net(Group(ByTransaction, transactions[n].id, ledger))
  {
    assert TransactionIdList(transactions)[..|transactions| - 1]
      == TransactionIdList(transactions[..|transactions| - 1]);
  }

  lemma OneMoreWallet(wallets: seq<Wallet>, ledger: seq<LedgerEntry>)
    requires wallets != []
    ensures var n := |wallets| - 1;
            NetOfGroups(ByWallet, WalletIdList(wallets), ledger)
            == NetOfGroups(ByWallet, WalletIdList(wallets[..n]), ledger) + Net(Group(ByWallet, wallets[n].id, ledger))
  {
    assert WalletIdList(wallets)[..|wallets| - 1] == WalletIdList(wallets[..|wallets| - 1]);
  }

  lemma {:induction false} TopUpsAreNets(transactions: seq<Transaction>, ledger: seq<LedgerEntry>)
    requires forall t :: t in transactions ==> TransactionConsistent(t, multiset(Group(ByTransaction, t.id, ledger)))
    ensures TotalTopUps(transactions) == NetOfGroups(ByTransaction, TransactionIdList(transactions), ledger)
  {
    if transactions != [] {
      var n := |transactions| - 1;
      var t := transactions[n];
      assert t in transactions;
      TopUpsAreNets(transactions[..n], ledger);
      TransactionNet(t, Group(ByTransaction, t.id, ledger));
      OneMoreTransaction(transactions, ledger);
    }
  }

  lemma BalanceGrows(balances: int, nets: int, balance: int, net: int, total: int, sum: int)
    requires Congruent(balances, nets) && Congruent(balance, net) && total == balances + balance && sum == nets + net
    ensures Congruent(total, sum)
  {
    CongruentSum(balances, nets, balance, net);
  }

  lemma OneMoreBalance(wallets: seq<Wallet>, ledger: seq<LedgerEntry>)
    requires wallets != []
    requires var w := wallets[|wallets| - 1]; Congruent(w.balance, Net(WalletHistory(w.id, ledger)))
    requires var ws := wallets[..|wallets| - 1]; Congruent(TotalBalance(ws),
             NetOfGroups(ByWallet, WalletIdList(ws), ledger))
    ensures Congruent(TotalBalance(wallets), NetOfGroups(ByWallet, WalletIdList(wallets), ledger))
  {
    var n := |wallets| - 1;
    var w := wallets[n];
    var net := Net(WalletHistory(w.id, ledger));
    var balances, nets := TotalBalance(wallets[..n]), NetOfGroups(ByWallet, WalletIdList(wallets[..n]), ledger);
    var total, sum := TotalBalance(wallets), NetOfGroups(ByWallet, WalletIdList(wallets), ledger);
    assert total == balances + w.balance;
    assert sum == nets + net by {
      NetPermutes(WalletHistory(w.id, ledger), Group(ByWallet, w.id, ledger));
      OneMoreWallet(wallets, ledger);
    }
    BalanceGrows(balances, nets, w.balance, net, total, sum);
  }

  lemma {:induction false} BalancesAreNets(wallets: seq<Wallet>, ledger: seq<LedgerEntry>)
    requires forall w :: w in wallets ==> WalletConsistent(w, WalletHistory(w.id, ledger))
    ensures Congruent(TotalBalance(wallets), NetOfGroups(ByWallet, WalletIdList(wallets), ledger))
  {
    if wallets != [] {
      assert wallets[|wallets| - 1] in wallets;
      BalancesAreNets(wallets[..|wallets| - 1], ledger);
      OneMoreBalance(wallets, ledger);
    }
  }

  // A healthy report conserves money: all balances together are all top ups
  // together, modulo 2^64, for any tables with unique primary keys.
  lemma HealthyConservesMoney(wallets: seq<Wallet>, transactions: seq<Transaction>, ledger: seq<LedgerEntry>)
    requires NoRepeats(WalletIdList(wallets)) && NoRepeats(TransactionIdList(transactions))
    requires ReportOf(wallets, transactions, ledger).healthy
    ensures Congruent(TotalBalance(wallets), TotalTopUps(transactions))
  {
    HealthyIffConsistent(wallets, transactions, ledger);
    AllListed(wallets, transactions, ledger);
    BalancesAreNets(wallets, ledger);
    TopUpsAreNets(transactions, ledger);
    GroupsPartition(ByWallet, WalletIdList(wallets), ledger);
    GroupsPartition(ByTransaction, TransactionIdList(transactions), ledger);
  }

  lemma ListedTransaction(xs: seq<Transaction>, id: Id)
    requires exists x :: x in xs && x.id == id
    ensures id in TransactionIdList(xs)
  {
    var x :| x in xs && x.id == id;
    var i :| 0 <= i < |xs| && xs[i] == x;
    assert TransactionIdList(xs)[i] == id;
  }

  lemma ListedWallet(ws: seq<Wallet>, id: Id)
    requires id in WalletIds(ws)
    ensures id in WalletIdList(ws)
  {
    var w :| w in ws && w.id == id;
    var i :| 0 <= i < |ws| && ws[i] == w;
    assert WalletIdList(ws)[i] == id;
  }

  lemma AllListed(wallets: seq<Wallet>, transactions: seq<Transaction>, ledger: seq<LedgerEntry>)
    requires Consistent(wallets, transactions, ledger)
    ensures forall e :: e in ledger ==> ColumnOf(ByWallet, e) in WalletIdList(wallets)
    ensures forall e :: e in ledger ==> ColumnOf(ByTransaction, e) in TransactionIdList(transactions)
  {
    forall e | e in ledger
      ensures e.walletId in WalletIdList(wallets) && e.transactionId in TransactionIdList(transactions)
    {
      ListedWallet(wallets, e.walletId);
      ListedTransaction(transactions, e.transactionId);
    }
  }

  // ---------- order independence ----------

  lemma HistoryPermutes(c: Column, id: Id, s: seq<LedgerEntry>, t: seq<LedgerEntry>)
    requires multiset(s) == multiset(t) && DistinctIds(s)
    ensures History(Group(c, id, s)) == History(Group(c, id, t))
  {
    GroupPermutes(c, id, s, t);
    GroupDistinct(c, id, s);
    HistoryOrdered(Group(c, id, t));
    HistoryUnique(Group(c, id, s), History(Group(c, id, t)));
  }

  lemma SameElements<T>(s: seq<T>, t: seq<T>)
    requires multiset(s) == multiset(t)
    ensures |s| == |t| && forall x :: x in s <==> x in t
  {
    assert |multiset(s)| == |s| && |multiset(t)| == |t|;
    forall x ensures x in s <==> x in t {
      assert x in multiset(s) <==> x in multiset(t);
    }
  }

  // Listing the rows of any table in another order permutes the issues and
  // changes nothing else.
  lemma OrderIndependence(w1: seq<Wallet>, t1: seq<Transaction>, l1: seq<LedgerEntry>,
                          w2: seq<Wallet>, t2: seq<Transaction>, l2: seq<LedgerEntry>)
    requires multiset(w1) == multiset(w2) && multiset(t1) == multiset(t2) && multiset(l1) == multiset(l2)
    requires DistinctIds(l1)
    ensures var r1, r2 := ReportOf(w1, t1, l1), ReportOf(w2, t2, l2);
            && r1.healthy == r2.healthy && r1.summary == r2.summary
            && multiset(r1.wallets) == multiset(r2.wallets)
            && multiset(r1.transactions) == multiset(r2.transactions)
            && multiset(r1.ledger) == multiset(r2.ledger)
  {
    SameElements(w1, w2);
    SameElements(t1, t2);
    SameElements(l1, l2);
    assert WalletIds(w1) == WalletIds(w2) && TransactionIds(t1) == TransactionIds(t2);
    forall c, id ensures History(Group(c, id, l1)) == History(Group(c, id, l2)) {
      HistoryPermutes(c, id, l1, l2);
    }
    FlatMapsPermute(BalanceCheck(l1), BalanceCheck(l2), w1, w2);
    FlatMapsPermute(ShapeCheck(l1), ShapeCheck(l2), t1, t2);
    FlatMapsPermute(ChainCheck(l1), ChainCheck(l2), w1, w2);
    FlatMapPermutes(EntryCheck(WalletIds(w1), TransactionIds(t1)), l1, l2);
    var r1, r2 := ReportOf(w1, t1, l1), ReportOf(w2, t2, l2);
    SameElements(r1.wallets, r2.wallets);
    SameElements(r1.transactions, r2.transactions);
    SameElements(r1.ledger, r2.ledger);
  }

  lemma FlatMapsPermute<A, B>(f: A -> seq<B>, g: A -> seq<B>, s: seq<A>, t: seq<A>)
    requires multiset(s) == multiset(t)
    requires forall x :: x in s ==> f(x) == g(x)
    ensures multiset(FlatMap(f, s)) == multiset(FlatMap(g, t))
  {
    FlatMapCongruent(f, g, s);
    FlatMapPermutes(g, s, t);
  }
}
