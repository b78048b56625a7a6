// What a healthy reconciliation report means.
module Consistency {
  import opened Int64
  import opened Entities
  import opened Sequences
  import opened Ledger
  import opened Reconciliation

  // ---------- the declarative predicate ----------

  // The entry moves its wallet by its own positive amount, modulo 2^64.
  predicate EntryConsistent(e: LedgerEntry) {
    (e.kind == Credit || e.kind == Debit)
    && e.amount > 0
    && Congruent(e.balanceBefore + Signed(e), e.balanceAfter)
  }

  // The history starts from zero and every entry continues the one before it.
  ghost predicate Chained(h: seq<LedgerEntry>) {
    (h != [] ==> h[0].balanceBefore == 0)
    && forall i, j :: 0 <= i < j < |h| && j == i + 1 ==> h[j].balanceBefore == h[i].balanceAfter
  }

  ghost predicate WalletConsistent(w: Wallet, h: seq<LedgerEntry>) {
    Chained(h) && Congruent(w.balance, Net(h))
  }

  ghost predicate IsCreditFor(t: Transaction, e: LedgerEntry) {
    CreditsDestination(t, e) && e.amount == t.amount
  }

  ghost predicate IsDebitFor(t: Transaction, e: LedgerEntry) {
    DebitsSource(t, e) && e.amount == t.amount
  }

  // One debit of the source and one credit of the destination.
  ghost predicate MovesFor(t: Transaction, rows: multiset<LedgerEntry>) {
    exists d, c :: rows == multiset{d, c} && IsDebitFor(t, d) && IsCreditFor(t, c)
  }

  // The rows of a transaction, as a bag: a top up is one credit of its
  // destination, a transfer one debit of its source and one credit of a
  // different destination, each for the transaction's amount.
  ghost predicate TransactionConsistent(t: Transaction, rows: multiset<LedgerEntry>) {
    match t.kind
    case TopUp =>
      t.source.None? && t.destination.Some? && exists c :: rows == multiset{c} && IsCreditFor(t, c)
    case Transfer =>
      t.source.Some? && t.destination.Some? && t.source != t.destination
      && MovesFor(t, rows)
    case OtherType(_) => false
  }

  ghost predicate Consistent(wallets: seq<Wallet>, transactions: seq<Transaction>, ledger: seq<LedgerEntry>) {
    (forall e :: e in ledger ==>
      e.walletId in WalletIds(wallets) && e.transactionId in TransactionIds(transactions) && EntryConsistent(e))
    && (forall w :: w in wallets ==> WalletConsistent(w, WalletHistory(w.id, ledger)))
    && (forall t :: t in transactions ==> TransactionConsistent(t, multiset(Group(ByTransaction, t.id, ledger))))
  }

  // ---------- soundness and completeness ----------

  lemma EntryMathMeaning(e: LedgerEntry)
    ensures EntryMath(e).None? <==> EntryConsistent(e)
  {
    var before: int, after: int, amount: int := e.balanceBefore, e.balanceAfter, e.amount;
    WrapExact(amount);
    if e.kind == Credit {
      WrapAgain(after - before, amount);
      Shift(before + amount, after, after - before, amount);
    } else if e.kind == Debit {
      WrapAgain(before - after, amount);
      Shift(before - amount, after, before - after, amount);
    }
  }

  // Moving terms across a congruence.
  lemma Shift(a: int, b: int, c: int, d: int)
    requires a - b == d - c || a - b == c - d
    ensures Congruent(a, b) <==> Congruent(c, d)
  {
    if a - b == d - c {
      if Congruent(a, b) {
        CongruentSum(0, 0, a, b);
        assert c - d == -(a - b);
      }
    }
  }

  lemma {:induction false} ChainMeaning(h: seq<LedgerEntry>)
    ensures ChainIssues(h) == [] <==> Chained(h)
  {
    if h != [] {
      var i := |h| - 1;
      ChainMeaning(h[..i]);
      assert forall k :: 0 <= k < i ==> h[..i][k] == h[k];
      if Chained(h[..i]) && h[i].balanceBefore == ExpectedBefore(h, i) {
        assert Chained(h);
      }
    }
  }

  lemma {:induction false} DerivedMeaning(h: seq<LedgerEntry>)
    ensures DerivedBalance(h) == Wrap(Net(h))
  {
    if h != [] {
      var h', e := h[..|h| - 1], h[|h| - 1];
      DerivedMeaning(h');
      CongruentSum(Wrap(Net(h')), Net(h'), Signed(e), Signed(e));
      WrapAgain(Wrap(Net(h')) + Signed(e), Net(h') + Signed(e));
    }
  }

  lemma BalanceMeaning(w: Wallet, h: seq<LedgerEntry>)
    ensures WalletIssues(w, h) == [] <==> Congruent(w.balance, Net(h))
  {
    DerivedMeaning(h);
    WrapExact(w.balance);
    WrapAgain(w.balance, Net(h));
  }

  lemma TopUpShapeMeaning(t: Transaction, entries: seq<LedgerEntry>)
    requires t.kind == TopUp
    ensures TopUpReasons(t, entries) == [] <==> TransactionConsistent(t, multiset(entries))
  {
    assert |multiset(entries)| == |entries|;
    if |entries| == 1 {
      var e := entries[0];
      assert entries == [e];
      assert multiset(entries) == multiset{e};
      assert IsCreditFor(t, e) || forall c :: multiset{e} == multiset{c} ==> e in multiset{c};
    } else {
      forall c ensures multiset(entries) != multiset{c} {
        assert |multiset{c}| == 1;
      }
    }
  }

  lemma TransferShapeMeaning(t: Transaction, entries: seq<LedgerEntry>)
    requires t.kind == Transfer
    ensures TransferReasons(t, entries) == [] <==> TransactionConsistent(t, multiset(entries))
  {
    assert TransferEntryReasons(t, entries) == [] <==> MovesFor(t, multiset(entries)) by {
      PairOf(entries);
      if |entries| == 2 {
        PairMeaning(t, entries[0], entries[1]);
      }
    }
  }

  // The flags found by the scan say that, in one order or the other, the pair
  // is a debit of the source and a credit of the destination.
  lemma PairMeaning(t: Transaction, a: LedgerEntry, b: LedgerEntry)
    ensures TransferEntryReasons(t, [a, b]) == [] <==>
            (IsDebitFor(t, a) && IsCreditFor(t, b)) || (IsDebitFor(t, b) && IsCreditFor(t, a))
    ensures MovesFor(t, multiset{a, b}) <==>
            (IsDebitFor(t, a) && IsCreditFor(t, b)) || (IsDebitFor(t, b) && IsCreditFor(t, a))
  {
    MatchingPair(t.amount, a, b);
    assert a in [a, b] && b in [a, b];
    forall d, c | multiset{a, b} == multiset{d, c} ensures (d == a && c == b) || (d == b && c == a) {
      PairUnique(a, b, d, c);
    }
    assert multiset{a, b} == multiset{b, a};
  }

  lemma PairUnique<T>(a: T, b: T, d: T, c: T)
    requires multiset{a, b} == multiset{d, c}
    ensures (d == a && c == b) || (d == b && c == a)
  {
    assert d in multiset{a, b} && c in multiset{a, b};
    assert a in multiset{d, c} && b in multiset{d, c};
  }

  lemma MatchingPair(amount: int64, a: LedgerEntry, b: LedgerEntry)
    ensures Matching(amount, [a, b]) ==
            if a.amount != amount then [] else if b.amount != amount then [a] else [a, b]
  {
    assert [a, b][1..] == [b] && [b][1..] == [];
    assert Matching(amount, [b]) == if b.amount != amount then [] else [b];
  }

  lemma ShapeMeaning(t: Transaction, ledger: seq<LedgerEntry>)
    ensures ShapeCheck(ledger)(t) == [] <==> TransactionConsistent(t, multiset(Group(ByTransaction, t.id, ledger)))
  {
    var entries := TransactionHistory(t.id, ledger);
    match t.kind
    case TopUp => TopUpShapeMeaning(t, entries);
    case Transfer => TransferShapeMeaning(t, entries);
    case OtherType(_) =>
  }

  lemma EntriesMeaning(wallets: set<Id>, transactions: set<Id>, ledger: seq<LedgerEntry>)
    ensures FlatMap(EntryCheck(wallets, transactions), ledger) == [] <==>
            forall e :: e in ledger ==> e.walletId in wallets && e.transactionId in transactions && EntryConsistent(e)
  {
    var check := EntryCheck(wallets, transactions);
    FlatMapEmpty(check, ledger);
    forall e
      ensures check(e) == [] <==> e.walletId in wallets && e.transactionId in transactions && EntryConsistent(e)
    {
      EntryMathMeaning(e);
    }
  }

  lemma WalletsMeaning(wallets: seq<Wallet>, ledger: seq<LedgerEntry>)
    ensures FlatMap(ChainCheck(ledger), wallets) == [] && FlatMap(BalanceCheck(ledger), wallets) == [] <==>
            forall w :: w in wallets ==> WalletConsistent(w, WalletHistory(w.id, ledger))
  {
    FlatMapEmpty(ChainCheck(ledger), wallets);
    FlatMapEmpty(BalanceCheck(ledger), wallets);
    forall w: Wallet ensures ChainCheck(ledger)(w) == [] && BalanceCheck(ledger)(w) == [] <==>
        WalletConsistent(w, WalletHistory(w.id, ledger)) {
      ChainMeaning(WalletHistory(w.id, ledger));
      BalanceMeaning(w, WalletHistory(w.id, ledger));
    }
  }

  lemma ShapesMeaning(transactions: seq<Transaction>, ledger: seq<LedgerEntry>)
    ensures FlatMap(ShapeCheck(ledger), transactions) == [] <==>
            forall t :: t in transactions ==> TransactionConsistent(t, multiset(Group(ByTransaction, t.id, ledger)))
  {
    FlatMapEmpty(ShapeCheck(ledger), transactions);
    forall t
      ensures ShapeCheck(ledger)(t) == [] <==> TransactionConsistent(t, multiset(Group(ByTransaction, t.id, ledger)))
    {
      ShapeMeaning(t, ledger);
    }
  }

  // The report is healthy exactly when the tables are consistent.
  lemma HealthyIffNoIssue(wallets: seq<Wallet>, transactions: seq<Transaction>, ledger: seq<LedgerEntry>)
    ensures ReportOf(wallets, transactions, ledger).healthy <==>
              && FlatMap(EntryCheck(WalletIds(wallets), TransactionIds(transactions)), ledger) == []
              && FlatMap(ChainCheck(ledger), wallets) == [] && FlatMap(BalanceCheck(ledger), wallets) == []
              && FlatMap(ShapeCheck(ledger), transactions) == []
  {
  }

  lemma HealthyIffConsistent(wallets: seq<Wallet>, transactions: seq<Transaction>, ledger: seq<LedgerEntry>)
    ensures ReportOf(wallets, transactions, ledger).healthy <==> Consistent(wallets, transactions, ledger)
  {
    HealthyIffNoIssue(wallets, transactions, ledger);
    EntriesMeaning(WalletIds(wallets), TransactionIds(transactions), ledger);
    WalletsMeaning(wallets, ledger);
    ShapesMeaning(transactions, ledger);
  }

  // ---------- telescoping ----------

  // In a chain of consistent entries every balanceAfter is the net so far, even
  // through wraparound.
  lemma {:induction false} ChainTelescopes(h: seq<LedgerEntry>)
    requires Chained(h) && h != []
    requires forall e :: e in h ==> EntryConsistent(e)
    ensures Congruent(h[|h| - 1].balanceAfter, Net(h))
  {
    var h', e := h[..|h| - 1], h[|h| - 1];
    assert e in h;
    CongruentTransitive(e.balanceBefore + Signed(e), e.balanceAfter, e.balanceAfter);
    if h' == [] {
      assert Net(h) == Signed(e);
    } else {
      ChainTelescopes(h');
      assert e.balanceBefore == h'[|h'| - 1].balanceAfter;
      CongruentSum(e.balanceBefore, Net(h'), Signed(e), Signed(e));
      CongruentTransitive(e.balanceAfter, e.balanceBefore + Signed(e), Net(h));
    }
  }

  // A healthy report pins every stored intermediate balance, although the
  // checker never compares them with the running sum or with the wallet.
  lemma Telescoping(wallets: seq<Wallet>, transactions: seq<Transaction>, ledger: seq<LedgerEntry>, w: Wallet)
    requires ReportOf(wallets, transactions, ledger).healthy && w in wallets
    ensures var h := WalletHistory(w.id, ledger);
            (forall i :: 0 <= i < |h| ==> h[i].balanceAfter == Wrap(Net(h[..i + 1])))
            && w.balance == if h == [] then 0 else h[|h| - 1].balanceAfter
  {
    HealthyIffConsistent(wallets, transactions, ledger);
    var h := WalletHistory(w.id, ledger);
    assert WalletConsistent(w, h);
    assert forall e :: e in h ==> EntryConsistent(e) by { HistoryMembers(ByWallet, w.id, ledger); }
    HistoryTelescopes(w, h);
  }

  lemma HistoryTelescopes(w: Wallet, h: seq<LedgerEntry>)
    requires WalletConsistent(w, h) && forall e :: e in h ==> EntryConsistent(e)
    ensures forall i :: 0 <= i < |h| ==> h[i].balanceAfter == Wrap(Net(h[..i + 1]))
    ensures w.balance == if h == [] then 0 else h[|h| - 1].balanceAfter
  {
    PrefixesTelescope(h);
    WrapOfCongruent(w.balance, Net(h));
    assert h[..|h|] == h;
  }

  lemma PrefixesTelescope(h: seq<LedgerEntry>)
    requires Chained(h)
    requires forall e :: e in h ==> EntryConsistent(e)
    ensures forall i :: 0 <= i < |h| ==> h[i].balanceAfter == Wrap(Net(h[..i + 1]))
  {
    forall i | 0 <= i < |h| ensures h[i].balanceAfter == Wrap(Net(h[..i + 1])) {
      ChainTelescopes(h[..i + 1]);
      WrapOfCongruent(h[i].balanceAfter, Net(h[..i + 1]));
    }
  }

  lemma HistoryMembers(c: Column, id: Id, ledger: seq<LedgerEntry>)
    ensures forall e :: e in History(Group(c, id, ledger)) <==> e in ledger && ColumnOf(c, e) == id
  {
    var g := Group(c, id, ledger);
    forall e ensures e in History(g) <==> e in g {
      assert e in multiset(History(g)) <==> e in multiset(g);
    }
  }
}
