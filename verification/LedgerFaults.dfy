// Which entries a report names, and for what: told from the rows of the three
// tables alone, for any tables whose entries have distinct ids.
module LedgerFaults {
  import opened Int64
  import opened Entities
  import opened Sequences
  import opened Ledger
  import opened Reconciliation
  import opened Consistency

  // ---------- what is wrong with an entry ----------

  // The entry moves its wallet by its amount, in the direction of its kind.
  predicate Adds(e: LedgerEntry) {
    (e.kind == Credit && Congruent(e.balanceBefore + e.amount, e.balanceAfter))
    || (e.kind == Debit && Congruent(e.balanceBefore - e.amount, e.balanceAfter))
  }

  // The complaints that look at one entry only.
  predicate OwnFault(wallets: set<Id>, transactions: set<Id>, e: LedgerEntry, reason: LedgerReason) {
    match reason
    case MissingWallet => e.walletId !in wallets
    case OrphanEntry => e.transactionId !in transactions
    case CreditMath => e.kind == Credit && !Adds(e)
    case DebitMath => e.kind == Debit && !Adds(e)
    case UnknownEntryType => e.kind != Credit && e.kind != Debit
    case NonPositiveAmount => Adds(e) && e.amount <= 0
    case BadGenesis => false
    case BrokenChain => false
  }

  // The order in which the complaints about one entry appear.
  function Place(reason: LedgerReason): nat {
    match reason
    case MissingWallet => 0
    case OrphanEntry => 1
    case BadGenesis => 3
    case BrokenChain => 3
    case _ => 2
  }

  lemma OwnFaults(wallets: set<Id>, transactions: set<Id>, e: LedgerEntry)
    ensures forall x :: x in EntryIssues(wallets, transactions, e) <==>
                          Names(x, e) && OwnFault(wallets, transactions, e, x.reason)
    ensures var s := EntryIssues(wallets, transactions, e);
            forall a, b :: 0 <= a < b < |s| ==> Place(s[a].reason) < Place(s[b].reason)
  {
    MathFault(e);
    var first := if e.walletId in wallets then [] else [NewLedgerIssue(e, MissingWallet)];
    var second := if e.transactionId in transactions then [] else [NewLedgerIssue(e, OrphanEntry)];
    var third := match EntryMath(e) { case None => [] case Some(reason) => [NewLedgerIssue(e, reason)] };
    assert EntryIssues(wallets, transactions, e) == first + second + third;
    forall x
      ensures x in EntryIssues(wallets, transactions, e) <==>
              Names(x, e) && OwnFault(wallets, transactions, e, x.reason)
    {
      assert x in first + second + third <==> x in first || x in second || x in third;
      assert Names(x, e) <==> x == NewLedgerIssue(e, x.reason);
    }
  }

  lemma MathFault(e: LedgerEntry)
    ensures forall reason :: Place(reason) == 2 ==>
              (EntryMath(e) == Some(reason) <==> OwnFault({}, {}, e, reason))
    ensures EntryMath(e).Some? ==> Place(EntryMath(e).value) == 2
  {
    var before: int, after: int, amount: int := e.balanceBefore, e.balanceAfter, e.amount;
    WrapExact(amount);
    if e.kind == Credit {
      WrapAgain(after - before, amount);
      Shift(before + amount, after, after - before, amount);
    } else if e.kind == Debit {
      WrapAgain(before - after, amount);
      Shift(before - amount, after, before - after, amount);
    }
  }

  // ---------- what is wrong with the chain ----------

  // The entry before which the checker places b.
  predicate Earlier(a: LedgerEntry, b: LedgerEntry) {
    a.createdAt < b.createdAt || (a.createdAt == b.createdAt && a.id < b.id)
  }

  ghost predicate IsFirst(ledger: seq<LedgerEntry>, e: LedgerEntry) {
    forall p :: p in ledger && p.walletId == e.walletId ==> !Earlier(p, e)
  }

  predicate Between(p: LedgerEntry, x: LedgerEntry, e: LedgerEntry) {
    x.walletId == e.walletId && Earlier(p, x) && Earlier(x, e)
  }

  // e is the next entry of its wallet after p.
  ghost predicate Follows(ledger: seq<LedgerEntry>, p: LedgerEntry, e: LedgerEntry) {
    p in ledger && p.walletId == e.walletId && Earlier(p, e)
    && forall x :: x in ledger ==> !Between(p, x, e)
  }

  // The complaints that look at the neighbour of an entry.
  ghost predicate ChainFault(ledger: seq<LedgerEntry>, e: LedgerEntry, reason: LedgerReason) {
    match reason
    case BadGenesis => IsFirst(ledger, e) && e.balanceBefore != 0
    case BrokenChain => exists p :: Follows(ledger, p, e) && e.balanceBefore != p.balanceAfter
    case _ => false
  }

  // Chain issues come in the order of the history.
  lemma {:induction false} LinksInOrder(h: seq<LedgerEntry>, a: nat, b: nat) returns (i: nat, j: nat)
    requires a < b < |ChainIssues(h)|
    ensures i < j < |h| && LinkFault(h, i, ChainIssues(h)[a]) && LinkFault(h, j, ChainIssues(h)[b])
  {
    var n := |h| - 1;
    var before := ChainIssues(h[..n]);
    if b < |before| {
      i, j := LinksInOrder(h[..n], a, b);
    } else {
      LinkFaults(h[..n], before[a]);
      i :| i < |h[..n]| && LinkFault(h[..n], i, before[a]);
      j := n;
    }
  }

  // ---------- the ledger part of a report ----------

  lemma EarlierInHistory(h: seq<LedgerEntry>, i: nat, j: nat)
    requires Ordered(h) && DistinctIds(h) && i < |h| && j < |h|
    ensures Earlier(h[i], h[j]) <==> i < j
  {
  }

  lemma WalletHistoryFacts(w: Id, ledger: seq<LedgerEntry>)
    requires DistinctIds(ledger)
    ensures var h := WalletHistory(w, ledger);
            Ordered(h) && DistinctIds(h) && forall e :: e in h <==> e in ledger && e.walletId == w
  {
    HistoryOrdered(Group(ByWallet, w, ledger));
    GroupDistinct(ByWallet, w, ledger);
    DistinctIdsPermute(Group(ByWallet, w, ledger), WalletHistory(w, ledger));
    HistoryMembers(ByWallet, w, ledger);
  }

  // The neighbour in the history is the previous entry of the wallet.
  lemma NeighbourFollows(ledger: seq<LedgerEntry>, w: Id, h: seq<LedgerEntry>, i: nat)
    requires Ordered(h) && DistinctIds(h) && i < |h|
    requires forall e :: e in h <==> e in ledger && e.walletId == w
    ensures i == 0 <==> IsFirst(ledger, h[i])
    ensures forall p :: Follows(ledger, p, h[i]) <==> i > 0 && p == h[i - 1]
  {
    assert h[i] in h;
    forall p | p in ledger && p.walletId == w ensures Earlier(p, h[i]) <==> exists k :: 0 <= k < i && h[k] == p {
      var k :| 0 <= k < |h| && h[k] == p;
      EarlierInHistory(h, k, i);
      if k' :| 0 <= k' < i && h[k'] == p {
        EarlierInHistory(h, k', i);
      }
    }
    if i > 0 {
      assert h[i - 1] in h;
      PreviousFollows(ledger, w, h, i);
      forall p | Follows(ledger, p, h[i]) ensures p == h[i - 1] {
        var k :| 0 <= k < i && h[k] == p;
        EarlierInHistory(h, k, i - 1);
        EarlierInHistory(h, i - 1, i);
        assert !Between(p, h[i - 1], h[i]);
      }
    }
  }

  lemma PreviousFollows(ledger: seq<LedgerEntry>, w: Id, h: seq<LedgerEntry>, i: nat)
    requires Ordered(h) && DistinctIds(h) && 0 < i < |h|
    requires forall e :: e in h <==> e in ledger && e.walletId == w
    ensures Follows(ledger, h[i - 1], h[i])
  {
    assert h[i] in h && h[i - 1] in h;
    EarlierInHistory(h, i - 1, i);
    forall x | x in ledger ensures !Between(h[i - 1], x, h[i]) {
      if Between(h[i - 1], x, h[i]) {
        var k :| 0 <= k < |h| && h[k] == x;
        EarlierInHistory(h, i - 1, k);
        EarlierInHistory(h, k, i);
      }
    }
  }

  lemma ChainFaults(ledger: seq<LedgerEntry>, w: Id, x: LedgerIssue)
    requires DistinctIds(ledger)
    ensures x in ChainIssues(WalletHistory(w, ledger)) <==>
            exists e :: e in ledger && e.walletId == w && Names(x, e) && ChainFault(ledger, e, x.reason)
  {
    var h := WalletHistory(w, ledger);
    WalletHistoryFacts(w, ledger);
    LinkFaults(h, x);
    if i: nat :| i < |h| && LinkFault(h, i, x) {
      LinkIsFault(ledger, w, h, i, x);
      assert h[i] in h;
    }
    if e :| e in ledger && e.walletId == w && Names(x, e) && ChainFault(ledger, e, x.reason) {
      var i :| 0 <= i < |h| && h[i] == e;
      LinkIsFault(ledger, w, h, i, x);
    }
  }

  lemma LinkIsFault(ledger: seq<LedgerEntry>, w: Id, h: seq<LedgerEntry>, i: nat, x: LedgerIssue)
    requires Ordered(h) && DistinctIds(h) && i < |h|
    requires forall e :: e in h <==> e in ledger && e.walletId == w
    ensures LinkFault(h, i, x) <==> Names(x, h[i]) && ChainFault(ledger, h[i], x.reason)
  {
    NeighbourFollows(ledger, w, h, i);
    if i > 0 {
      assert Follows(ledger, h[i - 1], h[i]);
    }
  }

  predicate HasWallet(wallets: seq<Wallet>, id: Id) {
    exists w :: w in wallets && w.id == id
  }

  predicate HasTransaction(transactions: seq<Transaction>, id: Id) {
    exists t :: t in transactions && t.id == id
  }

  // Everything that can be wrong with an entry of the three tables.
  ghost predicate LedgerFault(wallets: seq<Wallet>, transactions: seq<Transaction>, ledger: seq<LedgerEntry>,
                              e: LedgerEntry, reason: LedgerReason) {
    match reason
    case MissingWallet => !HasWallet(wallets, e.walletId)
    case OrphanEntry => !HasTransaction(transactions, e.transactionId)
    case CreditMath => e.kind == Credit && !Adds(e)
    case DebitMath => e.kind == Debit && !Adds(e)
    case UnknownEntryType => e.kind != Credit && e.kind != Debit
    case NonPositiveAmount => Adds(e) && e.amount <= 0
    case BadGenesis => HasWallet(wallets, e.walletId) && IsFirst(ledger, e) && e.balanceBefore != 0
    case BrokenChain =>
      HasWallet(wallets, e.walletId) && exists p :: Follows(ledger, p, e) && e.balanceBefore != p.balanceAfter
  }

  lemma OwnPart(wallets: set<Id>, transactions: set<Id>, ledger: seq<LedgerEntry>, x: LedgerIssue)
    ensures x in FlatMap(EntryCheck(wallets, transactions), ledger) <==>
            exists e :: e in ledger && Names(x, e) && OwnFault(wallets, transactions, e, x.reason)
  {
    var own := EntryCheck(wallets, transactions);
    FlatMapIn(own, ledger, x);
    forall e ensures x in own(e) <==> Names(x, e) && OwnFault(wallets, transactions, e, x.reason) {
      OwnFaults(wallets, transactions, e);
    }
  }

  lemma ChainPart(wallets: seq<Wallet>, ledger: seq<LedgerEntry>, x: LedgerIssue)
    requires DistinctIds(ledger)
    ensures x in FlatMap(ChainCheck(ledger), wallets) <==>
            exists e :: e in ledger && Names(x, e) && HasWallet(wallets, e.walletId) && ChainFault(ledger, e, x.reason)
  {
    FlatMapIn(ChainCheck(ledger), wallets, x);
    forall w: Wallet
      ensures x in ChainCheck(ledger)(w) <==>
              exists e :: e in ledger && e.walletId == w.id && Names(x, e) && ChainFault(ledger, e, x.reason)
    {
      ChainFaults(ledger, w.id, x);
    }
  }

  lemma FaultIsEither(wallets: seq<Wallet>, transactions: seq<Transaction>, ledger: seq<LedgerEntry>, e: LedgerEntry,
                      reason: LedgerReason)
    ensures LedgerFault(wallets, transactions, ledger, e, reason) <==>
              || OwnFault(WalletIds(wallets), TransactionIds(transactions), e, reason)
              || (HasWallet(wallets, e.walletId) && ChainFault(ledger, e, reason))
  {
  }

  // For arbitrary tables with distinct entry ids, the report complains about an
  // entry exactly if that complaint is true of it.
  lemma ReportedFaults(wallets: seq<Wallet>, transactions: seq<Transaction>, ledger: seq<LedgerEntry>, x: LedgerIssue)
    requires DistinctIds(ledger)
    ensures x in ReportOf(wallets, transactions, ledger).ledger <==>
            exists e :: e in ledger && Names(x, e) && LedgerFault(wallets, transactions, ledger, e, x.reason)
  {
    OwnPart(WalletIds(wallets), TransactionIds(transactions), ledger, x);
    ChainPart(wallets, ledger, x);
    forall e
      ensures LedgerFault(wallets, transactions, ledger, e, x.reason) <==>
              || OwnFault(WalletIds(wallets), TransactionIds(transactions), e, x.reason)
              || (HasWallet(wallets, e.walletId) && ChainFault(ledger, e, x.reason))
    {
      FaultIsEither(wallets, transactions, ledger, e, x.reason);
    }
  }

  // ---------- the order of the ledger part ----------

  // Complaints about single entries come first, entry by entry as the table lists
  // them; then the broken chains, wallet by wallet, each in order of time.
  ghost predicate ListedBefore(wallets: seq<Wallet>, ledger: seq<LedgerEntry>, a: LedgerIssue, b: LedgerIssue) {
    if Place(a.reason) < 3 then Place(b.reason) < 3 ==> EntryBefore(ledger, a, b)
    else Place(b.reason) == 3 && LinkBefore(wallets, ledger, a, b)
  }

  ghost predicate EntryBefore(ledger: seq<LedgerEntry>, a: LedgerIssue, b: LedgerIssue) {
    exists k, l :: 0 <= k <= l < |ledger| && Names(a, ledger[k]) && Names(b, ledger[l])
                   && (k == l ==> Place(a.reason) < Place(b.reason))
  }

  ghost predicate LinkBefore(wallets: seq<Wallet>, ledger: seq<LedgerEntry>, a: LedgerIssue, b: LedgerIssue) {
    exists k, l :: 0 <= k <= l < |wallets| && wallets[k].id == a.walletId && wallets[l].id == b.walletId
                   && (k == l ==> TimeBefore(ledger, a, b))
  }

  ghost predicate TimeBefore(ledger: seq<LedgerEntry>, a: LedgerIssue, b: LedgerIssue) {
    exists x, y :: x in ledger && y in ledger && Names(a, x) && Names(b, y) && Earlier(x, y)
  }

  lemma OwnInOrder(wallets: set<Id>, transactions: set<Id>, ledger: seq<LedgerEntry>, i: nat, j: nat)
    requires i < j < |FlatMap(EntryCheck(wallets, transactions), ledger)|
    ensures var s := FlatMap(EntryCheck(wallets, transactions), ledger);
            Place(s[i].reason) < 3 && Place(s[j].reason) < 3 && EntryBefore(ledger, s[i], s[j])
  {
    var own := EntryCheck(wallets, transactions);
    var k, l, a, b := FlatMapOrigins(own, ledger, i, j);
    OwnFaults(wallets, transactions, ledger[k]);
    OwnFaults(wallets, transactions, ledger[l]);
    assert own(ledger[k])[a] in own(ledger[k]) && own(ledger[l])[b] in own(ledger[l]);
  }

  lemma OwnPlace(wallets: set<Id>, transactions: set<Id>, ledger: seq<LedgerEntry>, i: nat)
    requires i < |FlatMap(EntryCheck(wallets, transactions), ledger)|
    ensures Place(FlatMap(EntryCheck(wallets, transactions), ledger)[i].reason) < 3
  {
    var own := EntryCheck(wallets, transactions);
    var k, a := FlatMapOrigin(own, ledger, i);
    OwnFaults(wallets, transactions, ledger[k]);
    assert own(ledger[k])[a] in own(ledger[k]);
  }

  lemma LinkOfWallet(ledger: seq<LedgerEntry>, w: Id, x: LedgerIssue)
    requires x in ChainIssues(WalletHistory(w, ledger))
    ensures x.walletId == w && Place(x.reason) == 3
  {
    var h := WalletHistory(w, ledger);
    LinkFaults(h, x);
    var i: nat :| i < |h| && LinkFault(h, i, x);
    assert h[i] in h;
    HistoryMembers(ByWallet, w, ledger);
  }

  lemma ChainInOrder(wallets: seq<Wallet>, ledger: seq<LedgerEntry>, i: nat, j: nat)
    requires DistinctIds(ledger) && i < j < |FlatMap(ChainCheck(ledger), wallets)|
    ensures var s := FlatMap(ChainCheck(ledger), wallets);
            Place(s[i].reason) == 3 && Place(s[j].reason) == 3 && LinkBefore(wallets, ledger, s[i], s[j])
  {
    var chain := ChainCheck(ledger);
    var k, l, a, b := FlatMapOrigins(chain, wallets, i, j);
    assert chain(wallets[k])[a] in chain(wallets[k]) && chain(wallets[l])[b] in chain(wallets[l]);
    LinkOfWallet(ledger, wallets[k].id, chain(wallets[k])[a]);
    LinkOfWallet(ledger, wallets[l].id, chain(wallets[l])[b]);
    if k == l {
      LinksInTime(ledger, wallets[k].id, a, b);
    }
  }

  lemma LinksInTime(ledger: seq<LedgerEntry>, w: Id, a: nat, b: nat)
    requires DistinctIds(ledger) && a < b < |ChainIssues(WalletHistory(w, ledger))|
    ensures var s := ChainIssues(WalletHistory(w, ledger)); TimeBefore(ledger, s[a], s[b])
  {
    var h := WalletHistory(w, ledger);
    WalletHistoryFacts(w, ledger);
    var i, j := LinksInOrder(h, a, b);
    EarlierInHistory(h, i, j);
    assert h[i] in h && h[j] in h;
  }

  ghost predicate OwnListed(ledger: seq<LedgerEntry>, own: seq<LedgerIssue>) {
    (forall i :: 0 <= i < |own| ==> Place(own[i].reason) < 3)
    && (forall i, j :: 0 <= i < j < |own| ==> EntryBefore(ledger, own[i], own[j]))
  }

  ghost predicate ChainListed(wallets: seq<Wallet>, ledger: seq<LedgerEntry>, chain: seq<LedgerIssue>) {
    (forall i :: 0 <= i < |chain| ==> Place(chain[i].reason) == 3)
    && (forall i, j :: 0 <= i < j < |chain| ==> LinkBefore(wallets, ledger, chain[i], chain[j]))
  }

  lemma JoinedInOrder(wallets: seq<Wallet>, ledger: seq<LedgerEntry>, own: seq<LedgerIssue>, chain: seq<LedgerIssue>)
    requires OwnListed(ledger, own) && ChainListed(wallets, ledger, chain)
    ensures var s := own + chain; forall i, j :: 0 <= i < j < |s| ==> ListedBefore(wallets, ledger, s[i], s[j])
  {
  }

  // The list of complaints is in this order throughout.
  lemma FaultsInOrder(wallets: seq<Wallet>, transactions: seq<Transaction>, ledger: seq<LedgerEntry>)
    requires DistinctIds(ledger)
    ensures var s := ReportOf(wallets, transactions, ledger).ledger;
            forall i, j :: 0 <= i < j < |s| ==> ListedBefore(wallets, ledger, s[i], s[j])
  {
    var ws, ts := WalletIds(wallets), TransactionIds(transactions);
    var own, chain := FlatMap(EntryCheck(ws, ts), ledger), FlatMap(ChainCheck(ledger), wallets);
    assert OwnListed(ledger, own) by {
      forall i: nat | i < |own| { OwnPlace(ws, ts, ledger, i); }
      forall i: nat, j: nat | i < j < |own| { OwnInOrder(ws, ts, ledger, i, j); }
    }
    assert ChainListed(wallets, ledger, chain) by {
      forall i: nat | i < |chain| { ChainPlace(wallets, ledger, i); }
      forall i: nat, j: nat | i < j < |chain| { ChainInOrder(wallets, ledger, i, j); }
    }
    JoinedInOrder(wallets, ledger, own, chain);
  }

  lemma ChainPlace(wallets: seq<Wallet>, ledger: seq<LedgerEntry>, i: nat)
    requires i < |FlatMap(ChainCheck(ledger), wallets)|
    ensures Place(FlatMap(ChainCheck(ledger), wallets)[i].reason) == 3
  {
    var k, a := FlatMapOrigin(ChainCheck(ledger), wallets, i);
    var chain := ChainCheck(ledger)(wallets[k]);
    assert chain[a] in chain;
    LinkOfWallet(ledger, wallets[k].id, chain[a]);
  }
}
