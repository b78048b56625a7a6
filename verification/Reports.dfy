// What else a report says: which transactions have the wrong shape and why, which
// balances differ from their entries and by what, and what it counts.
module Reports {
  import opened Int64
  import opened Entities
  import opened Sequences
  import opened Ledger
  import opened Reconciliation
  import opened Consistency
  import opened LedgerFaults

  // ---------- the rows of a wallet or transaction, in order of time ----------

  ghost predicate InTime(h: seq<LedgerEntry>) {
    forall i, j :: 0 <= i < j < |h| ==> Earlier(h[i], h[j])
  }

  ghost predicate RowsOfTransaction(ledger: seq<LedgerEntry>, id: Id, h: seq<LedgerEntry>) {
    InTime(h) && forall e :: e in h <==> e in ledger && e.transactionId == id
  }

  ghost predicate RowsOfWallet(ledger: seq<LedgerEntry>, id: Id, h: seq<LedgerEntry>) {
    InTime(h) && forall e :: e in h <==> e in ledger && e.walletId == id
  }

  // There is one such arrangement.
  lemma OneArrangement(c: Column, id: Id, ledger: seq<LedgerEntry>, h: seq<LedgerEntry>)
    requires DistinctIds(ledger)
    ensures h == History(Group(c, id, ledger)) <==>
            InTime(h) && forall e :: e in h <==> e in ledger && ColumnOf(c, e) == id
  {
    var g := Group(c, id, ledger);
    HistoryOrdered(g);
    GroupDistinct(c, id, ledger);
    DistinctIdsPermute(g, History(g));
    HistoryMembers(c, id, ledger);
    if InTime(h) && forall e :: e in h <==> e in ledger && ColumnOf(c, e) == id {
      SortedMembers(ledger, g, h);
      HistoryUnique(g, h);
    }
  }

  lemma TransactionRows(ledger: seq<LedgerEntry>, id: Id, h: seq<LedgerEntry>)
    requires DistinctIds(ledger)
    ensures RowsOfTransaction(ledger, id, h) <==> h == TransactionHistory(id, ledger)
  {
    OneArrangement(ByTransaction, id, ledger, h);
  }

  lemma WalletRows(ledger: seq<LedgerEntry>, id: Id, h: seq<LedgerEntry>)
    requires DistinctIds(ledger)
    ensures RowsOfWallet(ledger, id, h) <==> h == WalletHistory(id, ledger)
  {
    OneArrangement(ByWallet, id, ledger, h);
  }

  lemma SortedMembers(ledger: seq<LedgerEntry>, g: seq<LedgerEntry>, h: seq<LedgerEntry>)
    requires DistinctIds(ledger) && DistinctIds(g) && InTime(h)
    requires forall e :: e in h <==> e in g
    requires forall e :: e in g ==> e in ledger
    ensures Ordered(h) && multiset(h) == multiset(g)
  {
    assert DistinctIds(h) by {
      forall i, j | 0 <= i < j < |h| ensures h[i].id != h[j].id {
        assert h[i] in ledger && h[j] in ledger;
        assert Earlier(h[i], h[j]);
      }
    }
    forall e ensures multiset(h)[e] == multiset(g)[e] {
      if e in h {
        OnceCounted(h, e);
        OnceCounted(g, e);
      }
    }
  }

  // ---------- what is wrong with a transaction ----------

  // A debit of the source among the rows; from the first row with another amount on,
  // rows are not looked at.
  predicate SeesDebit(t: Transaction, h: seq<LedgerEntry>)
    requires |h| == 2
  {
    h[0].amount == t.amount
    && ((h[0].kind == Debit && t.source == Some(h[0].walletId))
        || (h[1].amount == t.amount && h[1].kind == Debit && t.source == Some(h[1].walletId)))
  }

  predicate SeesCredit(t: Transaction, h: seq<LedgerEntry>)
    requires |h| == 2
  {
    h[0].amount == t.amount
    && ((h[0].kind == Credit && t.destination == Some(h[0].walletId))
        || (h[1].amount == t.amount && h[1].kind == Credit && t.destination == Some(h[1].walletId)))
  }

  // The complaint is true of t and its rows h.
  predicate ShapeFault(t: Transaction, h: seq<LedgerEntry>, reason: TransactionReason) {
    match reason
    case TopUpHasSource => t.kind == TopUp && t.source != None
    case TopUpLacksDestination => t.kind == TopUp && t.destination == None
    case TopUpEntryCount => t.kind == TopUp && |h| != 1
    case TopUpWrongWallet =>
      t.kind == TopUp && |h| == 1 && t.destination != None && t.destination != Some(h[0].walletId)
    case TopUpNotCredit => t.kind == TopUp && |h| == 1 && h[0].kind != Credit
    case TopUpAmount => t.kind == TopUp && |h| == 1 && h[0].amount != t.amount
    case TransferLacksSource => t.kind == Transfer && t.source == None
    case TransferLacksDestination => t.kind == Transfer && t.destination == None
    case TransferSameWallet => t.kind == Transfer && t.source != None && t.source == t.destination
    case TransferEntryCount => t.kind == Transfer && |h| != 2
    case TransferAmount => t.kind == Transfer && |h| == 2 && (h[0].amount != t.amount || h[1].amount != t.amount)
    case TransferLacksDebit => t.kind == Transfer && |h| == 2 && !SeesDebit(t, h)
    case TransferLacksCredit => t.kind == Transfer && |h| == 2 && !SeesCredit(t, h)
    case UnknownTransactionType => t.kind != TopUp && t.kind != Transfer
  }

  // The order in which the complaints about one transaction appear.
  function Turn(reason: TransactionReason): nat {
    match reason
    case TopUpHasSource => 0
    case TopUpLacksDestination => 1
    case TopUpEntryCount => 2
    case TopUpWrongWallet => 3
    case TopUpNotCredit => 4
    case TopUpAmount => 5
    case TransferLacksSource => 0
    case TransferLacksDestination => 1
    case TransferSameWallet => 2
    case TransferEntryCount => 3
    case TransferAmount => 4
    case TransferLacksDebit => 5
    case TransferLacksCredit => 6
    case UnknownTransactionType => 0
  }

  ghost predicate InTurn(reasons: seq<TransactionReason>) {
    forall a, b :: 0 <= a < b < |reasons| ==> Turn(reasons[a]) < Turn(reasons[b])
  }

  function If(p: bool, reason: TransactionReason): seq<TransactionReason> {
    if p then [reason] else []
  }

  // s lists x if p, y if q and z if r, in this order.
  ghost predicate Lists(s: seq<TransactionReason>, p: bool, x: TransactionReason, q: bool, y: TransactionReason,
                        r: bool, z: TransactionReason) {
    (forall reason :: reason in s <==> (p && reason == x) || (q && reason == y) || (r && reason == z))
    && InTurn(s) && Within(s, Turn(x), Turn(z))
  }

  lemma TwoInTurn(p: bool, x: TransactionReason, q: bool, y: TransactionReason)
    requires Turn(x) < Turn(y)
    ensures var s := If(p, x) + If(q, y);
            && InTurn(s) && Within(s, Turn(x), Turn(y))
            && forall reason :: reason in s <==> (p && reason == x) || (q && reason == y)
  {
    if p && q {
      assert If(p, x) + If(q, y) == [x, y];
    }
  }

  lemma ThirdInTurn(s: seq<TransactionReason>, low: nat, high: nat, r: bool, z: TransactionReason)
    requires InTurn(s) && Within(s, low, high) && high < Turn(z) && low <= Turn(z)
    ensures InTurn(s + If(r, z)) && Within(s + If(r, z), low, Turn(z))
    ensures forall reason :: reason in s + If(r, z) <==> reason in s || (r && reason == z)
  {
  }

  lemma ThreeInTurn(p: bool, x: TransactionReason, q: bool, y: TransactionReason, r: bool, z: TransactionReason)
    requires Turn(x) < Turn(y) < Turn(z)
    ensures Lists(If(p, x) + If(q, y) + If(r, z), p, x, q, y, r, z)
  {
    TwoInTurn(p, x, q, y);
    ThirdInTurn(If(p, x) + If(q, y), Turn(x), Turn(y), r, z);
  }

  ghost predicate Within(reasons: seq<TransactionReason>, low: nat, high: nat) {
    forall i :: 0 <= i < |reasons| ==> low <= Turn(reasons[i]) <= high
  }

  // Two parts of a list of complaints, before and from turn n on.
  lemma TurnsJoin(a: seq<TransactionReason>, b: seq<TransactionReason>, n: nat)
    requires InTurn(a) && InTurn(b) && (n > 0 ==> Within(a, 0, n - 1)) && (n == 0 ==> a == []) && Within(b, n, 6)
    ensures InTurn(a + b) && forall reason :: reason in a + b <==> reason in a || reason in b
  {
  }

  // s lists the complaints about t that are true, in the given range of turns.
  ghost predicate Complains(t: Transaction, h: seq<LedgerEntry>, s: seq<TransactionReason>, low: nat, high: nat) {
    InTurn(s) && Within(s, low, high)
    && forall reason :: reason in s <==> low <= Turn(reason) <= high && ShapeFault(t, h, reason)
  }

  lemma ComplaintsJoin(t: Transaction, h: seq<LedgerEntry>, a: seq<TransactionReason>, b: seq<TransactionReason>,
                       n: nat)
    requires n > 0 && Complains(t, h, a, 0, n - 1) && Complains(t, h, b, n, 6)
    ensures Complains(t, h, a + b, 0, 6)
  {
    TurnsJoin(a, b, n);
  }

  function TopUpWalletReasons(t: Transaction): seq<TransactionReason> {
    If(t.source.Some?, TopUpHasSource) + If(t.destination.None?, TopUpLacksDestination)
  }

  function TopUpRowReasons(t: Transaction, h: seq<LedgerEntry>): seq<TransactionReason> {
    if |h| != 1 then [TopUpEntryCount]
    else
      If(t.destination.Some? && h[0].walletId != t.destination.value, TopUpWrongWallet)
      + If(h[0].kind != Credit, TopUpNotCredit) + If(h[0].amount != t.amount, TopUpAmount)
  }

  lemma TopUpWalletFaults(t: Transaction, h: seq<LedgerEntry>)
    requires t.kind == TopUp
    ensures Complains(t, h, TopUpWalletReasons(t), 0, 1)
  {
  }

  lemma TopUpRowFaults(t: Transaction, h: seq<LedgerEntry>)
    requires t.kind == TopUp
    ensures Complains(t, h, TopUpRowReasons(t, h), 2, 6)
  {
    if |h| == 1 {
      var wrong := t.destination.Some? && h[0].walletId != t.destination.value;
      var debit, differs := h[0].kind != Credit, h[0].amount != t.amount;
      ThreeInTurn(wrong, TopUpWrongWallet, debit, TopUpNotCredit, differs, TopUpAmount);
      OneRowListed(t, h, TopUpRowReasons(t, h), wrong, debit, differs);
    } else {
      assert TopUpRowReasons(t, h) == [TopUpEntryCount];
    }
  }

  lemma OneRowListed(t: Transaction, h: seq<LedgerEntry>, s: seq<TransactionReason>, p: bool, q: bool, r: bool)
    requires t.kind == TopUp && |h| == 1
    requires p <==> t.destination.Some? && h[0].walletId != t.destination.value
    requires q <==> h[0].kind != Credit
    requires r <==> h[0].amount != t.amount
    requires Lists(s, p, TopUpWrongWallet, q, TopUpNotCredit, r, TopUpAmount)
    ensures Complains(t, h, s, 2, 6)
  {
  }

  lemma TwoRowsListed(t: Transaction, h: seq<LedgerEntry>, s: seq<TransactionReason>, p: bool, q: bool, r: bool)
    requires t.kind == Transfer && |h| == 2
    requires p <==> h[0].amount != t.amount || h[1].amount != t.amount
    requires q <==> !SeesDebit(t, h)
    requires r <==> !SeesCredit(t, h)
    requires Lists(s, p, TransferAmount, q, TransferLacksDebit, r, TransferLacksCredit)
    ensures Complains(t, h, s, 3, 6)
  {
  }

  lemma TopUpFaults(t: Transaction, h: seq<LedgerEntry>)
    requires t.kind == TopUp
    ensures Complains(t, h, TopUpReasons(t, h), 0, 6)
  {
    TopUpWalletFaults(t, h);
    TopUpRowFaults(t, h);
    ComplaintsJoin(t, h, TopUpWalletReasons(t), TopUpRowReasons(t, h), 2);
    assert TopUpReasons(t, h) == TopUpWalletReasons(t) + TopUpRowReasons(t, h);
  }

  lemma TransferWalletFaults(t: Transaction, h: seq<LedgerEntry>)
    requires t.kind == Transfer
    ensures Complains(t, h, TransferWalletReasons(t), 0, 2)
  {
    var same := t.source.Some? && t.source == t.destination;
    ThreeInTurn(t.source.None?, TransferLacksSource, t.destination.None?, TransferLacksDestination, same,
      TransferSameWallet);
  }

  lemma TransferFaults(t: Transaction, h: seq<LedgerEntry>)
    requires t.kind == Transfer
    ensures Complains(t, h, TransferReasons(t, h), 0, 6)
  {
    TransferWalletFaults(t, h);
    RowFaults(t, h);
    ComplaintsJoin(t, h, TransferWalletReasons(t), TransferEntryReasons(t, h), 3);
  }

  lemma RowFaults(t: Transaction, h: seq<LedgerEntry>)
    requires t.kind == Transfer
    ensures Complains(t, h, TransferEntryReasons(t, h), 3, 6)
  {
    if |h| == 2 {
      var amount := h[0].amount != t.amount || h[1].amount != t.amount;
      var debit, credit := !SeesDebit(t, h), !SeesCredit(t, h);
      ThreeInTurn(amount, TransferAmount, debit, TransferLacksDebit, credit, TransferLacksCredit);
      TwoRowReasons(t, h);
      TwoRowsListed(t, h, TransferEntryReasons(t, h), amount, debit, credit);
    } else {
      assert TransferEntryReasons(t, h) == [TransferEntryCount];
    }
  }

  lemma TwoRowReasons(t: Transaction, h: seq<LedgerEntry>)
    requires |h| == 2
    ensures TransferEntryReasons(t, h) ==
            If(h[0].amount != t.amount || h[1].amount != t.amount, TransferAmount)
            + If(!SeesDebit(t, h), TransferLacksDebit) + If(!SeesCredit(t, h), TransferLacksCredit)
  {
    assert h == [h[0], h[1]];
    MatchingPair(t.amount, h[0], h[1]);
    ScannedPair(t, h);
  }

  lemma ScannedPair(t: Transaction, h: seq<LedgerEntry>)
    requires |h| == 2
    requires Matching(t.amount, h) ==
             if h[0].amount != t.amount then [] else if h[1].amount != t.amount then [h[0]] else [h[0], h[1]]
    ensures |Matching(t.amount, h)| < 2 <==> h[0].amount != t.amount || h[1].amount != t.amount
    ensures SomeDebit(t, Matching(t.amount, h)) <==> SeesDebit(t, h)
    ensures SomeCredit(t, Matching(t.amount, h)) <==> SeesCredit(t, h)
  {
    var scanned := Matching(t.amount, h);
    assert forall e :: e in scanned <==>
      h[0].amount == t.amount && (e == h[0] || (h[1].amount == t.amount && e == h[1]));
    assert SeesDebit(t, h) <==>
      (h[0] in scanned && DebitsSource(t, h[0])) || (h[1] in scanned && DebitsSource(t, h[1]));
    assert SeesCredit(t, h) <==>
      (h[0] in scanned && CreditsDestination(t, h[0])) || (h[1] in scanned && CreditsDestination(t, h[1]));
  }

  // ---------- the transaction part of a report ----------

  // x describes t, with the ids of its rows in order of time.
  ghost predicate Describes(x: TransactionIssue, t: Transaction, h: seq<LedgerEntry>) {
    x.transactionId == t.id && x.ref == t.ref && x.kind == t.kind && x.amount == t.amount
    && |x.entryIds| == |h| && forall i :: 0 <= i < |h| ==> x.entryIds[i] == h[i].id
  }

  lemma ShapeFaults(t: Transaction, h: seq<LedgerEntry>)
    ensures Complains(t, h, TransactionReasons(t, h), 0, 6)
  {
    match t.kind
    case TopUp => TopUpFaults(t, h);
    case Transfer => TransferFaults(t, h);
    case OtherType(_) =>
  }

  ghost predicate Complaint(ledger: seq<LedgerEntry>, t: Transaction, h: seq<LedgerEntry>, x: TransactionIssue) {
    RowsOfTransaction(ledger, t.id, h) && Describes(x, t, h) && ShapeFault(t, h, x.reason)
  }

  lemma ComplaintsOf(ledger: seq<LedgerEntry>, t: Transaction, x: TransactionIssue)
    requires DistinctIds(ledger)
    ensures x in ShapeCheck(ledger)(t) <==> exists h :: Complaint(ledger, t, h, x)
  {
    var h := TransactionHistory(t.id, ledger);
    ShapeFaults(t, h);
    IssuesListed(t, h, TransactionReasons(t, h), x);
    forall k ensures RowsOfTransaction(ledger, t.id, k) <==> k == h {
      TransactionRows(ledger, t.id, k);
    }
    OnlyArrangement(ledger, t, h, x, x in ShapeCheck(ledger)(t));
  }

  lemma OnlyArrangement(ledger: seq<LedgerEntry>, t: Transaction, h: seq<LedgerEntry>, x: TransactionIssue,
                        listed: bool)
    requires forall k :: RowsOfTransaction(ledger, t.id, k) <==> k == h
    requires listed <==> Describes(x, t, h) && ShapeFault(t, h, x.reason)
    ensures listed <==> exists k :: Complaint(ledger, t, k, x)
  {
    if listed {
      assert Complaint(ledger, t, h, x);
    }
  }

  lemma IssuesListed(t: Transaction, h: seq<LedgerEntry>, reasons: seq<TransactionReason>, x: TransactionIssue)
    ensures x in IssuesFor(t, h, reasons) <==> x.reason in reasons && Describes(x, t, h)
  {
    var issues := IssuesFor(t, h, reasons);
    if x.reason in reasons && Describes(x, t, h) {
      var i :| 0 <= i < |reasons| && reasons[i] == x.reason;
      assert x.entryIds == IssueFor(t, h, x.reason).entryIds;
      assert issues[i] == x;
    }
  }

  // For arbitrary tables with distinct entry ids, the report complains about a
  // transaction exactly if that complaint is true of it and its rows in order of
  // time, and lists the ids of these rows in that order.
  lemma ReportedShapes(wallets: seq<Wallet>, transactions: seq<Transaction>, ledger: seq<LedgerEntry>,
                       x: TransactionIssue)
    requires DistinctIds(ledger)
    ensures x in ReportOf(wallets, transactions, ledger).transactions <==>
            exists t, h :: t in transactions && Complaint(ledger, t, h, x)
  {
    FlatMapIn(ShapeCheck(ledger), transactions, x);
    forall t ensures x in ShapeCheck(ledger)(t) <==> exists h :: Complaint(ledger, t, h, x) {
      ComplaintsOf(ledger, t, x);
    }
  }

  // Complaints come transaction by transaction, and about one in a fixed order.
  ghost predicate ShapeBefore(transactions: seq<Transaction>, a: TransactionIssue, b: TransactionIssue) {
    exists k, l :: 0 <= k <= l < |transactions|
                   && transactions[k].id == a.transactionId && transactions[l].id == b.transactionId
                   && (k == l ==> Turn(a.reason) < Turn(b.reason))
  }

  lemma ShapesInOrder(wallets: seq<Wallet>, transactions: seq<Transaction>, ledger: seq<LedgerEntry>, i: nat, j: nat)
    requires i < j < |ReportOf(wallets, transactions, ledger).transactions|
    ensures var s := ReportOf(wallets, transactions, ledger).transactions; ShapeBefore(transactions, s[i], s[j])
  {
    var check := ShapeCheck(ledger);
    var k, l, a, b := FlatMapOrigins(check, transactions, i, j);
    ShapeFaults(transactions[k], TransactionHistory(transactions[k].id, ledger));
  }

  // ---------- the wallet part of a report ----------

  // The amounts of the rows of one kind.
  function SumOf(kind: EntryType, h: seq<LedgerEntry>): int {
    if h == [] then 0
    else SumOf(kind, h[..|h| - 1]) + if h[|h| - 1].kind == kind then h[|h| - 1].amount else 0
  }

  // Rows of other kinds do not count.
  lemma {:induction false} NetIsDifference(h: seq<LedgerEntry>)
    ensures Net(h) == SumOf(Credit, h) - SumOf(Debit, h)
  {
    if h != [] {
      NetIsDifference(h[..|h| - 1]);
    }
  }

  // x tells that w holds something else than the credits less the debits among its
  // rows h, modulo 2^64.
  predicate DiffersBy(w: Wallet, h: seq<LedgerEntry>, x: WalletIssue) {
    x.walletId == w.id && x.userId == w.userId && x.stored == w.balance && x.derived != x.stored
    && Congruent(x.derived, SumOf(Credit, h) - SumOf(Debit, h)) && x.entryCount == |h|
  }

  ghost predicate Mismatch(ledger: seq<LedgerEntry>, w: Wallet, h: seq<LedgerEntry>, x: WalletIssue) {
    RowsOfWallet(ledger, w.id, h) && DiffersBy(w, h, x)
  }

  lemma MismatchListed(w: Wallet, h: seq<LedgerEntry>, x: WalletIssue)
    ensures x in WalletIssues(w, h) <==> DiffersBy(w, h, x)
  {
    NetIsDifference(h);
    DerivedMeaning(h);
    if Congruent(x.derived, Net(h)) {
      WrapOfCongruent(x.derived, Net(h));
    }
  }

  lemma MismatchOf(ledger: seq<LedgerEntry>, w: Wallet, x: WalletIssue)
    requires DistinctIds(ledger)
    ensures x in BalanceCheck(ledger)(w) <==> exists h :: Mismatch(ledger, w, h, x)
  {
    var h := WalletHistory(w.id, ledger);
    MismatchListed(w, h, x);
    WalletRows(ledger, w.id, h);
    if x in BalanceCheck(ledger)(w) {
      assert Mismatch(ledger, w, h, x);
    }
    if k :| Mismatch(ledger, w, k, x) {
      WalletRows(ledger, w.id, k);
    }
  }

  // For arbitrary tables with distinct entry ids, the report names a wallet
  // exactly if its balance differs from what its entries add up to, with both
  // balances and the number of entries.
  lemma ReportedBalances(wallets: seq<Wallet>, transactions: seq<Transaction>, ledger: seq<LedgerEntry>, x: WalletIssue)
    requires DistinctIds(ledger)
    ensures x in ReportOf(wallets, transactions, ledger).wallets <==>
            exists w, h :: w in wallets && Mismatch(ledger, w, h, x)
  {
    FlatMapIn(BalanceCheck(ledger), wallets, x);
    forall w: Wallet ensures x in BalanceCheck(ledger)(w) <==> exists h :: Mismatch(ledger, w, h, x) {
      MismatchOf(ledger, w, x);
    }
  }

  ghost predicate WalletBefore(wallets: seq<Wallet>, a: WalletIssue, b: WalletIssue) {
    exists k, l :: 0 <= k < l < |wallets| && wallets[k].id == a.walletId && wallets[l].id == b.walletId
  }

  // Wallets are named in the order of their table, each at most once.
  lemma BalancesInOrder(wallets: seq<Wallet>, transactions: seq<Transaction>, ledger: seq<LedgerEntry>, i: nat, j: nat)
    requires i < j < |ReportOf(wallets, transactions, ledger).wallets|
    ensures var s := ReportOf(wallets, transactions, ledger).wallets; WalletBefore(wallets, s[i], s[j])
  {
    var k, l, a, b := FlatMapOrigins(BalanceCheck(ledger), wallets, i, j);
    OneIssue(wallets[k], WalletHistory(wallets[k].id, ledger));
    OneIssue(wallets[l], WalletHistory(wallets[l].id, ledger));
    var check := BalanceCheck(ledger);
    assert check(wallets[k])[a] in check(wallets[k]) && check(wallets[l])[b] in check(wallets[l]);
  }

  lemma OneIssue(w: Wallet, h: seq<LedgerEntry>)
    ensures |WalletIssues(w, h)| <= 1 && forall x :: x in WalletIssues(w, h) ==> x.walletId == w.id
  {
  }

  // ---------- the summary ----------

  // The summary counts what was read and what was found, and the report is
  // healthy exactly if nothing was found.
  lemma ReportCounts(wallets: seq<Wallet>, transactions: seq<Transaction>, ledger: seq<LedgerEntry>)
    ensures var r := ReportOf(wallets, transactions, ledger);
            && r.summary.walletsChecked == |wallets| && r.summary.transactionsChecked == |transactions|
            && r.summary.entriesChecked == |ledger|
            && r.summary.walletIssueCount == |r.wallets| && r.summary.transactionIssueCount == |r.transactions|
            && r.summary.ledgerIssueCount == |r.ledger|
            && r.summary.issueCount == |r.wallets| + |r.transactions| + |r.ledger|
            && (r.healthy <==> r.wallets == [] && r.transactions == [] && r.ledger == [])
  {
  }
}
