// The reconciliation checker (internal/usecase/reconciliation.go): the report it
// specifies, and the imperative code that computes it.
module Reconciliation {
  import opened Int64
  import opened Entities
  import opened Sequences
  import opened Ledger

  datatype LedgerReason =
    | MissingWallet | OrphanEntry
    | CreditMath | DebitMath | UnknownEntryType | NonPositiveAmount
    | BadGenesis | BrokenChain

  datatype TransactionReason =
    | TopUpHasSource | TopUpLacksDestination | TopUpEntryCount
    | TopUpWrongWallet | TopUpNotCredit | TopUpAmount
    | TransferLacksSource | TransferLacksDestination | TransferSameWallet | TransferEntryCount
    | TransferAmount | TransferLacksDebit | TransferLacksCredit
    | UnknownTransactionType

  datatype LedgerIssue = LedgerIssue(entryId: Id, transactionId: Id, walletId: Id, reason: LedgerReason)

  datatype WalletIssue = WalletIssue(walletId: Id, userId: Id, stored: int64, derived: int64, entryCount: nat)

  datatype TransactionIssue = TransactionIssue(
    transactionId: Id, ref: Id, kind: TransactionType, amount: int64,
    entryIds: seq<Id>, reason: TransactionReason)

  datatype Summary = Summary(
    walletsChecked: nat, transactionsChecked: nat, entriesChecked: nat,
    walletIssueCount: nat, transactionIssueCount: nat, ledgerIssueCount: nat, issueCount: nat)

  datatype Report = Report(
    healthy: bool, summary: Summary,
    wallets: seq<WalletIssue>, transactions: seq<TransactionIssue>, ledger: seq<LedgerIssue>)

  const WALLET_GENESIS_BALANCE: int64 := 0

  // ---------- specification ----------

  function NewLedgerIssue(e: LedgerEntry, reason: LedgerReason): LedgerIssue {
    LedgerIssue(e.id, e.transactionId, e.walletId, reason)
  }

  // validateLedgerEntryMath: the first arithmetic complaint about an entry.
  function EntryMath(e: LedgerEntry): Option<LedgerReason> {
    match e.kind
    case Credit =>
      if Wrap(e.balanceAfter - e.balanceBefore) != e.amount then Some(CreditMath)
      else if e.amount <= 0 then Some(NonPositiveAmount) else None
    case Debit =>
      if Wrap(e.balanceBefore - e.balanceAfter) != e.amount then Some(DebitMath)
      else if e.amount <= 0 then Some(NonPositiveAmount) else None
    case OtherEntry(_) => Some(UnknownEntryType)
  }

  function EntryIssues(wallets: set<Id>, transactions: set<Id>, e: LedgerEntry): seq<LedgerIssue> {
    (if e.walletId in wallets then [] else [NewLedgerIssue(e, MissingWallet)])
    + (if e.transactionId in transactions then [] else [NewLedgerIssue(e, OrphanEntry)])
    + match EntryMath(e) { case None => [] case Some(reason) => [NewLedgerIssue(e, reason)] }
  }

  // The balance the entry at i must start from.
  function ExpectedBefore(h: seq<LedgerEntry>, i: nat): int64
    requires i < |h|
  {
    if i == 0 then WALLET_GENESIS_BALANCE else h[i - 1].balanceAfter
  }

  function ChainIssues(h: seq<LedgerEntry>): seq<LedgerIssue> {
    if h == [] then []
    else
      var i := |h| - 1;
      ChainIssues(h[..i])
      + if h[i].balanceBefore == ExpectedBefore(h, i) then []
        else [NewLedgerIssue(h[i], if i == 0 then BadGenesis else BrokenChain)]
  }

  // x is about e.
  predicate Names(x: LedgerIssue, e: LedgerEntry) {
    x.entryId == e.id && x.transactionId == e.transactionId && x.walletId == e.walletId
  }

  // x tells that the entry at place i of a history does not continue the one before.
  predicate LinkFault(h: seq<LedgerEntry>, i: nat, x: LedgerIssue)
    requires i < |h|
  {
    Names(x, h[i])
    && if i == 0 then x.reason == BadGenesis && h[i].balanceBefore != 0
       else x.reason == BrokenChain && h[i].balanceBefore != h[i - 1].balanceAfter
  }

  lemma {:induction false} LinkFaults(h: seq<LedgerEntry>, x: LedgerIssue)
    ensures x in ChainIssues(h) <==> exists i: nat :: i < |h| && LinkFault(h, i, x)
  {
    if h != [] {
      var n := |h| - 1;
      LinkFaults(h[..n], x);
      assert forall i: nat :: i < n ==> (LinkFault(h[..n], i, x) <==> LinkFault(h, i, x));
      assert x in ChainIssues(h) <==> x in ChainIssues(h[..n]) || LinkFault(h, n, x);
    }
  }

  // The running int64 sum of the checker.
  function DerivedBalance(h: seq<LedgerEntry>): int64 {
    if h == [] then 0 else Wrap(DerivedBalance(h[..|h| - 1]) + Signed(h[|h| - 1]))
  }

  function WalletIssues(w: Wallet, h: seq<LedgerEntry>): seq<WalletIssue> {
    if DerivedBalance(h) == w.balance then []
    else [WalletIssue(w.id, w.userId, w.balance, DerivedBalance(h), |h|)]
  }

  function TopUpReasons(t: Transaction, entries: seq<LedgerEntry>): seq<TransactionReason> {
    (if t.source.Some? then [TopUpHasSource] else [])
    + (if t.destination.None? then [TopUpLacksDestination] else [])
    + if |entries| != 1 then [TopUpEntryCount]
      else
        var e := entries[0];
        (if t.destination.Some? && e.walletId != t.destination.value then [TopUpWrongWallet] else [])
        + (if e.kind != Credit then [TopUpNotCredit] else [])
        + (if e.amount != t.amount then [TopUpAmount] else [])
  }

  // The entries before the first one whose amount differs: the loop over the
  // two entries of a transfer looks no further.
  function Matching(amount: int64, entries: seq<LedgerEntry>): seq<LedgerEntry> {
    if entries == [] || entries[0].amount != amount then [] else [entries[0]] + Matching(amount, entries[1..])
  }

  predicate DebitsSource(t: Transaction, e: LedgerEntry) {
    t.source.Some? && e.walletId == t.source.value && e.kind == Debit
  }

  predicate CreditsDestination(t: Transaction, e: LedgerEntry) {
    t.destination.Some? && e.walletId == t.destination.value && e.kind == Credit
  }

  predicate SomeDebit(t: Transaction, entries: seq<LedgerEntry>) {
    exists e :: e in entries && DebitsSource(t, e)
  }

  predicate SomeCredit(t: Transaction, entries: seq<LedgerEntry>) {
    exists e :: e in entries && CreditsDestination(t, e)
  }

  function TransferWalletReasons(t: Transaction): seq<TransactionReason> {
    (if t.source.None? then [TransferLacksSource] else [])
    + (if t.destination.None? then [TransferLacksDestination] else [])
    + (if t.source.Some? && t.source == t.destination then [TransferSameWallet] else [])
  }

  function TransferEntryReasons(t: Transaction, entries: seq<LedgerEntry>): seq<TransactionReason> {
    if |entries| != 2 then [TransferEntryCount]
    else
      var scanned := Matching(t.amount, entries);
      (if |scanned| < |entries| then [TransferAmount] else [])
      + (if SomeDebit(t, scanned) then [] else [TransferLacksDebit])
      + (if SomeCredit(t, scanned) then [] else [TransferLacksCredit])
  }

  function TransferReasons(t: Transaction, entries: seq<LedgerEntry>): seq<TransactionReason> {
    TransferWalletReasons(t) + TransferEntryReasons(t, entries)
  }

  function TransactionReasons(t: Transaction, entries: seq<LedgerEntry>): seq<TransactionReason> {
    match t.kind
    case TopUp => TopUpReasons(t, entries)
    case Transfer => TransferReasons(t, entries)
    case OtherType(_) => [UnknownTransactionType]
  }

  function IssueFor(t: Transaction, entries: seq<LedgerEntry>, reason: TransactionReason): TransactionIssue {
    TransactionIssue(t.id, t.ref, t.kind, t.amount, seq(|entries|, i requires 0 <= i < |entries| => entries[i].id),
      reason)
  }

  function IssuesFor(t: Transaction, entries: seq<LedgerEntry>,
                     reasons: seq<TransactionReason>): seq<TransactionIssue> {
    seq(|reasons|, i requires 0 <= i < |reasons| => IssueFor(t, entries, reasons[i]))
  }

  function WalletIds(wallets: seq<Wallet>): set<Id> { set w | w in wallets :: w.id }

  function TransactionIds(transactions: seq<Transaction>): set<Id> { set t | t in transactions :: t.id }

  function WalletHistory(w: Id, ledger: seq<LedgerEntry>): seq<LedgerEntry> {
    History(Group(ByWallet, w, ledger))
  }

  function TransactionHistory(t: Id, ledger: seq<LedgerEntry>): seq<LedgerEntry> {
    History(Group(ByTransaction, t, ledger))
  }

  // The four checks of the report, each as a function of one row.
  function EntryCheck(wallets: set<Id>, transactions: set<Id>): LedgerEntry -> seq<LedgerIssue> {
    (e: LedgerEntry) => EntryIssues(wallets, transactions, e)
  }

  function ChainCheck(ledger: seq<LedgerEntry>): Wallet -> seq<LedgerIssue> {
    (w: Wallet) => ChainIssues(WalletHistory(w.id, ledger))
  }

  function BalanceCheck(ledger: seq<LedgerEntry>): Wallet -> seq<WalletIssue> {
    (w: Wallet) => WalletIssues(w, WalletHistory(w.id, ledger))
  }

  function ShapeCheck(ledger: seq<LedgerEntry>): Transaction -> seq<TransactionIssue> {
    (t: Transaction) =>
      var entries := TransactionHistory(t.id, ledger);
      IssuesFor(t, entries, TransactionReasons(t, entries))
  }

  function Summarize(wallets: nat, transactions: nat, entries: nat, walletIssues: nat, transactionIssues: nat,
                     ledgerIssues: nat): Summary {
    Summary(wallets, transactions, entries, walletIssues, transactionIssues, ledgerIssues,
            walletIssues + transactionIssues + ledgerIssues)
  }

  function ReportOf(wallets: seq<Wallet>, transactions: seq<Transaction>, ledger: seq<LedgerEntry>): Report {
    var walletIssues := FlatMap(BalanceCheck(ledger), wallets);
    var transactionIssues := FlatMap(ShapeCheck(ledger), transactions);
    var ledgerIssues :=
      FlatMap(EntryCheck(WalletIds(wallets), TransactionIds(transactions)), ledger)
      + FlatMap(ChainCheck(ledger), wallets);
    var summary := Summarize(|wallets|, |transactions|, |ledger|, |walletIssues|, |transactionIssues|, |ledgerIssues|);
    Report(summary.issueCount == 0, summary, walletIssues, transactionIssues, ledgerIssues)
  }

  // ---------- code ----------

  method ValidateWalletLedgerChain(entries: seq<LedgerEntry>) returns (issues: seq<LedgerIssue>)
    ensures issues == ChainIssues(entries)
    ensures forall x :: x in issues <==> exists i: nat :: i < |entries| && LinkFault(entries, i, x)
  {
    issues := [];
    var expectedBefore := WALLET_GENESIS_BALANCE;
    for i := 0 to |entries|
      invariant issues == ChainIssues(entries[..i])
      invariant expectedBefore == if i <= 1 then WALLET_GENESIS_BALANCE else entries[i - 2].balanceAfter
    {
      assert entries[..i + 1][..i] == entries[..i];
      var entry := entries[i];
      if i == 0 {
        if entry.balanceBefore != expectedBefore {
          issues := issues + [NewLedgerIssue(entry, BadGenesis)];
        }
      } else {
        expectedBefore := entries[i - 1].balanceAfter;
        if entry.balanceBefore != expectedBefore {
          issues := issues + [NewLedgerIssue(entry, BrokenChain)];
        }
      }
    }
    assert entries[..|entries|] == entries;
    forall x ensures x in issues <==> exists i: nat :: i < |entries| && LinkFault(entries, i, x) {
      LinkFaults(entries, x);
    }
  }

  method NewTransactionIssue(t: Transaction, entries: seq<LedgerEntry>, reason: TransactionReason)
    returns (issue: TransactionIssue)
    ensures issue == IssueFor(t, entries, reason)
  {
    var ids := [];
    for i := 0 to |entries|
      invariant |ids| == i && forall k :: 0 <= k < i ==> ids[k] == entries[k].id
    {
      ids := ids + [entries[i].id];
    }
    issue := TransactionIssue(t.id, t.ref, t.kind, t.amount, ids, reason);
    assert ids == IssueFor(t, entries, reason).entryIds;
  }

  // Appends the issue for one more reason.
  method AppendIssue(t: Transaction, entries: seq<LedgerEntry>, ghost reasons: seq<TransactionReason>,
                     issues: seq<TransactionIssue>, reason: TransactionReason) returns (longer: seq<TransactionIssue>)
    requires issues == IssuesFor(t, entries, reasons)
    ensures longer == IssuesFor(t, entries, reasons + [reason])
  {
    var issue := NewTransactionIssue(t, entries, reason);
    longer := issues + [issue];
  }

  method ValidateTopUpTransaction(t: Transaction, entries: seq<LedgerEntry>) returns (issues: seq<TransactionIssue>)
    ensures issues == IssuesFor(t, entries, TopUpReasons(t, entries))
  {
    issues := [];
    ghost var reasons := [];
    if t.source.Some? {
      issues := AppendIssue(t, entries, reasons, issues, TopUpHasSource);
      reasons := reasons + [TopUpHasSource];
    }
    if t.destination.None? {
      issues := AppendIssue(t, entries, reasons, issues, TopUpLacksDestination);
      reasons := reasons + [TopUpLacksDestination];
    }
    if |entries| != 1 {
      issues := AppendIssue(t, entries, reasons, issues, TopUpEntryCount);
      return;
    }
    var entry := entries[0];
    if t.destination.Some? && entry.walletId != t.destination.value {
      issues := AppendIssue(t, entries, reasons, issues, TopUpWrongWallet);
      reasons := reasons + [TopUpWrongWallet];
    }
    if entry.kind != Credit {
      issues := AppendIssue(t, entries, reasons, issues, TopUpNotCredit);
      reasons := reasons + [TopUpNotCredit];
    }
    if entry.amount != t.amount {
      issues := AppendIssue(t, entries, reasons, issues, TopUpAmount);
      reasons := reasons + [TopUpAmount];
    }
    assert reasons == TopUpReasons(t, entries);
  }

  method ValidateTransferTransaction(t: Transaction, entries: seq<LedgerEntry>) returns (issues: seq<TransactionIssue>)
    ensures issues == IssuesFor(t, entries, TransferReasons(t, entries))
  {
    issues := ValidateTransferWallets(t, entries);
    ghost var wallets := TransferWalletReasons(t);
    if |entries| != 2 {
      issues := AppendIssue(t, entries, wallets, issues, TransferEntryCount);
      return;
    }
    var foundDebit, foundCredit;
    issues, foundDebit, foundCredit := ScanTransferEntries(t, entries, wallets, issues);
    ghost var reasons := if |Matching(t.amount, entries)| < |entries| then [TransferAmount] else [];
    if !foundDebit {
      issues := AppendIssue(t, entries, wallets + reasons, issues, TransferLacksDebit);
      reasons := reasons + [TransferLacksDebit];
      assert wallets + reasons == wallets + reasons[..|reasons| - 1] + [TransferLacksDebit];
    }
    if !foundCredit {
      issues := AppendIssue(t, entries, wallets + reasons, issues, TransferLacksCredit);
      reasons := reasons + [TransferLacksCredit];
      assert wallets + reasons == wallets + reasons[..|reasons| - 1] + [TransferLacksCredit];
    }
    assert reasons == TransferEntryReasons(t, entries);
  }

  method ValidateTransferWallets(t: Transaction, entries: seq<LedgerEntry>) returns (issues: seq<TransactionIssue>)
    ensures issues == IssuesFor(t, entries, TransferWalletReasons(t))
  {
    issues := [];
    ghost var reasons := [];
    if t.source.None? {
      issues := AppendIssue(t, entries, reasons, issues, TransferLacksSource);
      reasons := reasons + [TransferLacksSource];
    }
    if t.destination.None? {
      issues := AppendIssue(t, entries, reasons, issues, TransferLacksDestination);
      reasons := reasons + [TransferLacksDestination];
    }
    if t.source.Some? && t.destination.Some? && t.source.value == t.destination.value {
      issues := AppendIssue(t, entries, reasons, issues, TransferSameWallet);
      reasons := reasons + [TransferSameWallet];
    }
    assert reasons == TransferWalletReasons(t);
  }

  // The loop over the two entries of a transfer, left at the first wrong amount.
  method ScanTransferEntries(t: Transaction, entries: seq<LedgerEntry>, ghost reasons: seq<TransactionReason>,
                             issues: seq<TransactionIssue>)
    returns (longer: seq<TransactionIssue>, foundDebit: bool, foundCredit: bool)
    requires issues == IssuesFor(t, entries, reasons)
    ensures longer == IssuesFor(t, entries,
            reasons + if |Matching(t.amount, entries)| < |entries| then [TransferAmount] else [])
    ensures foundDebit <==> SomeDebit(t, Matching(t.amount, entries))
    ensures foundCredit <==> SomeCredit(t, Matching(t.amount, entries))
  {
    longer, foundDebit, foundCredit := issues, false, false;
    assert reasons + [] == reasons;
    var i := 0;
    while i < |entries|
      invariant 0 <= i <= |entries|
      invariant Matching(t.amount, entries) == entries[..i] + Matching(t.amount, entries[i..])
      invariant foundDebit <==> SomeDebit(t, entries[..i])
      invariant foundCredit <==> SomeCredit(t, entries[..i])
      invariant longer == issues
    {
      var entry := entries[i];
      if entry.amount != t.amount {
        longer := AppendIssue(t, entries, reasons, longer, TransferAmount);
        assert Matching(t.amount, entries) == entries[..i];
        return;
      }
      ScanOne(t, entries, i);
      if t.source.Some? && entry.walletId == t.source.value && entry.kind == Debit {
        foundDebit := true;
      }
      if t.destination.Some? && entry.walletId == t.destination.value && entry.kind == Credit {
        foundCredit := true;
      }
      i := i + 1;
    }
    assert Matching(t.amount, entries) == entries[..i] == entries;
  }

  lemma ScanOne(t: Transaction, s: seq<LedgerEntry>, i: nat)
    requires i < |s|
    ensures SomeDebit(t, s[..i + 1]) <==> SomeDebit(t, s[..i]) || DebitsSource(t, s[i])
    ensures SomeCredit(t, s[..i + 1]) <==> SomeCredit(t, s[..i]) || CreditsDestination(t, s[i])
    ensures s[..i + 1] == s[..i] + [s[i]] && s[i..][1..] == s[i + 1..]
  {
    assert forall e :: e in s[..i + 1] <==> e in s[..i] || e == s[i];
  }

  // The rows that a map from ids to rows holds for id; a missing key reads as no rows.
  function Rows(m: map<Id, seq<LedgerEntry>>, id: Id): seq<LedgerEntry> {
    if id in m then m[id] else []
  }

  // Adds a row to the rows of id, as Go's append to a map element does.
  function AddRow(m: map<Id, seq<LedgerEntry>>, id: Id, e: LedgerEntry): (r: map<Id, seq<LedgerEntry>>)
    ensures forall k :: Rows(r, k) == Rows(m, k) + if k == id then [e] else []
  {
    m[id := Rows(m, id) + [e]]
  }

  // Copies the rows and sorts the copy. With distinct ids the result is their history.
  method SortedCopy(rows: seq<LedgerEntry>) returns (entries: seq<LedgerEntry>)
    ensures Ordered(entries) && multiset(entries) == multiset(rows)
    ensures DistinctIds(rows) ==> entries == History(rows)
  {
    var copy := new LedgerEntry[|rows|](i requires 0 <= i < |rows| => rows[i]);
    assert copy[..] == rows;
    SortLedgerEntries(copy);
    entries := copy[..];
    if DistinctIds(rows) {
      HistoryUnique(rows, entries);
    }
  }

  // The checks of one entry on its own.
  method CheckEntry(wallets: set<Id>, transactions: set<Id>, entry: LedgerEntry) returns (issues: seq<LedgerIssue>)
    ensures issues == EntryIssues(wallets, transactions, entry)
  {
    issues := [];
    if entry.walletId !in wallets {
      issues := issues + [NewLedgerIssue(entry, MissingWallet)];
    }
    if entry.transactionId !in transactions {
      issues := issues + [NewLedgerIssue(entry, OrphanEntry)];
    }
    var reason := EntryMath(entry);
    if reason.Some? {
      issues := issues + [NewLedgerIssue(entry, reason.value)];
    }
  }

  // The map holds exactly the groups of the rows read so far.
  ghost predicate Indexes(m: map<Id, seq<LedgerEntry>>, c: Column, ids: set<Id>, read: seq<LedgerEntry>) {
    forall id :: id in ids ==> Rows(m, id) == Group(c, id, read)
  }

  lemma IndexOne(m: map<Id, seq<LedgerEntry>>, c: Column, ids: set<Id>, read: seq<LedgerEntry>, e: LedgerEntry)
    requires Indexes(m, c, ids, read)
    ensures Indexes(if ColumnOf(c, e) in ids then AddRow(m, ColumnOf(c, e), e) else m, c, ids, read + [e])
  {
    forall id | id in ids
      ensures Group(c, id, read + [e]) == Group(c, id, read) + if ColumnOf(c, e) == id then [e] else []
    {
      GroupSnoc(c, id, read, e);
    }
  }

  // The loop over the ledger: per-entry issues and the two groupings.
  method IndexLedger(wallets: set<Id>, transactions: set<Id>, ledger: seq<LedgerEntry>)
    returns (issues: seq<LedgerIssue>, byWallet: map<Id, seq<LedgerEntry>>, byTransaction: map<Id, seq<LedgerEntry>>)
    ensures issues == FlatMap(EntryCheck(wallets, transactions), ledger)
    ensures Indexes(byWallet, ByWallet, wallets, ledger)
    ensures Indexes(byTransaction, ByTransaction, transactions, ledger)
  {
    issues, byWallet, byTransaction := [], map[], map[];
    for i := 0 to |ledger|
      invariant issues == FlatMap(EntryCheck(wallets, transactions), ledger[..i])
      invariant Indexes(byWallet, ByWallet, wallets, ledger[..i])
      invariant Indexes(byTransaction, ByTransaction, transactions, ledger[..i])
    {
      var entry := ledger[i];
      assert ledger[..i + 1] == ledger[..i] + [entry];
      FlatMapSnoc(EntryCheck(wallets, transactions), ledger[..i], entry);
      IndexOne(byWallet, ByWallet, wallets, ledger[..i], entry);
      IndexOne(byTransaction, ByTransaction, transactions, ledger[..i], entry);
      if entry.walletId in wallets {
        byWallet := AddRow(byWallet, entry.walletId, entry);
      }
      if entry.transactionId in transactions {
        byTransaction := AddRow(byTransaction, entry.transactionId, entry);
      }
      var found := CheckEntry(wallets, transactions, entry);
      issues := issues + found;
    }
    assert ledger[..|ledger|] == ledger;
  }

  // The checker's running balance of one wallet.
  method DeriveBalance(entries: seq<LedgerEntry>) returns (derived: int64)
    ensures derived == DerivedBalance(entries)
  {
    derived := 0;
    for j := 0 to |entries|
      invariant derived == DerivedBalance(entries[..j])
    {
      assert entries[..j + 1][..j] == entries[..j];
      match entries[j].kind {
        case Credit => derived := Wrap(derived + entries[j].amount);
        case Debit => derived := Wrap(derived - entries[j].amount);
        case OtherEntry(_) => WrapExact(derived);
      }
    }
    assert entries[..|entries|] == entries;
  }

  // The checks of one wallet against its rows.
  method CheckWallet(wallet: Wallet, rows: seq<LedgerEntry>, ghost ledger: seq<LedgerEntry>)
    returns (chain: seq<LedgerIssue>, balance: seq<WalletIssue>)
    requires rows == Group(ByWallet, wallet.id, ledger)
    ensures DistinctIds(ledger) ==> chain == ChainCheck(ledger)(wallet) && balance == BalanceCheck(ledger)(wallet)
  {
    if DistinctIds(ledger) {
      GroupDistinct(ByWallet, wallet.id, ledger);
    }
    var entries := SortedCopy(rows);
    chain := ValidateWalletLedgerChain(entries);
    var derived := DeriveBalance(entries);
    balance := [];
    if derived != wallet.balance {
      balance := [WalletIssue(wallet.id, wallet.userId, wallet.balance, derived, |entries|)];
    }
  }

  // The loop over the wallets: chain issues and balance issues.
  method CheckWallets(wallets: seq<Wallet>, ghost ledger: seq<LedgerEntry>, byWallet: map<Id, seq<LedgerEntry>>)
    returns (ledgerIssues: seq<LedgerIssue>, walletIssues: seq<WalletIssue>)
    requires Indexes(byWallet, ByWallet, WalletIds(wallets), ledger)
    ensures DistinctIds(ledger) ==> ledgerIssues == FlatMap(ChainCheck(ledger), wallets)
    ensures DistinctIds(ledger) ==> walletIssues == FlatMap(BalanceCheck(ledger), wallets)
  {
    ghost var unique := DistinctIds(ledger);
    ledgerIssues, walletIssues := [], [];
    for i := 0 to |wallets|
      invariant unique ==> ledgerIssues == FlatMap(ChainCheck(ledger), wallets[..i])
      invariant unique ==> walletIssues == FlatMap(BalanceCheck(ledger), wallets[..i])
    {
      var wallet := wallets[i];
      TakeOneMore(wallets, i);
      assert wallet.id in WalletIds(wallets);
      FlatMapSnoc(ChainCheck(ledger), wallets[..i], wallet);
      FlatMapSnoc(BalanceCheck(ledger), wallets[..i], wallet);
      var chain, balance := CheckWallet(wallet, Rows(byWallet, wallet.id), ledger);
      ledgerIssues := ledgerIssues + chain;
      walletIssues := walletIssues + balance;
    }
    assert wallets[..|wallets|] == wallets;
  }

  // The check of one transaction against its rows.
  method CheckTransaction(transaction: Transaction, rows: seq<LedgerEntry>, ghost ledger: seq<LedgerEntry>)
    returns (issues: seq<TransactionIssue>)
    requires rows == Group(ByTransaction, transaction.id, ledger)
    ensures DistinctIds(ledger) ==> issues == ShapeCheck(ledger)(transaction)
  {
    if DistinctIds(ledger) {
      GroupDistinct(ByTransaction, transaction.id, ledger);
    }
    var entries := SortedCopy(rows);
    match transaction.kind {
      case TopUp => issues := ValidateTopUpTransaction(transaction, entries);
      case Transfer => issues := ValidateTransferTransaction(transaction, entries);
      case OtherType(_) => issues := AppendIssue(transaction, entries, [], [], UnknownTransactionType);
    }
  }

  // The loop over the transactions: shape issues.
  method CheckTransactions(transactions: seq<Transaction>, ghost ledger: seq<LedgerEntry>,
                           byTransaction: map<Id, seq<LedgerEntry>>)
    returns (issues: seq<TransactionIssue>)
    requires Indexes(byTransaction, ByTransaction, TransactionIds(transactions), ledger)
    ensures DistinctIds(ledger) ==> issues == FlatMap(ShapeCheck(ledger), transactions)
  {
    ghost var unique := DistinctIds(ledger);
    issues := [];
    for i := 0 to |transactions|
      invariant unique ==> issues == FlatMap(ShapeCheck(ledger), transactions[..i])
    {
      var transaction := transactions[i];
      TakeOneMore(transactions, i);
      assert transaction.id in TransactionIds(transactions);
      FlatMapSnoc(ShapeCheck(ledger), transactions[..i], transaction);
      var found := CheckTransaction(transaction, Rows(byTransaction, transaction.id), ledger);
      issues := issues + found;
    }
    assert transactions[..|transactions|] == transactions;
  }

  // reconcileState. With equal creation times and equal ids the order of the
  // unstable sort is open; row ids are primary keys, so it is fixed.
  method ReconcileState(wallets: seq<Wallet>, transactions: seq<Transaction>, ledger: seq<LedgerEntry>)
    returns (report: Report)
    ensures DistinctIds(ledger) ==> report == ReportOf(wallets, transactions, ledger)
    ensures report.healthy <==> report.wallets == [] && report.transactions == [] && report.ledger == []
  {
    var walletsById: map<Id, Wallet> := map[];
    for i := 0 to |wallets|
      invariant walletsById.Keys == WalletIds(wallets[..i])
    {
      walletsById := walletsById[wallets[i].id := wallets[i]];
    }
    var transactionsById: map<Id, Transaction> := map[];
    for i := 0 to |transactions|
      invariant transactionsById.Keys == TransactionIds(transactions[..i])
    {
      transactionsById := transactionsById[transactions[i].id := transactions[i]];
    }
    assert wallets[..|wallets|] == wallets && transactions[..|transactions|] == transactions;

    var entryIssues, byWallet, byTransaction := IndexLedger(walletsById.Keys, transactionsById.Keys, ledger);
    var chainIssues, walletIssues := CheckWallets(wallets, ledger, byWallet);
    var transactionIssues := CheckTransactions(transactions, ledger, byTransaction);
    var ledgerIssues := entryIssues + chainIssues;

    var summary := Summary(|wallets|, |transactions|, |ledger|, |walletIssues|, |transactionIssues|, |ledgerIssues|,
                           |walletIssues| + |transactionIssues| + |ledgerIssues|);
    report := Report(summary.issueCount == 0, summary, walletIssues, transactionIssues, ledgerIssues);
  }
}
