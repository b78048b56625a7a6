// The repositories (internal/repository/gorm.go) over one database connection:
// tables updated in place, CHECK constraints, statements that may fail, rollback.
module Store {
  import opened Entities
  import opened Engine
  import Webhook

  datatype Statement =
    | Reserving | Getting | FindingWallet | LockingWallets
    | InsertingTransaction | SavingWallet(id: Id) | InsertingEntries | InsertingAudit
    | InsertingDelivery | Completing | Committing

  // Everything a transaction can change.
  datatype Snapshot = Snapshot(tables: Tables, deliveries: map<Id, Webhook.Delivery>)

  // ids in ascending order, as sort.Slice and ORDER BY id ASC leave them.
  function SortIds(ids: seq<Id>): seq<Id> {
    if ids == [] then [] else PlaceId(SortIds(ids[1..]), ids[0])
  }

  function PlaceId(s: seq<Id>, id: Id): seq<Id> {
    if s == [] || id <= s[0] then [id] + s else [s[0]] + PlaceId(s[1..], id)
  }

  ghost predicate Ascending(s: seq<Id>) {
    forall i, j :: 0 <= i < j < |s| ==> s[i] <= s[j]
  }

  lemma {:induction false} PlaceIdContents(s: seq<Id>, id: Id)
    ensures multiset(PlaceId(s, id)) == multiset(s) + multiset{id}
    ensures forall x :: x in PlaceId(s, id) <==> x in s || x == id
  {
    if s != [] && s[0] < id {
      assert s == [s[0]] + s[1..];
      PlaceIdContents(s[1..], id);
    }
  }

  lemma Prepend(x: Id, s: seq<Id>)
    requires Ascending(s) && forall y :: y in s ==> x <= y
    ensures Ascending([x] + s)
  {
    forall i, j | 0 <= i < j < |[x] + s| ensures ([x] + s)[i] <= ([x] + s)[j] {
      assert s[j - 1] in s;
    }
  }

  lemma {:induction false} PlaceIdAscending(s: seq<Id>, id: Id)
    requires Ascending(s)
    ensures Ascending(PlaceId(s, id))
  {
    if s == [] || id <= s[0] {
      Prepend(id, s);
    } else {
      PlaceIdAscending(s[1..], id);
      PlaceIdContents(s[1..], id);
      Prepend(s[0], PlaceId(s[1..], id));
    }
  }

  lemma {:induction false} SortIdsAscending(ids: seq<Id>)
    ensures Ascending(SortIds(ids)) && multiset(SortIds(ids)) == multiset(ids)
  {
    if ids != [] {
      assert ids == [ids[0]] + ids[1..];
      SortIdsAscending(ids[1..]);
      PlaceIdAscending(SortIds(ids[1..]), ids[0]);
      PlaceIdContents(SortIds(ids[1..]), ids[0]);
    }
  }

  // The rows that exist among ids, in the order of ids.
  function ExistingRows(wallets: map<Id, Wallet>, ids: seq<Id>): seq<Wallet> {
    if ids == [] then []
    else (if ids[0] in wallets then [wallets[ids[0]]] else []) + ExistingRows(wallets, ids[1..])
  }

  class Database {
    var wallets: map<Id, Wallet>
    var owner: map<Id, Id>
    var transactions: seq<Transaction>
    var ledger: seq<LedgerEntry>
    var records: map<IdemKey, Record>
    var deliveries: map<Id, Webhook.Delivery>
    // The statements that fail on this connection, for whatever reason; no operation
    // makes the same statement twice.
    var broken: set<Statement>

    function Contents(): Tables
      reads this
    {
      Tables(wallets, owner, transactions, ledger, records)
    }

    // Rows stand under their own keys.
    ghost predicate Keyed()
      reads this
    {
      (forall id :: id in wallets ==> wallets[id].id == id) && (forall k :: k in records ==> records[k].key == k)
    }

    // BEGIN.
    method Begin() returns (saved: Snapshot)
      ensures saved == Snapshot(Contents(), deliveries)
    {
      saved := Snapshot(Tables(wallets, owner, transactions, ledger, records), deliveries);
    }

    // ROLLBACK, as GormTransactionManager does on any error.
    method Rollback(saved: Snapshot)
      modifies this
      ensures Contents() == saved.tables && deliveries == saved.deliveries && broken == old(broken)
    {
      wallets, owner := saved.tables.wallets, saved.tables.owner;
      transactions, ledger := saved.tables.transactions, saved.tables.ledger;
      records := saved.tables.records;
      deliveries := saved.deliveries;
    }

    // INSERT ... ON CONFLICT DO NOTHING.
    method Reserve(record: Record) returns (ok: bool, inserted: bool)
      modifies this`records
      ensures ok <==> Reserving !in broken && RowOk(InsertRecord(record))
      ensures inserted <==> ok && record.key !in old(records)
      ensures records == if inserted then old(records)[record.key := record] else old(records)
    {
      ok := Reserving !in broken && record.status >= 0;
      inserted := ok && record.key !in records;
      if inserted {
        records := records[record.key := record];
      }
    }

    method Get(key: IdemKey) returns (found: Option<Record>)
      ensures found == if Getting !in broken && key in records then Some(records[key]) else None
    {
      found := None;
      if Getting !in broken && key in records {
        found := Some(records[key]);
      }
    }

    method GetByUserID(user: Id) returns (found: Option<Id>)
      ensures found == if FindingWallet !in broken && user in owner then Some(owner[user]) else None
    {
      found := None;
      if FindingWallet !in broken && user in owner {
        found := Some(owner[user]);
      }
    }

    // SELECT ... WHERE id IN ? ORDER BY id ASC FOR UPDATE.
    method LockByIDs(ids: seq<Id>) returns (ok: bool, rows: seq<Wallet>)
      ensures ok <==> LockingWallets !in broken
      ensures ok ==> rows == ExistingRows(wallets, SortIds(ids))
    {
      ok, rows := LockingWallets !in broken, [];
      if ok {
        var sorted := SortIds(ids);
        for i := 0 to |sorted|
          invariant rows + ExistingRows(wallets, sorted[i..]) == ExistingRows(wallets, sorted)
        {
          assert sorted[i..][1..] == sorted[i + 1..];
          if sorted[i] in wallets {
            rows := rows + [wallets[sorted[i]]];
          }
        }
        assert sorted[|sorted|..] == [];
      }
    }

    method CreateTransaction(t: Transaction) returns (ok: bool)
      modifies this`transactions
      ensures ok <==>
                && InsertingTransaction !in broken && t.amount > 0 && t.destination != None
                && ((t.kind == TopUp && t.source == None)
                    || (t.kind == Transfer && t.source != None && t.source != t.destination))
      ensures transactions == if ok then old(transactions) + [t] else old(transactions)
    {
      ok := InsertingTransaction !in broken && TransactionRowOk(t);
      if ok {
        transactions := transactions + [t];
      }
    }

    method UpdateWallet(w: Wallet) returns (ok: bool)
      modifies this`wallets
      ensures ok <==> SavingWallet(w.id) !in broken && w.balance >= 0 && w.status == Active
      ensures wallets == if ok then old(wallets)[w.id := w] else old(wallets)
    {
      ok := SavingWallet(w.id) !in broken && WalletRowOk(w);
      if ok {
        wallets := wallets[w.id := w];
      }
    }

    method CreateEntries(entries: seq<LedgerEntry>) returns (ok: bool)
      modifies this`ledger
      ensures ok <==>
                && InsertingEntries !in broken
                && forall e :: e in entries ==> e.kind in {Debit, Credit} && e.amount > 0
      ensures ledger == if ok then old(ledger) + entries else old(ledger)
    {
      ok := InsertingEntries !in broken && forall e :: e in entries ==> EntryRowOk(e);
      if ok {
        ledger := ledger + entries;
      }
    }

    method CreateAudit() returns (ok: bool)
      ensures ok <==> InsertingAudit !in broken
    {
      ok := InsertingAudit !in broken;
    }

    method CreateDelivery(d: Webhook.Delivery) returns (ok: bool)
      modifies this`deliveries
      ensures ok <==>
                && InsertingDelivery !in broken
                && 0 <= d.retryCount <= d.maxRetry && d.maxRetry > 0 && exists ch :: ch in d.targetUrl && ch != ' '
      ensures deliveries == if ok then old(deliveries)[d.id := d] else old(deliveries)
    {
      ok := InsertingDelivery !in broken && Webhook.DeliveryRowOk(d);
      if ok {
        deliveries := deliveries[d.id := d];
      }
    }

    // Save of an existing delivery.
    method SaveDelivery(d: Webhook.Delivery)
      modifies this`deliveries
      ensures deliveries == old(deliveries)[d.id := d]
    {
      deliveries := deliveries[d.id := d];
    }

    // UPDATE ... WHERE id = ?.
    method MarkCompleted(id: Id, status: int, body: Body) returns (ok: bool)
      modifies this`records
      ensures ok <==> Completing !in broken && status >= 0
      ensures records.Keys == old(records).Keys
      ensures forall k :: k in records ==>
                records[k] == if ok && old(records)[k].id == id then old(records)[k].(status := status, body := body)
                  else old(records)[k]
    {
      ok := Completing !in broken && status >= 0;
      if ok {
        records := map k | k in records ::
          if records[k].id == id then records[k].(status := status, body := body) else records[k];
      }
    }

    // COMMIT.
    method Commit() returns (ok: bool)
      ensures ok <==> Committing !in broken
    {
      ok := Committing !in broken;
    }
  }
}
