// Sequences of ledger entries: grouping, net amounts and the chronological order.
module Ledger {
  import opened Entities
  import opened Sequences

  // ---------- grouping ----------

  // The two columns the checker groups by.
  datatype Column = ByWallet | ByTransaction

  function ColumnOf(c: Column, e: LedgerEntry): Id {
    match c
    case ByWallet => e.walletId
    case ByTransaction => e.transactionId
  }

  // The entries whose column holds id, in the order of s.
  function Group(c: Column, id: Id, s: seq<LedgerEntry>): (g: seq<LedgerEntry>)
    ensures forall e :: e in g <==> e in s && ColumnOf(c, e) == id
  {
    if s == [] then []
    else
      var e := s[|s| - 1];
      Group(c, id, s[..|s| - 1]) + if ColumnOf(c, e) == id then [e] else []
  }

  lemma GroupSnoc(c: Column, id: Id, s: seq<LedgerEntry>, e: LedgerEntry)
    ensures Group(c, id, s + [e]) == Group(c, id, s) + if ColumnOf(c, e) == id then [e] else []
  {
    assert (s + [e])[..|s|] == s;
  }

  lemma {:induction false} GroupConcat(c: Column, id: Id, s: seq<LedgerEntry>, t: seq<LedgerEntry>)
    ensures Group(c, id, s + t) == Group(c, id, s) + Group(c, id, t)
  {
    if t == [] {
      assert s + t == s;
    } else {
      var t' := t[..|t| - 1];
      assert s + t == (s + t') + [t[|t| - 1]];
      GroupSnoc(c, id, s + t', t[|t| - 1]);
      GroupConcat(c, id, s, t');
    }
  }

  // Grouping counts every entry of the group as often as the whole table does.
  lemma {:induction false} GroupCounts(c: Column, id: Id, s: seq<LedgerEntry>, e: LedgerEntry)
    ensures multiset(Group(c, id, s))[e] == if ColumnOf(c, e) == id then multiset(s)[e] else 0
  {
    if s != [] {
      var s' := s[..|s| - 1];
      assert s == s' + [s[|s| - 1]];
      GroupCounts(c, id, s', e);
    }
  }

  lemma GroupPermutes(c: Column, id: Id, s: seq<LedgerEntry>, t: seq<LedgerEntry>)
    requires multiset(s) == multiset(t)
    ensures multiset(Group(c, id, s)) == multiset(Group(c, id, t))
  {
    forall e ensures multiset(Group(c, id, s))[e] == multiset(Group(c, id, t))[e] {
      GroupCounts(c, id, s, e);
      GroupCounts(c, id, t, e);
    }
  }

  // ---------- net amounts ----------

  // Credits minus debits, in mathematical integers.
  function Net(s: seq<LedgerEntry>): int {
    if s == [] then 0 else Net(s[..|s| - 1]) + Signed(s[|s| - 1])
  }

  lemma NetSnoc(s: seq<LedgerEntry>, e: LedgerEntry)
    ensures Net(s + [e]) == Net(s) + Signed(e)
  {
    assert (s + [e])[..|s|] == s;
  }

  lemma {:induction false} NetConcat(s: seq<LedgerEntry>, t: seq<LedgerEntry>)
    ensures Net(s + t) == Net(s) + Net(t)
  {
    if t == [] {
      assert s + t == s;
    } else {
      var t' := t[..|t| - 1];
      assert s + t == (s + t') + [t[|t| - 1]];
      NetSnoc(s + t', t[|t| - 1]);
      NetConcat(s, t');
    }
  }

  lemma {:induction false} NetPermutes(s: seq<LedgerEntry>, t: seq<LedgerEntry>)
    requires multiset(s) == multiset(t)
    ensures Net(s) == Net(t)
    decreases |s|
  {
    if s == [] {
      assert |multiset(t)| == 0;
    } else {
      var i := DropLast(s, t);
      var a, e, b := t[..i], t[i], t[i + 1..];
      NetPermutes(s[..|s| - 1], a + b);
      NetConcat(a, b);
      NetSnoc(a, e);
      NetConcat(a + [e], b);
    }
  }

  // The sum of the nets of the groups named by ids.
  function NetOfGroups(c: Column, ids: seq<Id>, s: seq<LedgerEntry>): int {
    if ids == [] then 0
    else NetOfGroups(c, ids[..|ids| - 1], s) + Net(Group(c, ids[|ids| - 1], s))
  }

  lemma {:induction false} NetOfGroupsSnoc(c: Column, ids: seq<Id>, s: seq<LedgerEntry>, e: LedgerEntry)
    requires NoRepeats(ids)
    ensures NetOfGroups(c, ids, s + [e]) == NetOfGroups(c, ids, s) + if ColumnOf(c, e) in ids then Signed(e) else 0
  {
    if ids != [] {
      var ids', last := ids[..|ids| - 1], ids[|ids| - 1];
      assert ids == ids' + [last];
      NetOfGroupsSnoc(c, ids', s, e);
      GroupSnoc(c, last, s, e);
      NetSnoc(Group(c, last, s), e);
      assert Group(c, last, s) + [] == Group(c, last, s);
    }
  }

  // Regrouping: when ids are distinct and cover every entry, the groups add up
  // to the whole, whichever column is used.
  lemma {:induction false} GroupsPartition(c: Column, ids: seq<Id>, s: seq<LedgerEntry>)
    requires NoRepeats(ids)
    requires forall e :: e in s ==> ColumnOf(c, e) in ids
    ensures NetOfGroups(c, ids, s) == Net(s)
  {
    if s == [] {
      NetOfGroupsEmpty(c, ids);
    } else {
      var s' := s[..|s| - 1];
      assert s == s' + [s[|s| - 1]];
      GroupsPartition(c, ids, s');
      NetOfGroupsSnoc(c, ids, s', s[|s| - 1]);
    }
  }

  lemma {:induction false} NetOfGroupsEmpty(c: Column, ids: seq<Id>)
    ensures NetOfGroups(c, ids, []) == 0
  {
    if ids != [] {
      NetOfGroupsEmpty(c, ids[..|ids| - 1]);
    }
  }

  // ---------- chronological order ----------

  // The comparator of sortLedgerEntries: creation time, then id.
  predicate Before(a: LedgerEntry, b: LedgerEntry) {
    if a.createdAt == b.createdAt then a.id < b.id else a.createdAt < b.createdAt
  }

  ghost predicate DistinctIds(s: seq<LedgerEntry>) {
    forall i, j :: 0 <= i < j < |s| ==> s[i].id != s[j].id
  }

  // No later entry precedes an earlier one.
  ghost predicate Ordered(s: seq<LedgerEntry>) {
    forall i, j :: 0 <= i < j < |s| ==> !Before(s[j], s[i])
  }

  function Insert(e: LedgerEntry, s: seq<LedgerEntry>): (r: seq<LedgerEntry>)
    ensures multiset(r) == multiset(s) + multiset{e}
  {
    if s == [] || !Before(e, s[|s| - 1]) then s + [e]
    else
      assert s == s[..|s| - 1] + [s[|s| - 1]];
      Insert(e, s[..|s| - 1]) + [s[|s| - 1]]
  }

  // The chronological arrangement of a set of entries.
  function History(s: seq<LedgerEntry>): (r: seq<LedgerEntry>)
    ensures multiset(r) == multiset(s) && |r| == |s|
  {
    if s == [] then []
    else
      assert s == s[..|s| - 1] + [s[|s| - 1]];
      var r := Insert(s[|s| - 1], History(s[..|s| - 1]));
      assert |multiset(r)| == |multiset(s)|;
      r
  }

  lemma {:induction false} InsertOrdered(e: LedgerEntry, s: seq<LedgerEntry>)
    requires Ordered(s)
    ensures Ordered(Insert(e, s))
  {
    if s != [] && Before(e, s[|s| - 1]) {
      var s', last := s[..|s| - 1], s[|s| - 1];
      InsertOrdered(e, s');
      forall x | x in Insert(e, s') ensures !Before(last, x) {
        assert x in multiset(Insert(e, s'));
        assert x == e || x in s';
      }
    }
  }

  lemma {:induction false} HistoryOrdered(s: seq<LedgerEntry>)
    ensures Ordered(History(s))
  {
    if s != [] {
      HistoryOrdered(s[..|s| - 1]);
      InsertOrdered(s[|s| - 1], History(s[..|s| - 1]));
    }
  }

  lemma DistinctIdsPermute(s: seq<LedgerEntry>, t: seq<LedgerEntry>)
    requires multiset(s) == multiset(t) && DistinctIds(s)
    ensures DistinctIds(t)
  {
    forall i, j | 0 <= i < j < |t| ensures t[i].id != t[j].id {
      assert t[i] in multiset(s) && t[j] in multiset(s);
      if t[i].id == t[j].id {
        assert t[i] == t[j];
        TwiceCounted(t, i, j);
        OnceCounted(s, t[i]);
      }
    }
  }

  lemma TwiceCounted(t: seq<LedgerEntry>, i: int, j: int)
    requires 0 <= i < j < |t| && t[i] == t[j]
    ensures multiset(t)[t[i]] >= 2
  {
    assert t == t[..i] + [t[i]] + t[i + 1..j] + [t[j]] + t[j + 1..];
  }

  lemma OnceCounted(s: seq<LedgerEntry>, e: LedgerEntry)
    requires DistinctIds(s) && e in s
    ensures multiset(s)[e] == 1
  {
    var i :| 0 <= i < |s| && s[i] == e;
    assert s == s[..i] + [e] + s[i + 1..];
    assert e !in s[..i] && e !in s[i + 1..];
  }

  // With distinct ids there is only one ordered arrangement, so an unstable
  // sort cannot change what the checker sees.
  lemma {:induction false} ArrangementUnique(s: seq<LedgerEntry>, t: seq<LedgerEntry>)
    requires multiset(s) == multiset(t)
    requires Ordered(s) && Ordered(t) && DistinctIds(s)
    ensures s == t
    decreases |s|
  {
    if s == [] {
      assert |multiset(t)| == 0;
    } else {
      LastIsLatest(s, t);
      var i := DropLast(s, t);
      var x := s[|s| - 1];
      assert |multiset(s)| == |s| && |multiset(t)| == |t|;
      assert i == |t| - 1 by {
        DistinctIdsPermute(s, t);
        assert t[i].id == t[|t| - 1].id;
      }
      assert t[..i] + t[i + 1..] == t[..i];
      ArrangementUnique(s[..|s| - 1], t[..i]);
      assert s == s[..|s| - 1] + [x] && t == t[..i] + [x];
    }
  }

  lemma LastIsLatest(s: seq<LedgerEntry>, t: seq<LedgerEntry>)
    requires multiset(s) == multiset(t) && s != [] && t != []
    requires Ordered(s) && Ordered(t) && DistinctIds(s)
    ensures s[|s| - 1] == t[|t| - 1]
  {
    var x, y := s[|s| - 1], t[|t| - 1];
    assert x in multiset(t) && y in multiset(s);
    var i :| 0 <= i < |s| && s[i] == y;
    var j :| 0 <= j < |t| && t[j] == x;
    assert x == y || (!Before(x, y) && !Before(y, x));
  }

  lemma HistoryUnique(s: seq<LedgerEntry>, t: seq<LedgerEntry>)
    requires multiset(s) == multiset(t) && DistinctIds(s) && Ordered(t)
    ensures History(s) == t
  {
    HistoryOrdered(s);
    DistinctIdsPermute(s, t);
    ArrangementUnique(t, History(s));
  }

  lemma {:induction false} GroupDistinct(c: Column, id: Id, s: seq<LedgerEntry>)
    requires DistinctIds(s)
    ensures DistinctIds(Group(c, id, s))
  {
    if s != [] {
      var s' := s[..|s| - 1];
      GroupDistinct(c, id, s');
      assert forall e :: e in s' ==> e.id != s[|s| - 1].id;
    }
  }

  // ---------- the in-place sort ----------

  // Sinks the entry at n into the ordered prefix before it.
  method SinkInto(a: array<LedgerEntry>, n: nat)
    requires n < a.Length
    modifies a
    ensures a[..] == Insert(old(a[n]), old(a[..n])) + old(a[n + 1..])
  {
    var j := n;
    var e := a[n];
    ghost var prefix, suffix := a[..n], a[n + 1..];
    while j > 0 && Before(e, a[j - 1])
      invariant 0 <= j <= n
      invariant a[..] == Sinking(e, prefix, j, suffix)
      invariant forall k :: j <= k < n ==> Before(e, prefix[k])
    {
      SinkingAt(e, prefix, j, suffix);
      assert a[..][j - 1] == prefix[j - 1];
      a[j - 1], a[j] := a[j], a[j - 1];
      j := j - 1;
    }
    if j > 0 {
      SinkingAt(e, prefix, j, suffix);
      assert a[..][j - 1] == prefix[j - 1];
    }
    InsertAt(e, prefix, j);
  }

  // The array while e sinks: e stands at j, the entries it passed follow it.
  ghost function Sinking(e: LedgerEntry, prefix: seq<LedgerEntry>, j: nat, suffix: seq<LedgerEntry>): seq<LedgerEntry>
    requires j <= |prefix|
  {
    prefix[..j] + [e] + prefix[j..] + suffix
  }

  lemma SinkingAt(e: LedgerEntry, prefix: seq<LedgerEntry>, j: nat, suffix: seq<LedgerEntry>)
    requires 0 < j <= |prefix|
    ensures var s := Sinking(e, prefix, j, suffix);
            && s[j - 1] == prefix[j - 1] && s[j] == e
            && s[j - 1 := e][j := prefix[j - 1]] == Sinking(e, prefix, j - 1, suffix)
  {
  }

  lemma {:induction false} InsertAt(e: LedgerEntry, s: seq<LedgerEntry>, j: nat)
    requires j <= |s|
    requires forall k :: j <= k < |s| ==> Before(e, s[k])
    requires j > 0 ==> !Before(e, s[j - 1])
    ensures Insert(e, s) == s[..j] + [e] + s[j..]
  {
    if j < |s| {
      InsertAt(e, s[..|s| - 1], j);
      CutBeforeLast(s, j);
      assert s[..j] + [e] + s[..|s| - 1][j..] + [s[|s| - 1]] == s[..j] + [e] + (s[..|s| - 1][j..] + [s[|s| - 1]]);
    } else {
      assert s[..j] == s && s[j..] == [];
    }
  }

  // sortLedgerEntries. sort.Slice is not stable, so only order and contents are
  // promised; ties are left open.
  method SortLedgerEntries(a: array<LedgerEntry>)
    modifies a
    ensures Ordered(a[..])
    ensures multiset(a[..]) == multiset(old(a[..]))
  {
    ghost var input := a[..];
    var i := 0;
    while i < a.Length
      invariant 0 <= i <= a.Length
      invariant a[..] == History(input[..i]) + input[i..]
    {
      SplitAt(a[..], History(input[..i]), input, i);
      SinkInto(a, i);
      i := i + 1;
    }
    assert input[..i] == input && a[..] == History(input);
    HistoryOrdered(input);
  }

  lemma SplitAt(s: seq<LedgerEntry>, sorted: seq<LedgerEntry>, input: seq<LedgerEntry>, i: nat)
    requires i < |input| && |sorted| == i && s == sorted + input[i..]
    ensures s[..i] == sorted && s[i] == input[i] && s[i + 1..] == input[i + 1..]
    ensures input[..i + 1][..i] == input[..i] && input[..i + 1][i] == input[i]
  {
  }
}
