// The in-memory fixed-window limiter (internal/pkg/ratelimit/limiter.go).
module RateLimit {
  import opened Entities

  datatype Result = Result(allowed: bool, count: int, limit: int, remaining: int, resetAt: Option<Time>)

  datatype Entry = Entry(count: int, resetAt: Time)

  datatype Call = Call(now: Time, key: string, limit: int, window: Time)

  function Max(value: int, fallback: int): int {
    if value > fallback then value else fallback
  }

  // ---------- one call ----------

  // A call opens a new window if there is none or the last one is over.
  predicate Opens(entries: map<string, Entry>, call: Call) {
    call.key !in entries || call.now > entries[call.key].resetAt
  }

  function Counted(entries: map<string, Entry>, call: Call): Entry {
    if Opens(entries, call) then Entry(1, call.now + call.window)
    else Entry(entries[call.key].count + 1, entries[call.key].resetAt)
  }

  function Step(entries: map<string, Entry>, call: Call): map<string, Entry> {
    if call.limit <= 0 then entries else entries[call.key := Counted(entries, call)]
  }

  function Answer(entries: map<string, Entry>, call: Call): Result {
    if call.limit <= 0 then Result(true, 0, call.limit, 0, None)
    else
      var e := Counted(entries, call);
      Result(e.count <= call.limit, e.count, call.limit, Max(call.limit - e.count, 0), Some(e.resetAt))
  }

  // remaining is what it says: within the window, the next call with the same
  // limit is admitted exactly if some were remaining, and then uses one up.
  lemma RemainingCountsDown(entries: map<string, Entry>, call: Call, next: Call)
    requires call.limit > 0 && next.key == call.key && next.limit == call.limit
    requires next.now <= Answer(entries, call).resetAt.value
    requires call.key in entries ==> entries[call.key].count >= 0
    ensures var now, later := Answer(entries, call), Answer(Step(entries, call), next);
            && (later.allowed <==> now.remaining > 0)
            && later.remaining == (if now.remaining > 0 then now.remaining - 1 else 0)
            && later.resetAt == now.resetAt
  {
  }

  class MemoryLimiter {
    var entries: map<string, Entry>

    constructor ()
      ensures entries == map[]
    {
      entries := map[];
    }

    // now is what nowFunc returns.
    method Allow(now: Time, key: string, limit: int, window: Time) returns (result: Result)
      modifies this
      ensures entries == Step(old(entries), Call(now, key, limit, window))
      ensures result == Answer(old(entries), Call(now, key, limit, window))
      ensures limit <= 0 ==> result == Result(true, 0, limit, 0, None) && entries == old(entries)
      ensures limit > 0 ==>
                && key in entries && entries.Keys == old(entries.Keys) + {key}
                && result.limit == limit && result.count == entries[key].count
                && result.resetAt == Some(entries[key].resetAt)
                && (result.allowed <==> result.count <= limit)
                && result.remaining == (if result.count < limit then limit - result.count else 0)
    {
      if limit <= 0 {
        return Result(true, 0, limit, 0, None);
      }
      var entry;
      if key !in entries || now > entries[key].resetAt {
        entry := Entry(0, now + window);
      } else {
        entry := entries[key];
      }
      entry := entry.(count := entry.count + 1);
      entries := entries[key := entry];
      result := Result(entry.count <= limit, entry.count, limit, Max(limit - entry.count, 0), Some(entry.resetAt));
    }
  }

  // ---------- histories ----------

  // The entries after a history of calls on any keys.
  function Entries(calls: seq<Call>): map<string, Entry> {
    if calls == [] then map[] else Step(Entries(calls[..|calls| - 1]), calls[|calls| - 1])
  }

  // The answer the last call gets.
  function LastAnswer(calls: seq<Call>): Result
    requires calls != []
  {
    Answer(Entries(calls[..|calls| - 1]), calls[|calls| - 1])
  }

  // The calls on key between times a and b that are admitted.
  function Admitted(calls: seq<Call>, key: string, a: Time, b: Time): nat {
    if calls == [] then 0
    else
      var last := calls[|calls| - 1];
      Admitted(calls[..|calls| - 1], key, a, b)
      + if last.key == key && a <= last.now <= b && LastAnswer(calls).allowed then 1 else 0
  }

  // The calls on key that are admitted in the window that ends at resetAt.
  function AdmittedInWindow(calls: seq<Call>, key: string, resetAt: Time): nat {
    if calls == [] then 0
    else
      var last := calls[|calls| - 1];
      AdmittedInWindow(calls[..|calls| - 1], key, resetAt)
      + if last.key == key && LastAnswer(calls).resetAt == Some(resetAt) && LastAnswer(calls).allowed then 1 else 0
  }

  // The clock never goes back, and key always comes with the same limit and window.
  ghost predicate Regular(calls: seq<Call>, key: string, limit: int, window: Time) {
    (forall i, j :: 0 <= i < j < |calls| ==> calls[i].now <= calls[j].now)
    && (forall i :: 0 <= i < |calls| && calls[i].key == key ==> calls[i].limit == limit && calls[i].window == window)
  }

  lemma RegularPrefix(calls: seq<Call>, key: string, limit: int, window: Time)
    requires Regular(calls, key, limit, window) && calls != []
    ensures Regular(calls[..|calls| - 1], key, limit, window)
  {
  }

  // ---------- what the entry of a key says about its history ----------

  function Least(a: int, b: int): int {
    if a < b then a else b
  }

  // No call on key yet.
  ghost predicate Untouched(calls: seq<Call>, key: string) {
    (forall i :: 0 <= i < |calls| ==> calls[i].key != key)
    && (forall a, b :: Admitted(calls, key, a, b) == 0)
    && (forall r :: AdmittedInWindow(calls, key, r) == 0)
  }

  // The calls on key lie before the end of its current window, which has begun.
  ghost predicate InTime(calls: seq<Call>, key: string, window: Time, e: Entry) {
    e.count >= 1 && calls != [] && e.resetAt - window <= calls[|calls| - 1].now
    && (forall i :: 0 <= i < |calls| && calls[i].key == key ==> calls[i].now <= e.resetAt)
  }

  // Since its start the current window has admitted what it counted, up to the
  // limit, the call that opened it first; in the interval before it, less than
  // the limit was admitted.
  ghost predicate Spread(calls: seq<Call>, key: string, limit: int, window: Time, e: Entry) {
    var start := e.resetAt - window;
    (forall a, b :: a >= start ==> Admitted(calls, key, a, b) <= Least(e.count, limit))
    && (forall a, b :: a > start ==> Admitted(calls, key, a, b) <= Least(e.count, limit) - 1)
    && (forall a, b :: start - window <= a && b < start ==> Admitted(calls, key, a, b) <= limit - 1)
  }

  ghost predicate Bounded(calls: seq<Call>, key: string, limit: int, window: Time) {
    forall a, b :: b - a <= window ==> Admitted(calls, key, a, b) <= 2 * limit - 1
  }

  ghost predicate WindowsBounded(calls: seq<Call>, key: string, limit: int, e: Entry) {
    AdmittedInWindow(calls, key, e.resetAt) == Least(e.count, limit)
    && (forall r :: AdmittedInWindow(calls, key, r) <= limit)
    && (forall r :: r > e.resetAt ==> AdmittedInWindow(calls, key, r) == 0)
  }

  lemma {:induction false} Split(calls: seq<Call>, key: string, a: Time, m: Time, b: Time)
    requires a <= m <= b + 1
    ensures Admitted(calls, key, a, b) == Admitted(calls, key, a, m - 1) + Admitted(calls, key, m, b)
  {
    if calls != [] {
      Split(calls[..|calls| - 1], key, a, m, b);
    }
  }

  lemma {:induction false} NothingLater(calls: seq<Call>, key: string, a: Time, b: Time)
    requires forall i :: 0 <= i < |calls| && calls[i].key == key ==> calls[i].now < a
    ensures Admitted(calls, key, a, b) == 0
  {
    if calls != [] {
      NothingLater(calls[..|calls| - 1], key, a, b);
    }
  }

  lemma AdmittedSnoc(calls: seq<Call>, call: Call, key: string, a: Time, b: Time)
    ensures Admitted(calls + [call], key, a, b)
            == Admitted(calls, key, a, b) + if call.key == key && a <= call.now <= b
              && Answer(Entries(calls), call).allowed then 1 else 0
    ensures Entries(calls + [call]) == Step(Entries(calls), call)
  {
    assert (calls + [call])[..|calls|] == calls;
  }

  lemma AdmittedInWindowSnoc(calls: seq<Call>, call: Call, key: string, r: Time)
    ensures AdmittedInWindow(calls + [call], key, r)
            == AdmittedInWindow(calls, key, r)
               + if call.key == key && Answer(Entries(calls), call).resetAt == Some(r)
                 && Answer(Entries(calls), call).allowed then 1 else 0
  {
    assert (calls + [call])[..|calls|] == calls;
  }

  // Another call counted in the current window.
  lemma SameWindowSpread(calls: seq<Call>, call: Call, limit: int, window: Time, e: Entry)
    requires Spread(calls, call.key, limit, window, e) && InTime(calls, call.key, window, e) && limit > 0
    requires call.limit == limit && call.key in Entries(calls) && Entries(calls)[call.key] == e
             && !Opens(Entries(calls), call)
    requires call.now >= calls[|calls| - 1].now
    ensures Spread(calls + [call], call.key, limit, window, e.(count := e.count + 1))
  {
    forall a, b {
      AdmittedSnoc(calls, call, call.key, a, b);
    }
  }

  lemma SameWindowBounded(calls: seq<Call>, call: Call, limit: int, window: Time, e: Entry)
    requires Spread(calls, call.key, limit, window, e) && Bounded(calls, call.key, limit, window) && limit > 0
    requires Spread(calls + [call], call.key, limit, window, e.(count := e.count + 1))
    requires call.now >= e.resetAt - window
    ensures Bounded(calls + [call], call.key, limit, window)
  {
    var start := e.resetAt - window;
    forall a, b | b - a <= window ensures Admitted(calls + [call], call.key, a, b) <= 2 * limit - 1 {
      AdmittedSnoc(calls, call, call.key, a, b);
      if a < start <= b {
        Split(calls + [call], call.key, a, start, b);
        AdmittedSnoc(calls, call, call.key, a, start - 1);
      }
    }
  }

  // The first call of a new window.
  lemma NewWindowSpread(calls: seq<Call>, call: Call, limit: int, window: Time, e: Entry)
    requires Spread(calls, call.key, limit, window, e) && InTime(calls, call.key, window, e) && limit > 0 && window >= 0
    requires call.limit == limit && call.window == window && call.now > e.resetAt
    ensures Spread(calls + [call], call.key, limit, window, Entry(1, call.now + window))
  {
    forall a, b ensures a >= call.now ==> Admitted(calls, call.key, a, b) == 0 {
      if a >= call.now {
        NothingLater(calls, call.key, a, b);
      }
    }
    forall a, b {
      AdmittedSnoc(calls, call, call.key, a, b);
    }
  }

  lemma NewWindowBounded(calls: seq<Call>, call: Call, limit: int, window: Time, e: Entry)
    requires Spread(calls, call.key, limit, window, e) && Bounded(calls, call.key, limit, window) && limit > 0
    requires call.now > e.resetAt
    ensures Bounded(calls + [call], call.key, limit, window)
  {
    forall a, b | b - a <= window ensures Admitted(calls + [call], call.key, a, b) <= 2 * limit - 1 {
      AdmittedSnoc(calls, call, call.key, a, b);
    }
  }

  lemma CountedWindows(calls: seq<Call>, call: Call, limit: int, e: Entry)
    requires WindowsBounded(calls, call.key, limit, e) && limit > 0 && call.limit == limit && e.count >= 1
    requires call.key in Entries(calls) && Entries(calls)[call.key] == e
    requires Opens(Entries(calls), call) ==> call.now + call.window > e.resetAt
    ensures WindowsBounded(calls + [call], call.key, limit, Counted(Entries(calls), call))
  {
    forall r {
      AdmittedInWindowSnoc(calls, call, call.key, r);
    }
  }

  lemma FirstWindow(calls: seq<Call>, call: Call, limit: int, window: Time)
    requires Untouched(calls, call.key) && call.key !in Entries(calls)
    requires limit > 0 && window >= 0 && call.limit == limit && call.window == window
    ensures var e := Entry(1, call.now + window);
            InTime(calls + [call], call.key, window, e) && Spread(calls + [call], call.key, limit, window, e)
            && Bounded(calls + [call], call.key, limit, window) && WindowsBounded(calls + [call], call.key, limit, e)
  {
    forall a, b {
      AdmittedSnoc(calls, call, call.key, a, b);
    }
    forall r {
      AdmittedInWindowSnoc(calls, call, call.key, r);
    }
  }

  // A call on another key changes nothing for this one.
  lemma OtherKey(calls: seq<Call>, call: Call, key: string, limit: int, window: Time)
    requires call.key != key
    ensures forall a, b :: Admitted(calls + [call], key, a, b) == Admitted(calls, key, a, b)
    ensures forall r :: AdmittedInWindow(calls + [call], key, r) == AdmittedInWindow(calls, key, r)
    ensures key in Entries(calls + [call]) <==> key in Entries(calls)
    ensures key in Entries(calls) ==> Entries(calls + [call])[key] == Entries(calls)[key]
  {
    forall a, b {
      AdmittedSnoc(calls, call, key, a, b);
    }
    forall r {
      AdmittedInWindowSnoc(calls, call, key, r);
    }
  }

  // What the limiter remembers of key describes its whole history.
  ghost predicate Described(calls: seq<Call>, key: string, limit: int, window: Time) {
    if key in Entries(calls) then
      var e := Entries(calls)[key];
      InTime(calls, key, window, e) && Spread(calls, key, limit, window, e)
      && Bounded(calls, key, limit, window) && WindowsBounded(calls, key, limit, e)
    else Untouched(calls, key)
  }

  lemma DescribedSnoc(calls: seq<Call>, call: Call, limit: int, window: Time)
    requires Described(calls, call.key, limit, window) && limit > 0 && window >= 0
    requires call.limit == limit && call.window == window
    requires calls != [] ==> call.now >= calls[|calls| - 1].now
    ensures Described(calls + [call], call.key, limit, window)
  {
    AdmittedSnoc(calls, call, call.key, 0, 0);
    if call.key !in Entries(calls) {
      FirstWindow(calls, call, limit, window);
    } else {
      var e := Entries(calls)[call.key];
      CountedWindows(calls, call, limit, e);
      if Opens(Entries(calls), call) {
        NewWindowSpread(calls, call, limit, window, e);
        NewWindowBounded(calls, call, limit, window, e);
      } else {
        SameWindowSpread(calls, call, limit, window, e);
        SameWindowBounded(calls, call, limit, window, e);
      }
    }
  }

  lemma DescribedOther(calls: seq<Call>, call: Call, key: string, limit: int, window: Time)
    requires Described(calls, key, limit, window) && call.key != key
    requires calls != [] ==> call.now >= calls[|calls| - 1].now
    ensures Described(calls + [call], key, limit, window)
  {
    OtherKey(calls, call, key, limit, window);
  }

  lemma {:induction false} AlwaysDescribed(calls: seq<Call>, key: string, limit: int, window: Time)
    requires Regular(calls, key, limit, window) && limit > 0 && window >= 0
    ensures Described(calls, key, limit, window)
  {
    if calls != [] {
      var n := |calls| - 1;
      assert calls == calls[..n] + [calls[n]];
      RegularPrefix(calls, key, limit, window);
      AlwaysDescribed(calls[..n], key, limit, window);
      if calls[n].key == key {
        DescribedSnoc(calls[..n], calls[n], limit, window);
      } else {
        DescribedOther(calls[..n], calls[n], key, limit, window);
      }
    }
  }

  // For any history of calls on any keys: each window of a key admits at most
  // limit calls, and any interval as long as a window admits fewer than twice
  // the limit.
  lemma RateBound(calls: seq<Call>, key: string, limit: int, window: Time, a: Time, r: Time)
    requires Regular(calls, key, limit, window) && limit > 0 && window >= 0
    ensures AdmittedInWindow(calls, key, r) <= limit
    ensures Admitted(calls, key, a, a + window) <= 2 * limit - 1
  {
    AlwaysDescribed(calls, key, limit, window);
  }

  // The current window has admitted exactly what it counted, up to the limit.
  lemma WindowFills(calls: seq<Call>, key: string, limit: int, window: Time)
    requires Regular(calls, key, limit, window) && limit > 0 && window >= 0 && key in Entries(calls)
    ensures var e := Entries(calls)[key]; AdmittedInWindow(calls, key, e.resetAt) == Least(e.count, limit)
  {
    AlwaysDescribed(calls, key, limit, window);
  }

  // ---------- what a call is told ----------

  // All the calls on key between times a and b.
  function CallsBetween(calls: seq<Call>, key: string, a: Time, b: Time): nat {
    if calls == [] then 0
    else
      var last := calls[|calls| - 1];
      CallsBetween(calls[..|calls| - 1], key, a, b) + if last.key == key && a <= last.now <= b then 1 else 0
  }

  lemma CallsSnoc(calls: seq<Call>, call: Call, key: string, a: Time, b: Time)
    ensures CallsBetween(calls + [call], key, a, b)
            == CallsBetween(calls, key, a, b) + if call.key == key && a <= call.now <= b then 1 else 0
  {
    assert (calls + [call])[..|calls|] == calls;
  }

  // A limit of zero or less switches limiting off: whatever was called before, on
  // any keys and with any limits, the call is admitted and leaves no trace.
  lemma LimitOff(calls: seq<Call>, call: Call)
    requires call.limit <= 0
    ensures LastAnswer(calls + [call]) == Result(true, 0, call.limit, 0, None)
    ensures Entries(calls + [call]) == Entries(calls)
  {
    assert (calls + [call])[..|calls|] == calls;
  }

  // So on a key without a limit every call is admitted.
  lemma {:induction false} AllAdmitted(calls: seq<Call>, key: string, a: Time, b: Time)
    requires forall i :: 0 <= i < |calls| && calls[i].key == key ==> calls[i].limit <= 0
    ensures Admitted(calls, key, a, b) == CallsBetween(calls, key, a, b)
    ensures key !in Entries(calls)
  {
    if calls != [] {
      var n := |calls| - 1;
      assert calls == calls[..n] + [calls[n]];
      AllAdmitted(calls[..n], key, a, b);
      AdmittedSnoc(calls[..n], calls[n], key, a, b);
      CallsSnoc(calls[..n], calls[n], key, a, b);
    }
  }

  // ---- one call after another, whatever their limits and windows ----

  // No call from the i-th on counts on key.
  ghost predicate NoneCounts(calls: seq<Call>, i: nat, key: string) {
    forall k :: i <= k < |calls| && calls[k].key == key ==> calls[k].limit <= 0
  }

  // The entry of a key is what the last call that counted was told.
  lemma {:induction false} EntryIsLastAnswer(calls: seq<Call>, i: nat)
    requires i < |calls| && calls[i].limit > 0 && NoneCounts(calls, i + 1, calls[i].key)
    ensures var a := LastAnswer(calls[..i + 1]);
            a.resetAt.Some? && calls[i].key in Entries(calls)
            && Entries(calls)[calls[i].key] == Entry(a.count, a.resetAt.value)
  {
    var n := |calls| - 1;
    assert calls[..n + 1] == calls;
    assert calls[..i + 1][..i] == calls[..i];
    if i < n {
      assert calls[..n][..i + 1] == calls[..i + 1];
      EntryIsLastAnswer(calls[..n], i);
    }
  }

  lemma {:induction false} NoEntryYet(calls: seq<Call>, key: string)
    requires NoneCounts(calls, 0, key)
    ensures key !in Entries(calls)
  {
    if calls != [] {
      NoEntryYet(calls[..|calls| - 1], key);
    }
  }

  // What a call is told, given the count and the end of its window.
  predicate Told(a: Result, call: Call, count: int, resetAt: Time) {
    a.count == count && a.resetAt == Some(resetAt) && a.limit == call.limit
    && (a.allowed <==> count <= call.limit) && a.remaining == (if count < call.limit then call.limit - count else 0)
  }

  // Up to the end of the window that the last counting call on the key was told, a
  // call is one more in this window; after that, or if none has counted, it is the
  // first of a window that ends one window length later.
  lemma NextAnswer(calls: seq<Call>, i: nat, call: Call)
    requires i < |calls| && calls[i].limit > 0 && NoneCounts(calls, i + 1, calls[i].key)
    requires call.key == calls[i].key && call.limit > 0
    ensures var a, b := LastAnswer(calls[..i + 1]), LastAnswer(calls + [call]);
            a.resetAt.Some? && if call.now <= a.resetAt.value then Told(b, call, a.count + 1, a.resetAt.value)
                               else Told(b, call, 1, call.now + call.window)
  {
    EntryIsLastAnswer(calls, i);
    assert (calls + [call])[..|calls|] == calls;
  }

  lemma FirstAnswer(calls: seq<Call>, call: Call)
    requires NoneCounts(calls, 0, call.key) && call.limit > 0
    ensures Told(LastAnswer(calls + [call]), call, 1, call.now + call.window)
  {
    NoEntryYet(calls, call.key);
    assert (calls + [call])[..|calls|] == calls;
  }

  // ---- the count ----

  // A call on key came at this time.
  ghost predicate CalledAt(calls: seq<Call>, key: string, start: Time) {
    exists i :: 0 <= i < |calls| && calls[i].key == key && calls[i].now == start
  }

  // The entry of key counts the calls since its window began, with one of them.
  ghost predicate Counts(calls: seq<Call>, key: string, window: Time, e: Entry) {
    e.count == CallsBetween(calls, key, e.resetAt - window, e.resetAt) && CalledAt(calls, key, e.resetAt - window)
  }

  // The calls on key came before a.
  ghost predicate AllBefore(calls: seq<Call>, key: string, a: Time) {
    forall i :: 0 <= i < |calls| && calls[i].key == key ==> calls[i].now < a
  }

  lemma {:induction false} NoCallsYet(calls: seq<Call>, key: string, a: Time, b: Time)
    requires AllBefore(calls, key, a)
    ensures CallsBetween(calls, key, a, b) == 0
  {
    if calls != [] {
      NoCallsYet(calls[..|calls| - 1], key, a, b);
    }
  }

  lemma CalledStill(calls: seq<Call>, call: Call, key: string, start: Time)
    ensures CalledAt(calls + [call], key, start) <==>
            CalledAt(calls, key, start) || (call.key == key && call.now == start)
  {
    if CalledAt(calls, key, start) {
      var i :| 0 <= i < |calls| && calls[i].key == key && calls[i].now == start;
      assert (calls + [call])[i] == calls[i];
    }
    assert (calls + [call])[|calls|] == call;
  }

  // A call on key that opens a window, or counts in the one that is open.
  lemma OpeningCounts(calls: seq<Call>, call: Call)
    requires AllBefore(calls, call.key, call.now) && call.window >= 0
    ensures Counts(calls + [call], call.key, call.window, Entry(1, call.now + call.window))
  {
    var start, end := call.now, call.now + call.window;
    NoCallsYet(calls, call.key, start, end);
    CallsSnoc(calls, call, call.key, start, end);
    CalledStill(calls, call, call.key, start);
  }

  lemma JoiningCounts(calls: seq<Call>, call: Call, e: Entry)
    requires Counts(calls, call.key, call.window, e) && call.now <= e.resetAt
    requires AllBefore(calls, call.key, call.now + 1)
    ensures Counts(calls + [call], call.key, call.window, e.(count := e.count + 1))
  {
    var start := e.resetAt - call.window;
    CalledInWindow(calls, call, call.key, start);
    CallsSnoc(calls, call, call.key, start, e.resetAt);
    CalledStill(calls, call, call.key, start);
  }

  lemma OtherCounts(calls: seq<Call>, call: Call, key: string, window: Time, e: Entry)
    requires Counts(calls, key, window, e) && call.key != key
    ensures Counts(calls + [call], key, window, e)
  {
    CallsSnoc(calls, call, key, e.resetAt - window, e.resetAt);
    CalledStill(calls, call, key, e.resetAt - window);
  }

  // What holds of the entry before a call holds of it after the call.
  lemma CountedCall(calls: seq<Call>, call: Call, key: string, window: Time)
    requires window >= 0 && (call.key == key ==> call.limit > 0 && call.window == window)
    requires key in Entries(calls) ==> Counts(calls, key, window, Entries(calls)[key])
    requires AllBefore(calls, key, call.now + 1)
    requires call.key == key && Opens(Entries(calls), call) ==> AllBefore(calls, key, call.now)
    ensures var m := Entries(calls + [call]); key in m ==> Counts(calls + [call], key, window, m[key])
  {
    AdmittedSnoc(calls, call, key, 0, 0);
    if call.key != key {
      if key in Entries(calls) {
        OtherCounts(calls, call, key, window, Entries(calls)[key]);
      }
    } else if Opens(Entries(calls), call) {
      OpeningCounts(calls, call);
    } else {
      JoiningCounts(calls, call, Entries(calls)[key]);
    }
  }

  lemma CalledInWindow(calls: seq<Call>, call: Call, key: string, start: Time)
    requires CalledAt(calls, key, start) && AllBefore(calls, key, call.now + 1)
    ensures start <= call.now
  {
  }

  lemma {:induction false} AlwaysCounts(calls: seq<Call>, key: string, limit: int, window: Time)
    requires Regular(calls, key, limit, window) && limit > 0 && window >= 0
    ensures key in Entries(calls) ==> Counts(calls, key, window, Entries(calls)[key])
  {
    if calls != [] {
      var n := |calls| - 1;
      assert calls == calls[..n] + [calls[n]];
      RegularPrefix(calls, key, limit, window);
      AlwaysCounts(calls[..n], key, limit, window);
      AlwaysDescribed(calls[..n], key, limit, window);
      assert AllBefore(calls[..n], key, calls[n].now + 1);
      if calls[n].key == key && Opens(Entries(calls[..n]), calls[n]) {
        assert AllBefore(calls[..n], key, calls[n].now);
      }
      CountedCall(calls[..n], calls[n], key, window);
    }
  }

  // For any history the last call on a key is told its limit, the end of the
  // current window, which a call on the key began one window before, the number of
  // calls on the key in this window, itself included, and how many are left of the
  // limit; it is admitted exactly if it is within the limit.
  lemma AnswersCount(calls: seq<Call>, key: string, limit: int, window: Time)
    requires Regular(calls, key, limit, window) && limit > 0 && window >= 0
    requires calls != [] && calls[|calls| - 1].key == key
    ensures var now, a := calls[|calls| - 1].now, LastAnswer(calls);
            && a.limit == limit && a.resetAt.Some? && now <= a.resetAt.value <= now + window
            && CalledAt(calls, key, a.resetAt.value - window)
            && a.count == CallsBetween(calls, key, a.resetAt.value - window, now)
            && (a.allowed <==> a.count <= limit)
            && a.remaining == (if a.count < limit then limit - a.count else 0)
  {
    AlwaysCounts(calls, key, limit, window);
    AlwaysDescribed(calls, key, limit, window);
    var e := Entries(calls)[key];
    LaterNone(calls, key, e.resetAt - window, calls[|calls| - 1].now, e.resetAt);
    CalledInWindow(calls, calls[|calls| - 1], key, e.resetAt - window);
  }

  // No call comes after the last one.
  lemma {:induction false} LaterNone(calls: seq<Call>, key: string, a: Time, now: Time, b: Time)
    requires now <= b && forall i :: 0 <= i < |calls| ==> calls[i].now <= now
    ensures CallsBetween(calls, key, a, b) == CallsBetween(calls, key, a, now)
  {
    if calls != [] {
      LaterNone(calls[..|calls| - 1], key, a, now, b);
    }
  }

  // ---------- the bound is reached ----------

  // One call opens a window, limit - 1 follow at its very end, limit more at the
  // start of the next.
  function PatternCall(key: string, limit: int, window: Time, i: nat): Call {
    Call(if i == 0 then 0 else if i < limit then window else window + 1, key, limit, window)
  }

  // After n calls of the pattern all but the first count in the interval.
  ghost predicate PatternState(calls: seq<Call>, key: string, limit: int, window: Time, n: nat) {
    key in Entries(calls)
    && Entries(calls)[key] == (if n <= limit then Entry(n, window) else Entry(n - limit, 2 * window + 1))
    && Admitted(calls, key, 1, 1 + window) == n - 1
  }

  lemma PatternStarts(key: string, limit: int, window: Time)
    requires window >= 1 && limit >= 1
    ensures PatternState([] + [PatternCall(key, limit, window, 0)], key, limit, window, 1)
  {
    AdmittedSnoc([], PatternCall(key, limit, window, 0), key, 1, 1 + window);
  }

  lemma PatternContinues(calls: seq<Call>, key: string, limit: int, window: Time, n: nat)
    requires window >= 1 && 1 <= n < 2 * limit && PatternState(calls, key, limit, window, n)
    ensures PatternState(calls + [PatternCall(key, limit, window, n)], key, limit, window, n + 1)
  {
    AdmittedSnoc(calls, PatternCall(key, limit, window, n), key, 1, 1 + window);
  }

  lemma {:induction false} PatternAdmits(key: string, limit: int, window: Time, n: nat) returns (calls: seq<Call>)
    requires window >= 1 && 1 <= n <= 2 * limit
    ensures PatternState(calls, key, limit, window, n)
    ensures |calls| == n && forall i :: 0 <= i < n ==> calls[i] == PatternCall(key, limit, window, i)
  {
    if n == 1 {
      PatternStarts(key, limit, window);
      calls := [] + [PatternCall(key, limit, window, 0)];
    } else {
      calls := PatternAdmits(key, limit, window, n - 1);
      PatternContinues(calls, key, limit, window, n - 1);
      calls := calls + [PatternCall(key, limit, window, n - 1)];
    }
  }

  // No smaller bound holds for all histories.
  lemma BoundIsReached(key: string, limit: int, window: Time) returns (calls: seq<Call>)
    requires limit > 0 && window >= 1
    ensures Regular(calls, key, limit, window)
    ensures Admitted(calls, key, 1, 1 + window) == 2 * limit - 1
  {
    calls := PatternAdmits(key, limit, window, 2 * limit);
  }
}
