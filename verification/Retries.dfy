// Every delivery finishes: each scan spends the retry budget of the deliveries
// it finds due.
module Retries {
  import opened Entities
  import opened Sequences
  import opened Totals
  import opened Webhook

  // ---------- the budget ----------

  function RemainingUpTo(t: Time): Delivery -> nat {
    (d: Delivery) => if d.createdAt <= t then Remaining(d) else 0
  }

  // The attempts that the deliveries created up to t can still make.
  ghost function Budget(m: map<Id, Delivery>, t: Time): nat {
    Total(m, RemainingUpTo(t))
  }

  ghost predicate FinishedUpTo(m: map<Id, Delivery>, t: Time) {
    forall id :: id in m && m[id].createdAt <= t ==> Terminal(m[id])
  }

  lemma NoBudgetMeansFinished(m: map<Id, Delivery>, t: Time)
    requires RowsOk(m) && Budget(m, t) == 0
    ensures FinishedUpTo(m, t)
  {
    forall id | id in m && m[id].createdAt <= t ensures Terminal(m[id]) {
      TotalAbove(m, RemainingUpTo(t), id);
    }
  }

  lemma {:induction false} FinishedMeansNoBudget(m: map<Id, Delivery>, t: Time)
    requires FinishedUpTo(m, t)
    ensures Budget(m, t) == 0
    decreases |m|
  {
    if m != map[] {
      var id :| id in m;
      TotalSplit(m, RemainingUpTo(t), id);
      FinishedMeansNoBudget(m - {id}, t);
    }
  }

  // A delivery created after t adds nothing.
  lemma LaterDeliveryIsFree(m: map<Id, Delivery>, d: Delivery, t: Time)
    requires d.id !in m && d.createdAt > t
    ensures Budget(m[d.id := d], t) == Budget(m, t)
  {
    TotalSplit(m[d.id := d], RemainingUpTo(t), d.id);
    assert m[d.id := d] - {d.id} == m;
  }

  // ---------- one turn ----------

  ghost predicate AllSaved(replies: seq<Reply>) {
    forall i :: 0 <= i < |replies| ==> replies[i].read && replies[i].saved
  }

  // The attempt on id is saved, and counts for t.
  predicate Counts(o: Outbox, id: Id, reply: Reply, t: Time) {
    Attempted(o, id, reply) && reply.saved && o.deliveries[id].createdAt <= t
  }

  // The attempts of a batch that count for t, given that it names no row twice.
  function Counting(o: Outbox, batch: seq<Id>, replies: seq<Reply>, t: Time): nat
    requires |batch| == |replies|
  {
    if batch == [] then 0
    else
      var n := |batch| - 1;
      Counting(o, batch[..n], replies[..n], t) + if Counts(o, batch[n], replies[n], t) then 1 else 0
  }

  lemma {:induction false} SomeCounts(o: Outbox, batch: seq<Id>, replies: seq<Reply>, t: Time, i: nat)
    requires |batch| == |replies| && i < |batch| && Counts(o, batch[i], replies[i], t)
    ensures Counting(o, batch, replies, t) >= 1
  {
    var n := |batch| - 1;
    if i < n {
      SomeCounts(o, batch[..n], replies[..n], t, i);
    }
  }

  // When all is saved and t is late enough, the whole batch counts.
  lemma {:induction false} AllCount(o: Outbox, batch: seq<Id>, replies: seq<Reply>, t: Time)
    requires |batch| == |replies| && forall i :: 0 <= i < |batch| ==> Counts(o, batch[i], replies[i], t)
    ensures Counting(o, batch, replies, t) == |batch|
  {
    if batch != [] {
      AllCount(o, batch[..|batch| - 1], replies[..|batch| - 1], t);
    }
  }

  // No attempt adds to the budget; one that counts spends from it.
  lemma ProcessSpends(c: Config, o: Outbox, id: Id, reply: Reply, t: Time)
    requires OutboxOk(c, o)
    ensures Budget(Process(c, o, id, reply).deliveries, t) + (if Counts(o, id, reply, t) then 1 else 0)
            <= Budget(o.deliveries, t)
  {
    if Attempted(o, id, reply) && reply.saved {
      AttemptOk(c, o.deliveries[id], reply.answer, reply.now);
      TotalUpdate(o.deliveries, RemainingUpTo(t), id, Attempt(c, o.deliveries[id], reply.answer, reply.now));
    }
  }

  // A batch leaves every other delivery alone.
  lemma {:induction false} ProcessAllElsewhere(c: Config, o: Outbox, batch: seq<Id>, replies: seq<Reply>, id: Id)
    requires |batch| == |replies| && id !in batch && id in o.deliveries
    ensures id in ProcessAll(c, o, batch, replies).deliveries
    ensures ProcessAll(c, o, batch, replies).deliveries[id] == o.deliveries[id]
  {
    if batch != [] {
      Unsnoc(batch);
      ProcessAllElsewhere(c, o, batch[..|batch| - 1], replies[..|batch| - 1], id);
    }
  }

  // A scan spends one unit for each of its attempts that counts.
  lemma {:induction false} ScanSpends(c: Config, o: Outbox, batch: seq<Id>, replies: seq<Reply>, t: Time)
    requires OutboxOk(c, o) && |batch| == |replies| && NoRepeats(batch)
    requires forall id :: id in batch ==> id in o.deliveries
    ensures Budget(ProcessAll(c, o, batch, replies).deliveries, t) + Counting(o, batch, replies, t)
            <= Budget(o.deliveries, t)
  {
    if batch != [] {
      var n := |batch| - 1;
      ScanSpends(c, o, batch[..n], replies[..n], t);
      ProcessAllKeepsOk(c, o, batch[..n], replies[..n]);
      assert batch[n] !in batch[..n] && batch[n] in batch;
      ProcessAllElsewhere(c, o, batch[..n], replies[..n], batch[n]);
      ProcessSpends(c, ProcessAll(c, o, batch[..n], replies[..n]), batch[n], replies[n], t);
    }
  }

  // ---------- a due batch always exists ----------

  lemma Earliest(m: map<Id, Delivery>, s: set<Id>) returns (id: Id)
    requires s != {} && s <= m.Keys
    ensures id in s && forall k :: k in s ==> m[id].createdAt <= m[k].createdAt
    decreases |s|
  {
    id :| id in s;
    if s != {id} {
      assert s - {id} != {} by {
        var other :| other in s && other != id;
        assert other in s - {id};
      }
      var best := Earliest(m, s - {id});
      id := if m[best].createdAt < m[id].createdAt then best else id;
    }
  }

  // ListDue always has an answer.
  lemma {:induction false} DueBatch(m: map<Id, Delivery>, now: Time, limit: nat) returns (batch: seq<Id>)
    ensures IsDueBatch(m, now, limit, batch)
  {
    batch := [];
    if limit > 0 {
      batch := DueBatch(m, now, limit - 1);
      var rest := set id | id in m && Due(m[id], now) && id !in batch;
      assert forall id :: id in m && Due(m[id], now) && id !in batch ==> id in rest;
      if rest != {} && |batch| == limit - 1 {
        var id := Earliest(m, rest);
        batch := batch + [id];
      }
    }
  }

  // ---------- any mix of turns ----------

  // A turn that saves an attempt on a delivery created up to t.
  predicate Productive(o: Outbox, turn: Turn, t: Time)
    requires turn.Pop? ==> o.queue != []
    requires turn.Scan? ==> |turn.batch| == |turn.replies|
  {
    match turn
    case Pop(reply) => Counts(o, o.queue[0], reply, t)
    case Scan(_, batch, replies) => Counting(o, batch, replies, t) >= 1
  }

  // A scan that starts after the scheduled retries of the deliveries created up
  // to t, with all rows read and saved.
  ghost predicate Timely(o: Outbox, turn: Turn, t: Time) {
    turn.Scan? && AllSaved(turn.replies)
    && forall id :: id in o.deliveries && o.deliveries[id].createdAt <= t && o.deliveries[id].nextRetryAt.Some? ==>
         o.deliveries[id].nextRetryAt.value <= turn.now
  }

  lemma {:induction false} LastRetry(m: map<Id, Delivery>) returns (now: Time)
    ensures forall id :: id in m && m[id].nextRetryAt.Some? ==> m[id].nextRetryAt.value <= now
    decreases |m|
  {
    now := 0;
    if id :| id in m {
      var rest := LastRetry(m - {id});
      now := if m[id].nextRetryAt.Some? && rest < m[id].nextRetryAt.value then m[id].nextRetryAt.value else rest;
      assert forall k :: k in m && k != id ==> k in m - {id} && (m - {id})[k] == m[k];
    }
  }

  // The worker can always make a timely scan, whatever the endpoint answers.
  lemma TimelyScanExists(c: Config, o: Outbox, answer: Answer, t: Time) returns (turn: Turn)
    requires c.enabled
    ensures Possible(c, o, turn) && Timely(o, turn, t)
    ensures forall reply :: reply in turn.replies ==> reply == Reply(true, answer, turn.now, true)
  {
    var now := LastRetry(o.deliveries);
    var batch := DueBatch(o.deliveries, now, BatchSize(c));
    turn := Scan(now, batch, seq(|batch|, _ => Reply(true, answer, now, true)));
  }

  // The oldest due deliveries come first, so while an old delivery is unfinished
  // a timely scan finds an old one: newer ones cannot hold it up.
  lemma OldFirst(c: Config, o: Outbox, turn: Turn, t: Time, id: Id) returns (i: nat)
    requires Possible(c, o, turn) && Timely(o, turn, t)
    requires id in o.deliveries && o.deliveries[id].createdAt <= t && !Terminal(o.deliveries[id])
    ensures i < |turn.batch| && turn.batch[i] in o.deliveries && o.deliveries[turn.batch[i]].createdAt <= t
  {
    assert Due(o.deliveries[id], turn.now);
    i := 0;
    if id in turn.batch {
      i :| 0 <= i < |turn.batch| && turn.batch[i] == id;
    } else {
      assert turn.batch[0] in turn.batch;
    }
  }

  // A timely scan is productive unless everything old has finished.
  lemma TimelyIsProductive(c: Config, o: Outbox, turn: Turn, t: Time)
    requires Possible(c, o, turn) && Timely(o, turn, t) && !FinishedUpTo(o.deliveries, t)
    ensures Productive(o, turn, t)
  {
    var id :| id in o.deliveries && o.deliveries[id].createdAt <= t && !Terminal(o.deliveries[id]);
    var i := OldFirst(c, o, turn, t, id);
    assert turn.batch[i] in turn.batch;
    SomeCounts(o, turn.batch, turn.replies, t, i);
  }

  // With all deliveries old, a timely scan spends one unit for each that it finds.
  lemma TimelyScanProgresses(c: Config, o: Outbox, turn: Turn, t: Time)
    requires OutboxOk(c, o) && Possible(c, o, turn) && Timely(o, turn, t)
    requires forall id :: id in o.deliveries ==> o.deliveries[id].createdAt <= t
    ensures Budget(Work(c, o, turn).deliveries, t) + |turn.batch| <= Budget(o.deliveries, t)
  {
    assert forall i :: 0 <= i < |turn.batch| ==> turn.batch[i] in turn.batch;
    AllCount(o, turn.batch, turn.replies, t);
    ScanSpends(c, o, turn.batch, turn.replies, t);
  }

  // No turn adds to the budget, and a productive one spends from it.
  lemma TurnSpends(c: Config, o: Outbox, turn: Turn, t: Time)
    requires OutboxOk(c, o) && Possible(c, o, turn)
    ensures Budget(Work(c, o, turn).deliveries, t) + (if Productive(o, turn, t) then 1 else 0)
            <= Budget(o.deliveries, t)
  {
    match turn
    case Pop(reply) => ProcessSpends(c, o.(queue := o.queue[1..]), o.queue[0], reply, t);
    case Scan(now, batch, replies) => ScanSpends(c, o, batch, replies, t);
  }

  // A turn that brings the old deliveries nearer to their end, if any is left.
  ghost predicate Useful(o: Outbox, turn: Turn, t: Time)
    requires turn.Pop? ==> o.queue != []
    requires turn.Scan? ==> |turn.batch| == |turn.replies|
  {
    Productive(o, turn, t) || Timely(o, turn, t)
  }

  lemma UsefulSpends(c: Config, o: Outbox, turn: Turn, t: Time)
    requires OutboxOk(c, o) && Possible(c, o, turn)
    ensures Budget(Work(c, o, turn).deliveries, t) <= Budget(o.deliveries, t)
    ensures Useful(o, turn, t) && Budget(o.deliveries, t) > 0 ==>
              Budget(Work(c, o, turn).deliveries, t) < Budget(o.deliveries, t)
  {
    TurnSpends(c, o, turn, t);
    if Timely(o, turn, t) {
      if FinishedUpTo(o.deliveries, t) {
        FinishedMeansNoBudget(o.deliveries, t);
      } else {
        TimelyIsProductive(c, o, turn, t);
      }
    }
  }

  ghost predicate PossibleTurns(c: Config, o: Outbox, turns: seq<Turn>)
    decreases |turns|
  {
    turns == [] || (Possible(c, o, turns[0]) && PossibleTurns(c, Work(c, o, turns[0]), turns[1..]))
  }

  ghost function AfterTurns(c: Config, o: Outbox, turns: seq<Turn>): Outbox
    requires PossibleTurns(c, o, turns)
    decreases |turns|
  {
    if turns == [] then o else AfterTurns(c, Work(c, o, turns[0]), turns[1..])
  }

  ghost function UsefulTurns(c: Config, o: Outbox, turns: seq<Turn>, t: Time): nat
    requires PossibleTurns(c, o, turns)
    decreases |turns|
  {
    if turns == [] then 0
    else (if Useful(o, turns[0], t) then 1 else 0) + UsefulTurns(c, Work(c, o, turns[0]), turns[1..], t)
  }

  lemma {:induction false} TurnsSpend(c: Config, o: Outbox, turns: seq<Turn>, t: Time)
    requires OutboxOk(c, o) && PossibleTurns(c, o, turns)
    ensures var o' := AfterTurns(c, o, turns);
            && RowsOk(o'.deliveries) && Descends(o.deliveries, o'.deliveries)
            && Budget(o'.deliveries, t) <= Budget(o.deliveries, t)
            && (Budget(o'.deliveries, t) > 0 ==>
                  Budget(o'.deliveries, t) + UsefulTurns(c, o, turns, t) <= Budget(o.deliveries, t))
    decreases |turns|
  {
    if turns != [] {
      WorkKeepsOk(c, o, turns[0]);
      UsefulSpends(c, o, turns[0], t);
      TurnsSpend(c, Work(c, o, turns[0]), turns[1..], t);
    }
  }

  // Whatever the endpoint answers and however other turns are mixed in: as many
  // turns as there is budget that save an attempt on an old delivery, or scan
  // after its scheduled retries, leave every delivery created up to t succeeded
  // or failed.
  lemma AllDeliveriesFinish(c: Config, o: Outbox, turns: seq<Turn>, t: Time)
    requires OutboxOk(c, o) && PossibleTurns(c, o, turns)
    requires UsefulTurns(c, o, turns, t) >= Budget(o.deliveries, t)
    ensures var m := AfterTurns(c, o, turns).deliveries;
            Descends(o.deliveries, m) && FinishedUpTo(m, t)
  {
    TurnsSpend(c, o, turns, t);
    NoBudgetMeansFinished(AfterTurns(c, o, turns).deliveries, t);
  }

  // ---------- a whole life ----------

  datatype Trial = Trial(answer: Answer, now: Time)

  // The row after attempts in this order; a terminal row ignores the rest.
  function AfterTrials(c: Config, d: Delivery, trials: seq<Trial>): Delivery {
    if trials == [] then d
    else
      var before := AfterTrials(c, d, trials[..|trials| - 1]);
      if Terminal(before) then before else Attempt(c, before, trials[|trials| - 1].answer, trials[|trials| - 1].now)
  }

  // What a delivery is after n failures in a row, the last at time now.
  ghost predicate FailedTimes(c: Config, d: Delivery, n: nat, now: Time) {
    DeliveryOk(d)
    && d.retryCount == (if n < d.maxRetry then n else d.maxRetry)
    && var seconds := if c.retryIntervalSeconds < 1 then 30 else c.retryIntervalSeconds;
       if n == 0 then d.status == Pending
       else if n < d.maxRetry then
         d.status == Retrying && d.nextRetryAt == Some(now + seconds * 1_000_000_000 * n)
       else d.status == Failed
  }

  // Under an endpoint that never accepts, a new delivery is retried with a delay
  // that grows by one interval each time, until its budget is spent, and no more.
  lemma {:induction false} LifeUnderFailure(c: Config, d: Delivery, trials: seq<Trial>)
    requires FailedTimes(c, d, 0, 0) && forall i :: 0 <= i < |trials| ==> !Accepted(trials[i].answer)
    ensures var d' := AfterTrials(c, d, trials);
            d'.maxRetry == d.maxRetry
            && FailedTimes(c, d', |trials|, if trials == [] then 0 else trials[|trials| - 1].now)
  {
    if trials != [] {
      var n := |trials| - 1;
      LifeUnderFailure(c, d, trials[..n]);
      var before := AfterTrials(c, d, trials[..n]);
      if !Terminal(before) {
        AttemptOk(c, before, trials[n].answer, trials[n].now);
        AttemptOutcome(c, before, trials[n].answer, trials[n].now);
      }
    }
  }
}
