// The webhook outbox (internal/usecase/webhook.go): persisted deliveries, a
// bounded lossy queue, and the worker that drains both.
module Webhook {
  import opened Entities
  import opened Sequences

  datatype Status = Pending | Retrying | Succeeded | Failed

  datatype Event = TopUpSuccess | TransferSuccess

  // Why the last attempt failed.
  datatype Note = RequestFailed(message: string) | UnexpectedStatus(code: int)

  datatype Delivery = Delivery(
    id: Id, event: Event, transactionId: Id, transactionRef: Id,
    targetUrl: string, secret: Option<string>,
    status: Status, retryCount: int, maxRetry: int,
    lastError: Option<Note>, lastHttpStatus: Option<int>,
    nextRetryAt: Option<Time>, deliveredAt: Option<Time>, createdAt: Time)

  datatype Config = Config(
    enabled: bool, targetUrl: string, secret: string,
    maxRetry: int, retryIntervalSeconds: int, workerBatchSize: int)

  const SECOND: Time := 1_000_000_000

  // ---------- configuration ----------

  function RetryInterval(c: Config): (r: Time)
    ensures r >= SECOND
  {
    (if c.retryIntervalSeconds < 1 then 30 else c.retryIntervalSeconds) * SECOND
  }

  function NormalizedMaxRetry(c: Config): (r: int)
    ensures r >= 1
  {
    if c.maxRetry < 1 then 3 else c.maxRetry
  }

  function BatchSize(c: Config): (r: nat)
    ensures r >= 1
  {
    if c.workerBatchSize < 1 then 20 else c.workerBatchSize
  }

  function QueueCapacity(c: Config): nat {
    BatchSize(c) * 2
  }

  predicate Active(c: Config) {
    c.enabled && c.targetUrl != ""
  }

  // The database refuses a target that is blank after trimming spaces.
  predicate Blank(url: string) {
    forall c :: c in url ==> c == ' '
  }

  // ---------- one delivery ----------

  // createDelivery.
  function NewDelivery(c: Config, id: Id, event: Event, t: Transaction, now: Time): Option<Delivery> {
    if !Active(c) then None
    else Some(Delivery(id, event, t.id, t.ref, c.targetUrl, if c.secret == "" then None else Some(c.secret),
                       Pending, 0, NormalizedMaxRetry(c), None, None, None, None, now))
  }

  predicate Terminal(d: Delivery) {
    d.status == Succeeded || d.status == Failed
  }

  // The predicate of ListDue.
  predicate Due(d: Delivery, now: Time) {
    (d.status == Pending || d.status == Retrying)
    && (d.nextRetryAt.None? || d.nextRetryAt.value <= now)
  }

  // The CHECK constraints on webhook_deliveries.
  predicate DeliveryRowOk(d: Delivery) {
    0 <= d.retryCount <= d.maxRetry && d.maxRetry > 0 && !Blank(d.targetUrl)
  }

  // What one attempt meets: whether the repository read the row, the answer to the
  // request, the clock, and whether the repository saved the updated row.
  datatype Answer = BadUrl(message: string) | NetworkError(message: string) | Response(code: int)

  datatype Reply = Reply(read: bool, answer: Answer, now: Time, saved: bool)

  // markFailure.
  function FailedAttempt(c: Config, d: Delivery, code: int, note: Note, now: Time): Delivery {
    var count := d.retryCount + 1;
    var noted := d.(retryCount := count, lastError := Some(note),
                    lastHttpStatus := if code > 0 then Some(code) else d.lastHttpStatus);
    if count >= d.maxRetry then noted.(status := Failed, nextRetryAt := None)
    else noted.(status := Retrying, nextRetryAt := Some(now + RetryInterval(c) * count))
  }

  function Delivered(d: Delivery, code: int, now: Time): Delivery {
    d.(status := Succeeded, deliveredAt := Some(now), nextRetryAt := None, lastError := None,
      lastHttpStatus := Some(code))
  }

  // The row after one attempt.
  function Attempt(c: Config, d: Delivery, answer: Answer, now: Time): Delivery {
    match answer
    case BadUrl(message) => FailedAttempt(c, d, 0, RequestFailed(message), now)
    case NetworkError(message) => FailedAttempt(c, d, 0, RequestFailed(message), now)
    case Response(code) =>
      if code < 200 || code >= 300 then FailedAttempt(c, d, code, UnexpectedStatus(code), now)
      else Delivered(d, code, now)
  }

  // The life of a delivery: pending before the first failure, retrying with a
  // scheduled time until the budget is spent, then failed; or succeeded on the way.
  ghost predicate DeliveryOk(d: Delivery) {
    d.maxRetry >= 1 && !Blank(d.targetUrl)
    && (d.nextRetryAt.Some? <==> d.status == Retrying)
    && match d.status
       case Pending => d.retryCount == 0
       case Retrying => 0 < d.retryCount < d.maxRetry
       case Succeeded =>
         0 <= d.retryCount < d.maxRetry && d.deliveredAt.Some?
         && d.lastHttpStatus.Some? && 200 <= d.lastHttpStatus.value < 300
       case Failed => d.retryCount == d.maxRetry
  }

  // A committed operation leaves a delivery exactly if webhooks are switched on
  // with a target, and the row carries the configuration.
  lemma NewDeliveryMeaning(c: Config, id: Id, event: Event, t: Transaction, now: Time)
    ensures var d := NewDelivery(c, id, event, t, now);
            && (d.Some? <==> c.enabled && c.targetUrl != "")
            && (d.Some? ==>
                  && Configured(c, d.value) && d.value.id == id && d.value.event == event
                  && d.value.transactionId == t.id && d.value.transactionRef == t.ref
                  && d.value.status == Pending && d.value.retryCount == 0 && d.value.createdAt == now
                  && d.value.lastError == None && d.value.lastHttpStatus == None
                  && d.value.nextRetryAt == None && d.value.deliveredAt == None)
  {
  }

  // What a row takes over from the configuration.
  predicate Configured(c: Config, d: Delivery) {
    d.targetUrl == c.targetUrl
    && d.secret == (if c.secret == "" then None else Some(c.secret))
    && d.maxRetry == (if c.maxRetry < 1 then 3 else c.maxRetry)
  }

  lemma NewDeliveryOk(c: Config, id: Id, event: Event, t: Transaction, now: Time)
    requires Active(c) && !Blank(c.targetUrl)
    ensures var d := NewDelivery(c, id, event, t, now).value;
            DeliveryOk(d) && DeliveryRowOk(d) && d.status == Pending && d.transactionId == t.id
              && forall later :: Due(d, later)
  {
  }

  predicate Accepted(answer: Answer) {
    answer.Response? && 200 <= answer.code < 300
  }

  // A delivery succeeds exactly on a 2xx answer. Every other attempt is counted
  // and either ends the delivery or schedules the next attempt, as many configured
  // intervals later as attempts have failed. The row records what was answered.
  lemma AttemptOutcome(c: Config, d: Delivery, answer: Answer, now: Time)
    ensures var d' := Attempt(c, d, answer, now);
            && (d'.status == Succeeded <==> Accepted(answer))
            && (d'.status == Failed <==> !Accepted(answer) && d.retryCount + 1 >= d.maxRetry)
            && d'.status != Pending
            && d'.retryCount == d.retryCount + (if Accepted(answer) then 0 else 1)
            && d'.deliveredAt == (if Accepted(answer) then Some(now) else d.deliveredAt)
            && var seconds := if c.retryIntervalSeconds < 1 then 30 else c.retryIntervalSeconds;
               d'.nextRetryAt == (if d'.status != Retrying then None
                                  else Some(now + seconds * 1_000_000_000 * d'.retryCount))
    ensures var d' := Attempt(c, d, answer, now);
            && d'.lastHttpStatus == (if answer.Response? && answer.code > 0 then Some(answer.code)
                                     else d.lastHttpStatus)
            && d'.lastError == match answer
                               case BadUrl(message) => Some(RequestFailed(message))
                               case NetworkError(message) => Some(RequestFailed(message))
                               case Response(code) => if 200 <= code < 300 then None else Some(UnexpectedStatus(code))
  {
  }

  // The first failure of a new delivery leaves it retrying, one interval later,
  // unless a single attempt is configured: then it is final at once.
  lemma FirstFailureRetries(c: Config, id: Id, event: Event, t: Transaction, created: Time, answer: Answer, now: Time)
    requires c.enabled && !Blank(c.targetUrl) && !Accepted(answer)
    ensures NewDelivery(c, id, event, t, created).Some?
    ensures var d := Attempt(c, NewDelivery(c, id, event, t, created).value, answer, now);
            && d.status == (if c.maxRetry == 1 then Failed else Retrying)
            && d.retryCount == 1
            && var seconds := if c.retryIntervalSeconds < 1 then 30 else c.retryIntervalSeconds;
               c.maxRetry != 1 ==> d.nextRetryAt == Some(now + seconds * 1_000_000_000)
  {
    NewDeliveryOk(c, id, event, t, created);
    AttemptOutcome(c, NewDelivery(c, id, event, t, created).value, answer, now);
  }

  // Attempts that the row of a delivery accounts for.
  function Attempts(d: Delivery): int {
    d.retryCount + if d.status == Succeeded then 1 else 0
  }

  // Every attempt keeps the row coherent and within its CHECKs, and spends at
  // least one unit of the retry budget.
  lemma AttemptOk(c: Config, d: Delivery, answer: Answer, now: Time)
    requires DeliveryOk(d) && !Terminal(d)
    ensures var d' := Attempt(c, d, answer, now);
            DeliveryOk(d') && DeliveryRowOk(d') && SameOrigin(d, d')
            && Remaining(d') < Remaining(d) && Attempts(d') == Attempts(d) + 1
            && (d'.nextRetryAt.Some? ==> d'.nextRetryAt.value >= now + SECOND)
  {
    RetryLater(RetryInterval(c), d.retryCount + 1);
  }

  lemma RetryLater(interval: Time, count: int)
    requires interval >= SECOND && count >= 1
    ensures interval * count >= SECOND
  {
    assert interval * count >= interval * 1;
  }

  // Attempts a delivery can still make.
  function Remaining(d: Delivery): nat {
    if Terminal(d) || d.maxRetry <= d.retryCount then 0 else d.maxRetry - d.retryCount
  }

  // What no attempt changes.
  predicate SameOrigin(d: Delivery, e: Delivery) {
    d.id == e.id && d.event == e.event && d.transactionId == e.transactionId && d.transactionRef == e.transactionRef
    && d.targetUrl == e.targetUrl && d.secret == e.secret && d.maxRetry == e.maxRetry && d.createdAt == e.createdAt
  }

  // ---------- the outbox ----------

  // tried logs the attempts, sent the requests put on the wire, and lost the
  // updates that were not saved.
  datatype Outbox = Outbox(deliveries: map<Id, Delivery>, queue: seq<Id>, tried: seq<Id>, sent: seq<Id>, lost: seq<Id>)

  const EMPTY_OUTBOX := Outbox(map[], [], [], [], [])

  function Insert(o: Outbox, d: Delivery): Outbox {
    o.(deliveries := o.deliveries[d.id := d])
  }

  // Enqueue: a full queue drops the id.
  function Announce(c: Config, o: Outbox, id: Id): Outbox {
    if c.enabled && |o.queue| < QueueCapacity(c) then o.(queue := o.queue + [id]) else o
  }

  // An id is queued exactly if the worker runs and the queue is not full; nothing
  // else changes.
  lemma AnnounceMeaning(c: Config, o: Outbox, id: Id)
    ensures var o' := Announce(c, o, id);
            && o'.queue == (if c.enabled && |o.queue| < 2 * (if c.workerBatchSize < 1 then 20 else c.workerBatchSize)
                            then o.queue + [id] else o.queue)
            && o'.deliveries == o.deliveries && o'.tried == o.tried && o'.sent == o.sent && o'.lost == o.lost
  {
  }

  // ProcessDelivery comes to an attempt: it reads a row that is not terminal.
  predicate Attempted(o: Outbox, id: Id, reply: Reply) {
    reply.read && id in o.deliveries && !Terminal(o.deliveries[id])
  }

  // ProcessDelivery.
  function Process(c: Config, o: Outbox, id: Id, reply: Reply): Outbox {
    if !Attempted(o, id, reply) then o
    else
      var started := o.(tried := o.tried + [id]);
      var attempted := if reply.answer.BadUrl? then started else started.(sent := o.sent + [id]);
      if !reply.saved then attempted.(lost := attempted.lost + [id])
      else attempted.(deliveries := o.deliveries[id := Attempt(c, o.deliveries[id], reply.answer, reply.now)])
  }

  // An attempt is made exactly on a row that was read and is neither SUCCESS nor
  // FAILED. It sends a request unless the target is unusable, and changes the row
  // unless the update is lost; no other row, and not the queue.
  lemma ProcessMeaning(c: Config, o: Outbox, id: Id, reply: Reply)
    ensures var o' := Process(c, o, id, reply);
            var made := reply.read && id in o.deliveries && o.deliveries[id].status in {Pending, Retrying};
            && o'.tried == o.tried + (if made then [id] else [])
            && o'.sent == o.sent + (if made && !reply.answer.BadUrl? then [id] else [])
            && o'.lost == o.lost + (if made && !reply.saved then [id] else [])
            && o'.deliveries == (if made && reply.saved
                                 then o.deliveries[id := Attempt(c, o.deliveries[id], reply.answer, reply.now)]
                                 else o.deliveries)
            && o'.queue == o.queue
  {
  }

  // The loop of ProcessDue.
  function ProcessAll(c: Config, o: Outbox, batch: seq<Id>, replies: seq<Reply>): Outbox
    requires |batch| == |replies|
  {
    if batch == [] then o
    else
      var n := |batch| - 1;
      Process(c, ProcessAll(c, o, batch[..n], replies[..n]), batch[n], replies[n])
  }

  // A result of ListDue: the earliest due deliveries, oldest first, at most limit.
  ghost predicate IsDueBatch(deliveries: map<Id, Delivery>, now: Time, limit: nat, batch: seq<Id>) {
    NoRepeats(batch)
    && (forall id :: id in batch ==> id in deliveries && Due(deliveries[id], now))
    && |batch| <= limit
    && (|batch| < limit ==> forall id :: id in deliveries && Due(deliveries[id], now) ==> id in batch)
    && (forall i, j :: 0 <= i < j < |batch| ==> deliveries[batch[i]].createdAt <= deliveries[batch[j]].createdAt)
    && (forall id, b :: id in deliveries && Due(deliveries[id], now) && id !in batch && b in batch ==>
          deliveries[b].createdAt <= deliveries[id].createdAt)
  }

  // One turn of the worker: it pops a queued id, or the ticker starts a scan.
  datatype Turn = Pop(reply: Reply) | Scan(now: Time, batch: seq<Id>, replies: seq<Reply>)

  ghost predicate Possible(c: Config, o: Outbox, turn: Turn) {
    c.enabled
    && match turn
       case Pop(_) => o.queue != []
       case Scan(now, batch, replies) => IsDueBatch(o.deliveries, now, BatchSize(c), batch) && |replies| == |batch|
  }

  // A scan takes at most the configured number of rows, all of them due, and all
  // that are due if they are fewer.
  lemma ScanMeaning(c: Config, o: Outbox, turn: Turn)
    requires Possible(c, o, turn) && turn.Scan?
    ensures var limit := if c.workerBatchSize < 1 then 20 else c.workerBatchSize;
            && |turn.batch| <= limit
            && (forall id :: id in turn.batch ==> id in o.deliveries && Waits(o.deliveries[id], turn.now))
            && (|turn.batch| < limit ==>
                  forall id :: id in o.deliveries && Waits(o.deliveries[id], turn.now) ==> id in turn.batch)
  {
  }

  // Neither delivered nor given up, and not scheduled for later.
  predicate Waits(d: Delivery, now: Time) {
    d.status != Succeeded && d.status != Failed && (d.nextRetryAt.Some? ==> d.nextRetryAt.value <= now)
  }

  function Work(c: Config, o: Outbox, turn: Turn): Outbox
    requires turn.Pop? ==> o.queue != []
    requires turn.Scan? ==> |turn.batch| == |turn.replies|
  {
    match turn
    case Pop(reply) => Process(c, o.(queue := o.queue[1..]), o.queue[0], reply)
    case Scan(_, batch, replies) => ProcessAll(c, o, batch, replies)
  }

  ghost predicate RowsOk(m: map<Id, Delivery>) {
    forall id :: id in m ==> m[id].id == id && DeliveryOk(m[id])
  }

  // Only committed deliveries are queued, and never more than fit.
  ghost predicate QueueOk(c: Config, o: Outbox) {
    (forall id :: id in o.queue ==> id in o.deliveries) && |o.queue| <= QueueCapacity(c)
  }

  // The attempts on id that its row accounts for.
  function Accounted(m: map<Id, Delivery>, id: Id): int {
    if id in m then Attempts(m[id]) else 0
  }

  // Every attempt is accounted for by the row or by a lost update, and sends at
  // most one request.
  ghost predicate SentOk(o: Outbox) {
    forall id ::
      multiset(o.sent)[id] <= multiset(o.tried)[id]
      && multiset(o.tried)[id] == multiset(o.lost)[id] + Accounted(o.deliveries, id)
  }

  // Nothing succeeds without a request.
  ghost predicate SuccessesSent(o: Outbox) {
    forall id :: id in o.deliveries && o.deliveries[id].status == Succeeded ==> id in o.sent
  }

  ghost predicate OutboxOk(c: Config, o: Outbox) {
    RowsOk(o.deliveries) && QueueOk(c, o) && SentOk(o) && SuccessesSent(o)
  }

  // Every row is still there, from the same origin, and what was final stands.
  ghost predicate Persists(m: map<Id, Delivery>, m': map<Id, Delivery>) {
    forall id :: id in m ==>
      id in m' && SameOrigin(m[id], m'[id]) && (Terminal(m[id]) ==> m'[id] == m[id])
  }

  // The rows are the same deliveries, possibly attempted in between.
  ghost predicate Descends(m: map<Id, Delivery>, m': map<Id, Delivery>) {
    m'.Keys == m.Keys && Persists(m, m')
  }

  lemma InsertKeepsOk(c: Config, o: Outbox, d: Delivery)
    requires OutboxOk(c, o) && d.id !in o.deliveries && DeliveryOk(d) && d.status == Pending
    ensures OutboxOk(c, Insert(o, d))
  {
  }

  lemma AnnounceKeepsOk(c: Config, o: Outbox, id: Id)
    requires OutboxOk(c, o) && id in o.deliveries
    ensures OutboxOk(c, Announce(c, o, id))
  {
  }

  // A restart loses the queue in memory and nothing else.
  function Restarted(o: Outbox): Outbox {
    o.(queue := [])
  }

  lemma ProcessKeepsRows(c: Config, m: map<Id, Delivery>, id: Id, answer: Answer, now: Time)
    requires RowsOk(m) && id in m && !Terminal(m[id])
    ensures RowsOk(m[id := Attempt(c, m[id], answer, now)]) && Descends(m, m[id := Attempt(c, m[id], answer, now)])
  {
    AttemptOk(c, m[id], answer, now);
  }

  lemma ProcessKeepsOk(c: Config, o: Outbox, id: Id, reply: Reply)
    requires OutboxOk(c, o)
    ensures OutboxOk(c, Process(c, o, id, reply))
    ensures Descends(o.deliveries, Process(c, o, id, reply).deliveries)
  {
    if Attempted(o, id, reply) {
      var o' := Process(c, o, id, reply);
      assert RowsOk(o'.deliveries) && Descends(o.deliveries, o'.deliveries) by {
        ProcessKeepsRows(c, o.deliveries, id, reply.answer, reply.now);
      }
      assert SentOk(o') by {
        AttemptOk(c, o.deliveries[id], reply.answer, reply.now);
        ProcessKeepsSent(c, o, id, reply);
      }
      assert SuccessesSent(o') by { ProcessKeepsSuccesses(c, o, id, reply); }
    }
  }

  lemma ProcessKeepsSuccesses(c: Config, o: Outbox, id: Id, reply: Reply)
    requires SuccessesSent(o) && Attempted(o, id, reply) && DeliveryOk(o.deliveries[id])
    ensures SuccessesSent(Process(c, o, id, reply))
  {
    AttemptOutcome(c, o.deliveries[id], reply.answer, reply.now);
  }

  lemma ProcessKeepsSent(c: Config, o: Outbox, id: Id, reply: Reply)
    requires SentOk(o) && Attempted(o, id, reply)
    requires Attempts(Attempt(c, o.deliveries[id], reply.answer, reply.now)) == Attempts(o.deliveries[id]) + 1
    ensures SentOk(Process(c, o, id, reply))
  {
    var o' := Process(c, o, id, reply);
    forall k
      ensures multiset(o'.sent)[k] <= multiset(o'.tried)[k]
      ensures multiset(o'.tried)[k] == multiset(o'.lost)[k] + Accounted(o'.deliveries, k)
    {
      ProcessCounts(c, o, id, reply, k);
      assert multiset(o.tried)[k] == multiset(o.lost)[k] + Accounted(o.deliveries, k);
    }
  }

  // What an attempt on id adds to the logs, seen from k.
  lemma ProcessCounts(c: Config, o: Outbox, id: Id, reply: Reply, k: Id)
    requires Attempted(o, id, reply)
    requires Attempts(Attempt(c, o.deliveries[id], reply.answer, reply.now)) == Attempts(o.deliveries[id]) + 1
    ensures var o', one := Process(c, o, id, reply), if k == id then 1 else 0;
            && multiset(o'.tried)[k] == multiset(o.tried)[k] + one
            && multiset(o'.sent)[k] == multiset(o.sent)[k] + (if reply.answer.BadUrl? then 0 else one)
            && multiset(o'.lost)[k] == multiset(o.lost)[k] + (if reply.saved then 0 else one)
            && Accounted(o'.deliveries, k) == Accounted(o.deliveries, k) + (if reply.saved then one else 0)
  {
    CountOne(o.tried, id, k);
    CountOne(o.sent, id, k);
    CountOne(o.lost, id, k);
  }

  lemma CountOne(s: seq<Id>, id: Id, k: Id)
    ensures multiset(s + [id])[k] == multiset(s)[k] + if k == id then 1 else 0
  {
  }

  lemma {:induction false} ProcessAllKeepsOk(c: Config, o: Outbox, batch: seq<Id>, replies: seq<Reply>)
    requires OutboxOk(c, o) && |batch| == |replies|
    ensures OutboxOk(c, ProcessAll(c, o, batch, replies))
    ensures Descends(o.deliveries, ProcessAll(c, o, batch, replies).deliveries)
  {
    if batch != [] {
      var n := |batch| - 1;
      ProcessAllKeepsOk(c, o, batch[..n], replies[..n]);
      ProcessKeepsOk(c, ProcessAll(c, o, batch[..n], replies[..n]), batch[n], replies[n]);
    }
  }

  lemma WorkKeepsOk(c: Config, o: Outbox, turn: Turn)
    requires OutboxOk(c, o) && Possible(c, o, turn)
    ensures OutboxOk(c, Work(c, o, turn))
    ensures Descends(o.deliveries, Work(c, o, turn).deliveries)
  {
    match turn
    case Pop(reply) =>
      assert OutboxOk(c, o.(queue := o.queue[1..]));
      ProcessKeepsOk(c, o.(queue := o.queue[1..]), o.queue[0], reply);
    case Scan(_, batch, replies) => ProcessAllKeepsOk(c, o, batch, replies);
  }

  // The endpoint sees a delivery at most maxRetry times, plus once for every
  // update of it that the repository lost.
  lemma SendsBounded(c: Config, o: Outbox, id: Id)
    requires OutboxOk(c, o) && id in o.deliveries
    ensures multiset(o.sent)[id] <= o.deliveries[id].maxRetry + multiset(o.lost)[id]
  {
  }

  // A delivery is pending exactly as long as no attempt on it is on record, so
  // one that was never tried is due at any time.
  lemma PendingUntilTried(c: Config, o: Outbox, id: Id, now: Time)
    requires OutboxOk(c, o) && id in o.deliveries
    ensures o.deliveries[id].status == Pending <==> multiset(o.tried)[id] == multiset(o.lost)[id]
    ensures id !in o.tried ==> o.deliveries[id].status == Pending && Due(o.deliveries[id], now)
  {
    assert id in multiset(o.tried) <==> id in o.tried;
    assert DeliveryOk(o.deliveries[id]);
  }
}
