// The webhook service as the code runs it: a queue of its own and the delivery
// table of the database, both updated in place, one worker.
module WebhookService {
  import opened Entities
  import opened Webhook
  import Store

  class Service {
    const config: Config
    const db: Store.Database
    var queue: seq<Id>
    var tried: seq<Id>
    var sent: seq<Id>
    var lost: seq<Id>

    ghost function State(): Outbox
      reads this, db
    {
      Outbox(db.deliveries, queue, tried, sent, lost)
    }

    // NewWebhookService.
    constructor (config: Config, db: Store.Database)
      ensures this.config == config && this.db == db && State() == Outbox(db.deliveries, [], [], [], [])
    {
      this.config, this.db := config, db;
      queue, tried, sent, lost := [], [], [], [];
    }

    // createDelivery. created is None when webhooks are off; ok is false when the
    // database refuses the row.
    method CreateDelivery(event: Event, t: Transaction, id: Id, now: Time) returns (created: Option<Delivery>, ok: bool)
      modifies db`deliveries
      ensures created == NewDelivery(config, id, event, t, now)
      ensures created.Some? <==> config.enabled && config.targetUrl != ""
      ensures created.Some? ==> Configured(config, created.value)
      ensures ok <==> (created.Some? ==> Store.InsertingDelivery !in db.broken && DeliveryRowOk(created.value))
      ensures State() == if created.Some? && ok then Insert(old(State()), created.value) else old(State())
    {
      created, ok := None, true;
      if !config.enabled || config.targetUrl == "" {
        return;
      }
      var secret: Option<string> := None;
      if config.secret != "" {
        secret := Some(config.secret);
      }
      var delivery := Delivery(id, event, t.id, t.ref, config.targetUrl, secret,
                               Pending, 0, NormalizedMaxRetry(config), None, None, None, None, now);
      created := Some(delivery);
      ok := db.CreateDelivery(delivery);
    }

    // Enqueue: a select with a default branch on a buffered channel.
    method Enqueue(id: Id)
      modifies this`queue
      ensures State() == Announce(config, old(State()), id)
      ensures queue == if config.enabled && |old(queue)| < 2 * (if config.workerBatchSize < 1 then 20
                          else config.workerBatchSize) then old(queue) + [id] else old(queue)
    {
      if !config.enabled {
        return;
      }
      if |queue| < QueueCapacity(config) {
        queue := queue + [id];
      }
    }

    // markFailure, on the fetched copy of the row.
    method MarkFailure(delivery: Delivery, code: int, note: Note, now: Time, saved: bool)
      modifies db`deliveries, this`lost
      ensures db.deliveries ==
                if saved then old(db.deliveries)[delivery.id := FailedAttempt(config, delivery, code, note, now)]
                else old(db.deliveries)
      ensures lost == if saved then old(lost) else old(lost) + [delivery.id]
    {
      var row := delivery.(retryCount := delivery.retryCount + 1);
      if code > 0 {
        row := row.(lastHttpStatus := Some(code));
      }
      row := row.(lastError := Some(note));
      if row.retryCount >= row.maxRetry {
        row := row.(status := Failed, nextRetryAt := None);
      } else {
        row := row.(status := Retrying, nextRetryAt := Some(now + RetryInterval(config) * row.retryCount));
      }
      if saved {
        db.SaveDelivery(row);
      } else {
        lost := lost + [delivery.id];
      }
    }

    // ProcessDelivery. The reply stands for the endpoint, the clock and the
    // outcomes of reading and saving the row; found is false when no row was read.
    method ProcessDelivery(id: Id, reply: Reply) returns (found: bool)
      requires forall k :: k in db.deliveries ==> db.deliveries[k].id == k
      modifies db`deliveries, this`tried, this`sent, this`lost
      ensures found <==> reply.read && id in old(db.deliveries)
      ensures State() == Process(config, old(State()), id, reply)
      ensures forall k :: k in db.deliveries ==> db.deliveries[k].id == k
    {
      found := reply.read && id in db.deliveries;
      if !found {
        return;
      }
      var delivery := db.deliveries[id];
      if delivery.status == Succeeded || delivery.status == Failed {
        return;
      }
      tried := tried + [id];
      match reply.answer {
        case BadUrl(message) =>
          MarkFailure(delivery, 0, RequestFailed(message), reply.now, reply.saved);
        case NetworkError(message) =>
          sent := sent + [id];
          MarkFailure(delivery, 0, RequestFailed(message), reply.now, reply.saved);
        case Response(code) =>
          sent := sent + [id];
          if code < 200 || code >= 300 {
            MarkFailure(delivery, code, UnexpectedStatus(code), reply.now, reply.saved);
          } else {
            delivery := delivery.(status := Succeeded, deliveredAt := Some(reply.now), nextRetryAt := None,
                                  lastError := None, lastHttpStatus := Some(code));
            if reply.saved {
              db.SaveDelivery(delivery);
            } else {
              lost := lost + [id];
            }
          }
      }
    }

    // ProcessDue, given what ListDue answered.
    method ProcessDue(now: Time, batch: seq<Id>, replies: seq<Reply>)
      requires forall k :: k in db.deliveries ==> db.deliveries[k].id == k
      requires IsDueBatch(db.deliveries, now, BatchSize(config), batch) && |replies| == |batch|
      modifies db`deliveries, this`tried, this`sent, this`lost
      ensures State() == ProcessAll(config, old(State()), batch, replies)
      ensures forall k :: k in db.deliveries ==> db.deliveries[k].id == k
    {
      for i := 0 to |batch|
        invariant State() == ProcessAll(config, old(State()), batch[..i], replies[..i])
        invariant forall k :: k in db.deliveries ==> db.deliveries[k].id == k
      {
        assert batch[..i + 1][..i] == batch[..i] && replies[..i + 1][..i] == replies[..i];
        var found := ProcessDelivery(batch[i], replies[i]);
      }
      assert batch[..|batch|] == batch && replies[..|replies|] == replies;
    }

    // One turn of the select loop of Start: a queued id, or the ticker.
    method Turn(turn: Turn)
      requires OutboxOk(config, State()) && Possible(config, State(), turn)
      modifies this, db`deliveries
      ensures State() == Work(config, old(State()), turn)
      ensures OutboxOk(config, State())
    {
      WorkKeepsOk(config, State(), turn);
      match turn {
        case Pop(reply) =>
          var id := queue[0];
          queue := queue[1..];
          var found := ProcessDelivery(id, reply);
        case Scan(now, batch, replies) =>
          ProcessDue(now, batch, replies);
      }
    }
  }
}
