// When a delivery is sent before its scheduled retry: the guard of
// ProcessDelivery looks at the status and not at the schedule.
module EarlySends {
  import opened Entities
  import opened Sequences
  import opened Webhook

  // A request put on the wire: its moment, and the row it was made from.
  datatype Send = Send(at: Time, before: Delivery)

  predicate Early(s: Send) {
    s.before.nextRetryAt.Some? && s.at < s.before.nextRetryAt.value
  }

  // What ProcessDelivery sends.
  function SendsOf(o: Outbox, id: Id, reply: Reply): seq<Send> {
    if !Attempted(o, id, reply) || reply.answer.BadUrl? then []
    else [Send(reply.now, o.deliveries[id])]
  }

  function SendsOfAll(c: Config, o: Outbox, batch: seq<Id>, replies: seq<Reply>): seq<Send>
    requires |batch| == |replies|
  {
    if batch == [] then []
    else
      var n := |batch| - 1;
      SendsOfAll(c, o, batch[..n], replies[..n])
      + SendsOf(ProcessAll(c, o, batch[..n], replies[..n]), batch[n], replies[n])
  }

  function Sends(c: Config, o: Outbox, turn: Turn): seq<Send>
    requires turn.Pop? ==> o.queue != []
    requires turn.Scan? ==> |turn.batch| == |turn.replies|
  {
    match turn
    case Pop(reply) => SendsOf(o, o.queue[0], reply)
    case Scan(_, batch, replies) => SendsOfAll(c, o, batch, replies)
  }

  // ---------- these are the sends of the turn ----------

  function SentIds(sends: seq<Send>): (ids: seq<Id>)
    ensures |ids| == |sends| && forall i :: 0 <= i < |ids| ==> ids[i] == sends[i].before.id
  {
    seq(|sends|, i requires 0 <= i < |sends| => sends[i].before.id)
  }

  lemma SentIdsConcat(a: seq<Send>, b: seq<Send>)
    ensures SentIds(a + b) == SentIds(a) + SentIds(b)
  {
  }

  lemma SendsOfIsSent(c: Config, o: Outbox, id: Id, reply: Reply)
    requires RowsOk(o.deliveries)
    ensures Process(c, o, id, reply).sent == o.sent + SentIds(SendsOf(o, id, reply))
  {
  }

  lemma {:induction false} SendsOfAllAreSent(c: Config, o: Outbox, batch: seq<Id>, replies: seq<Reply>)
    requires |batch| == |replies| && OutboxOk(c, o)
    ensures ProcessAll(c, o, batch, replies).sent == o.sent + SentIds(SendsOfAll(c, o, batch, replies))
  {
    if batch != [] {
      var n := |batch| - 1;
      var mid := ProcessAll(c, o, batch[..n], replies[..n]);
      var first, last := SendsOfAll(c, o, batch[..n], replies[..n]), SendsOf(mid, batch[n], replies[n]);
      assert mid.sent == o.sent + SentIds(first) by { SendsOfAllAreSent(c, o, batch[..n], replies[..n]); }
      assert Process(c, mid, batch[n], replies[n]).sent == mid.sent + SentIds(last) by {
        ProcessAllKeepsOk(c, o, batch[..n], replies[..n]);
        SendsOfIsSent(c, mid, batch[n], replies[n]);
      }
      SentIdsConcat(first, last);
      Regroup(o.sent, SentIds(first), SentIds(last));
    }
  }

  // The log of requests grows by exactly these sends.
  lemma SendsAreSent(c: Config, o: Outbox, turn: Turn)
    requires OutboxOk(c, o) && Possible(c, o, turn)
    ensures Work(c, o, turn).sent == o.sent + SentIds(Sends(c, o, turn))
  {
    match turn
    case Pop(reply) =>
    case Scan(_, batch, replies) => SendsOfAllAreSent(c, o, batch, replies);
  }

  // ---------- early sends ----------

  // The attempts of a scan do not come before the scan.
  ghost predicate OnTime(turn: Turn) {
    turn.Scan? ==> forall i :: 0 <= i < |turn.replies| ==> turn.now <= turn.replies[i].now
  }

  // The worker pops a delivery that waits for a later retry.
  predicate Overtaken(o: Outbox, turn: Turn)
    requires turn.Pop? ==> o.queue != []
  {
    turn.Pop? && Attempted(o, o.queue[0], turn.reply) && !turn.reply.answer.BadUrl?
    && var d := o.deliveries[o.queue[0]];
    d.nextRetryAt.Some? && turn.reply.now < d.nextRetryAt.value
  }

  // A batch attempts each delivery as the scan found it.
  lemma {:induction false} ScanSendsDue(c: Config, o: Outbox, now: Time, batch: seq<Id>, replies: seq<Reply>)
    requires |batch| == |replies| && NoRepeats(batch)
    requires forall id :: id in batch ==> id in o.deliveries && Due(o.deliveries[id], now)
    requires forall i :: 0 <= i < |replies| ==> now <= replies[i].now
    ensures forall s :: s in SendsOfAll(c, o, batch, replies) ==> !Early(s)
    ensures forall id :: id in o.deliveries && id !in batch ==>
              id in ProcessAll(c, o, batch, replies).deliveries
              && ProcessAll(c, o, batch, replies).deliveries[id] == o.deliveries[id]
  {
    if batch != [] {
      var n := |batch| - 1;
      Unsnoc(batch);
      ScanSendsDue(c, o, now, batch[..n], replies[..n]);
      assert batch[n] !in batch[..n] && batch[n] in batch;
    }
  }

  // Some send of a turn is early exactly if the worker pops a delivery that
  // waits for a later retry; a scan never sends early.
  lemma EarlyIffOvertaken(c: Config, o: Outbox, turn: Turn)
    requires Possible(c, o, turn) && OnTime(turn)
    ensures (exists s :: s in Sends(c, o, turn) && Early(s)) <==> Overtaken(o, turn)
  {
    match turn
    case Pop(reply) =>
      if Overtaken(o, turn) {
        assert Send(reply.now, o.deliveries[o.queue[0]]) in Sends(c, o, turn);
      }
    case Scan(now, batch, replies) => ScanSendsDue(c, o, now, batch, replies);
  }

  // In a coherent outbox that is a delivery in state RETRYING whose time has not
  // come.
  lemma EarlyIffWaiting(c: Config, o: Outbox, turn: Turn)
    requires OutboxOk(c, o) && Possible(c, o, turn) && OnTime(turn)
    ensures Work(c, o, turn).sent == o.sent + SentIds(Sends(c, o, turn))
    ensures (exists s :: s in Sends(c, o, turn) && Early(s)) <==>
              && turn.Pop? && turn.reply.read && !turn.reply.answer.BadUrl? && o.queue[0] in o.deliveries
              && o.deliveries[o.queue[0]].status == Retrying && o.deliveries[o.queue[0]].nextRetryAt.Some?
              && turn.reply.now < o.deliveries[o.queue[0]].nextRetryAt.value
  {
    SendsAreSent(c, o, turn);
    EarlyIffOvertaken(c, o, turn);
    if turn.Pop? {
      assert DeliveryOk(o.deliveries[o.queue[0]]);
    }
  }
}
