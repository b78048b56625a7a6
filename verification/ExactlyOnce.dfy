// Idempotency over whole runs: each (key, user, endpoint) executes at most once,
// and every other success with it repeats the stored answer.
module ExactlyOnce {
  import opened Entities
  import opened Sequences
  import opened Engine
  import opened Meaning
  import opened Protocol
  import opened Serializability
  import Webhook

  // An execution stores its record under a new key; anything else changes
  // nothing, and a replay repeats the record of the same payload.
  lemma ExecuteRecords(c: Webhook.Config, t: Tables, r: Request, draw: Draw)
    ensures var e := Execute(c, t, r, draw);
            && (Executed(e) ==>
                  && Validate(r).None? && KeyOf(r) !in t.records
                  && e.tables.records == t.records[KeyOf(r) := CompletedRecord(r, draw, e.outcome.body)]
                  && e.outcome.status == 200)
            && (!Executed(e) ==> e.tables == t)
            && (e.outcome.Success? && e.outcome.replay ==>
                  && Validate(r).None? && KeyOf(r) in t.records && t.records[KeyOf(r)].hash == r.hash
                  && t.records[KeyOf(r)].status == e.outcome.status && t.records[KeyOf(r)].body == e.outcome.body)
  {
    if Startable(t, r) {
      if r.TopUpRequest? {
        ExecuteTopUp(c, t, r, draw);
      } else {
        ExecuteTransfer(c, t, r, draw);
      }
    }
  }

  predicate AnswersKey(e: Event, k: IdemKey) {
    e.Answered? && Validate(e.request).None? && KeyOf(e.request) == k
  }

  ghost predicate KeyAnswered(log: seq<Event>, k: IdemKey) {
    exists i :: 0 <= i < |log| && AnswersKey(log[i], k)
  }

  lemma KeyAnsweredSnoc(log: seq<Event>, e: Event, k: IdemKey)
    ensures KeyAnswered(log + [e], k) <==> KeyAnswered(log, k) || AnswersKey(e, k)
  {
    if KeyAnswered(log, k) {
      var i :| 0 <= i < |log| && AnswersKey(log[i], k);
      assert (log + [e])[i] == log[i];
    }
    assert (log + [e])[|log|] == e;
  }

  lemma FaithfulPrefix(c: Webhook.Config, log: seq<Event>, n: nat)
    requires Faithful(c, log) && n <= |log|
    ensures Faithful(c, log[..n])
  {
    forall i | 0 <= i < n && log[..n][i].Answered?
      ensures log[i].outcome.Success? && Validate(log[i].request).None?
              && log[i].outcome == Execute(c, Serial(c, log[..n][..i]), log[i].request, log[i].draw).outcome
    {
      assert log[..n][..i] == log[..i];
    }
  }

  // A key has a record exactly if some request with it has succeeded.
  lemma {:induction false} RecordsAreAnswers(c: Webhook.Config, log: seq<Event>, k: IdemKey)
    requires Faithful(c, log)
    ensures k in Serial(c, log).records <==> KeyAnswered(log, k)
  {
    if log != [] {
      var n := |log| - 1;
      var e := log[n];
      assert log == log[..n] + [e];
      FaithfulPrefix(c, log, n);
      RecordsAreAnswers(c, log[..n], k);
      KeyAnsweredSnoc(log[..n], e, k);
      if e.Answered? {
        ExecuteRecords(c, Serial(c, log[..n]), e.request, e.draw);
      }
    }
  }

  lemma RecordKept(c: Webhook.Config, t: Tables, e: Event, k: IdemKey)
    requires k in t.records
    ensures k in Replayed(c, t, e).records && Replayed(c, t, e).records[k] == t.records[k]
  {
    if e.Answered? {
      ExecuteRecords(c, t, e.request, e.draw);
    }
  }

  // A record never changes.
  lemma {:induction false} RecordsPersist(c: Webhook.Config, log: seq<Event>, i: nat, k: IdemKey)
    requires i <= |log| && k in Serial(c, log[..i]).records
    ensures k in Serial(c, log).records && Serial(c, log).records[k] == Serial(c, log[..i]).records[k]
    decreases |log|
  {
    if i < |log| {
      var n := |log| - 1;
      TakeOfTake(log, i, n);
      RecordsPersist(c, log[..n], i, k);
      RecordKept(c, Serial(c, log[..n]), log[n], k);
    } else {
      assert log[..i] == log;
    }
  }

  lemma SerialOneMore(c: Webhook.Config, log: seq<Event>, i: nat)
    requires i < |log| && log[i].Answered?
    ensures Serial(c, log[..i + 1]) == Execute(c, Serial(c, log[..i]), log[i].request, log[i].draw).tables
  {
    TakeOfTake(log, i, i + 1);
  }

  // The i-th answer is now on record.
  lemma AnswerOnRecord(c: Webhook.Config, log: seq<Event>, i: nat)
    requires Faithful(c, log) && i < |log| && log[i].Answered?
    ensures var t, e := Serial(c, log[..i + 1]), log[i];
            Validate(e.request).None? && KeyOf(e.request) in t.records && e.outcome.Success?
            && t.records[KeyOf(e.request)].hash == e.request.hash
            && t.records[KeyOf(e.request)].status == e.outcome.status
                  && t.records[KeyOf(e.request)].body == e.outcome.body
  {
    SerialOneMore(c, log, i);
    ExecuteRecords(c, Serial(c, log[..i]), log[i].request, log[i].draw);
  }

  // An answer is a replay exactly if an earlier request with its key succeeded.
  lemma ReplayIffRepeated(c: Webhook.Config, log: seq<Event>, j: nat)
    requires Faithful(c, log) && j < |log| && log[j].Answered?
    ensures log[j].outcome.Success? && Validate(log[j].request).None?
    ensures log[j].outcome.replay <==> KeyAnswered(log[..j], KeyOf(log[j].request))
  {
    FaithfulPrefix(c, log, j);
    RecordsAreAnswers(c, log[..j], KeyOf(log[j].request));
    ExecuteRecords(c, Serial(c, log[..j]), log[j].request, log[j].draw);
  }

  // Of two successes with one key the later is a replay: same payload hash, same
  // status, same body, and no table changes.
  lemma SecondIsReplay(c: Webhook.Config, log: seq<Event>, i: nat, j: nat)
    requires Faithful(c, log) && i < j < |log| && log[i].Answered? && log[j].Answered?
    requires Validate(log[i].request).None? && Validate(log[j].request).None?
    requires KeyOf(log[i].request) == KeyOf(log[j].request)
    ensures log[i].outcome.Success? && log[j].outcome.Success? && log[j].outcome.replay
    ensures log[j].request.hash == log[i].request.hash
    ensures log[j].outcome.status == log[i].outcome.status && log[j].outcome.body == log[i].outcome.body
    ensures Serial(c, log[..j + 1]) == Serial(c, log[..j])
  {
    var k := KeyOf(log[i].request);
    AnswerOnRecord(c, log, i);
    var before := Serial(c, log[..j]);
    assert k in before.records && before.records[k] == Serial(c, log[..i + 1]).records[k] by {
      TakeOfTake(log, i + 1, j);
      RecordsPersist(c, log[..j], i + 1, k);
    }
    SerialOneMore(c, log, j);
    ExecuteRecords(c, before, log[j].request, log[j].draw);
  }

  // Over every run: two callers that succeed with one key see the same status
  // and body for the same payload, and at most one of them executed.
  lemma CallersAgree(c: Webhook.Config, now: Time, steps: seq<Step>, p: Pid, q: Pid)
    requires Legal(Initial(c, now), steps)
    requires var ps := After(Initial(c, now), steps).processes;
             && p in ps && q in ps && p != q && Succeeded(ps[p]) && Succeeded(ps[q])
             && Validate(ps[p].request).None? && Validate(ps[q].request).None?
                   && KeyOf(ps[p].request) == KeyOf(ps[q].request)
    ensures var ps := After(Initial(c, now), steps).processes;
            var a, b := ResultOf(ps[p]), ResultOf(ps[q]);
            a.status == b.status && a.body == b.body && (a.replay || b.replay)
              && ps[p].request.hash == ps[q].request.hash
  {
    Serializable(c, now, steps);
    var s := After(Initial(c, now), steps);
    CallersAgreeIn(s.config, s.processes, s.log, p, q);
  }

  lemma AnswerIndex(ps: map<Pid, Process>, log: seq<Event>, p: Pid) returns (i: nat)
    requires AnswersOk(ps, log) && p in ps && Succeeded(ps[p])
    ensures i < |log| && IsAnswerOf(log[i], p, ps[p])
  {
    assert InLog(log, p, ps[p]);
    i :| 0 <= i < |log| && IsAnswerOf(log[i], p, ps[p]);
  }

  // a and b are answers to the same request, one of them a replay of the other.
  predicate Agree(a: Event, b: Event)
    requires a.Answered? && b.Answered?
  {
    a.outcome.Success? && b.outcome.Success? && a.outcome.status == b.outcome.status && a.outcome.body == b.outcome.body
    && (a.outcome.replay || b.outcome.replay) && a.request.hash == b.request.hash
  }

  lemma EventsAgree(c: Webhook.Config, log: seq<Event>, i: nat, j: nat)
    requires Faithful(c, log) && i < |log| && j < |log| && i != j
    requires log[i].Answered? && Validate(log[i].request).None? && AnswersKey(log[j], KeyOf(log[i].request))
    ensures Agree(log[i], log[j])
  {
    SecondIsReplay(c, log, if i < j then i else j, if i < j then j else i);
  }

  lemma CallersAgreeIn(c: Webhook.Config, ps: map<Pid, Process>, log: seq<Event>, p: Pid, q: Pid)
    requires Faithful(c, log) && AnswersOk(ps, log)
    requires p in ps && q in ps && p != q && Succeeded(ps[p]) && Succeeded(ps[q])
    requires Validate(ps[p].request).None? && Validate(ps[q].request).None?
             && KeyOf(ps[p].request) == KeyOf(ps[q].request)
    ensures var a, b := ResultOf(ps[p]), ResultOf(ps[q]);
            a.status == b.status && a.body == b.body && (a.replay || b.replay)
              && ps[p].request.hash == ps[q].request.hash
  {
    var i := AnswerIndex(ps, log, p);
    var j := AnswerIndex(ps, log, q);
    assert Agree(log[i], log[j]) by { EventsAgree(c, log, i, j); }
  }

  // A rejected request leaves its key reusable: a key has a record exactly if a
  // caller succeeded with it, and no record is ever incomplete.
  lemma KeyTakenIffSucceeded(c: Webhook.Config, now: Time, steps: seq<Step>, k: IdemKey)
    requires Legal(Initial(c, now), steps)
    ensures var s := After(Initial(c, now), steps);
            k in s.tables.records <==>
            exists pid :: pid in s.processes && TookKey(s.processes[pid], k)
  {
    Serializable(c, now, steps);
    var s := After(Initial(c, now), steps);
    RecordsAreAnswers(s.config, s.log, k);
    if KeyAnswered(s.log, k) {
      var i :| 0 <= i < |s.log| && AnswersKey(s.log[i], k);
      var pid := s.log[i].pid;
      AnswerOfPid(s.processes, s.log, i);
      assert TookKey(s.processes[pid], k);
    }
    if pid :| pid in s.processes && TookKey(s.processes[pid], k) {
      var i := AnswerIndex(s.processes, s.log, pid);
      assert AnswersKey(s.log[i], k);
    }
  }

  predicate TookKey(p: Process, k: IdemKey) {
    Succeeded(p) && Validate(p.request).None? && KeyOf(p.request) == k
  }

  lemma AnswerOfPid(ps: map<Pid, Process>, log: seq<Event>, i: nat)
    requires AnswersOk(ps, log) && i < |log| && log[i].Answered?
    ensures log[i].pid in ps && IsAnswerOf(log[i], log[i].pid, ps[log[i].pid])
  {
    var pid := log[i].pid;
    var j := AnswerIndex(ps, log, pid);
    assert i == j;
  }
}
