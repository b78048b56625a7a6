// Repeating a request in the running system: it is answered from the record of
// its key, at once and without any effect.
module Repeats {
  import opened Entities
  import opened Engine
  import opened Honesty
  import opened Meaning
  import opened Protocol
  import opened Invariant
  import opened Serializability
  import opened ExactlyOnce
  import opened Runs
  import opened Progress
  import Webhook

  // What a request gets when its key is on record: the stored answer if and only
  // if its payload is the stored one.
  function FromRecord(record: Record, r: Request): Outcome {
    if record.hash == r.hash then Success(record.status, record.body, true) else Failure(DifferentPayload)
  }

  // The caller q has this answer.
  predicate HasAnswer(s: System, q: Pid, outcome: Outcome) {
    q in s.processes && s.processes[q].pc == Done(outcome)
  }

  // No table and no delivery has changed.
  predicate Unmoved(s: System, s': System) {
    s'.tables == s.tables && s'.outbox == s.outbox
  }

  lemma FetchGivesRecord(s: System, pid: Pid)
    requires RecordsOk(s.tables) && Enabled(s, Fetch(pid))
    ensures var r := s.processes[pid].request;
            && WellFormed(r) && RequestKey(r) in s.tables.records
            && HasAnswer(Next(s, Fetch(pid)), pid, FromRecord(s.tables.records[RequestKey(r)], r))
            && Unmoved(s, Next(s, Fetch(pid)))
  {
    assert s.tables.records[KeyOf(s.processes[pid].request)].status == 200;
  }

  // In every reachable state a request that lost the race for its key is answered
  // with the stored status and body exactly if its hash is the one on record, and
  // with the conflict exactly if it is not.
  lemma FetchAnswers(c: Webhook.Config, now: Time, steps: seq<Step>, pid: Pid)
    requires Legal(Initial(c, now), steps) && Enabled(After(Initial(c, now), steps), Fetch(pid))
    ensures var s := After(Initial(c, now), steps);
            var s' := Next(s, Fetch(pid));
            var r := s.processes[pid].request;
            && WellFormed(r) && RequestKey(r) in s.tables.records && Unmoved(s, s')
            && var rec := s.tables.records[RequestKey(r)];
               && (HasAnswer(s', pid, Success(rec.status, rec.body, true)) <==> r.hash == rec.hash)
               && (HasAnswer(s', pid, Failure(DifferentPayload)) <==> r.hash != rec.hash)
  {
    InitialInv(c, now);
    InvAlways(Initial(c, now), steps);
    FetchGivesRecord(After(Initial(c, now), steps), pid);
  }

  // A success is on record as the caller saw it, from then on.
  lemma SuccessOnRecord(c: Webhook.Config, ps: map<Pid, Process>, log: seq<Event>, p: Pid)
    requires Faithful(c, log) && AnswersOk(ps, log) && p in ps && Succeeded(ps[p])
    ensures WellFormed(ps[p].request) && RequestKey(ps[p].request) in Serial(c, log).records
    ensures var rec := Serial(c, log).records[RequestKey(ps[p].request)];
            ResultOf(ps[p]).Success? && rec.hash == ps[p].request.hash
            && rec.status == ResultOf(ps[p]).status && rec.body == ResultOf(ps[p]).body
  {
    var i := AnswerIndex(ps, log, p);
    AnswerOnRecord(c, log, i);
    RecordsPersist(c, log, i + 1, RequestKey(ps[p].request));
  }

  // Nobody holds a key that is on record.
  lemma RecordedKeyIsFree(s: System, pid: Pid, key: IdemKey)
    requires AllOk(s.config, s.tables, s.clock, s.processes) && key in s.tables.records
    ensures KeyFree(s, pid, key)
  {
    forall q | q in s.processes && q != pid && HoldsKey(s.processes[q]) && Validate(s.processes[q].request).None?
      ensures KeyOf(s.processes[q].request) != key
    {
      assert ProcessOk(s.config, s.tables, s.clock, s.processes[q]);
    }
  }

  lemma ArrivalStarts(s: System, q: Pid, r: Request, key: IdemKey)
    requires q !in s.processes && WellFormed(r) && KeyFree(s, q, key)
    ensures Enabled(s, Arrival(q, r))
    ensures var s' := Next(s, Arrival(q, r));
            && q in s'.processes && s'.processes[q] == Process(r, Start, NO_DRAW, []) && KeyFree(s', q, key)
            && Unmoved(s, s') && s'.used == s.used
  {
  }

  lemma ReservationLoses(s: System, q: Pid, r: Request, draw: Draw)
    requires q in s.processes && s.processes[q] == Process(r, Start, NO_DRAW, []) && WellFormed(r)
    requires KeyFree(s, q, RequestKey(r)) && RequestKey(r) in s.tables.records
    requires IdsOf(draw) !! s.used && draw.firstEntry != draw.secondEntry
    ensures Enabled(s, Reservation(q, draw))
    ensures var s' := Next(s, Reservation(q, draw));
            && q in s'.processes && s'.processes[q] == Process(r, Losing, NO_DRAW, []) && Unmoved(s, s')
  {
  }

  // Arriving, failing to reserve the key, and reading its record.
  lemma RepeatRuns(s: System, q: Pid, r: Request, draw: Draw)
    requires RecordsOk(s.tables) && q !in s.processes && WellFormed(r) && RequestKey(r) in s.tables.records
    requires KeyFree(s, q, RequestKey(r)) && IdsOf(draw) !! s.used && draw.firstEntry != draw.secondEntry
    ensures var steps := [Arrival(q, r), Reservation(q, draw), Fetch(q)];
            && Legal(s, steps) && Unmoved(s, After(s, steps))
            && HasAnswer(After(s, steps), q, FromRecord(s.tables.records[RequestKey(r)], r))
  {
    ArrivalStarts(s, q, r, RequestKey(r));
    var s1 := Next(s, Arrival(q, r));
    ReservationLoses(s1, q, r, draw);
    var s2 := Next(s1, Reservation(q, draw));
    FetchGivesRecord(s2, q);
    ThreeSteps(s, Arrival(q, r), Reservation(q, draw), Fetch(q));
  }

  lemma ThreeSteps(s: System, a: Step, b: Step, c: Step)
    requires Enabled(s, a) && Enabled(Next(s, a), b) && Enabled(Next(Next(s, a), b), c)
    ensures Legal(s, [a, b, c]) && After(s, [a, b, c]) == Next(Next(Next(s, a), b), c)
  {
    RunOne(s, a);
    RunSnoc(s, [a], b);
    RunSnoc(s, [a] + [b], c);
    assert [a] + [b] + [c] == [a, b, c];
  }

  // In every reachable state, whoever repeats a request that has succeeded can be
  // answered in three steps, whatever everybody else is doing: with the status and
  // the body that the first caller saw if the payload is the same, with the
  // conflict if it is not. No table and no delivery changes.
  lemma RepeatIsAnswered(c: Webhook.Config, now: Time, steps: seq<Step>, p: Pid, q: Pid, r: Request)
    returns (draw: Draw)
    requires Legal(Initial(c, now), steps)
    requires var ps := After(Initial(c, now), steps).processes;
             && p in ps && Succeeded(ps[p]) && q !in ps
             && WellFormed(r) && WellFormed(ps[p].request) && RequestKey(r) == RequestKey(ps[p].request)
    ensures var s := After(Initial(c, now), steps);
            var repeat := [Arrival(q, r), Reservation(q, draw), Fetch(q)];
            && Legal(s, repeat)
            && Unmoved(s, After(s, repeat))
            && HasAnswer(After(s, repeat), q,
                    if r.hash == s.processes[p].request.hash
                    then Success(ResultOf(s.processes[p]).status, ResultOf(s.processes[p]).body, true)
                    else Failure(DifferentPayload))
  {
    Serializable(c, now, steps);
    InitialInv(c, now);
    InvAlways(Initial(c, now), steps);
    var s := After(Initial(c, now), steps);
    SuccessOnRecord(c, s.processes, s.log, p);
    draw := FreshDraw(s.used);
    RecordedKeyIsFree(s, q, RequestKey(r));
    RepeatRuns(s, q, r, draw);
  }
}
