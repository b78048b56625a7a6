// Every step that commits nothing keeps the invariant.
module QuietSteps {
  import opened Entities
  import opened Engine
  import opened Honesty
  import opened Protocol
  import opened Invariant
  import Webhook

  // ---------- one process moves, the tables stay ----------

  lemma OlderOk(c: Webhook.Config, t: Tables, clock: Time, later: Time, p: Process)
    requires ProcessOk(c, t, clock, p) && clock <= later
    ensures ProcessOk(c, t, later, p)
  {
  }

  lemma MoveOne(c: Webhook.Config, t: Tables, clock: Time, later: Time, processes: map<Pid, Process>, pid: Pid,
                p: Process)
    requires AllOk(c, t, clock, processes) && clock <= later && ProcessOk(c, t, later, p)
    ensures AllOk(c, t, later, processes[pid := p])
  {
    forall q | q in processes && q != pid ensures ProcessOk(c, t, later, processes[q]) {
      OlderOk(c, t, clock, later, processes[q]);
    }
  }

  lemma CompatibleSymmetric(p: Process, q: Process)
    requires Compatible(p, q)
    ensures Compatible(q, p)
  {
  }

  lemma FitOne(processes: map<Pid, Process>, pid: Pid, p: Process)
    requires AllCompatible(processes) && FitsIn(processes, pid, p)
    ensures AllCompatible(processes[pid := p])
  {
    forall q | q in processes && q != pid ensures Compatible(p, processes[q]) && Compatible(processes[q], p) {
      CompatibleSymmetric(p, processes[q]);
    }
  }

  lemma KeepFresh(known: set<Id>, used: set<Id>, used': set<Id>, processes: map<Pid, Process>, pid: Pid, p: Process)
    requires AllFresh(known, used, processes) && used <= used' && IdsFresh(known, used', p)
    ensures AllFresh(known, used', processes[pid := p])
  {
  }

  // What a step that commits nothing may do to the system.
  ghost predicate Quiet(s: System, s': System, pid: Pid, p: Process) {
    s'.config == s.config && s'.tables == s.tables && s'.processes == s.processes[pid := p]
    && s.clock <= s'.clock && s.used <= s'.used
    && s'.outbox.deliveries == s.outbox.deliveries && Webhook.OutboxOk(s'.config, s'.outbox)
    && LogOk(s'.config, s'.tables, s'.log)
  }

  // The process p that moved stands well, alone and beside the others.
  ghost predicate StandsWell(s: System, s': System, pid: Pid, p: Process) {
    ProcessOk(s.config, s.tables, s'.clock, p) && FitsIn(s.processes, pid, p)
    && IdsFresh(Known(s.tables, s.outbox), s'.used, p)
    && (p.pc.Announcing? && p.pc.announced.Some? ==> p.pc.announced.value in s.outbox.deliveries)
  }

  // The part of the invariant that speaks of processes, the outbox and the log.
  ghost predicate Steady(s: System) {
    AllOk(s.config, s.tables, s.clock, s.processes)
    && AllFresh(Known(s.tables, s.outbox), s.used, s.processes)
    && AllCompatible(s.processes)
    && Webhook.OutboxOk(s.config, s.outbox)
    && LogOk(s.config, s.tables, s.log)
  }

  lemma QuietKeepsSteady(s: System, s': System, pid: Pid, p: Process)
    requires Steady(s) && Quiet(s, s', pid, p) && StandsWell(s, s', pid, p)
    ensures Steady(s')
  {
    MoveOne(s.config, s.tables, s.clock, s'.clock, s.processes, pid, p);
    FitOne(s.processes, pid, p);
    assert Known(s'.tables, s'.outbox) == Known(s.tables, s.outbox);
    KeepFresh(Known(s.tables, s.outbox), s.used, s'.used, s.processes, pid, p);
  }

  lemma KeepAnnounced(processes: map<Pid, Process>, deliveries: map<Id, Webhook.Delivery>, pid: Pid, p: Process)
    requires AnnouncedOk(processes, deliveries)
    requires p.pc.Announcing? && p.pc.announced.Some? ==> p.pc.announced.value in deliveries
    ensures AnnouncedOk(processes[pid := p], deliveries)
  {
  }

  lemma QuietKeepsInv(s: System, s': System, pid: Pid, p: Process)
    requires Inv(s) && Quiet(s, s', pid, p) && StandsWell(s, s', pid, p)
    ensures Inv(s')
  {
    assert Steady(s') by { QuietKeepsSteady(s, s', pid, p); }
    assert AnnouncedOk(s'.processes, s'.outbox.deliveries) by {
      KeepAnnounced(s.processes, s.outbox.deliveries, pid, p);
    }
    assert Known(s'.tables, s'.outbox) == Known(s.tables, s.outbox);
  }

  // The moved process holds nothing that it did not hold before.
  ghost predicate GivesNothingMore(p: Process, p': Process) {
    HeldRows(p') <= HeldRows(p)
    && (HoldsKey(p') ==> HoldsKey(p) && p'.request == p.request && IdsOf(p'.draw) == IdsOf(p.draw)
                         && p'.draw.firstEntry == p.draw.firstEntry && p'.draw.secondEntry == p.draw.secondEntry)
  }

  lemma ReleasedFits(processes: map<Pid, Process>, pid: Pid, p': Process)
    requires AllCompatible(processes) && pid in processes && GivesNothingMore(processes[pid], p')
    ensures FitsIn(processes, pid, p')
  {
    forall q | q in processes && q != pid ensures Compatible(p', processes[q]) {
      assert Compatible(processes[pid], processes[q]);
    }
  }

  // pid moves, quietly, to where it stands well.
  ghost predicate QuietStep(s: System, s': System, pid: Pid) {
    pid in s'.processes && Quiet(s, s', pid, s'.processes[pid]) && StandsWell(s, s', pid, s'.processes[pid])
  }

  lemma ReleasedStandsWell(s: System, s': System, pid: Pid, p: Process)
    requires AllCompatible(s.processes) && AllFresh(Known(s.tables, s.outbox), s.used, s.processes)
    requires pid in s.processes && GivesNothingMore(s.processes[pid], p) && s.used <= s'.used
    requires ProcessOk(s.config, s.tables, s'.clock, p) && !p.pc.Announcing?
    ensures StandsWell(s, s', pid, p)
  {
    ReleasedFits(s.processes, pid, p);
    assert IdsFresh(Known(s.tables, s.outbox), s.used, s.processes[pid]);
  }

  // ---------- what each step does to its process ----------

  lemma ArrivalOk(c: Webhook.Config, t: Tables, clock: Time, r: Request)
    ensures ProcessOk(c, t, clock, Process(r, if Validate(r).Some? then Done(Failure(Validate(r).value)) else Start,
            NO_DRAW, []))
  {
  }

  lemma AbortOk(c: Webhook.Config, t: Tables, clock: Time, p: Process, e: Error)
    requires e != StillProcessing
    ensures ProcessOk(c, t, clock, Abort(p, e)) && GivesNothingMore(p, Abort(p, e))
  {
  }

  lemma ResolvingOk(c: Webhook.Config, t: Tables, clock: Time, p: Process, own: Id)
    requires ProcessOk(c, t, clock, p) && p.pc.Reserved?
    requires ResolvedOk(t, p, own)
    ensures ProcessOk(c, t, clock, p.(pc := Resolved(own))) && GivesNothingMore(p, p.(pc := Resolved(own)))
  {
  }

  // The answer to a taken key is the one Execute gives, and a completed record
  // is never still in progress.
  lemma AnswerFromRecord(c: Webhook.Config, t: Tables, r: Request, draw: Draw)
    requires RecordsOk(t) && Validate(r).None? && KeyOf(r) in t.records
    ensures var e := Execute(c, t, r, draw);
            e.tables == t && e.outcome == ReplayOutcome(t.records[KeyOf(r)], r.hash)
            && e.outcome != Failure(StillProcessing)
  {
  }

  lemma LogGrows(c: Webhook.Config, t: Tables, log: seq<Event>, pid: Pid, r: Request, draw: Draw, outcome: Outcome)
    requires LogOk(c, t, log) && Validate(r).None?
    requires outcome.Success? && outcome == Execute(c, t, r, draw).outcome
    ensures LogOk(c, Execute(c, t, r, draw).tables, log + [Answered(pid, r, draw, outcome)])
  {
    var e := Answered(pid, r, draw, outcome);
    var log' := log + [e];
    assert log'[..|log|] == log;
    forall i | 0 <= i < |log'| && log'[i].Answered?
      ensures log'[i].outcome.Success? && Validate(log'[i].request).None?
              && log'[i].outcome == Execute(c, Serial(c, log'[..i]), log'[i].request, log'[i].draw).outcome
    {
      assert log'[..i] == log[..i];
    }
  }

  lemma StatementOk(c: Webhook.Config, t: Tables, clock: Time, p: Process)
    requires ProcessOk(c, t, clock, p) && p.pc.Writing? && p.pc.todo != [] && RowOk(p.pc.todo[0])
    ensures var p' := p.(pc := p.pc.(todo := p.pc.todo[1..]), buffer := p.buffer + [p.pc.todo[0]]);
            ProcessOk(c, t, clock, p') && GivesNothingMore(p, p')
  {
    assert p.buffer + [p.pc.todo[0]] + p.pc.todo[1..] == p.buffer + p.pc.todo;
  }

  // ---------- step by step ----------

  lemma ArrivalIsQuiet(s: System, pid: Pid, r: Request)
    requires Steady(s) && Enabled(s, Arrival(pid, r))
    ensures QuietStep(s, Next(s, Arrival(pid, r)), pid)
  {
    ArrivalOk(s.config, s.tables, s.clock, r);
  }

  lemma FailingIsQuiet(s: System, pid: Pid)
    requires Steady(s) && Enabled(s, Failing(pid))
    ensures QuietStep(s, Next(s, Failing(pid)), pid)
  {
    AbortOk(s.config, s.tables, s.clock, s.processes[pid], Internal);
    ReleasedStandsWell(s, Next(s, Failing(pid)), pid, Abort(s.processes[pid], Internal));
  }

  lemma LookupIsQuiet(s: System, pid: Pid)
    requires Steady(s) && Enabled(s, Lookup(pid))
    ensures QuietStep(s, Next(s, Lookup(pid)), pid)
  {
    var s' := Next(s, Lookup(pid));
    var p := s.processes[pid];
    if s'.processes[pid].pc.Resolved? {
      ResolvingOk(s.config, s.tables, s.clock, p, s.tables.owner[p.request.user.value]);
    } else {
      AbortOk(s.config, s.tables, s.clock, p, s'.processes[pid].pc.outcome.error);
    }
    ReleasedStandsWell(s, s', pid, s'.processes[pid]);
  }

  lemma FetchIsQuiet(s: System, pid: Pid)
    requires Steady(s) && RecordsOk(s.tables) && Enabled(s, Fetch(pid))
    ensures QuietStep(s, Next(s, Fetch(pid)), pid)
  {
    var s' := Next(s, Fetch(pid));
    var p := s.processes[pid];
    var outcome := ReplayOutcome(s.tables.records[KeyOf(p.request)], p.request.hash);
    AnswerFromRecord(s.config, s.tables, p.request, p.draw);
    if outcome.Success? {
      LogGrows(s.config, s.tables, s.log, pid, p.request, p.draw, outcome);
    }
    ReleasedStandsWell(s, s', pid, p.(pc := Done(outcome)));
  }

  lemma StatementIsQuiet(s: System, pid: Pid)
    requires Steady(s) && Enabled(s, Statement(pid))
    ensures QuietStep(s, Next(s, Statement(pid)), pid)
  {
    var s' := Next(s, Statement(pid));
    var p := s.processes[pid];
    if RowOk(p.pc.todo[0]) {
      StatementOk(s.config, s.tables, s.clock, p);
    } else {
      AbortOk(s.config, s.tables, s.clock, p, Internal);
    }
    ReleasedStandsWell(s, s', pid, s'.processes[pid]);
  }

  // ---------- locking ----------

  lemma {:induction false} PresentMeaning(wallets: map<Id, Wallet>, ids: seq<Id>)
    requires forall i, j :: 0 <= i < j < |ids| ==> ids[i] < ids[j]
    ensures var p := Present(wallets, ids);
            (forall id :: id in p <==> id in ids && id in wallets) && LocksAscend(map[], p)
  {
    if ids != [] {
      var rest := Present(wallets, ids[1..]);
      PresentMeaning(wallets, ids[1..]);
      assert ids == [ids[0]] + ids[1..];
      assert forall id :: id in rest ==> ids[0] < id;
      assert forall k :: 0 <= k < |rest| ==> rest[k] in rest;
    }
  }

  lemma LockStartOk(c: Webhook.Config, t: Tables, clock: Time, p: Process)
    requires ProcessOk(c, t, clock, p) && p.pc.Resolved?
    ensures var p' := p.(pc := Locking(p.pc.own, Present(t.wallets, Targets(p.request, p.pc.own)), map[]));
            ProcessOk(c, t, clock, p') && GivesNothingMore(p, p')
  {
    PresentMeaning(t.wallets, Targets(p.request, p.pc.own));
  }

  lemma LockStartIsQuiet(s: System, pid: Pid)
    requires Steady(s) && Enabled(s, LockStart(pid))
    ensures QuietStep(s, Next(s, LockStart(pid)), pid)
  {
    var s' := Next(s, LockStart(pid));
    LockStartOk(s.config, s.tables, s.clock, s.processes[pid]);
    ReleasedStandsWell(s, s', pid, s'.processes[pid]);
  }

  lemma LocksAscendMoves(rows: map<Id, Wallet>, waiting: seq<Id>, w: Wallet)
    requires LocksAscend(rows, waiting) && waiting != []
    ensures LocksAscend(rows[waiting[0] := w], waiting[1..])
  {
    var rows', waiting' := rows[waiting[0] := w], waiting[1..];
    forall v, u | v in rows' && u in waiting' ensures v < u {
      assert u in waiting;
    }
  }

  lemma LockRowOk(c: Webhook.Config, t: Tables, clock: Time, p: Process)
    requires ProcessOk(c, t, clock, p) && p.pc.Locking? && p.pc.waiting != []
    requires p.pc.waiting[0] in t.wallets
    ensures var row := p.pc.waiting[0];
            ProcessOk(c, t, clock, p.(pc := Locking(p.pc.own, p.pc.waiting[1..], p.pc.rows[row := t.wallets[row]])))
  {
    LocksAscendMoves(p.pc.rows, p.pc.waiting, t.wallets[p.pc.waiting[0]]);
  }

  lemma LockRowFits(s: System, pid: Pid, p': Process)
    requires AllCompatible(s.processes) && pid in s.processes && s.processes[pid].pc.Locking? && p'.pc.Locking?
    requires p'.request == s.processes[pid].request && p'.draw == s.processes[pid].draw
    requires exists row :: RowFree(s, pid, row) && HeldRows(p') == HeldRows(s.processes[pid]) + {row}
    ensures FitsIn(s.processes, pid, p')
  {
    forall q | q in s.processes && q != pid ensures Compatible(p', s.processes[q]) {
      assert Compatible(s.processes[pid], s.processes[q]);
    }
  }

  lemma LockRowIsQuiet(s: System, pid: Pid)
    requires Steady(s) && Enabled(s, LockRow(pid))
    ensures QuietStep(s, Next(s, LockRow(pid)), pid)
  {
    var s' := Next(s, LockRow(pid));
    LockRowOk(s.config, s.tables, s.clock, s.processes[pid]);
    LockRowFits(s, pid, s'.processes[pid]);
    assert IdsFresh(Known(s.tables, s.outbox), s.used, s.processes[pid]);
  }

  // ---------- deciding ----------

  lemma DecisionOk(c: Webhook.Config, t: Tables, clock: Time, p: Process, first: Time, second: Time)
    requires ProcessOk(c, t, clock, p) && p.pc.Locking? && clock <= first <= second && ClockAhead(t, clock)
    requires Refuse(p.request, p.pc.own, p.pc.rows).None?
    ensures var draw := p.draw.(firstTime := first, secondTime := second);
            var plan := PlanOf(c, p.request, p.pc.own, p.pc.rows, draw);
            var p' := p.(draw := draw, pc := Writing(p.pc.own, p.pc.rows, plan.writes, plan.body, plan.delivery));
            ProcessOk(c, t, second, p') && GivesNothingMore(p, p')
  {
    assert p.pc.rows == RowsOf(t.wallets, Targets(p.request, p.pc.own));
  }

  lemma DecisionIsQuiet(s: System, pid: Pid, first: Time, second: Time)
    requires Steady(s) && ClockAhead(s.tables, s.clock) && Enabled(s, Decision(pid, first, second))
    ensures QuietStep(s, Next(s, Decision(pid, first, second)), pid)
  {
    var s' := Next(s, Decision(pid, first, second));
    var p := s.processes[pid];
    var refusal := Refuse(p.request, p.pc.own, p.pc.rows);
    if refusal.Some? {
      AbortOk(s.config, s.tables, second, p, refusal.value);
    } else {
      DecisionOk(s.config, s.tables, s.clock, p, first, second);
    }
    ReleasedStandsWell(s, s', pid, s'.processes[pid]);
  }

  // ---------- reserving ----------

  lemma ReservationFits(s: System, pid: Pid, p: Process, draw: Draw)
    requires Validate(p.request).None? && KeyFree(s, pid, KeyOf(p.request)) && p.pc.Reserved? && p.draw == draw
    requires AllFresh(Known(s.tables, s.outbox), s.used, s.processes) && IdsOf(draw) !! s.used
    ensures FitsIn(s.processes, pid, p)
  {
    forall q | q in s.processes && q != pid ensures Compatible(p, s.processes[q]) {
      assert IdsFresh(Known(s.tables, s.outbox), s.used, s.processes[q]);
    }
  }

  lemma ReservationIsQuiet(s: System, pid: Pid, draw: Draw)
    requires Steady(s) && Known(s.tables, s.outbox) <= s.used && Enabled(s, Reservation(pid, draw))
    ensures QuietStep(s, Next(s, Reservation(pid, draw)), pid)
  {
    var s' := Next(s, Reservation(pid, draw));
    var p := s.processes[pid];
    if KeyOf(p.request) in s.tables.records {
      ReleasedStandsWell(s, s', pid, p.(pc := Losing));
    } else {
      ReservationFits(s, pid, s'.processes[pid], draw);
    }
  }

  // ---------- after the commit ----------

  lemma AnnouncementIsQuiet(s: System, pid: Pid)
    requires Steady(s) && AnnouncedOk(s.processes, s.outbox.deliveries) && Enabled(s, Announcement(pid))
    requires s.processes[pid].pc.result != Failure(StillProcessing)
    ensures QuietStep(s, Next(s, Announcement(pid)), pid)
  {
    var s' := Next(s, Announcement(pid));
    var p := s.processes[pid];
    if p.pc.announced.Some? {
      Webhook.AnnounceKeepsOk(s.config, s.outbox, p.pc.announced.value);
    }
    ReleasedStandsWell(s, s', pid, p.(pc := Done(p.pc.result)));
  }
}
