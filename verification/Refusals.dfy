// The failures of concurrent requests: each is the answer that the operation
// gives when run alone at a moment of the request.
module Refusals {
  import opened Int64
  import opened Entities
  import opened Sequences
  import opened Engine
  import opened Honesty
  import opened Meaning
  import opened Protocol
  import opened Invariant
  import opened QuietSteps
  import opened Runs
  import Webhook

  // ---------- at the step that ends the request ----------

  // One of the wallets to lock does not exist.
  predicate MissingTarget(t: Tables, r: Request) {
    Validate(r).None? && r.user.value in t.owner && !ToSelf(r, t.owner[r.user.value])
    && exists id :: id in Targets(r, t.owner[r.user.value]) && id !in t.wallets
  }

  lemma MissingIsNotFound(c: Webhook.Config, t: Tables, r: Request, draw: Draw)
    requires Validate(r).None? && KeyOf(r) !in t.records && r.user.value in t.owner && !ToSelf(r, t.owner[r.user.value])
    ensures Execute(c, t, r, draw).outcome == Failure(WalletNotFound) <==> MissingTarget(t, r)
  {
    var own := t.owner[r.user.value];
    assert r.TopUpRequest? ==> Targets(r, own)[0] == own;
    var rows := RowsOf(t.wallets, Targets(r, own));
    assert own in rows <==> own in t.wallets;
    assert r.TransferRequest? ==> (r.recipient.value in rows <==> r.recipient.value in t.wallets);
  }

  // On the locked rows a refusal other than a missing wallet is the one that the
  // committed rows call for.
  lemma RefusalOnRows(c: Webhook.Config, t: Tables, clock: Time, p: Process)
    requires ProcessOk(c, t, clock, p) && p.pc.Locking? && p.pc.waiting == []
    requires Refuse(p.request, p.pc.own, p.pc.rows).Some?
    requires Refuse(p.request, p.pc.own, p.pc.rows) != Some(WalletNotFound)
    ensures Execute(c, t, p.request, p.draw).outcome == Failure(Refuse(p.request, p.pc.own, p.pc.rows).value)
  {
    assert p.pc.rows == RowsOf(t.wallets, Targets(p.request, p.pc.own));
  }

  // A statement that a CHECK refuses fails the operation when run alone, too.
  lemma RefusedStatement(c: Webhook.Config, t: Tables, clock: Time, p: Process)
    requires ProcessOk(c, t, clock, p) && p.pc.Writing? && p.pc.todo != [] && !RowOk(p.pc.todo[0])
    ensures Execute(c, t, p.request, p.draw).outcome == Failure(Internal)
  {
    var plan := PlanOf(c, p.request, p.pc.own, p.pc.rows, p.draw);
    var record := InsertRecord(PendingRecord(p.request, p.draw));
    assert p.pc.todo[0] in p.buffer + p.pc.todo;
    assert p.pc.todo[0] in [record] + plan.writes;
    assert p.pc.todo[0] in plan.writes;
  }

  // The step ends the request of pid with e.
  ghost predicate EndsWith(s: System, step: Step, pid: Pid, e: Error) {
    Enabled(s, step) && Mover(step) == Some(pid)
    && (pid in s.processes ==> !s.processes[pid].pc.Done?)
    && pid in Next(s, step).processes && Next(s, step).processes[pid].pc == Done(Failure(e))
  }

  // The answer that the operation of p gives when run alone now.
  function AnswerAlone(s: System, p: Process): Outcome {
    Execute(s.config, s.tables, p.request, p.draw).outcome
  }

  lemma StepRefusal(s: System, step: Step, pid: Pid, e: Error)
    requires AllOk(s.config, s.tables, s.clock, s.processes) && EndsWith(s, step, pid, e) && !step.Failing?
    ensures var p := Next(s, step).processes[pid];
            AnswerAlone(s, p) == Failure(e) <==> (e == WalletNotFound ==> MissingTarget(s.tables, p.request))
  {
    if !step.Arrival? {
      var p := s.processes[pid];
      assert ProcessOk(s.config, s.tables, s.clock, p);
      if step.Decision? {
        if e == WalletNotFound {
          MissingIsNotFound(s.config, s.tables, p.request, p.draw);
        } else {
          RefusalOnRows(s.config, s.tables, s.clock, p);
        }
      } else if step.Statement? {
        RefusedStatement(s.config, s.tables, s.clock, p);
      }
    }
  }

  // Failures are serializable too. In every run a step that ends a request with
  // an error, other than a failure from outside, gives the answer that the
  // operation gives when run alone at that moment; the one exception is a missing
  // wallet that was registered after the locking statement had started.
  lemma RefusalsAreExact(c: Webhook.Config, now: Time, steps: seq<Step>, step: Step, pid: Pid, e: Error)
    requires Legal(Initial(c, now), steps)
    requires EndsWith(After(Initial(c, now), steps), step, pid, e) && !step.Failing?
    ensures var s := After(Initial(c, now), steps);
            var p := Next(s, step).processes[pid];
            && s.config == c
            && (AnswerAlone(s, p) == Failure(e) <==> (e == WalletNotFound ==> MissingTarget(s.tables, p.request)))
  {
    ConfigKept(Initial(c, now), steps);
    InitialInv(c, now);
    InvAlways(Initial(c, now), steps);
    StepRefusal(After(Initial(c, now), steps), step, pid, e);
  }

  // A failure from outside is told as an internal error, and nothing of the request
  // remains: no table, delivery or answer changes, and its locks are free.
  lemma OutsideFailure(s: System, pid: Pid)
    requires Enabled(s, Failing(pid))
    ensures var s' := Next(s, Failing(pid));
            && pid in s'.processes && s'.processes[pid].pc == Done(Failure(Internal)) && s'.processes[pid].buffer == []
            && !HoldsKey(s'.processes[pid]) && HeldRows(s'.processes[pid]) == {}
            && s'.tables == s.tables && s'.outbox == s.outbox && s'.log == s.log
            && (forall q :: q in s.processes && q != pid ==> s'.processes[q] == s.processes[q])
  {
  }

  // ---------- a missing wallet, seen when the locking statement started ----------

  // A target that the locking statement of p did not see.
  predicate Unseen(p: Process, id: Id) {
    p.pc.Locking? && Validate(p.request).None? && !ToSelf(p.request, p.pc.own) && id in Targets(p.request, p.pc.own)
    && id !in p.pc.rows && id !in p.pc.waiting
  }

  ghost predicate SawMissing(p: Process) {
    p.pc == Done(Failure(WalletNotFound)) || exists id :: Unseen(p, id)
  }

  // The locking statement sees a target exactly if it exists when the statement
  // starts.
  lemma UnseenIsMissing(c: Webhook.Config, t: Tables, clock: Time, p: Process, id: Id)
    requires ProcessOk(c, t, clock, p) && p.pc.Resolved? && id in Targets(p.request, p.pc.own)
    ensures id in Present(t.wallets, Targets(p.request, p.pc.own)) <==> id in t.wallets
    ensures id !in t.wallets ==> Execute(c, t, p.request, p.draw).outcome == Failure(WalletNotFound)
  {
    PresentMeaning(t.wallets, Targets(p.request, p.pc.own));
    if id !in t.wallets {
      MissingIsNotFound(c, t, p.request, p.draw);
    }
  }

  // pid stands before its locking statement, and its answer alone is a missing wallet.
  ghost predicate MissingNow(s: System, pid: Pid, r: Request) {
    pid in s.processes && s.processes[pid].pc.Resolved? && s.processes[pid].request == r
    && AnswerAlone(s, s.processes[pid]) == Failure(WalletNotFound)
  }

  // The moment is n steps into the run.
  ghost predicate MissingAt(s: System, steps: seq<Step>, n: nat, pid: Pid, r: Request) {
    n <= |steps| && Legal(s, steps[..n]) && MissingNow(After(s, steps[..n]), pid, r)
  }

  lemma LockingSaw(p: Process, p': Process, row: Id, w: Wallet)
    requires p.pc.Locking? && p.pc.waiting != [] && row == p.pc.waiting[0]
    requires p' == p.(pc := Locking(p.pc.own, p.pc.waiting[1..], p.pc.rows[row := w])) && SawMissing(p')
    ensures SawMissing(p)
  {
    var id :| Unseen(p', id);
    assert forall k :: k in p.pc.waiting ==> k == row || k in p.pc.waiting[1..];
    assert Unseen(p, id);
  }

  lemma DecisionSaw(c: Webhook.Config, t: Tables, clock: Time, p: Process)
    requires ProcessOk(c, t, clock, p) && p.pc.Locking? && p.pc.waiting == []
    requires Refuse(p.request, p.pc.own, p.pc.rows) == Some(WalletNotFound)
    ensures SawMissing(p)
  {
    if p.pc.own !in p.pc.rows {
      assert Unseen(p, p.pc.own);
    } else {
      assert Unseen(p, p.request.recipient.value);
    }
  }

  lemma LockStartSaw(s: System, pid: Pid)
    requires AllOk(s.config, s.tables, s.clock, s.processes) && Enabled(s, LockStart(pid))
    requires SawMissing(Next(s, LockStart(pid)).processes[pid])
    ensures MissingNow(s, pid, s.processes[pid].request)
  {
    var p, p' := s.processes[pid], Next(s, LockStart(pid)).processes[pid];
    assert ProcessOk(s.config, s.tables, s.clock, p);
    var id :| Unseen(p', id);
    UnseenIsMissing(s.config, s.tables, s.clock, p, id);
  }

  // Whoever has missed a wallet after a step had missed it before, or the step
  // starts its locking statement while the wallet is missing.
  lemma StepSaw(s: System, step: Step, pid: Pid)
    requires AllOk(s.config, s.tables, s.clock, s.processes) && Enabled(s, step) && Mover(step) == Some(pid)
    requires pid in Next(s, step).processes && SawMissing(Next(s, step).processes[pid])
    ensures pid in s.processes && s.processes[pid].request == Next(s, step).processes[pid].request
    ensures SawMissing(s.processes[pid]) || MissingNow(s, pid, s.processes[pid].request)
  {
    var p' := Next(s, step).processes[pid];
    if step.Arrival? {
      assert false;
    } else {
      assert ProcessOk(s.config, s.tables, s.clock, s.processes[pid]);
      if step.LockStart? {
        LockStartSaw(s, pid);
      } else if step.LockRow? {
        LockingSaw(s.processes[pid], p', s.processes[pid].pc.waiting[0],
          s.tables.wallets[s.processes[pid].pc.waiting[0]]);
      } else if step.Decision? {
        DecisionSaw(s.config, s.tables, s.clock, s.processes[pid]);
      }
    }
  }

  // The other processes keep their place.
  lemma OthersStay(s: System, step: Step, pid: Pid)
    requires Enabled(s, step) && Mover(step) != Some(pid) && !(step.Commit? && step.pid == pid)
    requires pid in Next(s, step).processes
    ensures pid in s.processes && Next(s, step).processes[pid] == s.processes[pid]
  {
  }

  lemma CommitSawNothing(s: System, step: Step)
    requires Enabled(s, step) && step.Commit?
    ensures !SawMissing(Next(s, step).processes[step.pid])
  {
  }

  lemma StepBack(s: System, step: Step, pid: Pid)
    requires AllOk(s.config, s.tables, s.clock, s.processes) && Enabled(s, step)
    requires pid in Next(s, step).processes && SawMissing(Next(s, step).processes[pid])
    ensures pid in s.processes && s.processes[pid].request == Next(s, step).processes[pid].request
    ensures SawMissing(s.processes[pid]) || MissingNow(s, pid, s.processes[pid].request)
  {
    if step.Commit? && step.pid == pid {
      CommitSawNothing(s, step);
    } else if Mover(step) == Some(pid) {
      StepSaw(s, step, pid);
    } else {
      OthersStay(s, step, pid);
    }
  }

  ghost predicate MissingOnce(s: System, steps: seq<Step>, pid: Pid, r: Request) {
    exists n: nat :: MissingAt(s, steps, n, pid, r)
  }

  lemma MissingLonger(s: System, steps: seq<Step>, n: nat, pid: Pid, r: Request)
    requires n <= |steps| && MissingOnce(s, steps[..n], pid, r)
    ensures MissingOnce(s, steps, pid, r)
  {
    var k: nat :| MissingAt(s, steps[..n], k, pid, r);
    TakeOfTake(steps, k, n);
    assert MissingAt(s, steps, k, pid, r);
  }

  lemma MissingHere(s: System, steps: seq<Step>, n: nat, pid: Pid, r: Request)
    requires n <= |steps| && Legal(s, steps[..n]) && MissingNow(After(s, steps[..n]), pid, r)
    ensures MissingOnce(s, steps, pid, r)
  {
    assert MissingAt(s, steps, n, pid, r);
  }

  lemma {:induction false} SawMissingOnce(s: System, steps: seq<Step>, pid: Pid)
    requires Inv(s) && s.processes == map[] && Legal(s, steps)
    requires pid in After(s, steps).processes && SawMissing(After(s, steps).processes[pid])
    ensures MissingOnce(s, steps, pid, After(s, steps).processes[pid].request)
    decreases |steps|
  {
    if steps != [] {
      var n := |steps| - 1;
      RunUnsnoc(s, steps);
      var before := After(s, steps[..n]);
      InvAlways(s, steps[..n]);
      StepBack(before, steps[n], pid);
      var r := before.processes[pid].request;
      if SawMissing(before.processes[pid]) {
        SawMissingOnce(s, steps[..n], pid);
        MissingLonger(s, steps, n, pid, r);
      } else {
        MissingHere(s, steps, n, pid, r);
      }
    }
  }

  // In every run, a request that was answered "wallet not found" had a moment,
  // just before its locking statement, at which that was the answer of the
  // operation run alone.
  lemma NotFoundWasTrue(c: Webhook.Config, now: Time, steps: seq<Step>, pid: Pid)
    requires Legal(Initial(c, now), steps)
    requires var s := After(Initial(c, now), steps);
             pid in s.processes && s.processes[pid].pc == Done(Failure(WalletNotFound))
    ensures MissingOnce(Initial(c, now), steps, pid, After(Initial(c, now), steps).processes[pid].request)
  {
    InitialInv(c, now);
    SawMissingOnce(Initial(c, now), steps, pid);
  }

  // ---------- overflow ----------

  function Credited(t: Tables, r: Request): Id
    requires Validate(r).None? && r.user.value in t.owner
  {
    if r.TopUpRequest? then t.owner[r.user.value] else r.recipient.value
  }

  // The credited balance fits int64, and the webhook row is accepted.
  predicate Fits(c: Webhook.Config, t: Tables, r: Request)
    requires Validate(r).None? && r.user.value in t.owner && Credited(t, r) in t.wallets
  {
    NoticeOk(c) && t.wallets[Credited(t, r)].balance + r.amount <= MAX_INT64
  }

  lemma ExecutesIffFits(c: Webhook.Config, t: Tables, clock: Time, p: Process)
    requires ProcessOk(c, t, clock, p) && p.pc.Writing? && WalletsOk(t)
    ensures p.request.user.value in t.owner && Credited(t, p.request) in t.wallets
    ensures Executed(Execute(c, t, p.request, p.draw)) <==> Fits(c, t, p.request)
  {
    if p.request.TopUpRequest? {
      TopUpMeaning(c, t, p.request, p.draw);
    } else {
      TransferMeaning(c, t, p.request, p.draw);
    }
  }

  lemma RemainingRefused(c: Webhook.Config, t: Tables, clock: Time, p: Process)
    requires ProcessOk(c, t, clock, p) && p.pc.Writing?
    ensures (exists w :: w in p.pc.todo && !RowOk(w)) <==> !Executed(Execute(c, t, p.request, p.draw))
  {
    var plan := PlanOf(c, p.request, p.pc.own, p.pc.rows, p.draw);
    var all := [InsertRecord(PendingRecord(p.request, p.draw))] + plan.writes;
    assert forall w :: w in p.buffer + p.pc.todo <==> w in p.buffer || w in p.pc.todo;
    assert forall w :: w in all <==> w == InsertRecord(PendingRecord(p.request, p.draw)) || w in plan.writes;
  }

  // In every reachable state the CHECKs refuse a statement that a writing request
  // still has to make if and only if its credit would overflow (or the webhook
  // target is blank): such a request never reaches its COMMIT, and no other
  // request is stopped by a CHECK.
  lemma OverflowsAreAborted(c: Webhook.Config, now: Time, steps: seq<Step>, pid: Pid)
    requires Legal(Initial(c, now), steps)
    requires var s := After(Initial(c, now), steps); pid in s.processes && s.processes[pid].pc.Writing?
    ensures var s := After(Initial(c, now), steps);
            var p := s.processes[pid];
            && Validate(p.request).None? && p.request.user.value in s.tables.owner
            && Credited(s.tables, p.request) in s.tables.wallets
            && ((exists w :: w in p.pc.todo && !RowOk(w)) <==> !Fits(c, s.tables, p.request))
  {
    InitialInv(c, now);
    InvAlways(Initial(c, now), steps);
    ConfigKept(Initial(c, now), steps);
    var s := After(Initial(c, now), steps);
    assert ProcessOk(s.config, s.tables, s.clock, s.processes[pid]);
    ExecutesIffFits(c, s.tables, s.clock, s.processes[pid]);
    RemainingRefused(c, s.tables, s.clock, s.processes[pid]);
  }
}
