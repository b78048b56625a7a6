// The history of a wallet, sorted by time, is the order in which its row lock
// was granted.
module LockOrder {
  import opened Int64
  import opened Entities
  import opened Sequences
  import opened Ledger
  import opened Reconciliation
  import opened Engine
  import opened Honesty
  import opened Meaning
  import opened EndToEnd
  import opened Protocol
  import Invariant
  import LoudSteps
  import opened CommitSteps
  import opened Runs
  import opened Serializability
  import Webhook

  // p has committed a new transaction.
  predicate Executor(p: Process) {
    Succeeded(p) && !ResultOf(p).replay
  }

  // The transactions that locked w and committed, in the order of their locks.
  function Turns(grants: seq<Grant>, processes: map<Pid, Process>, w: Id): seq<Id> {
    if grants == [] then []
    else
      var g := grants[|grants| - 1];
      Turns(grants[..|grants| - 1], processes, w)
      + if g.row == w && g.holder in processes
        && Executor(processes[g.holder]) then [processes[g.holder].draw.transaction] else []
  }

  // The transactions behind a sequence of entries.
  function Origins(h: seq<LedgerEntry>): (ids: seq<Id>)
    ensures |ids| == |h| && forall i :: 0 <= i < |h| ==> ids[i] == h[i].transactionId
  {
    seq(|h|, i requires 0 <= i < |h| => h[i].transactionId)
  }

  // ---------- what the grants say about the processes ----------

  // p has not come to its row locks yet.
  predicate Behind(p: Process) {
    p.pc.Start? || p.pc.Losing? || p.pc.Reserved? || p.pc.Resolved?
  }

  predicate Inside(p: Process) {
    p.pc.Locking? || p.pc.Writing?
  }

  // A process that was granted row still holds it unless it has ended.
  predicate PastGrant(p: Process, row: Id) {
    !Behind(p) && (Inside(p) ==> row in HeldRows(p))
  }

  // The last grant of row, if any, is number k, to pid.
  ghost predicate LastGrant(grants: seq<Grant>, k: nat, pid: Pid, row: Id) {
    k < |grants| && grants[k] == Grant(pid, row) && forall i :: k < i < |grants| ==> grants[i].row != row
  }

  ghost predicate Latest(grants: seq<Grant>, pid: Pid, row: Id) {
    exists k :: LastGrant(grants, k, pid, row)
  }

  ghost predicate GrantsOk(grants: seq<Grant>, processes: map<Pid, Process>) {
    (forall i :: 0 <= i < |grants| ==>
      grants[i].holder in processes && PastGrant(processes[grants[i].holder], grants[i].row))
    && NoRepeats(grants)
    && (forall pid, row :: pid in processes && row in HeldRows(processes[pid]) ==> Latest(grants, pid, row))
  }

  // p moves to p' and takes no new row lock.
  predicate TakesNothing(p: Process, p': Process) {
    HeldRows(p') <= HeldRows(p) && (Behind(p') ==> Behind(p))
    && (Inside(p') ==> Behind(p) || (Inside(p) && HeldRows(p') == HeldRows(p)))
  }

  lemma MoveKeepsGrants(grants: seq<Grant>, processes: map<Pid, Process>, pid: Pid, p': Process)
    requires GrantsOk(grants, processes)
    requires if pid in processes then TakesNothing(processes[pid], p') else HeldRows(p') == {}
    ensures GrantsOk(grants, processes[pid := p'])
  {
    var processes' := processes[pid := p'];
    forall i | 0 <= i < |grants|
      ensures grants[i].holder in processes' && PastGrant(processes'[grants[i].holder], grants[i].row)
    {
      assert PastGrant(processes[grants[i].holder], grants[i].row);
    }
    forall q, row | q in processes' && row in HeldRows(processes'[q]) ensures Latest(grants, q, row) {
      assert row in HeldRows(processes[q]);
    }
  }

  lemma LatestKept(grants: seq<Grant>, g: Grant, pid: Pid, row: Id)
    requires Latest(grants, pid, row) && g.row != row
    ensures Latest(grants + [g], pid, row)
  {
    var k :| LastGrant(grants, k, pid, row);
    assert LastGrant(grants + [g], k, pid, row);
  }

  lemma LatestNew(grants: seq<Grant>, pid: Pid, row: Id)
    ensures Latest(grants + [Grant(pid, row)], pid, row)
  {
    assert LastGrant(grants + [Grant(pid, row)], |grants|, pid, row);
  }

  lemma GrantKeepsGrants(grants: seq<Grant>, processes: map<Pid, Process>, pid: Pid, row: Id, p': Process)
    requires GrantsOk(grants, processes) && pid in processes && processes[pid].pc.Locking? && p'.pc.Locking?
    requires HeldRows(p') == HeldRows(processes[pid]) + {row} && row !in HeldRows(processes[pid])
    requires forall q :: q in processes && q != pid ==> row !in HeldRows(processes[q])
    ensures GrantsOk(grants + [Grant(pid, row)], processes[pid := p'])
  {
    var g := Grant(pid, row);
    var processes' := processes[pid := p'];
    forall i | 0 <= i < |grants|
      ensures (grants + [g])[i].holder in processes'
              && PastGrant(processes'[(grants + [g])[i].holder], (grants + [g])[i].row)
      ensures grants[i] != g
    {
      assert PastGrant(processes[grants[i].holder], grants[i].row);
    }
    forall q, r | q in processes' && r in HeldRows(processes'[q]) ensures Latest(grants + [g], q, r) {
      if r == row {
        LatestNew(grants, pid, row);
      } else {
        LatestKept(grants, g, q, r);
      }
    }
  }

  // ---------- turns ----------

  lemma TurnsSnoc(grants: seq<Grant>, g: Grant, processes: map<Pid, Process>, w: Id)
    ensures Turns(grants + [g], processes, w)
            == Turns(grants, processes, w)
               + if g.row == w && g.holder in processes
                 && Executor(processes[g.holder]) then [processes[g.holder].draw.transaction] else []
  {
    assert (grants + [g])[..|grants|] == grants;
  }

  predicate SameTurn(p: Process, p': Process) {
    (Executor(p) <==> Executor(p')) && (Executor(p) ==> p'.draw.transaction == p.draw.transaction)
  }

  // A move that commits nothing leaves all turns alone.
  lemma {:induction false} TurnsKept(grants: seq<Grant>, processes: map<Pid, Process>, pid: Pid, p': Process, w: Id)
    requires if pid in processes then SameTurn(processes[pid], p') else !Executor(p')
    ensures Turns(grants, processes[pid := p'], w) == Turns(grants, processes, w)
  {
    if grants != [] {
      TurnsKept(grants[..|grants| - 1], processes, pid, p', w);
    }
  }

  // Without a grant of w, a commit adds no turn on w.
  lemma {:induction false} TurnsWithout(grants: seq<Grant>, processes: map<Pid, Process>, pid: Pid, p': Process, w: Id)
    requires Grant(pid, w) !in grants
    ensures Turns(grants, processes[pid := p'], w) == Turns(grants, processes, w)
  {
    if grants != [] {
      assert grants[|grants| - 1] in grants;
      TurnsWithout(grants[..|grants| - 1], processes, pid, p', w);
    }
  }

  // The commit of the latest holder of w adds its turn at the end.
  lemma {:induction false} TurnsCommit(grants: seq<Grant>, k: nat, processes: map<Pid, Process>, pid: Pid, p': Process,
                                       w: Id)
    requires LastGrant(grants, k, pid, w) && NoRepeats(grants)
    requires pid in processes && !Executor(processes[pid]) && Executor(p')
    ensures Turns(grants, processes[pid := p'], w) == Turns(grants, processes, w) + [p'.draw.transaction]
  {
    var n := |grants| - 1;
    if k == n {
      TurnsWithout(grants[..n], processes, pid, p', w);
    } else {
      assert LastGrant(grants[..n], k, pid, w);
      TurnsCommit(grants[..n], k, processes, pid, p', w);
    }
  }

  // ---------- the turns of a wallet are its entries ----------

  ghost predicate TurnsMatch(grants: seq<Grant>, processes: map<Pid, Process>, ledger: seq<LedgerEntry>) {
    forall w {:trigger Turns(grants, processes, w)} :: Turns(grants, processes, w)
      == Origins(Group(ByWallet, w, ledger))
  }

  ghost predicate LocksOk(s: System) {
    GrantsOk(s.grants, s.processes) && TurnsMatch(s.grants, s.processes, s.tables.ledger)
  }

  lemma QuietKeepsLocks(s: System, s': System, pid: Pid)
    requires LocksOk(s) && pid in s'.processes && s'.processes == s.processes[pid := s'.processes[pid]]
    requires s'.grants == s.grants && s'.tables == s.tables
    requires var p' := s'.processes[pid];
             if pid in s.processes then TakesNothing(s.processes[pid], p') && SameTurn(s.processes[pid], p')
             else HeldRows(p') == {} && !Executor(p')
    ensures LocksOk(s')
  {
    MoveKeepsGrants(s.grants, s.processes, pid, s'.processes[pid]);
    forall w ensures Turns(s'.grants, s'.processes, w) == Origins(Group(ByWallet, w, s'.tables.ledger)) {
      TurnsKept(s.grants, s.processes, pid, s'.processes[pid], w);
    }
  }

  lemma LockRowKeepsLocks(s: System, pid: Pid)
    requires LocksOk(s) && Enabled(s, LockRow(pid))
    requires s.processes[pid].pc.waiting[0] !in s.processes[pid].pc.rows
    ensures LocksOk(Next(s, LockRow(pid)))
  {
    var s' := Next(s, LockRow(pid));
    var row := s.processes[pid].pc.waiting[0];
    GrantKeepsGrants(s.grants, s.processes, pid, row, s'.processes[pid]);
    forall w ensures Turns(s'.grants, s'.processes, w) == Origins(Group(ByWallet, w, s'.tables.ledger)) {
      TurnsKept(s.grants, s.processes, pid, s'.processes[pid], w);
      TurnsSnoc(s.grants, Grant(pid, row), s'.processes, w);
    }
  }

  // ---------- a commit adds one entry to each wallet it holds ----------

  lemma OriginsSnoc(h: seq<LedgerEntry>, e: LedgerEntry)
    ensures Origins(h + [e]) == Origins(h) + [e.transactionId]
  {
  }

  lemma PostOrigins(ledger: seq<LedgerEntry>, e: LedgerEntry, w: Id)
    ensures Origins(Group(ByWallet, w, ledger + [e]))
            == Origins(Group(ByWallet, w, ledger)) + if e.walletId == w then [e.transactionId] else []
  {
    GroupSnoc(ByWallet, w, ledger, e);
    OriginsSnoc(Group(ByWallet, w, ledger), e);
    assert Group(ByWallet, w, ledger) + [] == Group(ByWallet, w, ledger);
  }

  lemma CommittedOrigins(c: Webhook.Config, t: Tables, r: Request, draw: Draw, w: Id)
    requires WalletsOk(t) && Executed(Execute(c, t, r, draw))
    requires Validate(r).None? && r.user.value in t.owner && !ToSelf(r, t.owner[r.user.value])
    ensures var t' := Execute(c, t, r, draw).tables;
            Origins(Group(ByWallet, w, t'.ledger))
            == Origins(Group(ByWallet, w, t.ledger)) + if w in Targets(r, t.owner[r.user.value])
              then [draw.transaction] else []
  {
    var own := t.owner[r.user.value];
    if r.TopUpRequest? {
      TopUpMeaning(c, t, r, draw);
      TopUpOrigins(t, r, t.wallets[own], draw, w);
    } else {
      TransferMeaning(c, t, r, draw);
      TransferOrigins(t, r, t.wallets[own], t.wallets[r.recipient.value], draw, w);
    }
  }

  lemma TopUpOrigins(t: Tables, r: Request, own: Wallet, draw: Draw, w: Id)
    requires Validate(r).None? && r.TopUpRequest? && own.balance + r.amount <= MAX_INT64
    ensures Origins(Group(ByWallet, w, AfterTopUp(t, r, own, draw).ledger))
            == Origins(Group(ByWallet, w, t.ledger)) + if w == own.id then [draw.transaction] else []
  {
    var x := TopUpTransaction(r, own.id, draw);
    PostOrigins(t.ledger, CreditFor(x, own, own.balance + r.amount, draw.firstEntry, draw.firstTime), w);
  }

  lemma TransferOrigins(t: Tables, r: Request, s: Wallet, d: Wallet, draw: Draw, w: Id)
    requires Validate(r).None? && r.TransferRequest? && s.id != d.id
    requires 0 <= s.balance - r.amount && d.balance + r.amount <= MAX_INT64
    ensures Origins(Group(ByWallet, w, AfterTransfer(t, r, s, d, draw).ledger))
            == Origins(Group(ByWallet, w, t.ledger)) + if w in {s.id, d.id} then [draw.transaction] else []
  {
    var x := TransferTransaction(r, s.id, d.id, draw);
    var debit := DebitFor(x, s, s.balance - r.amount, draw.firstEntry, draw.firstTime);
    var credit := CreditFor(x, d, d.balance + r.amount, draw.secondEntry, draw.secondTime);
    AppendTwo(t.ledger, debit, credit);
    PostOrigins(t.ledger, debit, w);
    PostOrigins(t.ledger + [debit], credit, w);
  }

  // The rows a committing process holds are its targets.
  lemma HeldAreTargets(c: Webhook.Config, t: Tables, clock: Time, p: Process, w: Id)
    requires Invariant.ProcessOk(c, t, clock, p) && p.pc.Writing?
    ensures p.request.user.value in t.owner && !ToSelf(p.request, t.owner[p.request.user.value])
    ensures w in HeldRows(p) <==> w in Targets(p.request, t.owner[p.request.user.value])
  {
  }

  lemma CommitKeepsLocks(s: System, s': System, pid: Pid, now: Time)
    requires LocksOk(s) && Committed(s, s', pid, now)
    requires WalletsOk(s.tables) && Invariant.ProcessOk(s.config, s.tables, s.clock, s.processes[pid])
    ensures LocksOk(s')
  {
    var p, p' := s.processes[pid], s'.processes[pid];
    MoveKeepsGrants(s.grants, s.processes, pid, p');
    LoudSteps.CommitIsExecute(s.config, s.tables, s.clock, p);
    forall w ensures Turns(s'.grants, s'.processes, w) == Origins(Group(ByWallet, w, s'.tables.ledger)) {
      HeldAreTargets(s.config, s.tables, s.clock, p, w);
      CommittedOrigins(s.config, s.tables, p.request, p.draw, w);
      CommittedTurns(s.grants, s.processes, pid, p', w);
    }
  }

  lemma CommittedTurns(grants: seq<Grant>, processes: map<Pid, Process>, pid: Pid, p': Process, w: Id)
    requires GrantsOk(grants, processes) && pid in processes && Inside(processes[pid]) && Executor(p')
    ensures Turns(grants, processes[pid := p'], w)
            == Turns(grants, processes, w) + if w in HeldRows(processes[pid]) then [p'.draw.transaction] else []
  {
    if w in HeldRows(processes[pid]) {
      assert Latest(grants, pid, w);
      var k :| LastGrant(grants, k, pid, w);
      TurnsCommit(grants, k, processes, pid, p', w);
    } else {
      assert Grant(pid, w) !in grants;
      TurnsWithout(grants, processes, pid, p', w);
    }
  }

  // ---------- runs ----------

  lemma QuietStepTakesNothing(s: System, step: Step)
    requires Enabled(s, step) && Mover(step).Some? && !step.LockRow?
    ensures var s', pid := Next(s, step), Mover(step).value;
            && pid in s'.processes && s'.processes == s.processes[pid := s'.processes[pid]]
            && s'.grants == s.grants && s'.tables == s.tables
            && if pid in s.processes then TakesNothing(s.processes[pid], s'.processes[pid])
                  && SameTurn(s.processes[pid], s'.processes[pid])
               else HeldRows(s'.processes[pid]) == {} && !Executor(s'.processes[pid])
  {
  }

  lemma QuietStepKeepsLocks(s: System, step: Step)
    requires LocksOk(s) && Enabled(s, step) && Mover(step).Some? && !step.LockRow?
    ensures LocksOk(Next(s, step))
  {
    QuietStepTakesNothing(s, step);
    QuietKeepsLocks(s, Next(s, step), Mover(step).value);
  }

  lemma StillStepKeepsLocks(s: System, step: Step)
    requires LocksOk(s) && Enabled(s, step) && Mover(step).None? && !step.Commit?
    ensures LocksOk(Next(s, step))
  {
  }

  lemma StepKeepsLocks(s: System, step: Step)
    requires Invariant.AllOk(s.config, s.tables, s.clock, s.processes) && WalletsOk(s.tables)
    requires LocksOk(s) && Enabled(s, step)
    ensures LocksOk(Next(s, step))
  {
    if step.Commit? {
      assert Invariant.ProcessOk(s.config, s.tables, s.clock, s.processes[step.pid]);
      CommitIsCommitted(s, step.pid, step.now);
      CommitKeepsLocks(s, Next(s, step), step.pid, step.now);
    } else if step.LockRow? {
      assert Invariant.ProcessOk(s.config, s.tables, s.clock, s.processes[step.pid]);
      assert s.processes[step.pid].pc.waiting[0] in s.processes[step.pid].pc.waiting;
      LockRowKeepsLocks(s, step.pid);
    } else if Mover(step).Some? {
      QuietStepKeepsLocks(s, step);
    } else {
      StillStepKeepsLocks(s, step);
    }
  }

  lemma {:induction false} LocksAlways(s: System, steps: seq<Step>)
    requires Invariant.Inv(s) && LocksOk(s) && Legal(s, steps)
    ensures Invariant.Inv(After(s, steps)) && LocksOk(After(s, steps))
    decreases |steps|
  {
    if steps != [] {
      StepKeepsInv(s, steps[0]);
      StepKeepsLocks(s, steps[0]);
      LocksAlways(Next(s, steps[0]), steps[1..]);
    }
  }

  // In every reachable state, however the ledger is listed: sorting the entries
  // of a wallet by creation time and id lists the committed transactions in the
  // order in which they were granted the wallet's row lock, and each entry
  // continues from the balance the previous one left.
  lemma SortedHistoryIsLockOrder(c: Webhook.Config, now: Time, steps: seq<Step>, ls: seq<LedgerEntry>, w: Id)
    requires Legal(Initial(c, now), steps)
    requires var t := After(Initial(c, now), steps).tables; multiset(ls) == multiset(t.ledger) && w in t.wallets
    ensures var s := After(Initial(c, now), steps);
            && Origins(WalletHistory(w, ls)) == Turns(s.grants, s.processes, w)
            && HistoryOk(WalletHistory(w, ls), s.tables.wallets[w].balance)
  {
    Invariant.InitialInv(c, now);
    LocksAlways(Initial(c, now), steps);
    var s := After(Initial(c, now), steps);
    SortingRecoversHistory(s.tables, ls, w);
    assert Turns(s.grants, s.processes, w) == Origins(Group(ByWallet, w, s.tables.ledger));
  }
}
