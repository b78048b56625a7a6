// Concurrent runs are strictly serializable: the tables and every answer are
// those of the committed operations run one at a time, in commit order, and that
// order respects real time.
module Serializability {
  import opened Engine
  import opened Protocol
  import opened Invariant
  import opened Runs
  import Webhook

  // The caller of p has, or will get, a success.
  predicate Succeeded(p: Process) {
    (p.pc.Announcing? && p.pc.result.Success?) || (p.pc.Done? && p.pc.outcome.Success?)
  }

  function ResultOf(p: Process): Outcome
    requires Succeeded(p)
  {
    if p.pc.Announcing? then p.pc.result else p.pc.outcome
  }

  predicate IsAnswerOf(e: Event, pid: Pid, p: Process) {
    e.Answered? && e.pid == pid && e.request == p.request && Succeeded(p) && e.outcome == ResultOf(p)
  }

  ghost predicate InLog(log: seq<Event>, pid: Pid, p: Process) {
    exists i :: 0 <= i < |log| && IsAnswerOf(log[i], pid, p)
  }

  // The log lists exactly the successes that callers see, once each.
  ghost predicate AnswersOk(processes: map<Pid, Process>, log: seq<Event>) {
    (forall pid :: pid in processes && Succeeded(processes[pid]) ==> InLog(log, pid, processes[pid]))
    && (forall i :: 0 <= i < |log| && log[i].Answered? ==> log[i].pid in processes && Succeeded(processes[log[i].pid]))
    && (forall i, j :: 0 <= i < j < |log| && log[i].Answered? && log[j].Answered? ==> log[i].pid != log[j].pid)
  }

  // p moves to p' without a new answer.
  predicate SameAnswer(p: Process, p': Process) {
    (Succeeded(p) <==> Succeeded(p')) && (Succeeded(p) ==> ResultOf(p') == ResultOf(p) && p'.request == p.request)
  }

  lemma SilentMoveKeeps(processes: map<Pid, Process>, log: seq<Event>, pid: Pid, p': Process)
    requires AnswersOk(processes, log)
    requires if pid in processes then SameAnswer(processes[pid], p') else !Succeeded(p')
    ensures AnswersOk(processes[pid := p'], log)
  {
    var processes' := processes[pid := p'];
    forall q | q in processes' && Succeeded(processes'[q]) ensures InLog(log, q, processes'[q]) {
      assert InLog(log, q, processes[q]);
      var i :| 0 <= i < |log| && IsAnswerOf(log[i], q, processes[q]);
      assert IsAnswerOf(log[i], q, processes'[q]);
    }
  }

  lemma RegisteringKeeps(processes: map<Pid, Process>, log: seq<Event>, e: Event)
    requires AnswersOk(processes, log) && e.Registered?
    ensures AnswersOk(processes, log + [e])
  {
    forall pid | pid in processes && Succeeded(processes[pid]) ensures InLog(log + [e], pid, processes[pid]) {
      InLogGrows(log, e, pid, processes[pid]);
    }
  }

  lemma InLogGrows(log: seq<Event>, e: Event, pid: Pid, p: Process)
    requires InLog(log, pid, p)
    ensures InLog(log + [e], pid, p)
  {
    var i :| 0 <= i < |log| && IsAnswerOf(log[i], pid, p);
    assert (log + [e])[i] == log[i];
  }

  lemma AnsweringKeeps(processes: map<Pid, Process>, log: seq<Event>, e: Event, p: Process)
    requires AnswersOk(processes, log) && e.Answered? && e.pid in processes && !Succeeded(processes[e.pid])
    requires IsAnswerOf(e, e.pid, p)
    ensures AnswersOk(processes[e.pid := p], log + [e])
  {
    var log' := log + [e];
    forall pid | pid in processes && pid != e.pid && Succeeded(processes[pid])
      ensures InLog(log', pid, processes[pid])
    {
      InLogGrows(log, e, pid, processes[pid]);
    }
    assert log'[|log|] == e;
    assert InLog(log', e.pid, p);
  }

  // A quiet step moves one process without an answer; Fetch may answer.
  lemma QuietStepKeepsAnswers(s: System, step: Step)
    requires AnswersOk(s.processes, s.log) && Enabled(s, step) && Mover(step).Some?
    ensures var s' := Next(s, step);
            AnswersOk(s'.processes, s'.log) && s.log <= s'.log && s.processes.Keys <= s'.processes.Keys
  {
    var s' := Next(s, step);
    var pid := Mover(step).value;
    assert s'.processes == s.processes[pid := s'.processes[pid]];
    if |s'.log| == |s.log| {
      SilentMoveKeeps(s.processes, s.log, pid, s'.processes[pid]);
    } else {
      AnsweringKeeps(s.processes, s.log, s'.log[|s.log|], s'.processes[pid]);
    }
  }

  lemma StepKeepsAnswers(s: System, step: Step)
    requires AnswersOk(s.processes, s.log) && Enabled(s, step)
    ensures var s' := Next(s, step);
            AnswersOk(s'.processes, s'.log) && s.log <= s'.log && s.processes.Keys <= s'.processes.Keys
  {
    var s' := Next(s, step);
    match step
    case Registration(user, wallet) => RegisteringKeeps(s.processes, s.log, Registered(user, wallet));
    case Commit(pid, _) => AnsweringKeeps(s.processes, s.log, s'.log[|s.log|], s'.processes[pid]);
    case Worker(_) =>
    case Tick(_) =>
    case Restart =>
    case _ => QuietStepKeepsAnswers(s, step);
  }

  lemma {:induction false} AnswersAlways(s: System, steps: seq<Step>)
    requires AnswersOk(s.processes, s.log) && Legal(s, steps)
    ensures AnswersOk(After(s, steps).processes, After(s, steps).log)
    ensures s.log <= After(s, steps).log && s.processes.Keys <= After(s, steps).processes.Keys
    decreases |steps|
  {
    if steps != [] {
      StepKeepsAnswers(s, steps[0]);
      AnswersAlways(Next(s, steps[0]), steps[1..]);
    }
  }

  // Whatever the interleaving, running the logged operations alone in commit
  // order gives the same tables and the same answers, and the log lists exactly
  // the successes that callers see.
  lemma Serializable(c: Webhook.Config, now: int, steps: seq<Step>)
    requires Legal(Initial(c, now), steps)
    ensures var s := After(Initial(c, now), steps);
            s.config == c && s.tables == Serial(c, s.log) && Faithful(c, s.log) && AnswersOk(s.processes, s.log)
  {
    InitialInv(c, now);
    InvAlways(Initial(c, now), steps);
    ConfigKept(Initial(c, now), steps);
    AnswersAlways(Initial(c, now), steps);
  }

  // A request that arrives after another was answered comes after it in the log.
  lemma RealTimeOrder(c: Webhook.Config, now: int, earlier: seq<Step>, later: seq<Step>, p: Pid, q: Pid)
    requires Legal(Initial(c, now), earlier) && Legal(After(Initial(c, now), earlier), later)
    requires var s := After(Initial(c, now), earlier);
             p in s.processes && Succeeded(s.processes[p]) && q !in s.processes
    requires var s := After(After(Initial(c, now), earlier), later); q in s.processes && Succeeded(s.processes[q])
    ensures var log := After(After(Initial(c, now), earlier), later).log;
            exists i, j ::
              0 <= i < j < |log| && log[i].Answered? && log[i].pid == p && log[j].Answered? && log[j].pid == q
  {
    AnswersAlways(Initial(c, now), earlier);
    var s := After(Initial(c, now), earlier);
    AnswersAlways(s, later);
    LaterInLog(s.processes, s.log, After(s, later).processes, After(s, later).log, p, q);
  }

  lemma LaterInLog(processes: map<Pid, Process>, log: seq<Event>, processes': map<Pid, Process>, log': seq<Event>,
                   p: Pid, q: Pid)
    requires AnswersOk(processes, log) && AnswersOk(processes', log') && log <= log'
    requires p in processes && Succeeded(processes[p]) && q !in processes && q in processes' && Succeeded(processes'[q])
    ensures exists i, j ::
              0 <= i < j < |log'| && log'[i].Answered? && log'[i].pid == p && log'[j].Answered? && log'[j].pid == q
  {
    assert InLog(log, p, processes[p]) && InLog(log', q, processes'[q]);
    var i :| 0 <= i < |log| && IsAnswerOf(log[i], p, processes[p]);
    var j :| 0 <= j < |log'| && IsAnswerOf(log'[j], q, processes'[q]);
    assert log'[i] == log[i];
    assert forall k :: 0 <= k < |log| ==> log[k] == log'[k];
    assert j >= |log|;
  }
}
