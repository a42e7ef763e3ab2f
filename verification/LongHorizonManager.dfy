/** The Manager's reconcile, branch by branch, on the run it has read. */
module LongHorizonManager {
  import opened Wrappers
  import opened Cursors
  import opened LongHorizon

  /** What a usable decision issues. */
  lemma DecisionIssues(s: Status, reply: Reply)
    requires Usable(reply)
    ensures
      var (d, c) := (reply.decision.value, Considered(s, reply, reply.decision.value));
      var reports := if s.lastAudit.Some? then [s.lastAudit.value.message] else [];
      Issues(s, reply) == if d.next == Cli && d.plan != "" then Some(ExecutionSpec(s.round, c.contract, c.version, d.plan, reports)) else None
  {
  }

  /** What a usable decision leads to. */
  lemma DecisionCases(s: Status, reply: Reply, issued: Ref)
    requires Usable(reply)
    ensures
      var (d, c) := (reply.decision.value, Considered(s, reply, reply.decision.value));
      AfterPlan(s, reply, issued) ==
        match d.next
        case Cli => if d.plan == "" then AfterFailure(c, "Executor plan is empty.") else c.(execution := Some(issued), lastAudit := None, phase := Executing)
        case AskNext => if reply.askable then Waiting(c, Ask) else AfterFailure(c, "Invalid human question")
        case Blocked => if reply.askable then Waiting(c, Ask) else AfterFailure(c, "Invalid human question")
        case Finish =>
          if CanFinish(c) then Appended(c, "done", d.summary, [reply.message]).(phase := Succeeded, summary := d.summary)
          else AfterFailure(c, "Completion rejected: no current, clean, complete audit evidence.")
        case Unsupported(name) => AfterFailure(c, "Unsupported Manager decision: " + name)
  {
    hide AfterFailure, Appended, Waiting, CanFinish, WithinBounds, Considered;
  }

  lemma ConsideredSame(s: Status, reply: Reply, d: Decision)
    ensures Considered(s, reply, d).round == s.round && Considered(s, reply, d).lastAudit == s.lastAudit
  {
  }

  /** A reconcile by phase. */
  lemma ByPhase(w: World, env: Env)
    requires w.status.phase != New && !Overdue(w.status, env)
    ensures
      var (s, after) := (w.status, Prepared(w, env));
      match s.phase
      case Receiving => after == w && Reconciled(after, env) == Some(AfterInput(s, w.spec.user, env.polled))
      case WaitingForHuman =>
        && after == w
        && Reconciled(after, env) ==
           if s.question.None? then (if s.reason == Ask && s.decision.None? then None else Some(s.(question := Some((s.round, s.reason)))))
           else if s.question.value in w.answers then Some(AfterHuman(s, "human", w.answers[s.question.value])) else None
      case Executing =>
        && after == (if HasExecution(w) && s.round !in w.audits
                     then w.(audits := w.audits[s.round := Audit(w.nextUid, AuditFor(s, w.executions[s.round]), "", None, "")], nextUid := w.nextUid + 1) else w)
        && Reconciled(after, env) ==
           if HasExecution(w) && after.audits[s.round].spec == AuditFor(s, w.executions[s.round]) then Some(AfterExecution(s, Ref(s.round, after.audits[s.round].uid)))
           else None
      case Auditing => after == w && Reconciled(after, env) == if HasAudit(w) then Some(AfterAudit(s, w.audits[s.round], env.executionFailed)) else None
      case Planning =>
        if s.round > s.budget then after == w && Reconciled(after, env) == Some(OverBudget(s))
        else if s.round !in w.replies then after == w && Reconciled(after, env) == None
        else
          (match Issues(s, w.replies[s.round])
           case None => after == w && Reconciled(after, env) == Some(AfterPlan(s, w.replies[s.round], Ref(s.round, 0)))
           case Some(wanted) =>
             && after.audits == w.audits && s.round in after.executions
             && (if s.round in w.executions then after == w
                 else after.executions == w.executions[s.round := Execution(w.nextUid, wanted, "", "")] && after.nextUid == w.nextUid + 1)
             && Reconciled(after, env) ==
                if after.executions[s.round].spec == wanted then Some(AfterPlan(s, w.replies[s.round], Ref(s.round, after.executions[s.round].uid))) else None)
      case _ =>
        && after == w
        && Reconciled(after, env) ==
           if s.finished || (s.finalMessage == "" && env.final == "") then None
           else if s.finalMessage == "" then Some(s.(finalMessage := env.final)) else Some(s.(finished := true))
  {
    hide AfterPlan, AfterAudit, AfterHuman, AfterInput, Issues, AuditFor;
  }

  /** What one reconcile persists is bounded and lower. */
  lemma ReconcileLowers(w: World, env: Env)
    ensures
      var next := Reconciled(Prepared(w, env), env);
      next.Some? && Bounded(w.status) && Configured(w.spec, w.defaultRounds) ==> Lowers(w.status, next.value)
  {
    hide Reconciled, Prepared, Bounded, Lowers, Configured;
    PreparedSame(w, env);
    if Reconciled(Prepared(w, env), env).Some? && Bounded(w.status) && Configured(w.spec, w.defaultRounds) {
      StepLowers(Prepared(w, env), env);
    }
  }

  class Manager {
    const spec: Spec
    const defaultRounds: int
    var status: Status
    var executions: map<nat, Execution>
    var audits: map<nat, Audit>
    var nextUid: nat

    constructor (spec: Spec, defaultRounds: int)
      ensures this.spec == spec && this.defaultRounds == defaultRounds && status == NewStatus() && executions == map[] && audits == map[] && nextUid == 0
    {
      this.spec, this.defaultRounds := spec, defaultRounds;
      status, executions, audits, nextUid := NewStatus(), map[], map[], 0;
    }

    /** The run as the step functions see it. */
    ghost function View(replies: map<nat, Reply>, answers: map<Question, Answer>): World
      reads this
    {
      World(spec, defaultRounds, status, executions, audits, nextUid, replies, answers, [], 0, false, [], [])
    }

    method AppendRound(decision: string, summary: string, messages: seq<string>)
      modifies `status
      ensures status == Appended(old(status), decision, summary, messages)
    {
      status := status.(rounds := status.rounds + [RoundSummary(status.round, decision, summary, messages)]);
      if |status.rounds| > KEPT_ROUNDS {
        status := status.(rounds := status.rounds[|status.rounds| - KEPT_ROUNDS..]);
      }
    }

    method Advance()
      modifies `status
      ensures status == Advanced(old(status))
    {
      status := status.(consumed := status.round);
      status := status.(round := status.round + 1);
      status := status.(execution := None, audit := None, decision := None);
      status := status.(managerMessage := "", question := None, reason := NoReason);
      status := status.(phase := Receiving);
    }

    method Fail(reason: string)
      modifies `status
      ensures status == AfterFailure(old(status), reason)
    {
      AppendRound("failure", reason, [status.managerMessage]);
      Advance();
      status := status.(failures := status.failures + 1);
      status := status.(summary := reason);
      if status.failures >= 3 {
        status := status.(phase := WaitingForHuman, reason := Failure);
      }
    }

    /** receive: absorbs polled messages in order until one that has to wait for a later run. */
    method Receive(polled: seq<Mail>)
      modifies `status
      ensures status == AfterInput(old(status), spec.user, polled)
    {
      if |status.inputs| < INPUT_LIMIT {
        var i := 0;
        assert polled[0..] == polled;
        while i < |polled|
          invariant 0 <= i <= |polled|
          invariant Absorb(status, spec.user, polled[i..]) == Absorb(old(status), spec.user, polled)
        {
          var m := polled[i];
          assert polled[i..][0] == m && polled[i..][1..] == polled[i + 1..];
          if m.source.kind == "user" && !m.human {
            if m.source.key != spec.user || |status.inputs| >= INPUT_LIMIT || |status.guidance| + |m.text| + |Digits(m.id)| + 8 > GUIDANCE_LIMIT {
              break;
            }
            status := status.(guidance := status.guidance + "\n[" + Digits(m.id) + "] " + m.text);
            status := status.(inputs := status.inputs + [m.id], version := status.version + 1);
            status := status.(lastAudit := None);
          }
          status := status.(through := m.id);
          i := i + 1;
        }
      }
      status := status.(phase := Planning);
    }

    /** human: asks once, then waits for the answer and acts on it. */
    method Human(answers: map<Question, Answer>) returns (patch: bool)
      requires status.phase == WaitingForHuman
      modifies `status
      ensures !patch ==> status == old(status)
      ensures
        var s := old(status);
        if s.question.None? then
          patch == (s.reason != Ask || s.decision.Some?) && (patch ==> status == s.(question := Some((s.round, s.reason))))
        else patch == (s.question.value in answers) && (patch ==> status == AfterHuman(s, "human", answers[s.question.value]))
    {
      if status.question.None? {
        if status.reason == Ask && status.decision.None? {
          return false;
        }
        status := status.(question := Some((status.round, status.reason)));
        return true;
      }
      if status.question.value !in answers {
        return false;
      }
      var answer := answers[status.question.value];
      patch := true;
      if !(answer.success && (status.reason == Ask || answer.value == "accepted")) {
        AppendRound("human", "Human interaction ended: " + answer.value, ["human"]);
        status := status.(phase := Stopped, summary := "Stopped after human interaction: " + answer.value);
        return;
      }
      match status.reason {
      case Ask =>
        var guidance := Guided(status, answer.value);
        if |guidance| > GUIDANCE_LIMIT {
          AppendRound("ask", TOO_MUCH_GUIDANCE, ["human"]);
          status := status.(phase := Stopped, summary := TOO_MUCH_GUIDANCE + CONTINUE_ELSEWHERE);
          return;
        }
        status := status.(guidance := guidance);
        status := status.(lastAudit := None);
        AppendRound("ask", answer.value, [status.managerMessage, "human"] + if answer.reply.Some? then [answer.reply.value] else []);
        Advance();
      case Budget => status := status.(budget := if status.budget + 25 > ROUND_LIMIT then ROUND_LIMIT else status.budget + 25);
      case Failure => status := status.(failures := 0);
      case NoReason =>
      }
      status := status.(question := None, reason := NoReason, phase := Receiving);
    }

    /** Creates an execution for this round, or finds the one created before with the same inputs. */
    method Issue(wanted: ExecutionSpec) returns (r: Option<Ref>)
      requires wanted.round == status.round
      modifies `executions, `nextUid
      ensures wanted.round in executions
      ensures if wanted.round in old(executions) then executions == old(executions) && nextUid == old(nextUid)
              else executions == old(executions)[wanted.round := Execution(old(nextUid), wanted, "", "")] && nextUid == old(nextUid) + 1
      ensures r == if executions[wanted.round].spec == wanted then Some(Ref(wanted.round, executions[wanted.round].uid)) else None
    {
      if wanted.round !in executions {
        executions := executions[wanted.round := Execution(nextUid, wanted, "", "")];
        nextUid := nextUid + 1;
      }
      if executions[wanted.round].spec != wanted {
        return None;
      }
      r := Some(Ref(wanted.round, executions[wanted.round].uid));
    }

    /** What became of the executions: the wanted one exists, created now unless it was there. */
    twostate predicate Issued(wanted: ExecutionSpec)
      reads this
    {
      && wanted.round in executions
      && if wanted.round in old(executions) then executions == old(executions) && nextUid == old(nextUid)
         else executions == old(executions)[wanted.round := Execution(old(nextUid), wanted, "", "")] && nextUid == old(nextUid) + 1
    }

    /** Issues the execution of this round; one that exists with other inputs is a conflict, and nothing is persisted. */
    method Execute(plan: string, before: Status) returns (patch: bool)
      modifies this
      ensures
        var s := old(status);
        var wanted := ExecutionSpec(s.round, s.contract, s.version, plan, if s.lastAudit.Some? then [s.lastAudit.value.message] else []);
        && audits == old(audits) && Issued(wanted)
        && patch == (executions[s.round].spec == wanted)
        && status == if patch then s.(execution := Some(Ref(s.round, executions[s.round].uid)), lastAudit := None, phase := Executing) else before
    {
      var reports := if status.lastAudit.Some? then [status.lastAudit.value.message] else [];
      var ref := Issue(ExecutionSpec(status.round, status.contract, status.version, plan, reports));
      if ref.None? {
        status := before;
        return false;
      }
      status := status.(execution := ref);
      status := status.(lastAudit := None);
      status := status.(phase := Executing);
      patch := true;
    }

    /** A usable decision: issue, ask, complete, or fail the round. */
    method Decide(reply: Reply, d: Decision, before: Status) returns (patch: bool)
      requires before.phase == Planning && Usable(reply) && d == reply.decision.value && status == Considered(before, reply, d)
      modifies this
      ensures audits == old(audits)
      ensures
        match Issues(before, reply)
        case None => patch && status == AfterPlan(before, reply, Ref(before.round, 0)) && executions == old(executions) && nextUid == old(nextUid)
        case Some(wanted) =>
          && wanted.round == before.round && Issued(wanted)
          && patch == (executions[before.round].spec == wanted)
          && status == if patch then AfterPlan(before, reply, Ref(before.round, executions[before.round].uid)) else before
    {
      hide AfterFailure, CanFinish, Appended, AfterPlan, Issues, Waiting, Usable, Considered;
      DecisionIssues(before, reply);
      DecisionCases(before, reply, Ref(before.round, 0));
      ConsideredSame(before, reply, d);
      patch := true;
      match d.next
      case Cli =>
        if d.plan == "" {
          Fail("Executor plan is empty.");
        } else {
          patch := Execute(d.plan, before);
          DecisionCases(before, reply, Ref(before.round, executions[before.round].uid));
        }
      case AskNext => Question(reply.askable);
      case Blocked => Question(reply.askable);
      case Finish =>
        if !CanFinish(status) {
          Fail("Completion rejected: no current, clean, complete audit evidence.");
        } else {
          AppendRound("done", d.summary, [reply.message]);
          status := status.(phase := Succeeded, summary := d.summary);
        }
      case Unsupported(name) => Fail("Unsupported Manager decision: " + name);
    }

    /** Planning with the finished call of this round. */
    method Plan(reply: Reply) returns (patch: bool)
      requires status.phase == Planning
      modifies this
      ensures audits == old(audits)
      ensures
        var s := old(status);
        match Issues(s, reply)
        case None => patch && status == AfterPlan(s, reply, Ref(s.round, 0)) && executions == old(executions) && nextUid == old(nextUid)
        case Some(wanted) =>
          && wanted.round == s.round && Issued(wanted)
          && patch == (executions[s.round].spec == wanted)
          && status == if patch then AfterPlan(s, reply, Ref(s.round, executions[s.round].uid)) else s
    {
      var before := status;
      patch := true;
      status := status.(managerMessage := reply.message);
      if reply.error != "" {
        Fail(reply.error);
        return;
      }
      if reply.decision.None? {
        Fail("Invalid Manager decision");
        return;
      }
      var d := reply.decision.value;
      if |d.contract| > 16000 || |d.plan| > 16000 || |d.question| > 4000 || |d.choices| > 20 {
        Fail("Manager decision exceeds its input bounds.");
        return;
      }
      if d.contract != "" && d.contract != status.contract {
        status := status.(contract := d.contract, version := status.version + 1);
      }
      status := status.(decision := Some(d));
      assert status == Considered(before, reply, d);
      hide AfterPlan, Issues, Considered;
      patch := Decide(reply, d, before);
    }

    method Question(askable: bool)
      modifies `status
      ensures status == if askable then Waiting(old(status), Ask) else AfterFailure(old(status), "Invalid human question")
    {
      if !askable {
        Fail("Invalid human question");
        return;
      }
      status := status.(phase := WaitingForHuman);
      status := status.(reason := Ask);
    }

    /** observeExecution: a finished execution gets its audit. */
    method ObserveExecution() returns (patch: bool)
      requires status.phase == Executing
      modifies this
      ensures executions == old(executions)
      ensures
        var w := old(View(map[], map[]));
        var created := HasExecution(w) && w.status.round !in w.audits;
        && audits == (if created then old(audits)[w.status.round := Audit(old(nextUid), AuditFor(w.status, w.executions[w.status.round]), "", None, "")] else old(audits))
        && nextUid == old(nextUid) + (if created then 1 else 0)
        && patch == (HasExecution(w) && w.status.round in audits && audits[w.status.round].spec == AuditFor(w.status, w.executions[w.status.round]))
        && status == if patch then AfterExecution(w.status, Ref(w.status.round, audits[w.status.round].uid)) else w.status
    {
      if status.execution.None? || status.execution.value.round !in executions || status.round !in executions {
        return false;
      }
      var execution := executions[status.round];
      if execution.uid != status.execution.value.uid || execution.message == "" {
        return false;
      }
      var audit := AuditFor(status, execution);
      if status.round !in audits {
        audits := audits[status.round := Audit(nextUid, audit, "", None, "")];
        nextUid := nextUid + 1;
      }
      if audits[status.round].spec != audit {
        return false;
      }
      status := status.(audit := Some(Ref(status.round, audits[status.round].uid)));
      status := status.(phase := Auditing);
      patch := true;
    }

    /** observeAudit: the verdict becomes evidence for the contract it was made against. */
    method ObserveAudit(executionFailed: bool) returns (patch: bool)
      requires status.phase == Auditing
      modifies `status
      ensures
        var w := old(View(map[], map[]));
        && patch == HasAudit(w)
        && status == if patch then AfterAudit(w.status, w.audits[w.status.round], executionFailed) else w.status
    {
      hide AfterFailure, Appended, Advanced;
      if status.audit.None? || status.round !in audits {
        return false;
      }
      var audit := audits[status.round];
      if audit.uid != status.audit.value.uid || audit.message == "" {
        return false;
      }
      patch := true;
      if status.execution != Some(audit.spec.execution) || audit.spec.version != status.version {
        Fail("Stale audit references.");
        return;
      }
      if audit.verdict.None? || audit.error != "" {
        Fail("Audit failed: " + audit.error);
        return;
      }
      var verdict := audit.verdict.value;
      status := status.(lastAudit := Some(Evidence(audit.spec.execution, audit.spec.version, audit.message, verdict)));
      status := status.(taskState := verdict.state);
      status := status.(failures := if executionFailed then status.failures + 1 else 0);
      AppendRound("cli", verdict.feedback, [status.managerMessage, audit.spec.executionMessage, audit.message]);
      Advance();
      if status.failures >= 3 {
        status := status.(phase := WaitingForHuman, reason := Failure);
      }
    }

    /** The branch of the current phase. */
    method Proceed(env: Env, replies: map<nat, Reply>, answers: map<Question, Answer>) returns (patch: bool)
      requires status.phase != New && !Overdue(status, env)
      modifies this
      ensures
        var w := Prepared(old(View(replies, answers)), env);
        && executions == w.executions && audits == w.audits && nextUid == w.nextUid
        && patch == Reconciled(w, env).Some?
        && status == Reconciled(w, env).GetOr(old(status))
    {
      hide AfterPlan, AfterAudit, AfterHuman, AfterInput, Issues, AuditFor, HasExecution, HasAudit, Prepared, Reconciled;
      ghost var w := View(replies, answers);
      ByPhase(w, env);
      SameChildren(replies, answers);
      patch := true;
      match status.phase
      case Receiving => Receive(env.polled);
      case WaitingForHuman => patch := Human(answers);
      case Executing => patch := ObserveExecution();
      case Auditing => patch := ObserveAudit(env.executionFailed);
      case Planning =>
        if status.round > status.budget {
          if status.budget >= ROUND_LIMIT {
            status := status.(phase := Stopped, summary := "Maximum round budget reached.");
          } else {
            status := status.(phase := WaitingForHuman, reason := Budget);
          }
          return;
        }
        if status.round !in replies {
          return false;
        }
        patch := Plan(replies[status.round]);
      case Succeeded => patch := Finish(env.final);
      case Stopped => patch := Finish(env.final);
      case Failed => patch := Finish(env.final);
    }

    /**
     * One reconcile.  What it creates and persists is what the step functions say, and a status
     * it persists is within the bounds, closer to the end than the one it read, and no
     * successor of a terminal phase but the same.
     */
    method Reconcile(env: Env, replies: map<nat, Reply>, answers: map<Question, Answer>) returns (patch: bool)
      modifies this
      ensures
        var w := Prepared(old(View(replies, answers)), env);
        && executions == w.executions && audits == w.audits && nextUid == w.nextUid
        && patch == Reconciled(w, env).Some?
        && status == Reconciled(w, env).GetOr(old(status))
      ensures !patch ==> status == old(status)
      ensures patch && Bounded(old(status)) && Configured(spec, defaultRounds) ==>
                Bounded(status) && Measure(status) < Measure(old(status)) && (old(status).phase.Terminal() ==> status.phase == old(status).phase)
    {
      ghost var w := View(replies, answers);
      if status.phase == New {
        status := Started(spec, defaultRounds);
        patch := true;
      } else if !status.phase.Terminal() && env.late {
        status := status.(phase := Failed, summary := "LongHorizon Run deadline exceeded.");
        patch := true;
      } else {
        patch := Proceed(env, replies, answers);
      }
      ReconcileLowers(w, env);
    }

    method Finish(final: string) returns (patch: bool)
      modifies `status
      ensures patch == !(old(status).finished || (old(status).finalMessage == "" && final == ""))
      ensures status == if !patch then old(status) else if old(status).finalMessage == "" then old(status).(finalMessage := final) else old(status).(finished := true)
    {
      if status.finished || (status.finalMessage == "" && final == "") {
        return false;
      }
      if status.finalMessage == "" {
        status := status.(finalMessage := final);
        return true;
      }
      status := status.(finished := true);
      patch := true;
    }

    lemma SameChildren(replies: map<nat, Reply>, answers: map<Question, Answer>)
      ensures HasExecution(View(replies, answers)) == HasExecution(View(map[], map[]))
      ensures HasAudit(View(replies, answers)) == HasAudit(View(map[], map[]))
    {
    }
  }
}
