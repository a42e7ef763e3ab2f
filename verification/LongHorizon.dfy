/**
 * The LongHorizon Manager: one reconcile is one optimistic-lock step on a run's status.
 * The functions say what each branch makes of the status; class Manager makes the same
 * changes field by field.
 */
module LongHorizon {
  import opened Wrappers
  import opened Cursors

  const GUIDANCE_LIMIT := 16000
  const INPUT_LIMIT := 100
  const ROUND_LIMIT := 1000
  const KEPT_ROUNDS := 50

  datatype Phase = New | Receiving | Planning | Executing | Auditing | WaitingForHuman | Succeeded | Stopped | Failed {
    predicate Terminal() {
      this == Succeeded || this == Stopped || this == Failed
    }
  }

  datatype Reason = NoReason | Ask | Budget | Failure

  /** An object of the cluster: its name is the run's name and the round. */
  datatype Ref = Ref(round: nat, uid: nat)

  datatype Choice = Choice(value: string, shown: string)

  datatype NextStep = Cli | AskNext | Blocked | Finish | Unsupported(name: string)

  datatype Decision = Decision(next: NextStep, summary: string, plan: string, contract: string, question: string, choices: seq<Choice>, allowOther: bool)

  datatype Integrity = Clean | Violated | Unclear | Unrecognised(text: string)

  datatype Verdict = Verdict(complete: bool, integrity: Integrity, state: string, evidence: string, feedback: string)

  datatype Evidence = Evidence(execution: Ref, version: nat, message: string, verdict: Verdict)

  datatype RoundSummary = RoundSummary(round: nat, decision: string, summary: string, messages: seq<string>)

  /** The human question of a round: its effect key names both. */
  type Question = (nat, Reason)

  datatype Spec = Spec(goal: string, user: string, input: nat, maxRounds: int)

  datatype Status = Status(
    phase: Phase, round: nat, budget: int, failures: nat, contract: string, version: nat, taskState: string, guidance: string,
    decision: Option<Decision>, execution: Option<Ref>, audit: Option<Ref>, lastAudit: Option<Evidence>,
    question: Option<Question>, reason: Reason, managerMessage: string, finalMessage: string, summary: string,
    consumed: nat, rounds: seq<RoundSummary>, through: nat, inputs: seq<nat>, finished: bool)

  datatype ExecutionSpec = ExecutionSpec(round: nat, contract: string, version: nat, plan: string, reports: seq<string>)
  datatype Execution = Execution(uid: nat, spec: ExecutionSpec, message: string, error: string)

  datatype AuditSpec = AuditSpec(round: nat, contract: string, version: nat, execution: Ref, executionMessage: string)
  datatype Audit = Audit(uid: nat, spec: AuditSpec, message: string, verdict: Option<Verdict>, error: string)

  /** The Manager's planning call once it is done: what it returned, decoded where it decodes; `askable` is whether its question is valid. */
  datatype Reply = Reply(message: string, error: string, decision: Option<Decision>, askable: bool)

  /** A resolved human interaction. */
  datatype Answer = Answer(success: bool, value: string, reply: Option<string>)

  function NewStatus(): Status {
    Status(New, 0, 0, 0, "", 0, "", "", None, None, None, None, None, NoReason, "", "", "", 0, [], 0, [], false)
  }

  // ---------- the pieces of a step ----------

  function Appended(s: Status, decision: string, summary: string, messages: seq<string>): Status {
    var rounds := s.rounds + [RoundSummary(s.round, decision, summary, messages)];
    s.(rounds := if |rounds| > KEPT_ROUNDS then rounds[|rounds| - KEPT_ROUNDS..] else rounds)
  }

  function Advanced(s: Status): Status {
    s.(consumed := s.round, round := s.round + 1, execution := None, audit := None, decision := None,
       managerMessage := "", question := None, reason := NoReason, phase := Receiving)
  }

  function Waiting(s: Status, reason: Reason): Status {
    s.(phase := WaitingForHuman, reason := reason)
  }

  /** failure: the round is over; after three in a row a human decides. */
  function AfterFailure(s: Status, reason: string): Status {
    var next := Advanced(Appended(s, "failure", reason, [s.managerMessage]));
    var counted := next.(failures := s.failures + 1, summary := reason);
    if counted.failures >= 3 then Waiting(counted, Failure) else counted
  }

  function Started(spec: Spec, defaultRounds: int): Status {
    NewStatus().(phase := Receiving, round := 1, budget := if spec.maxRounds <= 0 then defaultRounds else spec.maxRounds,
                 contract := spec.goal, version := 1, through := spec.input, inputs := [spec.input])
  }

  function Expired(s: Status): Status {
    s.(phase := Failed, summary := "LongHorizon Run deadline exceeded.")
  }

  function Digits(n: nat): string {
    if n < 10 then [(n as char) + '0'] else Digits(n / 10) + Digits(n % 10)
  }

  predicate IsInput(m: Mail) {
    m.source.kind == "user" && !m.human
  }

  /** Whether a user message can be absorbed, or ends the reading for now. */
  predicate Absorbs(s: Status, user: string, m: Mail) {
    m.source.key == user && |s.inputs| < INPUT_LIMIT && |s.guidance| + |m.text| + |Digits(m.id)| + 8 <= GUIDANCE_LIMIT
  }

  function AbsorbOne(s: Status, m: Mail): Status {
    if IsInput(m) then
      s.(guidance := s.guidance + "\n[" + Digits(m.id) + "] " + m.text, inputs := s.inputs + [m.id], version := s.version + 1,
         lastAudit := None, through := m.id)
    else s.(through := m.id)
  }

  /** receive's loop: messages in order, until one that this run may not take. */
  function Absorb(s: Status, user: string, polled: seq<Mail>): Status
    decreases |polled|
  {
    if polled == [] || (IsInput(polled[0]) && !Absorbs(s, user, polled[0])) then s
    else Absorb(AbsorbOne(s, polled[0]), user, polled[1..])
  }

  function AfterInput(s: Status, user: string, polled: seq<Mail>): Status {
    (if |s.inputs| < INPUT_LIMIT then Absorb(s, user, polled) else s).(phase := Planning)
  }

  /** Planning beyond the budget asks for more, up to the hard limit. */
  function OverBudget(s: Status): Status {
    if s.budget >= ROUND_LIMIT then s.(phase := Stopped, summary := "Maximum round budget reached.")
    else Waiting(s, Budget)
  }

  predicate WithinBounds(d: Decision) {
    |d.contract| <= 16000 && |d.plan| <= 16000 && |d.question| <= 4000 && |d.choices| <= 20
  }

  /** The status after a usable decision: a new contract text gets a new version. */
  function Considered(s: Status, reply: Reply, d: Decision): Status {
    var told := s.(managerMessage := reply.message, decision := Some(d));
    if d.contract != "" && d.contract != s.contract then told.(contract := d.contract, version := s.version + 1) else told
  }

  /** canFinish: current, clean, complete and evidenced. */
  predicate CanFinish(s: Status) {
    && s.lastAudit.Some?
    && var a := s.lastAudit.value;
       a.message != "" && a.version == s.version && a.verdict.complete && a.verdict.integrity == Clean && a.verdict.evidence != ""
  }

  predicate Usable(reply: Reply) {
    reply.error == "" && reply.decision.Some? && WithinBounds(reply.decision.value)
  }

  /** The execution a planning reply issues, if it does. */
  function Issues(s: Status, reply: Reply): Option<ExecutionSpec> {
    if Usable(reply) && reply.decision.value.next == Cli && reply.decision.value.plan != "" then
      var c := Considered(s, reply, reply.decision.value);
      Some(ExecutionSpec(s.round, c.contract, c.version, reply.decision.value.plan,
                         if s.lastAudit.Some? then [s.lastAudit.value.message] else []))
    else None
  }

  /** Why a planning reply fails the round, if it does. */
  function Refusal(s: Status, reply: Reply): Option<string> {
    if reply.error != "" then Some(reply.error)
    else if reply.decision.None? then Some("Invalid Manager decision")
    else if !WithinBounds(reply.decision.value) then Some("Manager decision exceeds its input bounds.")
    else
      var d := reply.decision.value;
      match d.next
      case Cli => if d.plan == "" then Some("Executor plan is empty.") else None
      case AskNext => if reply.askable then None else Some("Invalid human question")
      case Blocked => if reply.askable then None else Some("Invalid human question")
      case Finish =>
        if CanFinish(Considered(s, reply, d)) then None else Some("Completion rejected: no current, clean, complete audit evidence.")
      case Unsupported(name) => Some("Unsupported Manager decision: " + name)
  }

  /** Planning with a finished call; `issued` refers to the execution it issues. */
  function AfterPlan(s: Status, reply: Reply, issued: Ref): Status {
    var c := if Usable(reply) then Considered(s, reply, reply.decision.value) else s.(managerMessage := reply.message);
    match Refusal(s, reply)
    case Some(reason) => AfterFailure(c, reason)
    case None =>
      if !Usable(reply) then c
      else if reply.decision.value.next == Cli then c.(execution := Some(issued), lastAudit := None, phase := Executing)
      else if reply.decision.value.next == Finish then
        Appended(c, "done", reply.decision.value.summary, [reply.message]).(phase := Succeeded, summary := reply.decision.value.summary)
      else Waiting(c, Ask)
  }

  function AuditFor(s: Status, e: Execution): AuditSpec {
    AuditSpec(s.round, e.spec.contract, e.spec.version, Ref(s.round, e.uid), e.message)
  }

  function AfterExecution(s: Status, audit: Ref): Status {
    s.(audit := Some(audit), phase := Auditing)
  }

  /** observeAudit with a finished audit; `executionFailed` is what the execution's own report says. */
  function AfterAudit(s: Status, audit: Audit, executionFailed: bool): Status {
    if s.execution != Some(audit.spec.execution) || audit.spec.version != s.version then AfterFailure(s, "Stale audit references.")
    else if audit.verdict.None? || audit.error != "" then AfterFailure(s, "Audit failed: " + audit.error)
    else
      var v := audit.verdict.value;
      var heard := s.(lastAudit := Some(Evidence(audit.spec.execution, audit.spec.version, audit.message, v)), taskState := v.state,
                      failures := if executionFailed then s.failures + 1 else 0);
      var next := Advanced(Appended(heard, "cli", v.feedback, [s.managerMessage, audit.spec.executionMessage, audit.message]));
      if next.failures >= 3 then Waiting(next, Failure) else next
  }

  function LabelOf(choices: seq<Choice>, value: string): string {
    if choices == [] then value
    else if choices[0].value == value then value + " (" + choices[0].shown + ")"
    else LabelOf(choices[1..], value)
  }

  function Guided(s: Status, value: string): string {
    (if s.guidance != "" then s.guidance + "\n" else "")
    + if s.decision.Some? then "Question: " + s.decision.value.question + "\nAnswer: " + LabelOf(s.decision.value.choices, value) else value
  }

  predicate Accepted(s: Status, a: Answer) {
    a.success && (s.reason == Ask || a.value == "accepted")
  }

  function Resumed(s: Status): Status {
    s.(question := None, reason := NoReason, phase := Receiving)
  }

  const TOO_MUCH_GUIDANCE := "Human guidance exceeds this Run's input limit."
  const CONTINUE_ELSEWHERE := " Continue in a new Run using the saved messages."

  function Stop(s: Status, decision: string, note: string, summary: string, q: string): Status {
    Appended(s, decision, note, [q]).(phase := Stopped, summary := summary)
  }

  /** The answer to a question of the Manager becomes guidance, and the round ends; too much guidance stops the run. */
  function AfterAsk(s: Status, q: string, a: Answer): Status {
    var guidance := Guided(s, a.value);
    if |guidance| > GUIDANCE_LIMIT then Stop(s, "ask", TOO_MUCH_GUIDANCE, TOO_MUCH_GUIDANCE + CONTINUE_ELSEWHERE, q)
    else
      Resumed(Advanced(Appended(s.(guidance := guidance, lastAudit := None), "ask", a.value, [s.managerMessage, q] + if a.reply.Some? then [a.reply.value] else [])))
  }

  /** human: the answer decides whether and how the run goes on. */
  function AfterHuman(s: Status, q: string, a: Answer): Status {
    if !Accepted(s, a) then Stop(s, "human", "Human interaction ended: " + a.value, "Stopped after human interaction: " + a.value, q)
    else
      match s.reason
      case Ask => AfterAsk(s, q, a)
      case Budget => Resumed(s.(budget := if s.budget + 25 > ROUND_LIMIT then ROUND_LIMIT else s.budget + 25))
      case Failure => Resumed(s.(failures := 0))
      case NoReason => Resumed(s)
  }

  // ---------- bounds and the measure ----------

  /** What the fields of a persisted status say about each other. */
  ghost predicate Bounded(s: Status) {
    && |s.guidance| <= GUIDANCE_LIMIT && |s.inputs| <= INPUT_LIMIT && |s.rounds| <= KEPT_ROUNDS
    && (s.finished ==> s.phase.Terminal() && s.finalMessage != "")
    && (s.finalMessage != "" ==> s.phase.Terminal())
    && (s.question.Some? ==> s.question == Some((s.round, s.reason)) && (s.phase == WaitingForHuman || s.phase.Terminal()))
    && (s.phase == New ==> s == NewStatus())
    && (s.phase != New ==> 1 <= s.budget <= ROUND_LIMIT && 1 <= s.round <= s.budget + 1 && s.consumed < s.round)
    && (s.phase == Executing || s.phase == Auditing ==> s.round <= s.budget && s.execution.Some?)
    && (s.phase == WaitingForHuman ==>
          && s.reason != NoReason
          && (s.reason == Ask ==> s.round <= s.budget && s.decision.Some?)
          && (s.reason == Budget ==> s.round == s.budget + 1 && s.budget < ROUND_LIMIT))
  }

  function ReasonRank(reason: Reason): nat {
    match reason
    case Failure => 12
    case Budget => 8
    case Ask => 4
    case NoReason => 1
  }

  /** How far a status is from the end of its round, and in the end from being finished. */
  function Rank(s: Status): nat {
    match s.phase
    case New => 20
    case Receiving => if s.round > s.budget then 10 else 6
    case Planning => if s.round > s.budget then 9 else 5
    case Executing => 4
    case Auditing => 3
    case WaitingForHuman => if s.question.None? then ReasonRank(s.reason) else ReasonRank(s.reason) - 1
    case _ => if s.finished then 0 else if s.finalMessage != "" then 1 else 2
  }

  function Measure(s: Status): nat {
    if s.phase.Terminal() then Rank(s)
    else if s.round <= 1001 then 20 * (1002 - s.round) + Rank(s)
    else 0
  }

  /** The measure with which a human wait begins. */
  function Mark(q: Question): int {
    20 * (1002 - q.0) + ReasonRank(q.1)
  }

  lemma AppendedBounded(s: Status, decision: string, summary: string, messages: seq<string>)
    requires |s.rounds| <= KEPT_ROUNDS
    ensures |Appended(s, decision, summary, messages).rounds| <= KEPT_ROUNDS
  {
  }

  /** A failed round is shorter than the round it was in. */
  lemma FailureLowers(s: Status, reason: string)
    requires Bounded(s) && !s.phase.Terminal() && s.phase != New && s.round <= s.budget
    ensures Bounded(AfterFailure(s, reason)) && Measure(AfterFailure(s, reason)) <= 20 * (1002 - s.round) - 8
  {
    AppendedBounded(s, "failure", reason, [s.managerMessage]);
  }

  lemma {:induction false} AbsorbKeeps(s: Status, user: string, polled: seq<Mail>)
    requires |s.guidance| <= GUIDANCE_LIMIT && |s.inputs| <= INPUT_LIMIT
    ensures
      var next := Absorb(s, user, polled);
      && |next.guidance| <= GUIDANCE_LIMIT && |next.inputs| <= INPUT_LIMIT
      && s.inputs <= next.inputs && s.version <= next.version
      && (next.inputs == s.inputs ==> next.version == s.version && next.lastAudit == s.lastAudit)
      && (next.inputs != s.inputs ==> next.version > s.version && next.lastAudit.None?)
      && next == s.(guidance := next.guidance, inputs := next.inputs, version := next.version, lastAudit := next.lastAudit, through := next.through)
    decreases |polled|
  {
    if polled != [] && !(IsInput(polled[0]) && !Absorbs(s, user, polled[0])) {
      AbsorbKeeps(AbsorbOne(s, polled[0]), user, polled[1..]);
    }
  }

  /** A step that keeps the bounds and comes closer to the end. */
  ghost predicate Lowers(s: Status, next: Status) {
    Bounded(next) && Measure(next) < Measure(s) && next.phase != New && (s.phase.Terminal() ==> next.phase == s.phase)
  }

  lemma FailuresLower(s: Status, was: Status)
    requires Bounded(s) && !s.phase.Terminal() && s.phase != New && s.round <= s.budget
    requires Measure(was) >= 20 * (1002 - s.round) && !was.phase.Terminal()
    ensures forall reason :: Lowers(was, AfterFailure(s, reason))
  {
    forall reason ensures Lowers(was, AfterFailure(s, reason)) {
      FailureLowers(s, reason);
    }
  }

  lemma ConsideredBounded(s: Status, reply: Reply, d: Decision)
    requires Bounded(s) && s.phase == Planning && s.round <= s.budget
    ensures
      var c := Considered(s, reply, d);
      && Bounded(c) && Bounded(s.(managerMessage := reply.message))
      && c.phase == Planning && c.round == s.round && c.budget == s.budget && c.decision == Some(d)
  {
  }

  lemma DecidedLowers(s: Status, c: Status, d: Decision, issued: Ref, message: string)
    requires Bounded(s) && s.phase == Planning && Bounded(c) && c.phase == Planning && c.round == s.round <= c.budget == s.budget && c.decision.Some?
    ensures Lowers(s, c.(execution := Some(issued), lastAudit := None, phase := Executing))
    ensures Lowers(s, Waiting(c, Ask))
    ensures Lowers(s, Appended(c, "done", d.summary, [message]).(phase := Succeeded, summary := d.summary))
  {
    AppendedBounded(c, "done", d.summary, [message]);
  }

  /** Everything a round can still do is shorter than reaching its planning was. */
  lemma PlanLowers(s: Status, reply: Reply, issued: Ref)
    requires Bounded(s) && s.phase == Planning && s.round <= s.budget
    ensures Lowers(s, AfterPlan(s, reply, issued))
  {
    hide Refusal, AfterFailure, Considered, Lowers, Appended, Waiting, WithinBounds, Usable;
    PlanningMeasure(s);
    ConsideredBounded(s, reply, Decision(Cli, "", "", "", "", [], false));
    UsableUnlessRefused(s, reply);
    FailuresLower(s.(managerMessage := reply.message), s);
    if Usable(reply) {
      var c := Considered(s, reply, reply.decision.value);
      ConsideredBounded(s, reply, reply.decision.value);
      FailuresLower(c, s);
      DecidedLowers(s, c, reply.decision.value, issued, reply.message);
    }
  }

  lemma UsableUnlessRefused(s: Status, reply: Reply)
    ensures Refusal(s, reply).None? ==> Usable(reply)
    ensures Usable(reply) ==> reply.decision.Some?
  {
    hide CanFinish, Considered;
  }

  lemma PlanningMeasure(s: Status)
    requires Bounded(s) && (s.phase == Planning || s.phase == Auditing)
    ensures Measure(s) >= 20 * (1002 - s.round)
  {
  }

  lemma AuditLowers(s: Status, audit: Audit, executionFailed: bool)
    requires Bounded(s) && s.phase == Auditing
    ensures Lowers(s, AfterAudit(s, audit, executionFailed))
  {
    hide AfterFailure;
    PlanningMeasure(s);
    FailuresLower(s, s);
    if audit.verdict.Some? {
      AppendedBounded(s, "cli", audit.verdict.value.feedback, [s.managerMessage, audit.spec.executionMessage, audit.message]);
    }
  }

  lemma HumanLowers(s: Status, q: string, a: Answer)
    requires Bounded(s) && s.phase == WaitingForHuman && s.question.Some?
    ensures Lowers(s, AfterHuman(s, q, a))
    ensures AfterHuman(s, q, a).phase == Receiving || AfterHuman(s, q, a).phase == Stopped
  {
    hide Guided, AfterAsk, Stop;
    if !Accepted(s, a) {
      StopLowers(s, "human", "Human interaction ended: " + a.value, "Stopped after human interaction: " + a.value, q);
    } else if s.reason == Ask {
      AskLowers(s, q, a);
    }
  }

  lemma StopLowers(s: Status, decision: string, note: string, summary: string, q: string)
    requires Bounded(s) && s.phase == WaitingForHuman
    ensures Lowers(s, Stop(s, decision, note, summary, q)) && Stop(s, decision, note, summary, q).phase == Stopped
  {
    AppendedBounded(s, decision, note, [q]);
  }

  lemma AskLowers(s: Status, q: string, a: Answer)
    requires Bounded(s) && s.phase == WaitingForHuman && s.reason == Ask
    ensures Lowers(s, AfterAsk(s, q, a)) && AfterAsk(s, q, a).phase in {Receiving, Stopped}
  {
    hide Guided, Stop;
    StopLowers(s, "ask", TOO_MUCH_GUIDANCE, TOO_MUCH_GUIDANCE + CONTINUE_ELSEWHERE, q);
    AppendedBounded(s.(guidance := Guided(s, a.value), lastAudit := None), "ask", a.value,
                    [s.managerMessage, q] + if a.reply.Some? then [a.reply.value] else []);
  }

  // ---------- the run in its cluster ----------

  /** What one reconcile finds outside the cluster: its clock, the poll, the saved execution report and the final message's id. */
  datatype Env = Env(late: bool, polled: seq<Mail>, executionFailed: bool, final: string)

  /**
   * A run with its children.  `issued` are the executions ever created, `recorded` how many
   * of them the status has recorded, `dirty` whether input was absorbed since the last of
   * these; `waits` and `approved` the human questions entered and granted.
   */
  datatype World = World(
    spec: Spec, defaultRounds: int, status: Status, executions: map<nat, Execution>, audits: map<nat, Audit>, nextUid: nat,
    replies: map<nat, Reply>, answers: map<Question, Answer>,
    issued: seq<(Ref, ExecutionSpec)>, recorded: nat, dirty: bool, waits: seq<Question>, approved: seq<Question>)

  datatype Event =
    | Reconcile(env: Env, committed: bool)
    | Replied(reply: Reply)
    | Executed(round: nat, message: string, error: string)
    | Audited(round: nat, message: string, result: Result<Verdict, string>)
    | Answered(question: Question, answer: Answer)
    | Collect(round: nat)

  predicate Overdue(s: Status, env: Env) {
    s.phase != New && !s.phase.Terminal() && env.late
  }

  /** The child a reconcile creates before it writes the status; a child that exists is used as it is. */
  function Prepared(w: World, env: Env): World {
    var s := w.status;
    if Overdue(s, env) then w
    else if s.phase == Planning && s.round <= s.budget && s.round in w.replies && s.round !in w.executions && Issues(s, w.replies[s.round]).Some? then
      var spec := Issues(s, w.replies[s.round]).value;
      w.(executions := w.executions[s.round := Execution(w.nextUid, spec, "", "")], nextUid := w.nextUid + 1,
         issued := w.issued + [(Ref(s.round, w.nextUid), spec)])
    else if s.phase == Executing && HasExecution(w) && s.round !in w.audits then
      w.(audits := w.audits[s.round := Audit(w.nextUid, AuditFor(s, w.executions[s.round]), "", None, "")], nextUid := w.nextUid + 1)
    else w
  }

  /** The current execution, finished. */
  predicate HasExecution(w: World) {
    && w.status.execution.Some? && w.status.execution.value.round in w.executions && w.status.round in w.executions
    && w.executions[w.status.round].uid == w.status.execution.value.uid && w.executions[w.status.round].message != ""
  }

  predicate HasAudit(w: World) {
    && w.status.audit.Some? && w.status.round in w.audits
    && w.audits[w.status.round].uid == w.status.audit.value.uid && w.audits[w.status.round].message != ""
  }

  /** What a reconcile persists, if anything. */
  function Reconciled(w: World, env: Env): Option<Status> {
    var s := w.status;
    if s.phase == New then Some(Started(w.spec, w.defaultRounds))
    else if Overdue(s, env) then Some(Expired(s))
    else
      match s.phase
      case Receiving => Some(AfterInput(s, w.spec.user, env.polled))
      case WaitingForHuman =>
        if s.question.None? then
          if s.reason == Ask && s.decision.None? then None else Some(s.(question := Some((s.round, s.reason))))
        else if s.question.value in w.answers then Some(AfterHuman(s, "human", w.answers[s.question.value]))
        else None
      case Executing =>
        if HasExecution(w) && s.round in w.audits && w.audits[s.round].spec == AuditFor(s, w.executions[s.round]) then
          Some(AfterExecution(s, Ref(s.round, w.audits[s.round].uid)))
        else None
      case Auditing => if HasAudit(w) then Some(AfterAudit(s, w.audits[s.round], env.executionFailed)) else None
      case Planning =>
        if s.round > s.budget then Some(OverBudget(s))
        else if s.round !in w.replies then None
        else
          var issues := Issues(s, w.replies[s.round]);
          if issues.Some? then
            if s.round in w.executions && w.executions[s.round].spec == issues.value then
              Some(AfterPlan(s, w.replies[s.round], Ref(s.round, w.executions[s.round].uid)))
            else None
          else Some(AfterPlan(s, w.replies[s.round], Ref(s.round, 0)))
      case _ =>
        if s.finished then None
        else if s.finalMessage == "" then (if env.final == "" then None else Some(s.(finalMessage := env.final)))
        else Some(s.(finished := true))
  }

  /** A committed status, and what it adds to the history. */
  function Persisted(w: World, next: Status): World {
    var s := w.status;
    var issues := s.phase == Planning && next.phase == Executing;
    var asked := s.phase == WaitingForHuman && s.question.Some? && next.phase == Receiving;
    w.(status := next,
       recorded := if issues then |w.issued| else w.recorded,
       dirty := if issues then false else w.dirty || (s.phase != New && next.inputs != s.inputs) || (asked && s.reason == Ask),
       waits := if next.phase == WaitingForHuman && s.phase != WaitingForHuman then w.waits + [(next.round, next.reason)] else w.waits,
       approved := if asked then w.approved + [s.question.value] else w.approved)
  }

  /** The Auditor's check of a verdict before it records one. */
  function Judged(result: Result<Verdict, string>): (Option<Verdict>, string) {
    match result
    case Err(error) => (None, if error == "" then "invalid audit" else error)
    case Ok(v) =>
      if v.integrity.Unrecognised? then (None, "invalid audit integrity")
      else if v.complete && (v.evidence == "" || v.integrity != Clean) then (None, "completion requires clean integrity and independent evidence")
      else (Some(v), "")
  }

  function Next(w: World, e: Event): World {
    match e
    case Reconcile(env, committed) =>
      var prepared := Prepared(w, env);
      var next := Reconciled(prepared, env);
      if committed && next.Some? then Persisted(prepared, next.value) else prepared
    case Replied(reply) =>
      if w.status.phase == Planning && w.status.round <= w.status.budget && w.status.round !in w.replies then
        w.(replies := w.replies[w.status.round := reply])
      else w
    case Executed(round, message, error) =>
      if round in w.executions && w.executions[round].message == "" && message != "" then
        w.(executions := w.executions[round := w.executions[round].(message := message, error := error)])
      else w
    case Audited(round, message, result) =>
      if round in w.audits && w.audits[round].message == "" && message != "" then
        var (verdict, error) := Judged(result);
        w.(audits := w.audits[round := w.audits[round].(message := message, verdict := verdict, error := error)])
      else w
    case Answered(question, answer) => if question in w.answers then w else w.(answers := w.answers[question := answer])
    case Collect(round) =>
      if round > w.status.consumed then w
      else
        w.(executions := if round in w.executions && w.executions[round].message != "" then w.executions - {round} else w.executions,
           audits := if round in w.audits && w.audits[round].message != "" then w.audits - {round} else w.audits)
  }

  function Created(spec: Spec, defaultRounds: int): World {
    World(spec, defaultRounds, NewStatus(), map[], map[], 0, map[], map[], [], 0, false, [], [])
  }

  ghost predicate Configured(spec: Spec, defaultRounds: int) {
    spec.maxRounds <= ROUND_LIMIT && 1 <= defaultRounds <= ROUND_LIMIT
  }

  lemma InputLowers(s: Status, user: string, polled: seq<Mail>)
    requires Bounded(s) && s.phase == Receiving
    ensures Lowers(s, AfterInput(s, user, polled))
  {
    hide Absorb;
    AbsorbKeeps(s, user, polled);
  }

  /** The steps that need nothing from outside. */
  lemma PlainLowers(s: Status, spec: Spec, defaultRounds: int, env: Env, audit: Ref)
    requires Bounded(s) && Configured(spec, defaultRounds)
    ensures s.phase == New ==> Lowers(s, Started(spec, defaultRounds))
    ensures Overdue(s, env) ==> Lowers(s, Expired(s))
    ensures s.phase == Planning && s.round > s.budget ==> Lowers(s, OverBudget(s))
    ensures s.phase == WaitingForHuman && s.question.None? ==> Lowers(s, s.(question := Some((s.round, s.reason))))
    ensures s.phase == Executing ==> Lowers(s, AfterExecution(s, audit))
    ensures s.phase.Terminal() && !s.finished && s.finalMessage == "" && env.final != "" ==> Lowers(s, s.(finalMessage := env.final))
    ensures s.phase.Terminal() && !s.finished && s.finalMessage != "" ==> Lowers(s, s.(finished := true))
  {
    hide Started, Expired, OverBudget;
    OutsideLowers(s, spec, defaultRounds, env);
  }

  lemma OutsideLowers(s: Status, spec: Spec, defaultRounds: int, env: Env)
    requires Bounded(s) && Configured(spec, defaultRounds)
    ensures s.phase == New ==> Lowers(s, Started(spec, defaultRounds))
    ensures Overdue(s, env) ==> Lowers(s, Expired(s))
    ensures s.phase == Planning && s.round > s.budget ==> Lowers(s, OverBudget(s))
  {
  }

  /** Every persisted step lowers the measure and stays within the bounds. */
  lemma StepLowers(w: World, env: Env)
    requires Bounded(w.status) && Configured(w.spec, w.defaultRounds) && Reconciled(w, env).Some?
    ensures Lowers(w.status, Reconciled(w, env).value)
  {
    hide AfterPlan, AfterAudit, AfterHuman, AfterInput, AfterExecution, OverBudget, Started, Expired, Bounded, Lowers, HasExecution, Issues, AuditFor,
      Configured;
    var s := w.status;
    PlainLowers(s, w.spec, w.defaultRounds, env, Ref(s.round, if s.round in w.audits then w.audits[s.round].uid else 0));
    if s.phase == Receiving {
      InputLowers(s, w.spec.user, env.polled);
    } else if s.phase == Planning && s.round <= s.budget && s.round in w.replies {
      PlanLowers(s, w.replies[s.round], Ref(s.round, if s.round in w.executions then w.executions[s.round].uid else 0));
      PlanLowers(s, w.replies[s.round], Ref(s.round, 0));
    } else if s.phase == Auditing && s.round in w.audits {
      AuditLowers(s, w.audits[s.round], env.executionFailed);
    } else if s.phase == WaitingForHuman && s.question.Some? && s.question.value in w.answers {
      HumanLowers(s, "human", w.answers[s.question.value]);
    }
  }

  // ---------- human waits ----------

  /** Every question was entered once and granted at most once; the measure has passed the finished ones. */
  ghost predicate WaitsOk(s: Status, waits: seq<Question>, approved: seq<Question>) {
    && (forall i, j :: 0 <= i < j < |waits| ==> waits[i] != waits[j])
    && (forall q :: q in waits ==> Measure(s) <= Mark(q) && (Measure(s) < Mark(q) || (s.phase == WaitingForHuman && q == (s.round, s.reason))))
    && (forall i, j :: 0 <= i < j < |approved| ==> approved[i] != approved[j])
    && (forall p :: p in approved ==> Measure(s) < Mark(p) - 1)
  }

  lemma WaitsKept(w: World, next: Status)
    requires Bounded(w.status) && Lowers(w.status, next) && WaitsOk(w.status, w.waits, w.approved)
    requires w.status.phase == WaitingForHuman && next.phase == WaitingForHuman ==> next.round == w.status.round && next.reason == w.status.reason
    requires w.status.phase != WaitingForHuman && next.phase == WaitingForHuman ==> next.question.None?
    ensures var after := Persisted(w, next); WaitsOk(next, after.waits, after.approved)
  {
    var s, after := w.status, Persisted(w, next);
    WaitingMeasure(s);
    WaitingMeasure(next);
    hide Bounded, Measure, Mark;
    forall q | q in after.waits && q !in w.waits ensures q == (next.round, next.reason) && next.phase == WaitingForHuman {
    }
    forall p | p in after.approved && p !in w.approved ensures p == (s.round, s.reason) && Measure(s) == Mark(p) - 1 {
    }
    assert forall i :: 0 <= i < |w.waits| ==> w.waits[i] in w.waits;
    assert forall i :: 0 <= i < |w.approved| ==> w.approved[i] in w.approved;
  }

  lemma WaitingMeasure(s: Status)
    requires Bounded(s)
    ensures s.phase == WaitingForHuman ==> Measure(s) == Mark((s.round, s.reason)) - if s.question.Some? then 1 else 0
    ensures s.question.Some? ==> s.question == Some((s.round, s.reason))
  {
  }

  // ---------- children and evidence ----------

  predicate Between(phase: Phase) {
    phase == New || phase == Receiving || phase == Planning || phase == WaitingForHuman
  }

  /** The executions ever issued: one per round, all recorded but perhaps the one being issued. */
  ghost predicate IssuedOk(w: World) {
    var s := w.status;
    && w.recorded <= |w.issued| <= w.recorded + 1
    && (forall i, j :: 0 <= i < j < |w.issued| ==> w.issued[i].0.round < w.issued[j].0.round)
    && (forall i :: 0 <= i < |w.issued| ==> w.issued[i].0.round == w.issued[i].1.round <= s.round)
    && (forall i :: 0 <= i < w.recorded ==>
          w.issued[i].1.version <= s.version && (w.issued[i].1.version == s.version ==> w.issued[i].1.contract == s.contract))
    && (Between(s.phase) ==> forall i :: 0 <= i < w.recorded ==> w.issued[i].0.round < s.round)
    && (s.phase == Executing || s.phase == Auditing ==>
          w.recorded == |w.issued| > 0 && s.execution == Some(w.issued[w.recorded - 1].0) && w.issued[w.recorded - 1].0.round == s.round)
    && (|w.issued| == w.recorded + 1 ==>
          && w.issued[w.recorded].0.round == s.round && (s.phase == Failed || s.phase == Planning)
          && (s.phase == Planning ==>
                && s.round <= s.budget && s.round in w.replies && Issues(s, w.replies[s.round]) == Some(w.issued[w.recorded].1)
                && s.round in w.executions))
  }

  ghost predicate IsIssued(w: World, r: Ref, spec: ExecutionSpec) {
    exists i :: 0 <= i < |w.issued| && w.issued[i] == (r, spec)
  }

  /** An audit is of an execution that was issued, with its contract. */
  ghost predicate AuditOf(w: World, spec: AuditSpec) {
    exists i :: 0 <= i < |w.issued| && w.issued[i].0 == spec.execution && w.issued[i].1.version == spec.version && w.issued[i].1.contract == spec.contract
  }

  ghost predicate ChildrenOk(w: World) {
    var s := w.status;
    && (forall r :: r in w.executions ==> r <= s.round && w.executions[r].spec.round == r && IsIssued(w, Ref(r, w.executions[r].uid), w.executions[r].spec))
    && (forall r :: r in w.audits ==> r <= s.round && AuditOf(w, w.audits[r].spec))
    && (s.phase == Executing ==> s.round in w.executions && s.execution == Some(Ref(s.round, w.executions[s.round].uid)))
    && (s.phase == Auditing ==> s.round in w.audits && s.audit == Some(Ref(s.round, w.audits[s.round].uid)))
  }

  /** Evidence is of the last recorded execution, and no input has been absorbed since that was issued. */
  ghost predicate EvidenceOk(w: World) {
    && (w.status.phase == Executing || w.status.phase == Auditing ==> !w.dirty)
    && (w.status.lastAudit.Some? ==>
      var a := w.status.lastAudit.value;
      0 < w.recorded <= |w.issued| && a.execution == w.issued[w.recorded - 1].0 && a.version == w.issued[w.recorded - 1].1.version && !w.dirty)
  }

  /** What success rests on. */
  ghost predicate Certified(w: World) {
    var s := w.status;
    && w.issued != [] && CanFinish(s) && !w.dirty
    && var (ref, spec) := w.issued[|w.issued| - 1];
       s.lastAudit.value.execution == ref && s.lastAudit.value.version == spec.version == s.version && spec.contract == s.contract
  }

  ghost predicate Sound(w: World) {
    w.recorded <= |w.issued| && IssuedOk(w) && ChildrenOk(w) && EvidenceOk(w) && (w.status.phase == Succeeded ==> Certified(w))
  }

  /** A status that records nothing new: text and version together, evidence kept or dropped, rounds not reopened. */
  predicate Quiet(w: World, next: Status) {
    var s, after := w.status, Persisted(w, next);
    && next.version >= s.version && (next.version == s.version ==> next.contract == s.contract)
    && (next.lastAudit == s.lastAudit || next.lastAudit.None?)
    && (after.dirty != w.dirty ==> next.lastAudit.None?)
    && next.phase != Executing && next.phase != Auditing && next.phase != Succeeded
    && next.round >= s.round && (Between(next.phase) ==> next.round > s.round || Between(s.phase))
    && (|w.issued| == w.recorded + 1 ==> next.phase == Failed && next.round == s.round)
  }

  lemma QuietIssued(w: World, next: Status)
    requires IssuedOk(w) && Quiet(w, next)
    ensures IssuedOk(Persisted(w, next))
  {
    hide Issues, CanFinish;
  }

  /** Children stay valid when nothing is issued or removed and the status does not wait for one. */
  lemma QuietChildren(w: World, next: Status)
    requires ChildrenOk(w) && next.round >= w.status.round
    requires next.phase == Executing ==>
               next.round in w.executions && next.execution == Some(Ref(next.round, w.executions[next.round].uid))
    requires next.phase == Auditing ==> next.round in w.audits && next.audit == Some(Ref(next.round, w.audits[next.round].uid))
    ensures ChildrenOk(Persisted(w, next))
  {
    var after := Persisted(w, next);
    forall r | r in w.executions ensures IsIssued(after, Ref(r, w.executions[r].uid), w.executions[r].spec) {
      assert IsIssued(w, Ref(r, w.executions[r].uid), w.executions[r].spec);
    }
    forall r | r in w.audits ensures AuditOf(after, w.audits[r].spec) {
      assert AuditOf(w, w.audits[r].spec);
    }
    hide IsIssued, AuditOf;
  }

  lemma QuietKeeps(w: World, next: Status)
    requires Sound(w) && Quiet(w, next)
    ensures Sound(Persisted(w, next))
  {
    QuietIssued(w, next);
    QuietChildren(w, next);
    hide IssuedOk, ChildrenOk, CanFinish, Between;
  }

  // ---------- what each step keeps ----------

  /** Creating a child before the status is written keeps everything sound. */
  lemma PreparedKeeps(w: World, env: Env)
    requires Sound(w) && Bounded(w.status)
    ensures Sound(Prepared(w, env)) && Prepared(w, env).status == w.status && Prepared(w, env).spec == w.spec
    ensures Prepared(w, env).recorded == w.recorded && Prepared(w, env).replies == w.replies
  {
    hide Sound, Issues, AuditFor;
    var s, after := w.status, Prepared(w, env);
    if after.issued != w.issued {
      IssuingKeeps(w, after, Issues(s, w.replies[s.round]).value);
    } else if after != w {
      AuditingIssued(w, after);
    }
  }

  /** What was issued stays issued. */
  lemma IssuedGrows(w: World, after: World)
    requires w.issued <= after.issued
    ensures forall r, spec :: IsIssued(w, r, spec) ==> IsIssued(after, r, spec)
    ensures forall spec :: AuditOf(w, spec) ==> AuditOf(after, spec)
  {
    forall r, spec | IsIssued(w, r, spec) ensures IsIssued(after, r, spec) {
      var i :| 0 <= i < |w.issued| && w.issued[i] == (r, spec);
      assert after.issued[i] == w.issued[i];
    }
    forall spec | AuditOf(w, spec) ensures AuditOf(after, spec) {
      var i :| 0 <= i < |w.issued| && w.issued[i].0 == spec.execution && w.issued[i].1.version == spec.version && w.issued[i].1.contract == spec.contract;
      assert after.issued[i] == w.issued[i];
    }
  }

  predicate Issuing(w: World, after: World, spec: ExecutionSpec) {
    var s := w.status;
    && s.phase == Planning && s.round <= s.budget && s.round in w.replies && s.round !in w.executions && Issues(s, w.replies[s.round]) == Some(spec)
    && after == w.(executions := w.executions[s.round := Execution(w.nextUid, spec, "", "")], nextUid := w.nextUid + 1,
                   issued := w.issued + [(Ref(s.round, w.nextUid), spec)])
  }

  lemma IssuingIssued(w: World, after: World, spec: ExecutionSpec)
    requires IssuedOk(w) && Issuing(w, after, spec) && spec.round == w.status.round
    ensures IssuedOk(after) && |w.issued| == w.recorded
  {
    hide Issues;
  }

  lemma IssuingChildren(w: World, after: World, spec: ExecutionSpec)
    requires ChildrenOk(w) && Issuing(w, after, spec) && spec.round == w.status.round
    ensures ChildrenOk(after)
  {
    hide Issues;
    IssuedGrows(w, after);
    assert after.issued[|w.issued|] == (Ref(spec.round, w.nextUid), spec);
    assert IsIssued(after, Ref(spec.round, w.nextUid), spec);
    hide IsIssued, AuditOf;
  }

  lemma IssuingKeeps(w: World, after: World, spec: ExecutionSpec)
    requires Sound(w) && Issuing(w, after, spec)
    ensures Sound(after)
  {
    IssuingIssued(w, after, spec);
    IssuingChildren(w, after, spec);
    hide IssuedOk, ChildrenOk, CanFinish, Issues;
  }

  /** Facts about the history survive whatever happens to children, replies and answers. */
  lemma SameHistory(w: World, after: World)
    requires Sound(w) && ChildrenOk(after)
    requires after.status == w.status && after.issued == w.issued && after.recorded == w.recorded && after.dirty == w.dirty
    requires forall r :: r in w.replies ==> r in after.replies && after.replies[r] == w.replies[r]
    requires forall r :: r in w.executions && r == w.status.round && w.status.phase == Planning ==> r in after.executions
    ensures Sound(after)
  {
    hide ChildrenOk, Issues, CanFinish;
  }

  lemma AuditingIssued(w: World, after: World)
    requires Sound(w) && w.status.phase == Executing && HasExecution(w) && w.status.round !in w.audits
    requires after == w.(audits := w.audits[w.status.round := Audit(w.nextUid, AuditFor(w.status, w.executions[w.status.round]), "", None, "")], nextUid := w.nextUid + 1)
    ensures Sound(after)
  {
    AuditingChildren(w, after);
    SameHistory(w, after);
  }

  lemma AuditingChildren(w: World, after: World)
    requires ChildrenOk(w) && w.status.phase == Executing && HasExecution(w) && w.status.round !in w.audits
    requires after == w.(audits := w.audits[w.status.round := Audit(w.nextUid, AuditFor(w.status, w.executions[w.status.round]), "", None, "")], nextUid := w.nextUid + 1)
    ensures ChildrenOk(after)
  {
    AuditIsOf(w, w.status.round);
    IssuedGrows(w, after);
    hide IsIssued, AuditOf, HasExecution, AuditFor;
  }

  lemma AuditIsOf(w: World, r: nat)
    requires ChildrenOk(w) && r in w.executions && r == w.status.round
    ensures AuditOf(w, AuditFor(w.status, w.executions[r]))
  {
    assert IsIssued(w, Ref(r, w.executions[r].uid), w.executions[r].spec);
    var i :| 0 <= i < |w.issued| && w.issued[i] == (Ref(r, w.executions[r].uid), w.executions[r].spec);
    assert w.issued[i].0 == Ref(r, w.executions[r].uid);
  }

  /** Issuing an execution starts a new stretch of evidence. */
  lemma IssueRecorded(w: World, env: Env)
    requires Sound(w) && Bounded(w.status) && w.status.phase == Planning && !Overdue(w.status, env)
    requires Reconciled(w, env).Some? && Reconciled(w, env).value.phase == Executing
    ensures Sound(Persisted(w, Reconciled(w, env).value))
  {
    hide CanFinish;
    var s, next := w.status, Reconciled(w, env).value;
    PlanIssues(s, w.replies[s.round]);
    assert IsIssued(w, Ref(s.round, w.executions[s.round].uid), w.executions[s.round].spec);
    QuietChildren(w, next);
    hide IsIssued, AuditOf, ChildrenOk, Issues, AfterPlan;
    RecordedIssued(w, next, Ref(s.round, w.executions[s.round].uid), w.executions[s.round].spec);
  }

  lemma PlanIssues(s: Status, reply: Reply)
    requires Bounded(s) && s.phase == Planning
    ensures forall issued :: AfterPlan(s, reply, issued).phase == Executing ==> Issues(s, reply).Some?
    ensures forall issued :: AfterPlan(s, reply, issued).phase == Executing ==>
              var (next, spec) := (AfterPlan(s, reply, issued), Issues(s, reply).value);
              && next.execution == Some(issued) && next.round == s.round == spec.round && next.lastAudit.None? && next.inputs == s.inputs
              && spec.version == next.version >= s.version && spec.contract == next.contract && (next.version == s.version ==> next.contract == s.contract)
  {
    hide CanFinish, WithinBounds;
  }

  lemma RecordedIssued(w: World, next: Status, ref: Ref, spec: ExecutionSpec)
    requires IssuedOk(w) && EvidenceOk(w) && w.status.phase == Planning && next.phase == Executing && IsIssued(w, ref, spec)
    requires ref.round == w.status.round == next.round && next.execution == Some(ref) && next.lastAudit.None?
    requires spec.version == next.version >= w.status.version && spec.contract == next.contract
    requires next.version == w.status.version ==> next.contract == w.status.contract
    ensures IssuedOk(Persisted(w, next)) && EvidenceOk(Persisted(w, next))
  {
    hide Issues;
    var i :| 0 <= i < |w.issued| && w.issued[i] == (ref, spec);
    assert i == w.recorded;
  }

  /** The current audit is of the current execution, so its evidence is. */
  lemma AuditRecorded(w: World, executionFailed: bool)
    requires Sound(w) && Bounded(w.status) && w.status.phase == Auditing && HasAudit(w)
    ensures Sound(Persisted(w, AfterAudit(w.status, w.audits[w.status.round], executionFailed)))
  {
    hide CanFinish, Issues, Appended;
    var s, audit := w.status, w.audits[w.status.round];
    var next := AfterAudit(s, audit, executionFailed);
    assert AuditOf(w, audit.spec);
    var i :| 0 <= i < |w.issued| && w.issued[i].0 == audit.spec.execution && w.issued[i].1.version == audit.spec.version
             && w.issued[i].1.contract == audit.spec.contract;
    if s.execution == Some(audit.spec.execution) {
      assert i == w.recorded - 1;
    }
    AuditNext(s, audit, executionFailed);
    QuietChildren(w, next);
    hide AuditOf, IsIssued, ChildrenOk, AfterAudit;
    AuditedIssued(w, next);
  }

  lemma AuditNext(s: Status, audit: Audit, executionFailed: bool)
    requires Bounded(s) && s.phase == Auditing
    ensures
      var next := AfterAudit(s, audit, executionFailed);
      && next.version == s.version && next.contract == s.contract && next.inputs == s.inputs && next.round == s.round + 1
      && (next.phase == Receiving || next.phase == WaitingForHuman) && next.question.None?
      && (next.lastAudit == s.lastAudit
          || (s.execution == Some(audit.spec.execution)
              && next.lastAudit.Some? && next.lastAudit.value.execution == audit.spec.execution && next.lastAudit.value.version == audit.spec.version))
  {
    hide Appended;
    AppendedSame(s, "failure", "Stale audit references.", [s.managerMessage]);
    AppendedSame(s, "failure", "Audit failed: " + audit.error, [s.managerMessage]);
    if audit.verdict.Some? {
      var v := audit.verdict.value;
      var heard := s.(lastAudit := Some(Evidence(audit.spec.execution, audit.spec.version, audit.message, v)), taskState := v.state,
                      failures := if executionFailed then s.failures + 1 else 0);
      AppendedSame(heard, "cli", v.feedback, [s.managerMessage, audit.spec.executionMessage, audit.message]);
    }
  }

  lemma AppendedSame(s: Status, decision: string, summary: string, messages: seq<string>)
    ensures Appended(s, decision, summary, messages) == s.(rounds := Appended(s, decision, summary, messages).rounds)
  {
  }

  lemma AuditedIssued(w: World, next: Status)
    requires IssuedOk(w) && EvidenceOk(w) && w.status.phase == Auditing
    requires next.version == w.status.version && next.contract == w.status.contract && next.inputs == w.status.inputs && next.round == w.status.round + 1
    requires next.phase == Receiving || next.phase == WaitingForHuman
    requires next.lastAudit == w.status.lastAudit
             || (next.lastAudit.Some? && w.recorded > 0 && next.lastAudit.value.execution == w.issued[w.recorded - 1].0
                 && next.lastAudit.value.version == w.issued[w.recorded - 1].1.version)
    ensures IssuedOk(Persisted(w, next)) && EvidenceOk(Persisted(w, next))
  {
    hide Issues;
  }

  /** A planning reply that neither issues nor completes only closes the round or asks. */
  lemma PlanQuiet(s: Status, reply: Reply, issued: Ref)
    requires Bounded(s) && s.phase == Planning
    ensures
      var next := AfterPlan(s, reply, issued);
      next.phase != Executing && next.phase != Succeeded ==>
        && next.version >= s.version && (next.version == s.version ==> next.contract == s.contract)
        && next.lastAudit == s.lastAudit && next.inputs == s.inputs && next.round >= s.round
        && (next.phase == Receiving || next.phase == WaitingForHuman) && next.question.None?
        && Issues(s, reply).None?
  {
    hide CanFinish, WithinBounds;
    if Refusal(s, reply).Some? {
      RefusedIsQuiet(s, reply, issued);
    } else {
      hide AfterFailure, Bounded;
    }
  }

  lemma RefusedIsQuiet(s: Status, reply: Reply, issued: Ref)
    requires Bounded(s) && s.phase == Planning && Refusal(s, reply).Some?
    ensures
      var next := AfterPlan(s, reply, issued);
      && next.version >= s.version && (next.version == s.version ==> next.contract == s.contract)
      && next.lastAudit == s.lastAudit && next.inputs == s.inputs && next.round >= s.round
      && (next.phase == Receiving || next.phase == WaitingForHuman) && next.question.None?
      && Issues(s, reply).None?
  {
    hide CanFinish, WithinBounds, Refusal, AfterFailure, Bounded;
    RefusedIssuesNone(s, reply);
    FailureQuiet(if Usable(reply) then Considered(s, reply, reply.decision.value) else s.(managerMessage := reply.message), Refusal(s, reply).value);
  }

  lemma RefusedIssuesNone(s: Status, reply: Reply)
    requires Refusal(s, reply).Some?
    ensures Issues(s, reply).None?
  {
    hide CanFinish, WithinBounds, Considered;
  }

  lemma FailureQuiet(s: Status, reason: string)
    ensures
      var next := AfterFailure(s, reason);
      && next.version == s.version && next.contract == s.contract && next.lastAudit == s.lastAudit && next.inputs == s.inputs
      && next.round == s.round + 1 && next.phase in {Receiving, WaitingForHuman} && next.question.None?
  {
  }

  lemma HumanQuiet(s: Status, a: Answer)
    requires Bounded(s) && s.phase == WaitingForHuman && s.question.Some?
    ensures
      var next := AfterHuman(s, "human", a);
      && next.version == s.version && next.contract == s.contract && next.inputs == s.inputs && next.round >= s.round
      && (next.lastAudit == s.lastAudit || next.lastAudit.None?)
      && (next.phase == Receiving && s.reason == Ask ==> next.lastAudit.None?)
      && (next.phase == Receiving || next.phase == Stopped)
  {
    hide Guided, LabelOf, Bounded, AfterAsk;
    AskQuiet(s, "human", a);
  }

  lemma AskQuiet(s: Status, q: string, a: Answer)
    ensures
      var next := AfterAsk(s, q, a);
      && next.version == s.version && next.contract == s.contract && next.inputs == s.inputs && next.round >= s.round
      && (if next.phase == Receiving then next.lastAudit.None? else next.phase == Stopped && next.lastAudit == s.lastAudit)
  {
    hide Guided;
  }

  lemma InputQuiet(w: World, polled: seq<Mail>)
    requires IssuedOk(w) && Bounded(w.status) && w.status.phase == Receiving
    ensures Quiet(w, AfterInput(w.status, w.spec.user, polled))
  {
    hide Absorb, Issues;
    AbsorbKeeps(w.status, w.spec.user, polled);
  }

  lemma PlainQuiet(w: World, env: Env)
    requires IssuedOk(w) && Bounded(w.status)
    ensures w.status.phase == New ==> Quiet(w, Started(w.spec, w.defaultRounds))
    ensures Overdue(w.status, env) ==> Quiet(w, Expired(w.status))
    ensures w.status.phase == Planning && w.status.round > w.status.budget ==> Quiet(w, OverBudget(w.status))
    ensures w.status.phase == WaitingForHuman && w.status.question.None? ==> Quiet(w, w.status.(question := Some((w.status.round, w.status.reason))))
    ensures w.status.phase == Stopped || w.status.phase == Failed ==>
              Quiet(w, w.status.(finalMessage := env.final)) && Quiet(w, w.status.(finished := true))
  {
    hide Issues, ChildrenOk, Started, Expired, OverBudget;
    if w.status.phase == New {
      StartedQuiet(w);
    } else if !w.status.phase.Terminal() {
      ClosingQuiet(w);
    }
  }

  lemma StartedQuiet(w: World)
    requires IssuedOk(w) && Bounded(w.status) && w.status.phase == New
    ensures Quiet(w, Started(w.spec, w.defaultRounds))
  {
    hide Issues;
  }

  lemma ClosingQuiet(w: World)
    requires IssuedOk(w) && w.status.phase != New && !w.status.phase.Terminal()
    ensures Quiet(w, Expired(w.status))
    ensures w.status.phase == Planning && w.status.round > w.status.budget ==> Quiet(w, OverBudget(w.status))
  {
    hide Issues;
  }

  lemma PlanningQuiet(w: World, reply: Reply, issued: Ref)
    requires IssuedOk(w) && Bounded(w.status) && w.status.phase == Planning && w.status.round in w.replies && reply == w.replies[w.status.round]
    requires AfterPlan(w.status, reply, issued).phase !in {Executing, Succeeded}
    ensures Quiet(w, AfterPlan(w.status, reply, issued))
  {
    hide AfterPlan, Issues;
    PlanQuiet(w.status, reply, issued);
  }

  lemma AnsweredQuiet(w: World, a: Answer)
    requires IssuedOk(w) && Bounded(w.status) && w.status.phase == WaitingForHuman && w.status.question.Some?
    ensures Quiet(w, AfterHuman(w.status, "human", a))
  {
    hide AfterHuman, Issues;
    HumanQuiet(w.status, a);
  }

  lemma StepQuiet(w: World, env: Env)
    requires IssuedOk(w) && Bounded(w.status) && Reconciled(w, env).Some?
    requires var next := Reconciled(w, env).value; next.phase !in {Executing, Auditing, Succeeded} && (w.status.phase != Auditing || Overdue(w.status, env))
    ensures Quiet(w, Reconciled(w, env).value)
  {
    hide AfterPlan, AfterAudit, AfterHuman, AfterInput, Started, Expired, OverBudget, HasExecution, HasAudit, Issues, AuditFor, Quiet, IssuedOk;
    var s := w.status;
    PlainQuiet(w, env);
    if s.phase == Receiving && !Overdue(s, env) {
      InputQuiet(w, env.polled);
    } else if s.phase == Planning && !Overdue(s, env) && s.round <= s.budget {
      var issued := if Issues(s, w.replies[s.round]).Some? then Ref(s.round, w.executions[s.round].uid) else Ref(s.round, 0);
      PlanningQuiet(w, w.replies[s.round], issued);
    } else if s.phase == WaitingForHuman && !Overdue(s, env) && s.question.Some? {
      AnsweredQuiet(w, w.answers[s.question.value]);
    }
  }

  /** Completion is accepted only on current evidence. */
  lemma PlanSucceeds(s: Status, reply: Reply, issued: Ref)
    requires Bounded(s) && s.phase == Planning
    ensures
      var next := AfterPlan(s, reply, issued);
      next.phase == Succeeded ==>
        && CanFinish(next) && next.lastAudit == s.lastAudit && next.inputs == s.inputs && next.round == s.round && Issues(s, reply).None?
        && next.version >= s.version && (next.version == s.version ==> next.contract == s.contract)
  {
    hide WithinBounds;
  }

  lemma SuccessKeeps(w: World, env: Env)
    requires Sound(w) && Bounded(w.status) && w.status.phase == Planning && !Overdue(w.status, env)
    requires Reconciled(w, env).Some? && Reconciled(w, env).value.phase == Succeeded
    ensures Sound(Persisted(w, Reconciled(w, env).value))
  {
    hide AfterPlan, Issues, CanFinish, HasExecution, HasAudit, AuditFor;
    var s, next := w.status, Reconciled(w, env).value;
    PlanSucceeds(s, w.replies[s.round], Ref(s.round, if s.round in w.executions then w.executions[s.round].uid else 0));
    PlanSucceeds(s, w.replies[s.round], Ref(s.round, 0));
    QuietChildren(w, next);
    hide ChildrenOk;
    CertifiedNext(w, next);
  }

  lemma CertifiedNext(w: World, next: Status)
    requires IssuedOk(w) && EvidenceOk(w) && Between(w.status.phase) && next.phase == Succeeded && |w.issued| == w.recorded
    requires CanFinish(next) && next.lastAudit == w.status.lastAudit && next.inputs == w.status.inputs && next.round == w.status.round
    requires w.status.phase == Planning
    requires next.version >= w.status.version && (next.version == w.status.version ==> next.contract == w.status.contract)
    ensures var after := Persisted(w, next); IssuedOk(after) && EvidenceOk(after) && Certified(after)
  {
    hide Issues;
    assert next.lastAudit.value.version == next.version;
  }

  /** The last steps of a finished run add the final message and the time. */
  lemma FinishKeeps(w: World, next: Status)
    requires Sound(w) && w.status.phase.Terminal()
    requires next == w.status.(finalMessage := next.finalMessage, finished := next.finished)
    ensures Sound(Persisted(w, next))
  {
    QuietChildren(w, next);
    FinishHistory(w, next);
    hide ChildrenOk, IssuedOk, EvidenceOk, Certified;
  }

  lemma FinishHistory(w: World, next: Status)
    requires IssuedOk(w) && EvidenceOk(w) && w.status.phase.Terminal()
    requires next == w.status.(finalMessage := next.finalMessage, finished := next.finished)
    ensures IssuedOk(Persisted(w, next)) && EvidenceOk(Persisted(w, next)) && (Certified(w) ==> Certified(Persisted(w, next)))
  {
    hide Issues;
  }

  lemma ReconcileKeeps(w: World, env: Env)
    requires Sound(w) && Bounded(w.status) && Reconciled(w, env).Some?
    ensures Sound(Persisted(w, Reconciled(w, env).value))
  {
    var s, next := w.status, Reconciled(w, env).value;
    ReconciledPhases(w, env);
    hide Sound, Quiet, Reconciled, CanFinish;
    if s.phase == Planning && !Overdue(s, env) && next.phase == Executing {
      IssueRecorded(w, env);
    } else if s.phase == Planning && !Overdue(s, env) && next.phase == Succeeded {
      SuccessKeeps(w, env);
    } else if s.phase == Executing && next.phase == Auditing {
      ExecutionKeeps(w, env);
    } else if s.phase == Auditing && !Overdue(s, env) {
      AuditStep(w, env);
    } else if s.phase == Succeeded {
      FinishKeeps(w, next);
    } else {
      IssuedFrom(w);
      StepQuiet(w, env);
      QuietKeeps(w, next);
    }
  }

  lemma IssuedFrom(w: World)
    requires Sound(w)
    ensures IssuedOk(w)
  {
  }

  lemma ReconciledPhases(w: World, env: Env)
    requires Bounded(w.status) && Reconciled(w, env).Some?
    ensures
      var (s, next) := (w.status, Reconciled(w, env).value);
      && (next.phase == Executing ==> s.phase == Planning && !Overdue(s, env))
      && (next.phase == Auditing ==> s.phase == Executing && !Overdue(s, env))
      && (next.phase == Succeeded ==> (s.phase == Planning && !Overdue(s, env)) || s.phase == Succeeded)
      && (s.phase == Succeeded ==> next == s.(finalMessage := next.finalMessage, finished := next.finished))
      && (s.phase == WaitingForHuman && next.phase == WaitingForHuman ==> next.round == s.round && next.reason == s.reason)
      && (s.phase != WaitingForHuman && next.phase == WaitingForHuman ==> next.question.None?)
  {
    hide AfterPlan, AfterAudit, AfterHuman, HasExecution, AuditFor, Absorb, Issues;
    var s := w.status;
    if Overdue(s, env) || s.phase == New {
    } else if s.phase == Planning && s.round <= s.budget && s.round in w.replies {
      var issued := if Issues(s, w.replies[s.round]).Some? && s.round in w.executions then Ref(s.round, w.executions[s.round].uid) else Ref(s.round, 0);
      PlanQuiet(s, w.replies[s.round], issued);
      PlanPhases(s, w.replies[s.round], issued);
    } else if s.phase == Auditing && s.round in w.audits {
      AuditNext(s, w.audits[s.round], env.executionFailed);
    } else if s.phase == WaitingForHuman && s.question.Some? && s.question.value in w.answers {
      HumanQuiet(s, w.answers[s.question.value]);
    } else {
      AbsorbKeepsAll(s, w.spec.user, env.polled);
    }
  }

  lemma PlanPhases(s: Status, reply: Reply, issued: Ref)
    requires s.phase == Planning
    ensures AfterPlan(s, reply, issued).phase in {Receiving, WaitingForHuman, Executing, Succeeded, Planning}
    ensures Bounded(s) ==> AfterPlan(s, reply, issued).phase != Planning
  {
    hide CanFinish, Considered, WithinBounds, Appended;
    UsableUnlessRefused(s, reply);
  }

  lemma AbsorbKeepsAll(s: Status, user: string, polled: seq<Mail>)
    requires Bounded(s)
    ensures Absorb(s, user, polled).phase == s.phase
  {
    AbsorbKeeps(s, user, polled);
  }

  lemma ExecutionKeeps(w: World, env: Env)
    requires Sound(w) && Bounded(w.status) && w.status.phase == Executing && Reconciled(w, env).Some? && Reconciled(w, env).value.phase == Auditing
    ensures Sound(Persisted(w, Reconciled(w, env).value))
  {
    hide Sound, ChildrenOk, IssuedOk, EvidenceOk, Certified, AuditFor;
    AuditingKeeps(w, Ref(w.status.round, w.audits[w.status.round].uid));
  }

  lemma AuditingKeeps(w: World, audit: Ref)
    requires Sound(w) && w.status.phase == Executing && w.status.round in w.audits && audit == Ref(w.status.round, w.audits[w.status.round].uid)
    ensures Sound(Persisted(w, AfterExecution(w.status, audit)))
  {
    QuietChildren(w, AfterExecution(w.status, audit));
    AuditingHistory(w, audit);
    hide ChildrenOk, IssuedOk, EvidenceOk, Certified;
  }

  lemma AuditingHistory(w: World, audit: Ref)
    requires IssuedOk(w) && EvidenceOk(w) && w.status.phase == Executing
    ensures IssuedOk(Persisted(w, AfterExecution(w.status, audit))) && EvidenceOk(Persisted(w, AfterExecution(w.status, audit)))
  {
    hide Issues;
  }

  lemma AuditStep(w: World, env: Env)
    requires Sound(w) && Bounded(w.status) && w.status.phase == Auditing && !Overdue(w.status, env) && Reconciled(w, env).Some?
    ensures Sound(Persisted(w, Reconciled(w, env).value))
  {
    hide Sound, AfterAudit;
    AuditRecorded(w, env.executionFailed);
  }

  // ---------- all runs ----------

  ghost predicate Inv(w: World) {
    Configured(w.spec, w.defaultRounds) && Bounded(w.status) && Sound(w) && WaitsOk(w.status, w.waits, w.approved)
  }

  lemma CreatedInv(spec: Spec, defaultRounds: int)
    requires Configured(spec, defaultRounds)
    ensures Inv(Created(spec, defaultRounds))
  {
  }

  /** Children may finish or be collected, but keep their identity and inputs, and those in use stay. */
  ghost predicate ChildrenRemain(w: World, after: World) {
    && after.status == w.status && after.issued == w.issued && after.recorded == w.recorded && after.dirty == w.dirty
    && (forall r :: r in after.executions ==> r in w.executions && after.executions[r].uid == w.executions[r].uid && after.executions[r].spec == w.executions[r].spec)
    && (forall r :: r in after.audits ==> r in w.audits && after.audits[r].uid == w.audits[r].uid && after.audits[r].spec == w.audits[r].spec)
    && (forall r :: r in w.executions && r > w.status.consumed ==> r in after.executions)
    && (forall r :: r in w.audits && r > w.status.consumed ==> r in after.audits)
    && (forall r :: r in w.replies ==> r in after.replies && after.replies[r] == w.replies[r])
  }

  lemma CollectRemains(w: World, round: nat)
    ensures ChildrenRemain(w, Next(w, Collect(round)))
  {
    hide Prepared, Reconciled, Persisted, Judged;
  }

  lemma ExecutedRemains(w: World, round: nat, message: string, error: string)
    ensures ChildrenRemain(w, Next(w, Executed(round, message, error)))
  {
    hide Prepared, Reconciled, Persisted, Judged;
  }

  lemma AuditedRemains(w: World, round: nat, message: string, result: Result<Verdict, string>)
    ensures ChildrenRemain(w, Next(w, Audited(round, message, result)))
  {
    hide Prepared, Reconciled, Persisted, Judged;
  }

  lemma EventRemains(w: World, e: Event)
    requires !e.Reconcile?
    ensures ChildrenRemain(w, Next(w, e))
    ensures Next(w, e).waits == w.waits && Next(w, e).approved == w.approved
  {
    hide Judged, ChildrenRemain, Prepared, Reconciled, Persisted;
    match e
    case Replied(reply) => ReplyRemains(w, e);
    case Executed(round, message, error) => ExecutedRemains(w, round, message, error);
    case Audited(round, message, result) => AuditedRemains(w, round, message, result);
    case Answered(_, _) => ReplyRemains(w, e);
    case Collect(round) => CollectRemains(w, round);
  }

  lemma ReplyRemains(w: World, e: Event)
    requires e.Replied? || e.Answered?
    ensures ChildrenRemain(w, Next(w, e))
  {
    hide Prepared, Reconciled, Persisted, Judged;
  }

  lemma RemainKeeps(w: World, after: World)
    requires Sound(w) && Bounded(w.status) && ChildrenRemain(w, after)
    ensures Sound(after)
  {
    RemainChildren(w, after);
    assert w.status.phase == Planning ==> w.status.round > w.status.consumed;
    hide IssuedOk, ChildrenOk, EvidenceOk, Certified, Bounded;
    SameHistory(w, after);
  }

  lemma RemainChildren(w: World, after: World)
    requires ChildrenOk(w) && Bounded(w.status) && ChildrenRemain(w, after)
    ensures ChildrenOk(after)
  {
    IssuedGrows(w, after);
    hide IsIssued, AuditOf;
  }

  lemma ReconcileInv(w: World, env: Env, committed: bool)
    requires Inv(w)
    ensures Inv(Next(w, Reconcile(env, committed)))
  {
    hide Bounded, Sound, WaitsOk, Prepared, Reconciled, Configured;
    var prepared := Prepared(w, env);
    PreparedKeeps(w, env);
    PreparedSame(w, env);
    if committed && Reconciled(prepared, env).Some? {
      var next := Reconciled(prepared, env).value;
      StepLowers(prepared, env);
      ReconcileKeeps(prepared, env);
      ReconciledPhases(prepared, env);
      WaitsKept(prepared, next);
    }
  }

  lemma PreparedSame(w: World, env: Env)
    ensures Prepared(w, env).status == w.status && Prepared(w, env).spec == w.spec && Prepared(w, env).defaultRounds == w.defaultRounds
    ensures Prepared(w, env).waits == w.waits && Prepared(w, env).approved == w.approved
  {
    hide Issues, AuditFor, HasExecution;
  }

  /** A run: its states in order, each the next of the one before. */
  ghost predicate IsRun(spec: Spec, defaultRounds: int, run: seq<World>, events: seq<Event>) {
    && |run| == |events| + 1 && run[0] == Created(spec, defaultRounds)
    && forall i {:trigger events[i]} :: 0 <= i < |events| ==> run[i + 1] == Next(run[i], events[i])
  }

  lemma {:induction false} Reachable(spec: Spec, defaultRounds: int, run: seq<World>, events: seq<Event>, k: nat)
    requires Configured(spec, defaultRounds) && IsRun(spec, defaultRounds, run, events) && k < |run|
    ensures Inv(run[k])
  {
    if k == 0 {
      CreatedInv(spec, defaultRounds);
    } else {
      Reachable(spec, defaultRounds, run, events, k - 1);
      var w, e := run[k - 1], events[k - 1];
      StepInv(w, e);
    }
  }

  lemma StepInv(w: World, e: Event)
    requires Inv(w)
    ensures Inv(Next(w, e))
  {
    hide Bounded, Sound, WaitsOk, Configured;
    if e.Reconcile? {
      ReconcileInv(w, e.env, e.committed);
    } else {
      SameConfiguration(w, e);
      EventRemains(w, e);
      RemainKeeps(w, Next(w, e));
    }
  }

  lemma SameConfiguration(w: World, e: Event)
    requires !e.Reconcile?
    ensures Next(w, e).spec == w.spec && Next(w, e).defaultRounds == w.defaultRounds
  {
    hide Judged;
  }

  /** An event changes the status only to lower its measure, and never leaves a terminal phase. */
  lemma StepMeasure(w: World, e: Event)
    requires Inv(w)
    ensures
      var after := Next(w, e);
      && (after.status != w.status ==> Measure(after.status) < Measure(w.status))
      && (w.status.phase.Terminal() ==> after.status.phase == w.status.phase)
  {
    hide Sound, WaitsOk, Reconciled, Prepared, Measure;
    if e.Reconcile? {
      PreparedSame(w, e.env);
      if Reconciled(Prepared(w, e.env), e.env).Some? {
        StepLowers(Prepared(w, e.env), e.env);
      }
    } else {
      EventRemains(w, e);
    }
  }

  /**
   * A succeeded run rests on a clean, complete, evidenced verdict on the last execution it
   * ever issued, against the contract text and version now in its status, with no user
   * message and no Ask answer absorbed since that execution was issued.
   */
  lemma {:induction false} SuccessIsSound(spec: Spec, defaultRounds: int, run: seq<World>, events: seq<Event>, k: nat)
    requires Configured(spec, defaultRounds) && IsRun(spec, defaultRounds, run, events) && k < |run|
    ensures
      var w := run[k];
      w.status.phase == Succeeded ==>
        && w.issued != [] && w.status.lastAudit.Some? && !w.dirty
        && var (a, (ref, issued)) := (w.status.lastAudit.value, w.issued[|w.issued| - 1]);
           && a.execution == ref && a.verdict.complete && a.verdict.integrity == Clean && a.verdict.evidence != "" && a.message != ""
           && a.version == issued.version == w.status.version && issued.contract == w.status.contract
  {
    Reachable(spec, defaultRounds, run, events, k);
    hide IsRun, Bounded, IssuedOk, ChildrenOk, EvidenceOk, WaitsOk, Configured;
  }

  /** Whatever happens next lowers a natural number or leaves the status alone; rounds and budget stay within 1001 and 1000. */
  lemma {:induction false} Terminates(spec: Spec, defaultRounds: int, run: seq<World>, events: seq<Event>, k: nat)
    requires Configured(spec, defaultRounds) && IsRun(spec, defaultRounds, run, events) && k + 1 < |run|
    ensures
      var (w, after) := (run[k], run[k + 1]);
      && (after.status != w.status ==> Measure(after.status) < Measure(w.status))
      && (w.status.phase != New ==> 1 <= w.status.round <= w.status.budget + 1 <= 1001)
      && |w.status.guidance| <= GUIDANCE_LIMIT && |w.status.inputs| <= INPUT_LIMIT
      && (w.status.phase.Terminal() ==> after.status.phase == w.status.phase)
  {
    Reachable(spec, defaultRounds, run, events, k);
    StepMeasure(run[k], events[k]);
    hide Sound, WaitsOk, Measure, Next;
  }

  /** How often the status changed in the first n steps. */
  function Changes(run: seq<World>, n: nat): nat
    requires n < |run|
  {
    if n == 0 then 0 else Changes(run, n - 1) + if run[n].status == run[n - 1].status then 0 else 1
  }

  /** The Manager persists at most 20060 statuses in the whole life of a run. */
  lemma {:induction false} FinitelyManySteps(spec: Spec, defaultRounds: int, run: seq<World>, events: seq<Event>, k: nat)
    requires Configured(spec, defaultRounds) && IsRun(spec, defaultRounds, run, events) && k < |run|
    ensures Changes(run, k) + Measure(run[k].status) <= 20060
  {
    hide Measure;
    if k == 0 {
      assert Measure(NewStatus()) == 20060 by { FirstMeasure(); }
    } else {
      FinitelyManySteps(spec, defaultRounds, run, events, k - 1);
      Terminates(spec, defaultRounds, run, events, k - 1);
    }
  }

  lemma FirstMeasure()
    ensures Measure(NewStatus()) == 20060
  {
  }

  /** No two human waits of a run share round and reason, and no approval is spent twice. */
  lemma {:induction false} ApprovalsSpentOnce(spec: Spec, defaultRounds: int, run: seq<World>, events: seq<Event>, k: nat)
    requires Configured(spec, defaultRounds) && IsRun(spec, defaultRounds, run, events) && k < |run|
    ensures
      var w := run[k];
      && (forall i, j :: 0 <= i < j < |w.waits| ==> w.waits[i] != w.waits[j])
      && (forall i, j :: 0 <= i < j < |w.approved| ==> w.approved[i] != w.approved[j])
  {
    Reachable(spec, defaultRounds, run, events, k);
    hide IsRun, Sound, Bounded, Configured;
  }

  /** A child the current round still needs is never collected. */
  lemma {:induction false} ChildrenInUse(spec: Spec, defaultRounds: int, run: seq<World>, events: seq<Event>, k: nat)
    requires Configured(spec, defaultRounds) && IsRun(spec, defaultRounds, run, events) && k < |run|
    ensures
      var w := run[k];
      && (w.status.phase == Executing ==> w.status.round in w.executions && w.status.execution == Some(Ref(w.status.round, w.executions[w.status.round].uid)))
      && (w.status.phase == Auditing ==> w.status.round in w.audits && w.status.audit == Some(Ref(w.status.round, w.audits[w.status.round].uid)))
  {
    Reachable(spec, defaultRounds, run, events, k);
    hide IsRun, Bounded, IssuedOk, EvidenceOk, Certified, WaitsOk, Configured;
  }
}
