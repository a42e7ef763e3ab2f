/**
 * Many servers driving one harness run.  Every step is one SQL statement or transaction,
 * one local move of an attempt, or a failure: each attempt reads its own clock, a
 * statement may commit without its caller learning so, or long after the caller gave up.
 */
module HarnessProtocol {
  import opened Wrappers
  import opened Agentue
  import opened HarnessRuns

  /** Why an attempt ends without a result. */
  datatype Problem = Plain | RecoveryUnsupported | DeadlineExceeded | ContextCanceled | Observation

  datatype Op =
    | TakeOp(ttl: nat)
    | InsertOp(ttl: nat)
    | CountOp
    | StartOp
    | ReadOp
    | BindOp(ref: string)
    | AppendOp(index: nat, hash: seq<string>, event: Event)
    | FinishOp(phase: Phase, result: Option<string>, detail: string)
    | RetryOp(detail: string)

  datatype Answer = Taken(ok: bool) | Inserted | Counted(held: bool) | View(run: Run) | Done | Refused(error: Error)

  datatype Stage = Locking | Deciding | Binding | Reading | Ending | Stopped

  /**
   * One holder of one token: a driver, or a maintainer that only closes overdue runs.
   * `op` is its outstanding statement; `stale` an append it no longer waits for.
   * `view` is the run as its start transaction returned it and `seen` what the
   * execution has replayed so far.
   */
  datatype Attempt = Attempt(maintain: bool, stage: Stage, op: Option<Op>, stale: Option<Op>, view: Option<Run>, seen: seq<string>)

  datatype Log = Acquired(token: nat) | Wrote(token: nat)

  /** `log` lists acquisitions and committed fenced writes, `prompts` the attempts that called Prompt, `first` the one that found the run pending. */
  datatype State = State(db: Db, attempts: map<nat, Attempt>, nextToken: nat, log: seq<Log>, prompts: seq<nat>, first: Option<nat>)

  datatype Step =
    | Spawn(maintain: bool, ttl: nat)
    | Execute(t: nat, late: bool, now: int, clock: int, fits: bool, heard: bool)
    | Decide(t: nat, clock: int, configured: bool, call: Result<string, Problem>)
    | Observe(t: nat, data: string)
    | Complete(t: nat, outcome: Result<string, Problem>, valid: bool)
    | Interrupt(t: nat, canceled: bool)
    | Crash(t: nat)
    | Renew(t: nat, now: int, ttl: nat)
    | Unlock(t: nat)
    | RequestCancel

  // ---------- the database side ----------

  function Perform(lib: Library, db: Db, t: nat, op: Op, now: int, clock: int, fits: bool): (Db, Answer) {
    match op
    case TakeOp(ttl) => var (lease, ok) := TakeExpired(db.lease, t, now, ttl); (db.(lease := lease), Taken(ok))
    case InsertOp(ttl) => (db.(lease := InsertLease(db.lease, t, now, ttl)), Inserted)
    case CountOp => (db, Counted(Holds(db.lease, t)))
    case StartOp =>
      var (after, r) := StartTx(db, t, now);
      (after, if r.Ok? then View(r.value) else Refused(r.error))
    case ReadOp => (db, View(db.run))
    case BindOp(ref) => Answered(BindTx(db, t, now, ref))
    case AppendOp(index, hash, e) => Answered(AppendTx(lib, db, t, now, index, hash, e, fits))
    case FinishOp(phase, result, detail) =>
      var (after, r) := FinishTx(lib, db, t, now, clock, phase, result, detail, fits);
      (after, if r.Ok? then Done else Refused(r.error))
    case RetryOp(detail) => Answered(RetryTx(db, t, now, detail))
  }

  function Answered(r: (Db, Option<Error>)): (Db, Answer) {
    (r.0, if r.1.None? then Done else Refused(r.1.value))
  }

  predicate Locks(op: Op) {
    op.TakeOp? || op.InsertOp?
  }

  predicate Writes(op: Op) {
    op.StartOp? || op.BindOp? || op.AppendOp? || op.FinishOp? || op.RetryOp?
  }

  /** The lease changes hands only through the statements of Lock. */
  function Logged(log: seq<Log>, before: Db, after: Db, t: nat, op: Op, answer: Answer): seq<Log> {
    if Locks(op) && after.lease != before.lease then log + [Acquired(t)]
    else if Writes(op) && !answer.Refused? then log + [Wrote(t)]
    else log
  }

  // ---------- the attempt side ----------

  /** finishError: which statement closes an attempt that met a problem. */
  function FinishError(p: Problem, detail: string): Op {
    match p
    case Observation => RetryOp(detail)
    case Plain => FinishOp(Phase.Failed, None, detail)
    case RecoveryUnsupported => FinishOp(Unknown, None, detail)
    case DeadlineExceeded => FinishOp(TimedOut, None, detail)
    case ContextCanceled => FinishOp(Phase.Cancelled, None, detail)
  }

  function Ended(a: Attempt, op: Op): Attempt {
    a.(stage := Ending, op := Some(op))
  }

  function Halted(a: Attempt): Attempt {
    a.(stage := Stopped)
  }

  /** What an attempt does when it learns how its statement went. */
  function Continue(a: Attempt, op: Op, answer: Answer): Attempt {
    var idle := a.(op := None);
    var begin := a.(op := Some(if a.maintain then ReadOp else StartOp));
    match answer
    case Taken(ok) => if ok then begin else a.(op := Some(InsertOp(if op.TakeOp? then op.ttl else 0)))
    case Inserted => a.(op := Some(CountOp))
    case Counted(held) => if held then begin else Halted(idle)
    case View(run) => if a.maintain && run.phase.Terminal() then Halted(idle) else idle.(stage := Deciding, view := Some(run))
    case Done => if op.BindOp? || op.AppendOp? then idle.(stage := Reading) else Halted(idle)
    case Refused(error) =>
      if op.AppendOp? && (error == CallerCancelled || error == InvalidContent) then Ended(idle, FinishError(ContextCanceled, "cancelled"))
      else Halted(idle)
  }

  /** After the start transaction: close an overdue run, or begin or resume the execution. */
  function Decided(a: Attempt, view: Run, clock: int, configured: bool, call: Result<string, Problem>): Attempt {
    if view.cancel then Ended(a, FinishOp(Phase.Cancelled, None, "cancelled"))
    else if clock >= view.deadline then Ended(a, FinishOp(TimedOut, None, "deadline exceeded"))
    else if a.maintain then Halted(a)
    else if !configured then Ended(a, FinishOp(Unknown, None, "Harness target is not configured on this server"))
    else
      match call
      case Err(problem) => Ended(a, FinishError(problem, ""))
      case Ok(ref) => a.(stage := Binding, op := Some(BindOp(ref)))
  }

  /** Only a run found pending is prompted; any other is resumed. */
  predicate Prompts(a: Attempt, clock: int, configured: bool) {
    a.view.Some? && !a.maintain && !a.view.value.cancel && clock < a.view.value.deadline && configured && a.view.value.phase == Pending
  }

  /** One replayed event: compared up to the checkpoint, appended after it. */
  function Observed(lib: Library, a: Attempt, view: Run, data: string): Attempt {
    var next := a.(seen := a.seen + [data]);
    var index := |next.seen|;
    if index <= view.checkpoint then
      if index == view.checkpoint && next.seen != view.hash then Ended(next, FinishError(Plain, "Harness replay differs from persisted output"))
      else next
    else
      match lib.parse(data)
      case None => Ended(next, FinishError(Plain, ""))
      case Some(e) => next.(op := Some(AppendOp(index, next.seen, e)))
  }

  function Completion(a: Attempt, view: Run, outcome: Result<string, Problem>, valid: bool): Attempt {
    match outcome
    case Err(problem) => Ended(a, FinishError(problem, ""))
    case Ok(result) =>
      if |a.seen| < view.checkpoint then Ended(a, FinishError(Plain, "Harness replay ended before persisted checkpoint"))
      else if !valid then Ended(a, FinishError(Plain, "invalid Harness result"))
      else Ended(a, FinishOp(Succeeded, Some(result), ""))
  }

  /** Observation stops: with an append outstanding its outcome stays unknown. */
  function Interrupted(a: Attempt, canceled: bool): Attempt {
    if a.op.None? then Ended(a, FinishError(if canceled then ContextCanceled else DeadlineExceeded, ""))
    else if canceled then Ended(a.(stale := a.op), FinishError(ContextCanceled, ""))
    else Halted(a)
  }

  // ---------- steps ----------

  function Executed(lib: Library, s: State, t: nat, late: bool, now: int, clock: int, fits: bool, heard: bool): State
    requires t in s.attempts
  {
    var a := s.attempts[t];
    var pending := if late then a.stale else a.op;
    if pending.None? then s
    else
      var op := pending.value;
      var (db, answer) := Perform(lib, s.db, t, op, now, clock, fits);
      var after :=
        if late then a.(stale := None)
        else if a.stage == Stopped || !heard then a.(op := None, stage := Stopped)
        else Continue(a, op, answer);
      s.(db := db, attempts := s.attempts[t := after], log := Logged(s.log, s.db, db, t, op, answer),
         first := if op.StartOp? && answer.View? && answer.run.phase == Pending then Some(t) else s.first)
  }

  function Next(lib: Library, s: State, step: Step): State {
    match step
    case Spawn(maintain, ttl) =>
      s.(attempts := s.attempts[s.nextToken := Attempt(maintain, Locking, Some(TakeOp(ttl)), None, None, [])], nextToken := s.nextToken + 1)
    case Execute(t, late, now, clock, fits, heard) =>
      if t in s.attempts then Executed(lib, s, t, late, now, clock, fits, heard) else s
    case Decide(t, clock, configured, call) =>
      if t in s.attempts && s.attempts[t].stage == Deciding && s.attempts[t].view.Some? then
        var a := s.attempts[t];
        s.(attempts := s.attempts[t := Decided(a, a.view.value, clock, configured, call)],
           prompts := if Prompts(a, clock, configured) then s.prompts + [t] else s.prompts)
      else s
    case Observe(t, data) =>
      if t in s.attempts && s.attempts[t].stage == Reading && s.attempts[t].op.None? && s.attempts[t].view.Some? then
        s.(attempts := s.attempts[t := Observed(lib, s.attempts[t], s.attempts[t].view.value, data)])
      else s
    case Complete(t, outcome, valid) =>
      if t in s.attempts && s.attempts[t].stage == Reading && s.attempts[t].op.None? && s.attempts[t].view.Some? then
        s.(attempts := s.attempts[t := Completion(s.attempts[t], s.attempts[t].view.value, outcome, valid)])
      else s
    case Interrupt(t, canceled) =>
      if t in s.attempts && s.attempts[t].stage == Reading then
        s.(attempts := s.attempts[t := Interrupted(s.attempts[t], canceled)])
      else s
    case Crash(t) =>
      if t in s.attempts then s.(attempts := s.attempts[t := Halted(s.attempts[t])]) else s
    case Renew(t, now, ttl) =>
      var r := Renewed(s.db.lease, t, now, ttl);
      if r.Ok? then s.(db := s.db.(lease := r.value)) else s
    case Unlock(t) => s.(db := s.db.(lease := Unlocked(s.db.lease, t)))
    case RequestCancel => s.(db := CancelTx(s.db))
  }

  function Exec(lib: Library, s: State, steps: seq<Step>): State {
    if steps == [] then s
    else Next(lib, Exec(lib, s, steps[..|steps| - 1]), steps[|steps| - 1])
  }

  function Initial(meta: Meta, deadline: int): State {
    State(Db(None, Run(Pending, 0, [], false, deadline, "", ""), Message(Streaming, 1, Model(meta, []))), map[], 0, [], [], None)
  }

  // ---------- the order of acquisitions and writes ----------

  /** Who acquired the lease last. */
  function Holder(log: seq<Log>): Option<nat> {
    if log == [] then None
    else if log[|log| - 1].Acquired? then Some(log[|log| - 1].token)
    else Holder(log[..|log| - 1])
  }

  ghost predicate LogOk(log: seq<Log>) {
    && (forall i, j :: 0 <= i < j < |log| && log[i].Acquired? && log[j].Acquired? ==> log[i].token != log[j].token)
    && (forall i :: 0 <= i < |log| && log[i].Wrote? ==> Holder(log[..i]) == Some(log[i].token))
  }

  lemma LogAcquires(log: seq<Log>, t: nat)
    requires LogOk(log) && Acquired(t) !in log
    ensures LogOk(log + [Acquired(t)]) && Holder(log + [Acquired(t)]) == Some(t)
  {
    var next := log + [Acquired(t)];
    forall i | 0 <= i < |next| && next[i].Wrote? ensures Holder(next[..i]) == Some(next[i].token) {
      assert next[..i] == log[..i];
    }
    forall i | 0 <= i < |log| && log[i].Acquired? ensures log[i].token != t {
      assert log[i] in log;
    }
  }

  lemma LogWrites(log: seq<Log>, t: nat)
    requires LogOk(log) && Holder(log) == Some(t)
    ensures LogOk(log + [Wrote(t)]) && Holder(log + [Wrote(t)]) == Some(t)
  {
    var next := log + [Wrote(t)];
    assert next[..|log|] == log;
    forall i | 0 <= i < |next| && next[i].Wrote? ensures Holder(next[..i]) == Some(next[i].token) {
      assert next[..i] == log[..i];
    }
  }

  lemma {:induction false} HolderAcquired(log: seq<Log>, n: nat) returns (a: nat)
    requires n <= |log| && Holder(log[..n]).Some?
    ensures a < n && log[a] == Acquired(Holder(log[..n]).value)
    ensures forall i :: a < i < n ==> log[i].Wrote?
  {
    assert log[..n][..n - 1] == log[..n - 1];
    if log[n - 1].Acquired? {
      a := n - 1;
    } else {
      a := HolderAcquired(log, n - 1);
    }
  }

  /** The writes of one token are contiguous: between two of them nobody else acquired the lease or wrote. */
  lemma Contiguous(log: seq<Log>, i: nat, j: nat, k: nat)
    requires LogOk(log) && i < j < k < |log| && log[i].Wrote? && log[k] == log[i]
    ensures log[j] == log[i]
  {
    var a := HolderAcquired(log, i);
    var b := HolderAcquired(log, k);
    assert a == b;
    var c := HolderAcquired(log, j) by { HolderStays(log, a, j); }
    HolderStays(log, a, j);
  }

  /** While nobody else acquires, the holder stays. */
  lemma {:induction false} HolderStays(log: seq<Log>, a: nat, n: nat)
    requires a < n <= |log| && log[a].Acquired? && forall i :: a < i < n ==> log[i].Wrote?
    ensures Holder(log[..n]) == Some(log[a].token)
  {
    assert log[..n][..n - 1] == log[..n - 1];
    if n > a + 1 {
      HolderStays(log, a, n - 1);
    }
  }

  /** Once another token has acquired the lease, a token that appeared before never writes again. */
  lemma NoneAfterTakeover(log: seq<Log>, i: nat, j: nat, k: nat)
    requires LogOk(log) && i < j < k < |log| && log[j].Acquired? && log[j].token != log[i].token
    ensures log[k] != Wrote(log[i].token)
  {
    var a := i;
    if log[i].Wrote? {
      a := HolderAcquired(log, i);
    }
    if log[k].Wrote? {
      var b := HolderAcquired(log, k);
      assert b >= j;
    }
  }

  // ---------- what every reachable state keeps ----------

  predicate IsAppend(op: Option<Op>) {
    op.Some? && op.value.AppendOp?
  }

  /** An append of this attempt may still commit. */
  predicate Pends(a: Attempt) {
    IsAppend(a.op) || IsAppend(a.stale)
  }

  predicate Succeeds(a: Attempt) {
    a.op.Some? && a.op.value.FinishOp? && a.op.value.phase == Succeeded
  }

  /** The append of the last event seen. */
  predicate LastSeen(lib: Library, op: Op, seen: seq<string>) {
    op.AppendOp? && op.hash == seen && op.index == |seen| > 0 && lib.parse(seen[|seen| - 1]) == Some(op.event)
  }

  /** What an attempt's own fields say about each other. */
  ghost predicate Shape(lib: Library, a: Attempt) {
    && (a.stale.Some? ==> a.stage in {Ending, Stopped} && IsAppend(a.stale) && !IsAppend(a.op) && !Succeeds(a))
    && (a.stage in {Deciding, Binding, Reading} ==> a.view.Some?)
    && (a.stage == Locking ==>
          a.view.None? && a.op.Some? && (Locks(a.op.value) || a.op.value.CountOp? || a.op.value.StartOp? || a.op.value.ReadOp?))
    && (a.stage == Deciding ==> a.op.None? && a.seen == [])
    && (a.stage in {Locking, Binding} ==> a.seen == [] && !IsAppend(a.op))
    && (a.stage == Binding ==> a.op.Some? && a.op.value.BindOp? && !a.maintain)
    && (a.stage == Reading ==> (a.op.None? || IsAppend(a.op)) && !a.maintain)
    && (a.stage == Ending ==> a.op.Some? && (a.op.value.FinishOp? || a.op.value.RetryOp?))
    && (a.op.Some? && (Locks(a.op.value) || a.op.value.CountOp? || a.op.value.StartOp? || a.op.value.ReadOp?) ==>
          a.view.None? && a.stage in {Locking, Stopped} && (a.op.value.StartOp? ==> !a.maintain) && (a.op.value.ReadOp? ==> a.maintain))
    && (a.view.Some? ==> |a.view.value.hash| == a.view.value.checkpoint)
    && (IsAppend(a.op) ==> LastSeen(lib, a.op.value, a.seen))
    && (IsAppend(a.stale) ==> LastSeen(lib, a.stale.value, a.seen))
    && (Pends(a) ==> a.view.Some? && |a.seen| > a.view.value.checkpoint)
    && (Succeeds(a) ==> a.view.Some? && |a.seen| >= a.view.value.checkpoint)
    && ((a.stage == Reading || Pends(a) || Succeeds(a)) && |a.seen| >= a.view.value.checkpoint ==> a.view.value.hash <= a.seen)
  }

  /** What the holder of the lease knows about the run: nobody else has written since it started. */
  ghost predicate Synced(run: Run, a: Attempt) {
    if Pends(a) then a.seen != [] && run.hash == a.seen[..|a.seen| - 1]
    else if Succeeds(a) then run.hash == a.seen
    else if a.stage in {Deciding, Binding, Reading} && a.view.Some? then
      run.hash == if |a.seen| <= a.view.value.checkpoint then a.view.value.hash else a.seen
    else true
  }

  ghost predicate AttemptOk(lib: Library, db: Db, log: seq<Log>, t: nat, a: Attempt) {
    && Shape(lib, a)
    && (a.op.Some? && Locks(a.op.value) ==> Acquired(t) !in log)
    && (Holds(db.lease, t) ==> Synced(db.run, a))
  }

  ghost predicate PromptOk(s: State) {
    && (s.first.Some? ==> s.db.run.phase != Pending)
    && (forall t :: t in s.attempts && !s.attempts[t].maintain && s.attempts[t].view.Some? && s.attempts[t].view.value.phase == Pending ==>
          s.first == Some(t))
    && |s.prompts| <= 1
    && (forall p :: p in s.prompts ==> s.first == Some(p) && p in s.attempts && s.attempts[p].stage !in {Locking, Deciding})
  }

  ghost predicate LogMatches(log: seq<Log>, lease: Option<Lease>, nextToken: nat) {
    && LogOk(log)
    && (lease.Some? ==> Holder(log) == Some(lease.value.locker))
    && (forall l :: l in log ==> l.token < nextToken)
  }

  ghost predicate AttemptsOk(lib: Library, s: State) {
    forall t :: t in s.attempts ==> t < s.nextToken && AttemptOk(lib, s.db, s.log, t, s.attempts[t])
  }

  ghost predicate Inv(lib: Library, start: Model, s: State) {
    && Agree(lib, start, s.db.run, s.db.message)
    && LogMatches(s.log, s.db.lease, s.nextToken) && AttemptsOk(lib, s) && PromptOk(s)
  }

  // ---------- one statement ----------

  /** The kinds of answer a statement has. */
  predicate Answers(op: Op, answer: Answer) {
    match op
    case TakeOp(_) => answer.Taken?
    case InsertOp(_) => answer.Inserted?
    case CountOp => answer.Counted?
    case StartOp => answer.View? || answer.Refused?
    case ReadOp => answer.View?
    case BindOp(_) => answer.Done? || answer.Refused?
    case AppendOp(_, _, _) => answer.Done? || answer.Refused?
    case FinishOp(_, _, _) => answer.Done? || answer.Refused?
    case RetryOp(_) => answer.Done? || answer.Refused?
  }

  /** What a statement can do to the lease and the run, whoever sends it. */
  lemma Performs(lib: Library, db: Db, t: nat, op: Op, now: int, clock: int, fits: bool)
    ensures
      var (after, answer) := Perform(lib, db, t, op, now, clock, fits);
      && (forall u :: u != t && Holds(after.lease, u) ==> Holds(db.lease, u))
      && (after.lease != db.lease ==> Locks(op) && Holds(after.lease, t))
      && (after.run != db.run ==> Writes(op) && Holds(db.lease, t))
      && (Writes(op) && !answer.Refused? ==> Holds(db.lease, t))
      && (after.run.hash != db.run.hash ==> op.AppendOp? && after.run.hash == op.hash)
      && (db.run.phase != Pending ==> after.run.phase != Pending)
      && (db.run.phase.Terminal() ==> after.run == db.run && after.message == db.message)
      && (answer.View? ==> answer.run == db.run && !op.AppendOp? && !op.FinishOp? && after.run.hash == db.run.hash)
      && (op.StartOp? && answer.View? ==> after.run.phase == Starting)
      && (db.run.cancel == after.run.cancel)
      && Answers(op, answer)
  {
    hide Write, Project, Closed;
  }

  /** An append by the holder right after the checkpoint saves its event or changes nothing. */
  lemma Appends(lib: Library, start: Model, db: Db, t: nat, op: Op, now: int, clock: int, fits: bool)
    requires Agree(lib, start, db.run, db.message) && Holds(db.lease, t)
    requires op.AppendOp? && op.hash != [] && op.index == |op.hash| && db.run.hash == op.hash[..|op.hash| - 1]
    ensures
      var (after, answer) := Perform(lib, db, t, op, now, clock, fits);
      && (answer == Done <==> after != db)
      && (answer == Done ==> after.run.hash == op.hash && after.message.revision == op.index + 1)
      && (answer != Done ==> answer.Refused?)
  {
    hide Agree, Write, Reserved;
    if !db.run.phase.Terminal() {
      var out := AgreeOpen(lib, start, db.run, db.message);
      WriteRevision(lib, db.message, op.event.(seqno := db.message.revision + 1), None, fits);
    }
  }

  lemma WriteRevision(lib: Library, m: Message, e: Event, status: Option<Status>, fits: bool)
    ensures Write(lib, m, e, status, fits).Ok? ==> Write(lib, m, e, status, fits).value.revision == e.seqno
  {
    hide Apply;
  }

  lemma PerformAgrees(lib: Library, start: Model, db: Db, t: nat, op: Op, now: int, clock: int, fits: bool)
    requires Agree(lib, start, db.run, db.message)
    requires op.AppendOp? && Holds(db.lease, t) ==>
               op.index == |op.hash| > 0 && db.run.hash == op.hash[..|op.hash| - 1] && lib.parse(op.hash[|op.hash| - 1]) == Some(op.event)
    ensures var after := Perform(lib, db, t, op, now, clock, fits).0; Agree(lib, start, after.run, after.message)
  {
    hide Agree, StartTx, BindTx, AppendTx, FinishTx, RetryTx;
    match op
    case TakeOp(_) =>
    case InsertOp(_) =>
    case CountOp =>
    case StartOp => StartAgrees(lib, start, db, t, now);
    case ReadOp =>
    case BindOp(ref) => BindAgrees(lib, start, db, t, now, ref);
    case AppendOp(index, hash, e) => AppendAgrees(lib, start, db, t, now, index, hash, e, fits);
    case FinishOp(phase, result, detail) => FinishAgrees(lib, start, db, t, now, clock, phase, result, detail, fits);
    case RetryOp(detail) => RetryAgrees(lib, start, db, t, now, detail);
  }

  // ---------- executing a statement keeps the invariant ----------

  /** The attempt after one of its statements was executed. */
  function Afterwards(a: Attempt, op: Op, late: bool, heard: bool, answer: Answer): Attempt {
    if late then a.(stale := None)
    else if a.stage == Stopped || !heard then a.(op := None, stage := Stopped)
    else Continue(a, op, answer)
  }

  function PendingOp(a: Attempt, late: bool): Option<Op> {
    if late then a.stale else a.op
  }

  lemma ContinuesShape(lib: Library, a: Attempt, late: bool, heard: bool, answer: Answer)
    requires Shape(lib, a) && PendingOp(a, late).Some? && Answers(PendingOp(a, late).value, answer)
    requires answer.View? ==> |answer.run.hash| == answer.run.checkpoint
    ensures Shape(lib, Afterwards(a, PendingOp(a, late).value, late, heard, answer))
  {
    hide LastSeen;
  }

  lemma ActorShape(lib: Library, start: Model, db: Db, t: nat, a: Attempt, late: bool, now: int, clock: int, fits: bool, heard: bool)
    requires Agree(lib, start, db.run, db.message) && Shape(lib, a) && PendingOp(a, late).Some?
    ensures
      var op := PendingOp(a, late).value;
      Shape(lib, Afterwards(a, op, late, heard, Perform(lib, db, t, op, now, clock, fits).1))
  {
    hide Fold, UniqueIds, NoResult, Perform, LastSeen;
    var op := PendingOp(a, late).value;
    Performs(lib, db, t, op, now, clock, fits);
    ContinuesShape(lib, a, late, heard, Perform(lib, db, t, op, now, clock, fits).1);
  }

  /** After its own statement the holder still knows what the run row says. */
  lemma ActorSynced(lib: Library, start: Model, db: Db, t: nat, a: Attempt, late: bool, now: int, clock: int, fits: bool, heard: bool)
    requires Agree(lib, start, db.run, db.message) && Shape(lib, a) && PendingOp(a, late).Some?
    requires Holds(db.lease, t) && Synced(db.run, a)
    ensures
      var op := PendingOp(a, late).value;
      var (after, answer) := Perform(lib, db, t, op, now, clock, fits);
      Synced(after.run, Afterwards(a, op, late, heard, answer))
  {
    hide Agree, Perform;
    var op := PendingOp(a, late).value;
    Performs(lib, db, t, op, now, clock, fits);
    if op.AppendOp? {
      Appends(lib, start, db, t, op, now, clock, fits);
    }
  }

  /** Acquiring the lease says nothing yet about the run. */
  lemma ActorAcquires(lib: Library, run: Run, a: Attempt, heard: bool, answer: Answer)
    requires Shape(lib, a) && a.op.Some? && Locks(a.op.value) && (answer.Taken? || answer.Inserted?)
    ensures Synced(run, Afterwards(a, a.op.value, false, heard, answer))
  {
  }

  lemma ActorOk(lib: Library, start: Model, db: Db, log: seq<Log>, t: nat, a: Attempt, late: bool, now: int, clock: int, fits: bool, heard: bool)
    requires Agree(lib, start, db.run, db.message) && AttemptOk(lib, db, log, t, a) && PendingOp(a, late).Some?
    ensures
      var op := PendingOp(a, late).value;
      var (after, answer) := Perform(lib, db, t, op, now, clock, fits);
      AttemptOk(lib, after, Logged(log, db, after, t, op, answer), t, Afterwards(a, op, late, heard, answer))
  {
    hide Agree, Synced;
    var op := PendingOp(a, late).value;
    var (after, answer) := Perform(lib, db, t, op, now, clock, fits);
    Performs(lib, db, t, op, now, clock, fits);
    ActorShape(lib, start, db, t, a, late, now, clock, fits, heard);
    if Holds(db.lease, t) {
      ActorSynced(lib, start, db, t, a, late, now, clock, fits, heard);
    } else if Locks(op) {
      ActorAcquires(lib, after.run, a, heard, answer) by { hide Shape; LateIsAppend(lib, a, late); }
    }
    hide Shape, Perform;
  }

  lemma LateIsAppend(lib: Library, a: Attempt, late: bool)
    requires Shape(lib, a) && PendingOp(a, late).Some? && !PendingOp(a, late).value.AppendOp?
    ensures !late
  {
  }

  /** What one token does is invisible to what any other token may rely on. */
  lemma OtherOk(lib: Library, db: Db, log: seq<Log>, t: nat, op: Op, now: int, clock: int, fits: bool, u: nat, b: Attempt)
    requires AttemptOk(lib, db, log, u, b) && u != t
    ensures
      var (after, answer) := Perform(lib, db, t, op, now, clock, fits);
      AttemptOk(lib, after, Logged(log, db, after, t, op, answer), u, b)
  {
    hide Shape, Synced, Perform;
    Performs(lib, db, t, op, now, clock, fits);
  }

  lemma ExecutedLog(lib: Library, s: State, t: nat, op: Op, now: int, clock: int, fits: bool)
    requires LogMatches(s.log, s.db.lease, s.nextToken) && t < s.nextToken && (Locks(op) ==> Acquired(t) !in s.log)
    ensures
      var (after, answer) := Perform(lib, s.db, t, op, now, clock, fits);
      LogMatches(Logged(s.log, s.db, after, t, op, answer), after.lease, s.nextToken)
  {
    hide LogOk, Perform;
    var (after, answer) := Perform(lib, s.db, t, op, now, clock, fits);
    Performs(lib, s.db, t, op, now, clock, fits);
    if Locks(op) && after.lease != s.db.lease {
      LogAcquires(s.log, t);
    } else if Writes(op) && !answer.Refused? {
      LogWrites(s.log, t);
    }
  }

  lemma ExecutedPrompts(lib: Library, s: State, t: nat, late: bool, now: int, clock: int, fits: bool, heard: bool)
    requires PromptOk(s) && t in s.attempts && Shape(lib, s.attempts[t])
    ensures PromptOk(Executed(lib, s, t, late, now, clock, fits, heard))
  {
    hide Perform;
    var a := s.attempts[t];
    if PendingOp(a, late).Some? {
      Performs(lib, s.db, t, PendingOp(a, late).value, now, clock, fits);
      ViewComesFrom(lib, s.db, t, PendingOp(a, late).value, now, clock, fits);
    }
  }

  lemma ViewComesFrom(lib: Library, db: Db, t: nat, op: Op, now: int, clock: int, fits: bool)
    ensures Perform(lib, db, t, op, now, clock, fits).1.View? ==> op.StartOp? || op.ReadOp?
  {
    hide StartTx, BindTx, AppendTx, FinishTx, RetryTx;
  }

  lemma ExecutedKeeps(lib: Library, start: Model, s: State, t: nat, late: bool, now: int, clock: int, fits: bool, heard: bool)
    requires Inv(lib, start, s) && t in s.attempts
    ensures Inv(lib, start, Executed(lib, s, t, late, now, clock, fits, heard))
  {
    hide Agree, LogMatches, PromptOk, Perform, Shape, Synced, Logged;
    var a := s.attempts[t];
    if PendingOp(a, late).Some? {
      var op := PendingOp(a, late).value;
      assert AttemptOk(lib, s.db, s.log, t, a);
      HolderKnows(lib, s.db, s.log, t, a, late);
      LockedOnce(lib, s.db, s.log, t, a, late);
      PerformAgrees(lib, start, s.db, t, op, now, clock, fits);
      ExecutedPrompts(lib, s, t, late, now, clock, fits, heard);
      ExecutedLog(lib, s, t, op, now, clock, fits);
      ActorOk(lib, start, s.db, s.log, t, a, late, now, clock, fits, heard);
      var next := Executed(lib, s, t, late, now, clock, fits, heard);
      forall u | u in s.attempts && u != t ensures AttemptOk(lib, next.db, next.log, u, s.attempts[u]) {
        OtherOk(lib, s.db, s.log, t, op, now, clock, fits, u, s.attempts[u]);
      }
      hide AttemptOk;
    }
  }

  lemma LockedOnce(lib: Library, db: Db, log: seq<Log>, t: nat, a: Attempt, late: bool)
    requires AttemptOk(lib, db, log, t, a) && PendingOp(a, late).Some?
    ensures Locks(PendingOp(a, late).value) ==> Acquired(t) !in log
  {
  }

  /** The holder's outstanding append extends the saved events by exactly the last one it saw. */
  lemma HolderKnows(lib: Library, db: Db, log: seq<Log>, t: nat, a: Attempt, late: bool)
    requires AttemptOk(lib, db, log, t, a) && PendingOp(a, late).Some?
    ensures
      var op := PendingOp(a, late).value;
      op.AppendOp? && Holds(db.lease, t) ==>
        && op.index == |op.hash| > 0 && op.hash == a.seen && db.run.hash == op.hash[..|op.hash| - 1]
        && lib.parse(op.hash[|op.hash| - 1]) == Some(op.event)
  {
  }

  // ---------- the other steps ----------

  /** A local move of one attempt that keeps its shape and what it knows keeps the invariant. */
  lemma LocalKeeps(lib: Library, start: Model, s: State, t: nat, after: Attempt, prompts: seq<nat>)
    requires Inv(lib, start, s) && t in s.attempts
    requires Shape(lib, after) && (Holds(s.db.lease, t) ==> Synced(s.db.run, after))
    requires after.op.Some? && Locks(after.op.value) ==> s.attempts[t].op == after.op
    requires PromptOk(s.(attempts := s.attempts[t := after], prompts := prompts))
    ensures Inv(lib, start, s.(attempts := s.attempts[t := after], prompts := prompts))
  {
    hide Agree, LogMatches, PromptOk, Shape, Synced;
    assert AttemptOk(lib, s.db, s.log, t, s.attempts[t]);
    assert AttemptOk(lib, s.db, s.log, t, after);
    hide AttemptOk;
  }

  /** The same, when the move cannot be a prompt. */
  lemma QuietKeeps(lib: Library, start: Model, s: State, t: nat, after: Attempt)
    requires Inv(lib, start, s) && t in s.attempts
    requires Shape(lib, after) && (Holds(s.db.lease, t) ==> Synced(s.db.run, after))
    requires after.op.Some? && Locks(after.op.value) ==> s.attempts[t].op == after.op
    requires after.view == s.attempts[t].view && after.maintain == s.attempts[t].maintain && after.stage !in {Locking, Deciding}
    ensures Inv(lib, start, s.(attempts := s.attempts[t := after]))
  {
    hide Agree, LogMatches, AttemptsOk, Shape, Synced;
    assert PromptOk(s.(attempts := s.attempts[t := after]));
    hide PromptOk, Inv;
    LocalKeeps(lib, start, s, t, after, s.prompts);
  }

  /** Closing an attempt leaves it with nothing pending but a finish or a retry. */
  lemma EndedMove(lib: Library, run: Run, a: Attempt, op: Op)
    requires Shape(lib, a) && a.stage in {Deciding, Reading} && a.stale.None? && a.view.Some?
    requires op.RetryOp? || (op.FinishOp? && op.phase != Succeeded)
    ensures Shape(lib, Ended(a, op)) && Synced(run, Ended(a, op)) && !Locks(op)
  {
    hide LastSeen;
  }

  lemma OpenShape(lib: Library, a: Attempt)
    requires Shape(lib, a) && a.stage in {Deciding, Reading}
    ensures a.stale.None? && a.view.Some? && (a.stage == Deciding ==> a.op.None?)
  {
  }

  lemma BindMove(lib: Library, run: Run, a: Attempt, ref: string)
    requires Shape(lib, a) && a.stage == Deciding && a.view.Some? && !a.maintain
    ensures
      var after := a.(stage := Binding, op := Some(BindOp(ref)));
      Shape(lib, after) && (Synced(run, a) ==> Synced(run, after))
  {
    hide LastSeen;
  }

  lemma FinishErrorIs(p: Problem, detail: string)
    ensures var op := FinishError(p, detail); op.RetryOp? || (op.FinishOp? && op.phase != Succeeded)
  {
  }

  lemma DecideMove(lib: Library, run: Run, a: Attempt, clock: int, configured: bool, call: Result<string, Problem>)
    requires Shape(lib, a) && a.stage == Deciding && a.view.Some?
    ensures
      var after := Decided(a, a.view.value, clock, configured, call);
      && Shape(lib, after) && (Synced(run, a) ==> Synced(run, after)) && !(after.op.Some? && Locks(after.op.value))
      && after.view == a.view && after.maintain == a.maintain && after.stage !in {Locking, Deciding}
  {
    hide LastSeen, FinishError, Shape, Synced;
    OpenShape(lib, a);
    EndedMove(lib, run, a, FinishOp(Phase.Cancelled, None, "cancelled"));
    EndedMove(lib, run, a, FinishOp(TimedOut, None, "deadline exceeded"));
    EndedMove(lib, run, a, FinishOp(Unknown, None, "Harness target is not configured on this server"));
    CrashMove(lib, run, a);
    match call
    case Err(problem) =>
      FinishErrorIs(problem, "");
      EndedMove(lib, run, a, FinishError(problem, ""));
    case Ok(ref) => if !a.maintain { BindMove(lib, run, a, ref); }
  }

  lemma DecideKeeps(lib: Library, start: Model, s: State, t: nat, clock: int, configured: bool, call: Result<string, Problem>)
    requires Inv(lib, start, s)
    ensures Inv(lib, start, Next(lib, s, Decide(t, clock, configured, call)))
  {
    hide Agree, LogMatches, Shape, Synced, Decided;
    if t in s.attempts && s.attempts[t].stage == Deciding && s.attempts[t].view.Some? {
      var a := s.attempts[t];
      assert AttemptOk(lib, s.db, s.log, t, a);
      hide AttemptsOk;
      DecideMove(lib, s.db.run, a, clock, configured, call);
      var after := Decided(a, a.view.value, clock, configured, call);
      var prompts := if Prompts(a, clock, configured) then s.prompts + [t] else s.prompts;
      PromptKept(s, t, after, clock, configured);
      hide PromptOk, Inv, Prompts;
      LocalKeeps(lib, start, s, t, after, prompts);
    }
  }

  /** Whoever finds the run pending is the first to start it, and decides once. */
  lemma PromptKept(s: State, t: nat, after: Attempt, clock: int, configured: bool)
    requires PromptOk(s) && t in s.attempts && s.attempts[t].stage == Deciding
    requires after.view == s.attempts[t].view && after.maintain == s.attempts[t].maintain && after.stage !in {Locking, Deciding}
    ensures PromptOk(s.(attempts := s.attempts[t := after],
                        prompts := if Prompts(s.attempts[t], clock, configured) then s.prompts + [t] else s.prompts))
  {
    assert s.prompts != [] ==> s.prompts[0] in s.prompts;
  }

  lemma ObserveMove(lib: Library, run: Run, a: Attempt, data: string)
    requires Shape(lib, a) && a.stage == Reading && a.op.None? && a.view.Some?
    ensures
      var after := Observed(lib, a, a.view.value, data);
      && Shape(lib, after) && (Synced(run, a) ==> Synced(run, after)) && !(after.op.Some? && Locks(after.op.value))
      && after.view == a.view && after.maintain == a.maintain && after.stage !in {Locking, Deciding}
  {
    hide FinishError, Shape, Synced, LastSeen;
    OpenShape(lib, a);
    var view, next := a.view.value, a.(seen := a.seen + [data]);
    if |next.seen| <= view.checkpoint {
      if |next.seen| == view.checkpoint && next.seen != view.hash {
        DiffersMove(lib, run, a, data, "Harness replay differs from persisted output");
      } else {
        ReplayMove(lib, run, a, data);
      }
    } else if lib.parse(data).Some? {
      AppendMove(lib, run, a, data);
    } else {
      DiffersMove(lib, run, a, data, "");
    }
  }

  /** An event that cannot be replayed or read closes the attempt. */
  lemma DiffersMove(lib: Library, run: Run, a: Attempt, data: string, detail: string)
    requires Shape(lib, a) && a.stage == Reading && a.op.None? && a.view.Some?
    ensures
      var after := Ended(a.(seen := a.seen + [data]), FinishError(Plain, detail));
      Shape(lib, after) && Synced(run, after) && !Locks(after.op.value)
  {
    hide LastSeen;
  }

  /** Up to the checkpoint an event is only compared. */
  lemma ReplayMove(lib: Library, run: Run, a: Attempt, data: string)
    requires Shape(lib, a) && a.stage == Reading && a.op.None? && a.view.Some?
    requires |a.seen| + 1 <= a.view.value.checkpoint && (|a.seen| + 1 == a.view.value.checkpoint ==> a.seen + [data] == a.view.value.hash)
    ensures
      var after := a.(seen := a.seen + [data]);
      Shape(lib, after) && (Synced(run, a) ==> Synced(run, after))
  {
    hide LastSeen;
  }

  /** After the checkpoint an event is appended. */
  lemma AppendMove(lib: Library, run: Run, a: Attempt, data: string)
    requires Shape(lib, a) && a.stage == Reading && a.op.None? && a.view.Some?
    requires |a.seen| + 1 > a.view.value.checkpoint && lib.parse(data).Some?
    ensures
      var next := a.(seen := a.seen + [data]);
      var after := next.(op := Some(AppendOp(|next.seen|, next.seen, lib.parse(data).value)));
      Shape(lib, after) && (Synced(run, a) ==> Synced(run, after))
  {
    assert (a.seen + [data])[..|a.seen|] == a.seen;
  }

  lemma CompleteMove(lib: Library, run: Run, a: Attempt, outcome: Result<string, Problem>, valid: bool)
    requires Shape(lib, a) && a.stage == Reading && a.op.None? && a.view.Some?
    ensures
      var after := Completion(a, a.view.value, outcome, valid);
      && Shape(lib, after) && (Synced(run, a) ==> Synced(run, after)) && !(after.op.Some? && Locks(after.op.value))
      && after.view == a.view && after.maintain == a.maintain && after.stage !in {Locking, Deciding}
  {
    hide LastSeen;
  }

  lemma InterruptMove(lib: Library, run: Run, a: Attempt, canceled: bool)
    requires Shape(lib, a) && a.stage == Reading
    ensures
      var after := Interrupted(a, canceled);
      && Shape(lib, after) && (Synced(run, a) ==> Synced(run, after)) && !(after.op.Some? && Locks(after.op.value))
      && after.view == a.view && after.maintain == a.maintain && after.stage !in {Locking, Deciding}
  {
    hide LastSeen;
  }

  lemma CrashMove(lib: Library, run: Run, a: Attempt)
    requires Shape(lib, a)
    ensures Shape(lib, Halted(a)) && (Synced(run, a) ==> Synced(run, Halted(a)))
  {
    hide LastSeen;
  }

  /** Local moves while the execution is read, and crashes. */
  lemma MoveKeeps(lib: Library, start: Model, s: State, t: nat, step: Step)
    requires Inv(lib, start, s) && t in s.attempts
    requires (step.Observe? || step.Complete? || step.Interrupt? || step.Crash?) && t == step.t
    ensures Inv(lib, start, Next(lib, s, step))
  {
    hide Agree, LogMatches, PromptOk, Shape, Synced, Observed, Completion, Interrupted;
    var a := s.attempts[t];
    assert AttemptOk(lib, s.db, s.log, t, a);
    hide Inv, AttemptsOk;
    if step.Crash? {
      CrashMove(lib, s.db.run, a);
      QuietKeeps(lib, start, s, t, Halted(a));
    } else if a.stage == Reading {
      ReadingSees(lib, a);
      if step.Interrupt? {
        InterruptMove(lib, s.db.run, a, step.canceled);
        QuietKeeps(lib, start, s, t, Interrupted(a, step.canceled));
      } else if a.op.None? && step.Observe? {
        ObserveMove(lib, s.db.run, a, step.data);
        QuietKeeps(lib, start, s, t, Observed(lib, a, a.view.value, step.data));
      } else if a.op.None? {
        CompleteMove(lib, s.db.run, a, step.outcome, step.valid);
        QuietKeeps(lib, start, s, t, Completion(a, a.view.value, step.outcome, step.valid));
      }
    }
  }

  lemma ReadingSees(lib: Library, a: Attempt)
    requires Shape(lib, a) && a.stage == Reading
    ensures a.view.Some?
  {
  }

  lemma SpawnKeeps(lib: Library, start: Model, s: State, maintain: bool, ttl: nat)
    requires Inv(lib, start, s)
    ensures Inv(lib, start, Next(lib, s, Spawn(maintain, ttl)))
  {
    hide Agree, LogOk;
    var t := s.nextToken;
    var a := Attempt(maintain, Locking, Some(TakeOp(ttl)), None, None, []);
    assert AttemptOk(lib, s.db, s.log, t, a);
    hide AttemptOk;
  }

  /** Renewing, unlocking and asking for cancellation give no token anything it did not have. */
  lemma LeaseKeeps(lib: Library, start: Model, s: State, lease: Option<Lease>, run: Run)
    requires Inv(lib, start, s)
    requires forall u :: Holds(lease, u) ==> Holds(s.db.lease, u)
    requires run.hash == s.db.run.hash && (s.db.run.phase != Pending ==> run.phase != Pending)
    requires Agree(lib, start, run, s.db.message)
    ensures Inv(lib, start, s.(db := s.db.(lease := lease, run := run)))
  {
    hide Agree, LogOk, Shape;
    forall t | t in s.attempts ensures AttemptOk(lib, s.db.(lease := lease, run := run), s.log, t, s.attempts[t]) {
      assert AttemptOk(lib, s.db, s.log, t, s.attempts[t]);
    }
    hide AttemptOk;
    assert lease.Some? ==> Holds(lease, lease.value.locker);
  }

  lemma NextKeeps(lib: Library, start: Model, s: State, step: Step)
    requires Inv(lib, start, s)
    ensures Inv(lib, start, Next(lib, s, step))
  {
    hide Inv, Executed;
    match step
    case Spawn(maintain, ttl) => SpawnKeeps(lib, start, s, maintain, ttl);
    case Execute(t, late, now, clock, fits, heard) =>
      if t in s.attempts {
        ExecutedKeeps(lib, start, s, t, late, now, clock, fits, heard);
      }
    case Decide(t, clock, configured, call) => DecideKeeps(lib, start, s, t, clock, configured, call);
    case Observe(t, data) => if t in s.attempts { MoveKeeps(lib, start, s, t, step); }
    case Complete(t, outcome, valid) => if t in s.attempts { MoveKeeps(lib, start, s, t, step); }
    case Interrupt(t, canceled) => if t in s.attempts { MoveKeeps(lib, start, s, t, step); }
    case Crash(t) => if t in s.attempts { MoveKeeps(lib, start, s, t, step); }
    case Renew(t, now, ttl) =>
      InvAgrees(lib, start, s);
      if Renewed(s.db.lease, t, now, ttl).Ok? {
        LeaseKeeps(lib, start, s, Renewed(s.db.lease, t, now, ttl).value, s.db.run);
      }
    case Unlock(t) =>
      InvAgrees(lib, start, s);
      LeaseKeeps(lib, start, s, Unlocked(s.db.lease, t), s.db.run);
    case RequestCancel =>
      InvAgrees(lib, start, s);
      CancelAgrees(lib, start, s.db);
      LeaseKeeps(lib, start, s, s.db.lease, CancelTx(s.db).run);
  }

  lemma InvAgrees(lib: Library, start: Model, s: State)
    requires Inv(lib, start, s)
    ensures Agree(lib, start, s.db.run, s.db.message)
  {
  }

  // ---------- whole runs ----------

  lemma {:induction false} Reachable(lib: Library, meta: Meta, deadline: int, steps: seq<Step>)
    ensures Inv(lib, Model(meta, []), Exec(lib, Initial(meta, deadline), steps))
  {
    if steps == [] {
      Created(lib, meta, deadline);
    } else {
      hide Inv, Next;
      Reachable(lib, meta, deadline, steps[..|steps| - 1]);
      NextKeeps(lib, Model(meta, []), Exec(lib, Initial(meta, deadline), steps[..|steps| - 1]), steps[|steps| - 1]);
    }
  }

  /** Fencing: in every run the committed writes of a token are contiguous and end when another token takes the lease over. */
  lemma FencedWrites(lib: Library, meta: Meta, deadline: int, steps: seq<Step>, i: nat, j: nat, k: nat)
    requires i < j < k < |Exec(lib, Initial(meta, deadline), steps).log|
    ensures
      var log := Exec(lib, Initial(meta, deadline), steps).log;
      && (log[i].Wrote? && log[k] == log[i] ==> log[j] == log[i])
      && (log[j].Acquired? && log[j].token != log[i].token ==> log[k] != Wrote(log[i].token))
  {
    var s := Exec(lib, Initial(meta, deadline), steps);
    Reachable(lib, meta, deadline, steps);
    if s.log[i].Wrote? && s.log[k] == s.log[i] {
      Contiguous(s.log, i, j, k);
    }
    if s.log[j].Acquired? && s.log[j].token != s.log[i].token {
      NoneAfterTakeover(s.log, i, j, k);
    }
  }

  /** The adapter's Prompt is called at most once per run; every other attempt resumes. */
  lemma PromptedOnce(lib: Library, meta: Meta, deadline: int, steps: seq<Step>)
    ensures |Exec(lib, Initial(meta, deadline), steps).prompts| <= 1
  {
    Reachable(lib, meta, deadline, steps);
  }

  /** In every reachable state the run and its message agree. */
  lemma {:induction false} RunAndMessageAgree(lib: Library, meta: Meta, deadline: int, steps: seq<Step>)
    ensures
      var db := Exec(lib, Initial(meta, deadline), steps).db;
      && Agree(lib, Model(meta, []), db.run, db.message)
      && (db.run.phase.Terminal() <==> Terminal(db.message.status))
      && (db.run.phase == Succeeded <==> db.message.status == Completed)
      && (db.run.phase.Terminal() && db.run.cancel ==> db.message.status == Status.Cancelled && NoResult(db.message.content.blocks))
  {
    var db := Exec(lib, Initial(meta, deadline), steps).db;
    Reachable(lib, meta, deadline, steps);
    TerminalTogether(lib, Model(meta, []), db.run, db.message);
  }

  /** Output is only ever extended, and only by an execution that replayed everything saved before it. */
  lemma ExactlyOnce(lib: Library, start: Model, s: State, step: Step)
    requires Inv(lib, start, s)
    ensures
      var next := Next(lib, s, step);
      && s.db.run.hash <= next.db.run.hash
      && (next.db.run.hash != s.db.run.hash ==>
            && step.Execute? && step.t in s.attempts && next.db.run.hash == s.attempts[step.t].seen
            && |next.db.run.hash| == |s.db.run.hash| + 1
            && s.attempts[step.t].view.Some? && s.attempts[step.t].view.value.hash <= s.attempts[step.t].seen)
      && (next.db.run.phase == Succeeded != s.db.run.phase ==>
            && step.Execute? && step.t in s.attempts && s.db.run.hash == next.db.run.hash == s.attempts[step.t].seen
            && s.attempts[step.t].view.Some? && s.attempts[step.t].view.value.hash <= s.attempts[step.t].seen)
      && (s.db.run.phase.Terminal() ==> next.db.run == s.db.run && next.db.message == s.db.message)
      && (s.db.run.cancel ==> next.db.run.cancel)
  {
    hide Agree, LogMatches, PromptOk, Perform;
    if step.Execute? && step.t in s.attempts {
      var a := s.attempts[step.t];
      assert AttemptOk(lib, s.db, s.log, step.t, a);
      if PendingOp(a, step.late).Some? {
        var op := PendingOp(a, step.late).value;
        Performs(lib, s.db, step.t, op, step.now, step.clock, step.fits);
        FinishSucceeds(lib, s.db, step.t, op, step.now, step.clock, step.fits);
      }
    }
  }

  /**
   * Over a whole run saved output is only extended, a closed run and its message never
   * change again, and a cancellation committed before the run closed decides how it closes.
   */
  lemma {:induction false} History(lib: Library, meta: Meta, deadline: int, steps: seq<Step>, n: nat)
    requires n <= |steps|
    ensures
      var (was, now) := (Exec(lib, Initial(meta, deadline), steps[..n]).db, Exec(lib, Initial(meta, deadline), steps).db);
      && was.run.hash <= now.run.hash
      && (was.run.phase.Terminal() ==> now.run == was.run && now.message == was.message)
      && (was.run.cancel && now.run.phase.Terminal() ==>
            now.run.phase == Phase.Cancelled && now.message.status == Status.Cancelled && NoResult(now.message.content.blocks))
  {
    hide Next, Agree, NoResult;
    Cancels(lib, meta, deadline, steps, n);
    RunAndMessageAgree(lib, meta, deadline, steps);
    var now := Exec(lib, Initial(meta, deadline), steps).db;
    CancelledOnly(lib, Model(meta, []), now.run, now.message);
    if n < |steps| {
      var last := |steps| - 1;
      History(lib, meta, deadline, steps[..last], n);
      assert steps[..last][..n] == steps[..n];
      Reachable(lib, meta, deadline, steps[..last]);
      ExactlyOnce(lib, Model(meta, []), Exec(lib, Initial(meta, deadline), steps[..last]), steps[last]);
    } else {
      assert steps[..n] == steps;
    }
  }

  lemma CancelledOnly(lib: Library, start: Model, run: Run, m: Message)
    requires Agree(lib, start, run, m)
    ensures run.cancel && run.phase.Terminal() ==> run.phase == Phase.Cancelled
  {
    hide Fold, UniqueIds, NoResult;
  }

  /** A cancellation request is never withdrawn. */
  lemma {:induction false} Cancels(lib: Library, meta: Meta, deadline: int, steps: seq<Step>, n: nat)
    requires n <= |steps|
    ensures Exec(lib, Initial(meta, deadline), steps[..n]).db.run.cancel ==> Exec(lib, Initial(meta, deadline), steps).db.run.cancel
  {
    hide Next;
    if n < |steps| {
      var last := |steps| - 1;
      Cancels(lib, meta, deadline, steps[..last], n);
      assert steps[..last][..n] == steps[..n];
      Reachable(lib, meta, deadline, steps[..last]);
      ExactlyOnce(lib, Model(meta, []), Exec(lib, Initial(meta, deadline), steps[..last]), steps[last]);
    } else {
      assert steps[..n] == steps;
    }
  }

  /** Only a finish that asked for success succeeds. */
  lemma FinishSucceeds(lib: Library, db: Db, t: nat, op: Op, now: int, clock: int, fits: bool)
    ensures
      var after := Perform(lib, db, t, op, now, clock, fits).0;
      after.run.phase == Succeeded != db.run.phase ==> op.FinishOp? && op.phase == Succeeded && after.run.hash == db.run.hash
  {
    hide Write, Closed;
  }

  /** The sequence number published after an append is the revision that was committed. */
  lemma PublishedSeq(lib: Library, start: Model, s: State, t: nat, late: bool, now: int, clock: int, fits: bool)
    requires Inv(lib, start, s) && t in s.attempts && IsAppend(PendingOp(s.attempts[t], late))
    ensures
      var op := PendingOp(s.attempts[t], late).value;
      var (after, answer) := Perform(lib, s.db, t, op, now, clock, fits);
      answer == Done ==> after.message.revision == op.index + 1 == s.db.message.revision + 1 && after.run.checkpoint == op.index
  {
    hide Agree, LogMatches, PromptOk, Perform, Shape, Synced;
    var a := s.attempts[t];
    assert AttemptOk(lib, s.db, s.log, t, a);
    HolderKnows(lib, s.db, s.log, t, a, late);
    var op := PendingOp(a, late).value;
    Performs(lib, s.db, t, op, now, clock, fits);
    if Holds(s.db.lease, t) {
      Appends(lib, start, s.db, t, op, now, clock, fits);
      PerformAgrees(lib, start, s.db, t, op, now, clock, fits);
      AppendedRow(lib, start, s.db, t, op, now, clock, fits);
    }
  }

  lemma AppendedRow(lib: Library, start: Model, db: Db, t: nat, op: Op, now: int, clock: int, fits: bool)
    requires Agree(lib, start, db.run, db.message) && op.AppendOp?
    ensures
      var (after, answer) := Perform(lib, db, t, op, now, clock, fits);
      after != db ==> after.run.checkpoint == op.index == db.run.checkpoint + 1 && db.message.revision == op.index
  {
    hide Fold, UniqueIds, NoResult, Write, Reserved;
  }
}
