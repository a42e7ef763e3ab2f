/**
 * Harness runs and the lease that fences their writes, one transaction at a time.
 * The transactions are functions on what they read and write: the lease row, the
 * run row and the run's message.  Replay hashes chain over the event data, and are
 * kept here as the data itself, so two hashes agree only when the data does.
 */
module HarnessRuns {
  import opened Wrappers
  import opened Agentue

  datatype Phase = Pending | Starting | Running | Succeeded | Failed | Cancelled | Unknown | TimedOut {
    predicate Terminal() {
      this != Pending && this != Starting && this != Running
    }
  }

  datatype Lease = Lease(locker: nat, expires: int)

  datatype Run = Run(phase: Phase, checkpoint: nat, hash: seq<string>, cancel: bool, deadline: int, ref: string, error: string)

  datatype Db = Db(lease: Option<Lease>, run: Run, message: Message)

  // ---------- the lease ----------

  /** Lock, first statement: takes over a row that has expired by the caller's clock. */
  function TakeExpired(lease: Option<Lease>, t: nat, now: int, ttl: nat): (r: (Option<Lease>, bool)) {
    if lease.Some? && lease.value.expires <= now then (Some(Lease(t, now + ttl)), true) else (lease, false)
  }

  /** Lock, second statement: inserts the row unless there is one. */
  function InsertLease(lease: Option<Lease>, t: nat, now: int, ttl: nat): Option<Lease> {
    if lease.None? then Some(Lease(t, now + ttl)) else lease
  }

  /** Lock, third statement: whether the row is the caller's. */
  predicate Holds(lease: Option<Lease>, t: nat) {
    lease.Some? && lease.value.locker == t
  }

  function Renewed(lease: Option<Lease>, t: nat, now: int, ttl: nat): Result<Option<Lease>, Error> {
    if Holds(lease, t) && lease.value.expires > now then Ok(Some(Lease(t, now + ttl))) else Err(Lost)
  }

  function Unlocked(lease: Option<Lease>, t: nat): Option<Lease> {
    if Holds(lease, t) then None else lease
  }

  predicate Fenced(lease: Option<Lease>, t: nat, now: int) {
    Holds(lease, t) && lease.value.expires > now
  }

  // ---------- transactions ----------

  /** harnessTransaction: the lease first, then the run, which must not be over. */
  function Admit(db: Db, t: nat, now: int): Option<Error> {
    if !Fenced(db.lease, t, now) then Some(Lost)
    else if db.run.phase.Terminal() then Some(Conflict)
    else None
  }

  /** StartHarnessRun returns the run as it was before. */
  function StartTx(db: Db, t: nat, now: int): (Db, Result<Run, Error>) {
    match Admit(db, t, now)
    case Some(error) => (db, Err(error))
    case None => (db.(run := db.run.(phase := Starting)), Ok(db.run))
  }

  function BindTx(db: Db, t: nat, now: int, ref: string): (Db, Option<Error>) {
    match Admit(db, t, now)
    case Some(error) => (db, Some(error))
    case None =>
      if db.run.ref != "" && db.run.ref != ref then (db, Some(Conflict))
      else (db.(run := db.run.(ref := ref, phase := Running, error := "")), None)
  }

  function RetryTx(db: Db, t: nat, now: int, detail: string): (Db, Option<Error>) {
    match Admit(db, t, now)
    case Some(error) => (db, Some(error))
    case None => (db.(run := db.run.(error := detail)), None)
  }

  /** CancelHarnessRun is not fenced: it only asks. */
  function CancelTx(db: Db): Db {
    if db.run.phase.Terminal() then db else db.(run := db.run.(cancel := true))
  }

  /** What an execution may not write itself. */
  predicate Reserved(e: Event) {
    || (e.block.Some? && (e.block.value.kind == RESULT_TYPE || e.block.value.id == RESULT_ID))
    || (e.block.Some? && e.block.value.kind in {"ask", "confirm", "human_reply"})
    || e.meta.Some?
  }

  /** `fits` is whether the message store can hold the result; when it cannot, the transaction has no effect. */
  function Write(lib: Library, m: Message, e: Event, status: Option<Status>, fits: bool): Result<Message, Error> {
    match Project(lib, m, e, status, true)
    case Err(error) => Err(error)
    case Ok(next) => if fits then Ok(next) else Err(TooLarge)
  }

  function AppendTx(lib: Library, db: Db, t: nat, now: int, index: nat, hash: seq<string>, e: Event, fits: bool): (Db, Option<Error>) {
    match Admit(db, t, now)
    case Some(error) => (db, Some(error))
    case None =>
      if db.run.cancel then (db, Some(CallerCancelled))
      else if index <= db.run.checkpoint then
        (db, if index == db.run.checkpoint && hash != db.run.hash then Some(Conflict) else None)
      else if index != db.run.checkpoint + 1 then (db, Some(Conflict))
      else if (e.op != Set && e.op != Append) || Reserved(e) then (db, Some(InvalidContent))
      else
        match Write(lib, db.message, e.(seqno := db.message.revision + 1), None, fits)
        case Err(error) => (db, Some(error))
        case Ok(m) => (db.(run := db.run.(checkpoint := index, hash := hash), message := m), None)
  }

  function ResultEvent(revision: nat, result: string): Event {
    Event(Set, revision + 1, Some(BlockPatch(RESULT_ID, RESULT_TYPE, result, false)), "", None)
  }

  function ErrorEvent(revision: nat, phase: Phase, detail: string): Event {
    Event(Set, revision + 1, None, "meta.error", Some(PhaseName(phase) + ": " + detail))
  }

  function PhaseName(phase: Phase): string {
    match phase
    case Pending => "pending"
    case Starting => "starting"
    case Running => "running"
    case Succeeded => "succeeded"
    case Failed => "failed"
    case Cancelled => "cancelled"
    case Unknown => "unknown"
    case TimedOut => "timed_out"
  }

  function EndEvent(revision: nat): Event {
    Event(End, revision + 1, None, "", None)
  }

  function StatusOf(phase: Phase): Status {
    if phase == Succeeded then Status.Completed
    else if phase == Phase.Cancelled then Status.Cancelled
    else Status.Failed
  }

  /** The last content event and the end of the message. */
  function Closed(lib: Library, m: Message, last: Event, status: Status, fits: bool): Result<Message, Error> {
    match Write(lib, m, last, None, fits)
    case Err(error) => Err(error)
    case Ok(next) => Write(lib, next, EndEvent(last.seqno), Some(status), fits)
  }

  /** What a requested outcome becomes once cancellation and the deadline are taken into account. */
  function Outcome(run: Run, clock: int, phase: Phase, result: Option<string>, detail: string): (Phase, Option<string>, string) {
    if run.cancel then (Phase.Cancelled, None, "cancelled")
    else if clock >= run.deadline then (TimedOut, None, "Harness run deadline exceeded")
    else (phase, result, detail)
  }

  /** The result, or the error, and the end of the message are written with the terminal phase. */
  function Finished(lib: Library, db: Db, phase: Phase, result: Option<string>, detail: string, fits: bool): (Db, Result<seq<Event>, Error>) {
    if phase == Succeeded && result.None? then (db, Err(InvalidContent))
    else
      var revision := db.message.revision;
      var last := if phase == Succeeded then ResultEvent(revision, result.value) else ErrorEvent(revision, phase, detail);
      match Closed(lib, db.message, last, StatusOf(phase), fits)
      case Err(error) => (db, Err(error))
      case Ok(ended) => (db.(run := db.run.(phase := phase, error := detail), message := ended), Ok([last, EndEvent(revision + 1)]))
  }

  /** FinishHarnessRun: the closing events and the terminal phase in one transaction. */
  function FinishTx(lib: Library, db: Db, t: nat, now: int, clock: int, phase: Phase, result: Option<string>, detail: string, fits: bool)
    : (Db, Result<seq<Event>, Error>)
  {
    if !phase.Terminal() then (db, Err(Conflict))
    else
      match Admit(db, t, now)
      case Some(error) => (db, Err(error))
      case None =>
        var (phase, result, detail) := Outcome(db.run, clock, phase, result, detail);
        Finished(lib, db, phase, result, detail, fits)
  }

  // ---------- what the run row says about the message ----------

  /** The output of a run: its events applied in order to the message it started with. */
  function Fold(lib: Library, start: Model, data: seq<string>): Option<Model> {
    if data == [] then Some(start)
    else
      var n := |data| - 1;
      match (Fold(lib, start, data[..n]), lib.parse(data[n]))
      case (Some(m), Some(e)) => Apply(lib, m, e.(seqno := n + 2))
      case _ => None
  }

  predicate IsResult(b: Block) {
    b.id == RESULT_ID || b.kind == RESULT_TYPE
  }

  ghost predicate NoResult(blocks: seq<Block>) {
    forall i :: 0 <= i < |blocks| ==> !IsResult(blocks[i])
  }

  /**
   * The run row and its message agree: while it is open the message is the fold of the
   * first `checkpoint` events and its revision counts them; once closed it also has the
   * result, exactly when the run succeeded, and a status that matches the phase.
   */
  ghost predicate Agree(lib: Library, start: Model, run: Run, m: Message) {
    && |run.hash| == run.checkpoint
    && Fold(lib, start, run.hash).Some?
    && var out := Fold(lib, start, run.hash).value;
    && UniqueIds(out.blocks) && NoResult(out.blocks)
    && (!run.phase.Terminal() ==> SameContent(m.content, out) && m.status == Streaming && m.revision == run.checkpoint + 1)
    && (run.phase.Terminal() ==> m.status == StatusOf(run.phase) && m.revision == run.checkpoint + 3)
    && (run.phase == Succeeded ==> exists b: Block :: b.id == RESULT_ID && b.kind == RESULT_TYPE && m.content.blocks == out.blocks + [b])
    && (run.phase.Terminal() && run.phase != Succeeded ==> m.content.blocks == out.blocks)
    && (run.phase.Terminal() && run.cancel ==> run.phase == Phase.Cancelled)
  }

  /** A run that can be created: its message starts empty and streaming. */
  lemma Created(lib: Library, meta: Meta, deadline: int)
    ensures Agree(lib, Model(meta, []), Run(Pending, 0, [], false, deadline, "", ""), Message(Streaming, 1, Model(meta, [])))
  {
  }

  /** Run and message are terminal together, and success is a completed message with its single result. */
  lemma TerminalTogether(lib: Library, start: Model, run: Run, m: Message)
    requires Agree(lib, start, run, m)
    ensures run.phase.Terminal() <==> Terminal(m.status)
    ensures run.phase == Succeeded <==> m.status == Completed
    ensures run.phase == Succeeded <==> exists i :: 0 <= i < |m.content.blocks| && IsResult(m.content.blocks[i])
    ensures forall i, j :: 0 <= i < j < |m.content.blocks| && IsResult(m.content.blocks[i]) ==> !IsResult(m.content.blocks[j])
    ensures run.cancel && run.phase.Terminal() ==> m.status == Status.Cancelled && NoResult(m.content.blocks)
  {
    var out := Fold(lib, start, run.hash).value;
    if run.phase == Succeeded {
      assert IsResult(m.content.blocks[|out.blocks|]);
    }
    assert !run.phase.Terminal() ==> m.content.blocks == out.blocks;
  }

  lemma StartAgrees(lib: Library, start: Model, db: Db, t: nat, now: int)
    requires Agree(lib, start, db.run, db.message)
    ensures var after := StartTx(db, t, now).0; Agree(lib, start, after.run, after.message)
  {
    hide Fold, UniqueIds, NoResult;
  }

  lemma BindAgrees(lib: Library, start: Model, db: Db, t: nat, now: int, ref: string)
    requires Agree(lib, start, db.run, db.message)
    ensures var after := BindTx(db, t, now, ref).0; Agree(lib, start, after.run, after.message)
  {
    hide Fold, UniqueIds, NoResult;
  }

  lemma RetryAgrees(lib: Library, start: Model, db: Db, t: nat, now: int, detail: string)
    requires Agree(lib, start, db.run, db.message)
    ensures var after := RetryTx(db, t, now, detail).0; Agree(lib, start, after.run, after.message)
  {
    hide Fold, UniqueIds, NoResult;
  }

  lemma CancelAgrees(lib: Library, start: Model, db: Db)
    requires Agree(lib, start, db.run, db.message)
    ensures var after := CancelTx(db); Agree(lib, start, after.run, after.message)
  {
    hide Fold, UniqueIds, NoResult;
  }

  /** An event that a run may write itself leaves no result behind. */
  lemma ApplyNoResult(lib: Library, m: Model, e: Event)
    requires UniqueIds(m.blocks) && NoResult(m.blocks)
    requires (e.op == Set || e.op == Append) && !Reserved(e) && Apply(lib, m, e).Some?
    ensures UniqueIds(Apply(lib, m, e).value.blocks) && NoResult(Apply(lib, m, e).value.blocks)
  {
    ApplyBlocksKeeps(lib, m.blocks, e);
  }

  lemma FoldNext(lib: Library, start: Model, hash: seq<string>, m: Model, e: Event)
    requires hash != [] && Fold(lib, start, hash[..|hash| - 1]) == Some(m) && lib.parse(hash[|hash| - 1]) == Some(e)
    ensures Fold(lib, start, hash) == Apply(lib, m, e.(seqno := |hash| + 1))
  {
  }

  /** An append that extends the saved events by one extends the saved output by that event. */
  lemma AppendAgrees(lib: Library, start: Model, db: Db, t: nat, now: int, index: nat, hash: seq<string>, e: Event, fits: bool)
    requires Agree(lib, start, db.run, db.message)
    requires Holds(db.lease, t) && index == db.run.checkpoint + 1 ==>
               |hash| == index && hash[..index - 1] == db.run.hash && lib.parse(hash[index - 1]) == Some(e)
    ensures var after := AppendTx(lib, db, t, now, index, hash, e, fits).0; Agree(lib, start, after.run, after.message)
  {
    hide Fold, UniqueIds, NoResult, Reserved, Agree;
    var (after, error) := AppendTx(lib, db, t, now, index, hash, e, fits);
    if after != db {
      var out := AgreeOpen(lib, start, db.run, db.message);
      var written := e.(seqno := index + 1);
      FoldNext(lib, start, hash, out, e);
      ApplySameContent(lib, db.message.content, out, written);
      ApplyNoResult(lib, out, written) by {
        assert !Reserved(e) ==> !Reserved(written) by { ReservedIgnoresSeqno(e, index + 1); }
      }
      AgreeOpenIs(lib, start, after.run, after.message, Fold(lib, start, hash).value);
    }
  }

  lemma ReservedIgnoresSeqno(e: Event, seqno: nat)
    ensures Reserved(e.(seqno := seqno)) == Reserved(e)
  {
  }

  lemma AgreeOpen(lib: Library, start: Model, run: Run, m: Message) returns (out: Model)
    requires Agree(lib, start, run, m) && !run.phase.Terminal()
    ensures |run.hash| == run.checkpoint && Fold(lib, start, run.hash) == Some(out)
    ensures UniqueIds(out.blocks) && NoResult(out.blocks)
    ensures SameContent(m.content, out) && m.status == Streaming && m.revision == run.checkpoint + 1
  {
    hide Fold, UniqueIds, NoResult;
    out := Fold(lib, start, run.hash).value;
  }

  lemma AgreeOpenIs(lib: Library, start: Model, run: Run, m: Message, out: Model)
    requires |run.hash| == run.checkpoint && Fold(lib, start, run.hash) == Some(out) && !run.phase.Terminal()
    requires UniqueIds(out.blocks) && NoResult(out.blocks)
    requires SameContent(m.content, out) && m.status == Streaming && m.revision == run.checkpoint + 1
    ensures Agree(lib, start, run, m)
  {
    hide Fold, UniqueIds, NoResult;
  }

  lemma ResultIsNew(blocks: seq<Block>)
    requires NoResult(blocks)
    ensures IndexOf(blocks, RESULT_ID) == |blocks|
  {
    assert forall i :: 0 <= i < |blocks| ==> !IsResult(blocks[i]);
  }

  /** Completion publishes the result, or the error, and the terminal status together. */
  lemma FinishAgrees(lib: Library, start: Model, db: Db, t: nat, now: int, clock: int, phase: Phase, result: Option<string>, detail: string, fits: bool)
    requires Agree(lib, start, db.run, db.message)
    ensures var after := FinishTx(lib, db, t, now, clock, phase, result, detail, fits).0; Agree(lib, start, after.run, after.message)
  {
    hide Fold, UniqueIds;
    var (after, r) := FinishTx(lib, db, t, now, clock, phase, result, detail, fits);
    if r.Ok? {
      var out := Fold(lib, start, db.run.hash).value;
      assert SameContent(db.message.content, out);
      if after.run.phase == Succeeded {
        ResultIsNew(out.blocks);
        var b := after.message.content.blocks[|out.blocks|];
        assert after.message.content.blocks == out.blocks + [b];
      }
    }
  }
}
