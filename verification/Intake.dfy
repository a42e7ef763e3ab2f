/**
 * From conversation to runs: Ingress creates a run for the first unconsumed message when
 * no run is unfinished, and each run's Manager reads on from there.  Ingress lists, polls
 * and creates in separate steps, and so does the Manager commit, poll and write.
 */
module Intake {
  import opened Wrappers
  import opened Cursors
  import opened LongHorizon
  import CursorProtocol

  const CONSUMER := Actor("operator", "longhorizon")
  const GOAL_LIMIT := 16000
  const BATCH := 32

  /** An Ingress between its steps: it has listed no unfinished run, has a goal, or has a message to step over. */
  datatype Ingress = Idle | Listed | Goal(mail: Mail) | Skip(mail: Mail)

  /** A Manager between its steps, with the status it read: it has committed, and perhaps polled. */
  datatype Progress = Resting | Ready(seen: Status) | Polled(seen: Status, batch: seq<Mail>)

  datatype Managed = Managed(world: World, progress: Progress, deleted: bool)

  /** `rejected` are the messages turned down as goals, `replaced` the deleted runs whose name was used again. */
  datatype State = State(table: seq<Mail>, conv: Conversation, workers: map<nat, Ingress>, runs: map<nat, Managed>, rejected: set<nat>,
                         replaced: seq<Managed>)

  datatype Step =
    | Publish(mail: Mail)
    | ListRuns(worker: nat)
    | PollFirst(worker: nat)
    | SkipMail(worker: nat)
    | CreateRun(worker: nat, maxRounds: int, defaultRounds: int)
    | Restart(worker: nat)
    | Begin(run: nat)
    | PollMore(run: nat)
    | Write(run: nat, env: Env, committed: bool)
    | Child(run: nat, event: Event)
    | Delete(run: nat)

  predicate Unfinished(m: Managed) {
    !m.deleted && !m.world.status.finished
  }

  predicate AnyUnfinished(s: State) {
    exists r :: r in s.runs && Unfinished(s.runs[r])
  }

  function Worker(s: State, worker: nat): Ingress {
    if worker in s.workers then s.workers[worker] else Idle
  }

  function After(s: State): nat {
    Committed(s.conv, CONSUMER)
  }

  /** Poll as one step: its write is checked against the object's version, so it takes effect at once or not at all. */
  function PolledFrom(s: State, after: nat, limit: nat): (seq<Mail>, Conversation) {
    var batch := ListInbox(s.table, CONSUMER, Max(After(s), after), limit);
    (batch, if batch == [] then s.conv else Received(s.conv, CONSUMER, batch[|batch| - 1].id))
  }

  function Acknowledge(conv: Conversation, through: nat): Conversation {
    match Acknowledged(conv, CONSUMER, through)
    case Ok(after) => after
    case Err(_) => conv
  }

  predicate IsGoal(m: Mail) {
    IsInput(m) && 1 <= |m.text| <= GOAL_LIMIT
  }

  function WithRun(s: State, r: nat, m: Managed): State {
    s.(runs := s.runs[r := m])
  }

  function Next(s: State, step: Step): State {
    match step
    case Publish(mail) =>
      if mail.id > 0 && (s.table == [] || mail.id > s.table[|s.table| - 1].id) then s.(table := s.table + [mail]) else s
    case ListRuns(worker) =>
      if Worker(s, worker).Idle? && !AnyUnfinished(s) then s.(workers := s.workers[worker := Listed]) else s
    case PollFirst(worker) =>
      if !Worker(s, worker).Listed? then s
      else
        var (batch, conv) := PolledFrom(s, 0, 1);
        s.(conv := conv, workers := s.workers[worker := if batch == [] then Idle else if IsGoal(batch[0]) then Goal(batch[0]) else Skip(batch[0])])
    case SkipMail(worker) =>
      if !Worker(s, worker).Skip? then s
      else
        var m := Worker(s, worker).mail;
        s.(conv := Acknowledge(s.conv, m.id), workers := s.workers[worker := Idle],
           rejected := if IsInput(m) && Acknowledged(s.conv, CONSUMER, m.id).Ok? then s.rejected + {m.id} else s.rejected)
    case CreateRun(worker, maxRounds, defaultRounds) =>
      if !Worker(s, worker).Goal? then s
      else
        var m := Worker(s, worker).mail;
        var after := s.(workers := s.workers[worker := Idle]);
        if m.id in s.runs && !s.runs[m.id].deleted then after
        else
          var replaced := if m.id in s.runs then s.replaced + [s.runs[m.id]] else s.replaced;
          var spec := Spec(m.text, m.source.key, m.id, maxRounds);
          WithRun(after.(replaced := replaced), m.id, Managed(Created(spec, defaultRounds), Resting, false))
    case Restart(worker) => s.(workers := s.workers[worker := Idle])
    case Begin(r) =>
      if r in s.runs && !s.runs[r].deleted then
        var m := s.runs[r];
        var status := m.world.status;
        if status.phase == New then WithRun(s, r, m.(progress := Ready(status)))
        else if Acknowledged(s.conv, CONSUMER, status.through).Err? then s
        else WithRun(s.(conv := Acknowledge(s.conv, status.through)), r, m.(progress := Ready(status)))
      else s
    case PollMore(r) =>
      if r in s.runs && s.runs[r].progress.Ready? && s.runs[r].progress.seen.phase == Receiving && !s.runs[r].deleted then
        var seen := s.runs[r].progress.seen;
        var (batch, conv) := PolledFrom(s, seen.through, BATCH);
        WithRun(s.(conv := conv), r, s.runs[r].(progress := Polled(seen, batch)))
      else s
    case Write(r, env, committed) =>
      if r in s.runs && !s.runs[r].deleted && MayWrite(s.runs[r], env) then
        WithRun(s, r, s.runs[r].(world := LongHorizon.Next(s.runs[r].world, Reconcile(env, committed)), progress := Resting))
      else s
    case Child(r, event) =>
      if r in s.runs && !event.Reconcile? then WithRun(s, r, s.runs[r].(world := LongHorizon.Next(s.runs[r].world, event))) else s
    case Delete(r) => if r in s.runs && s.runs[r].world.status.finished then WithRun(s, r, s.runs[r].(deleted := true)) else s
  }

  /** The write goes through only on the status that was read, after the commit, and with the batch that was polled. */
  predicate MayWrite(m: Managed, env: Env) {
    match m.progress
    case Resting => false
    case Ready(seen) => m.world.status == seen && (seen.phase != Receiving || |seen.inputs| >= INPUT_LIMIT || Overdue(seen, env))
    case Polled(seen, batch) => m.world.status == seen && env.polled == batch
  }

  /** The operator joined the conversation before anything was consumed. */
  function Initial(): State {
    State([], Conversation([Participant(CONSUMER, 0, "")], []), map[], map[], {}, [])
  }

  // ---------- what absorbing does to the record ----------

  lemma OrderedRest(batch: seq<Mail>)
    requires Ordered(batch) && batch != []
    ensures Ordered(batch[1..])
    ensures forall m :: m in batch <==> m == batch[0] || m in batch[1..]
    ensures forall m :: m in batch[1..] ==> m.id > batch[0].id
  {
    forall m | m in batch[1..] ensures m.id > batch[0].id {
      var i :| 0 <= i < |batch[1..]| && batch[1..][i] == m;
      assert batch[i + 1] == m;
    }
    assert forall m :: m in batch ==> m == batch[0] || m in batch[1..];
  }

  /** From one status to a later one: user messages of the batch up to the new boundary are recorded, and nothing else is new. */
  ghost predicate Records(s: Status, next: Status, batch: seq<Mail>) {
    && next.through >= s.through
    && (next.through == s.through || exists m :: m in batch && m.id == next.through)
    && (forall m :: m in batch && IsInput(m) && m.id <= next.through ==> m.id in next.inputs)
    && (forall x :: x in next.inputs ==> x in s.inputs || s.through < x <= next.through)
    && (forall x :: x in s.inputs ==> x in next.inputs)
  }

  lemma RecordsStep(s: Status, one: Status, next: Status, m: Mail, batch: seq<Mail>, rest: seq<Mail>)
    requires one == AbsorbOne(s, m) && Records(one, next, rest) && m.id > s.through
    requires forall x :: x in batch <==> x == m || x in rest
    ensures Records(s, next, batch)
  {
    assert m in batch;
    assert IsInput(m) ==> one.inputs[|s.inputs|] == m.id && m.id in one.inputs;
    assert forall x :: x in one.inputs ==> x in s.inputs || x == m.id;
    assert forall x :: x in s.inputs ==> x in one.inputs;
  }

  /** Among messages read in order, exactly those up to the new boundary are taken, and every user one of them is recorded. */
  lemma {:induction false} AbsorbRecords(s: Status, user: string, batch: seq<Mail>)
    requires Ordered(batch) && forall m :: m in batch ==> m.id > s.through
    ensures Records(s, Absorb(s, user, batch), batch)
    decreases |batch|
  {
    hide Ordered, Absorbs;
    if batch != [] && !(IsInput(batch[0]) && !Absorbs(s, user, batch[0])) {
      OrderedRest(batch);
      assert batch[0] in batch;
      var one := AbsorbOne(s, batch[0]);
      AbsorbRecords(one, user, batch[1..]);
      hide Records;
      RecordsStep(s, one, Absorb(one, user, batch[1..]), batch[0], batch, batch[1..]);
    }
  }

  // ---------- what every reachable state keeps ----------

  predicate ForUs(m: Mail) {
    Wanted(m, CONSUMER, 0)
  }

  /** How far a run reaches: its input, and later what it has taken. */
  function Reach(m: Managed): nat {
    if m.world.status.phase == New then m.world.spec.input else m.world.status.through
  }

  /** Nothing for the operator lies after `after` and before `first`. */
  ghost predicate Gap(table: seq<Mail>, after: nat, first: nat) {
    forall m :: m in table && ForUs(m) && m.id > after ==> m.id >= first
  }

  /** Every user message from the run's input to its boundary is recorded in it or was turned down, and its record has nothing else. */
  ghost predicate RecordedAll(table: seq<Mail>, rejected: set<nat>, r: nat, s: Status) {
    && (forall m :: m in table && ForUs(m) && IsInput(m) && r <= m.id <= s.through ==> m.id in s.inputs || m.id in rejected)
    && (forall x :: x in s.inputs ==> r <= x <= s.through)
    && r in s.inputs
  }

  /** A batch misses no user message between the boundary and its end but those turned down. */
  ghost predicate BatchOk(table: seq<Mail>, rejected: set<nat>, through: nat, batch: seq<Mail>) {
    && Ordered(batch)
    && (forall m :: m in batch ==> m in table && Wanted(m, CONSUMER, through))
    && (batch != [] ==>
          forall m :: m in table && Wanted(m, CONSUMER, through) && IsInput(m) && m.id <= batch[|batch| - 1].id ==> m in batch || m.id in rejected)
  }

  ghost predicate ProgressOk(table: seq<Mail>, after: nat, rejected: set<nat>, m: Managed) {
    var s := m.world.status;
    match m.progress
    case Resting => true
    case Ready(seen) => seen == s && seen.phase != New ==> seen.through <= after
    case Polled(seen, batch) => seen == s ==> seen.phase == Receiving && seen.through <= after && BatchOk(table, rejected, seen.through, batch)
  }

  ghost predicate RunOk(table: seq<Mail>, after: nat, rejected: set<nat>, r: nat, m: Managed) {
    var s := m.world.status;
    && m.world.spec.input == r && CursorProtocol.Named(table, r) && r > 0
    && (s.phase == New ==> s == NewStatus())
    && (s.phase != New ==> r <= s.through && CursorProtocol.Named(table, s.through) && RecordedAll(table, rejected, r, s))
    && (s.finished ==> s.phase.Terminal() && s.through <= after)
    && (m.deleted ==> s.finished)
    && ProgressOk(table, after, rejected, m)
  }

  /** Only the latest run may be unfinished, and no run reaches into a later one. */
  ghost predicate Separate(runs: map<nat, Managed>) {
    forall a, b :: a in runs && b in runs && a < b ==> runs[a].world.status.finished && Reach(runs[a]) < b
  }

  /** The cursor skipped nothing before an unfinished run's input. */
  ghost predicate Ahead(table: seq<Mail>, after: nat, runs: map<nat, Managed>) {
    forall r :: r in runs && !runs[r].world.status.finished ==> Gap(table, after, r)
  }

  ghost predicate AllFinished(runs: map<nat, Managed>) {
    forall r :: r in runs ==> runs[r].world.status.finished
  }

  /** A message that some worker found first: nothing unconsumed precedes it, even if it has been consumed since. */
  ghost predicate Found(table: seq<Mail>, after: nat, mail: Mail) {
    mail in table && ForUs(mail) && Gap(table, after, mail.id)
  }

  ghost predicate WorkerOk(table: seq<Mail>, after: nat, pc: Ingress) {
    && (pc.Goal? ==> Found(table, after, pc.mail) && IsGoal(pc.mail))
    && (pc.Skip? ==> Found(table, after, pc.mail) && !IsGoal(pc.mail))
  }

  ghost predicate WorkersOk(table: seq<Mail>, after: nat, workers: map<nat, Ingress>) {
    forall w :: w in workers ==> WorkerOk(table, after, workers[w])
  }

  /** What was turned down was no goal, and is behind the cursor. */
  ghost predicate RejectedOk(table: seq<Mail>, after: nat, rejected: set<nat>) {
    (forall x :: x in rejected ==> x <= after) && (forall m :: m in table && m.id in rejected ==> !IsGoal(m))
  }

  ghost predicate Taken(runs: map<nat, Managed>, x: nat) {
    exists r :: r in runs && x in runs[r].world.status.inputs
  }

  /** Every user message behind the cursor is recorded in a run, or was turned down. */
  ghost predicate Consumed(table: seq<Mail>, after: nat, runs: map<nat, Managed>, rejected: set<nat>) {
    forall m :: m in table && ForUs(m) && IsInput(m) && m.id <= after ==> m.id in rejected || Taken(runs, m.id)
  }

  ghost predicate RunsOk(table: seq<Mail>, after: nat, rejected: set<nat>, runs: map<nat, Managed>) {
    forall r :: r in runs ==> RunOk(table, after, rejected, r, runs[r])
  }

  ghost predicate Inv(s: State) {
    && Ordered(s.table) && CursorsOk(s.conv) && CursorProtocol.Named(s.table, After(s)) && s.replaced == []
    && RunsOk(s.table, After(s), s.rejected, s.runs)
    && Separate(s.runs) && Ahead(s.table, After(s), s.runs)
    && WorkersOk(s.table, After(s), s.workers) && RejectedOk(s.table, After(s), s.rejected)
    && Consumed(s.table, After(s), s.runs, s.rejected)
  }

  // ---------- what is guaranteed ----------

  /** A run is for the message it was created for and for those it has absorbed. */
  predicate IsFor(m: Managed, x: nat) {
    x == m.world.spec.input || x in m.world.status.inputs
  }

  ghost predicate AtMostOneUnfinished(s: State) {
    forall a, b :: a in s.runs && b in s.runs && Unfinished(s.runs[a]) && Unfinished(s.runs[b]) ==> a == b
  }

  /** No message has two runs, those that were deleted and replaced included. */
  ghost predicate NoneShared(s: State) {
    && (forall a, b, x :: a in s.runs && b in s.runs && a != b && IsFor(s.runs[a], x) ==> !IsFor(s.runs[b], x))
    && (forall i, r, x :: 0 <= i < |s.replaced| && r in s.runs && IsFor(s.replaced[i], x) ==> !IsFor(s.runs[r], x))
  }

  ghost predicate Guaranteed(s: State) {
    AtMostOneUnfinished(s) && NoneShared(s)
  }

  /** The run a worker is about to create exists already, so creating it again finds it. */
  predicate AlreadyCreated(s: State, worker: nat) {
    Worker(s, worker).Goal? && Worker(s, worker).mail.id in s.runs && !s.runs[Worker(s, worker).mail.id].deleted
  }

  /**
   * What a worker could check again when it creates a run: it finds the run it meant to
   * create, or no run is unfinished and its message is still unconsumed.
   */
  predicate CreationSafe(s: State, worker: nat) {
    Worker(s, worker).Goal? ==> AlreadyCreated(s, worker) || (!AnyUnfinished(s) && Worker(s, worker).mail.id > After(s))
  }

  lemma InvGuarantees(s: State)
    requires Inv(s)
    ensures Guaranteed(s)
  {
    hide CursorProtocol.Named, CursorsOk, Committed, Ordered, Ahead, WorkersOk, RejectedOk, Consumed, RunOk, IsFor;
    forall r, x: nat | r in s.runs && IsFor(s.runs[r], x) ensures r <= x <= Reach(s.runs[r]) {
      ForWithin(s.table, After(s), s.rejected, r, s.runs[r], x);
    }
    hide RunsOk, Reach;
    SeparateIsOne(s);
  }

  lemma SeparateIsOne(s: State)
    requires Separate(s.runs)
    ensures AtMostOneUnfinished(s)
  {
    hide Reach;
  }

  lemma ForWithin(table: seq<Mail>, after: nat, rejected: set<nat>, r: nat, m: Managed, x: nat)
    requires RunOk(table, after, rejected, r, m) && IsFor(m, x)
    ensures r <= x <= Reach(m)
  {
    hide CursorProtocol.Named, ProgressOk;
  }

  // ---------- publishing ----------

  predicate Publishes(table: seq<Mail>, mail: Mail) {
    mail.id > 0 && (table == [] || mail.id > table[|table| - 1].id)
  }

  lemma LaterIds(table: seq<Mail>, mail: Mail, x: nat)
    requires Ordered(table) && Publishes(table, mail) && CursorProtocol.Named(table, x)
    ensures CursorProtocol.Named(table + [mail], x) && mail.id > x
  {
    if x > 0 {
      var m :| m in table && m.id == x;
      var i :| 0 <= i < |table| && table[i] == m;
      assert m.id <= table[|table| - 1].id;
      assert m in table + [mail];
    }
  }

  lemma PublishBatch(table: seq<Mail>, mail: Mail, rejected: set<nat>, through: nat, batch: seq<Mail>)
    requires Ordered(table) && Publishes(table, mail) && BatchOk(table, rejected, through, batch)
    ensures BatchOk(table + [mail], rejected, through, batch)
  {
    if batch != [] {
      var last := batch[|batch| - 1];
      assert last in batch;
      MailNamed(table, last);
      LaterIds(table, mail, last.id);
    }
  }

  lemma PublishRun(table: seq<Mail>, mail: Mail, after: nat, rejected: set<nat>, r: nat, m: Managed)
    requires Ordered(table) && Publishes(table, mail) && RunOk(table, after, rejected, r, m)
    ensures RunOk(table + [mail], after, rejected, r, m)
  {
    hide CursorProtocol.Named, BatchOk, Publishes, Ordered;
    LaterIds(table, mail, r);
    if m.world.status.phase != New {
      LaterIds(table, mail, m.world.status.through);
    }
    if m.progress.Polled? && m.progress.seen == m.world.status {
      PublishBatch(table, mail, rejected, m.progress.seen.through, m.progress.batch);
    }
  }

  lemma PublishGap(table: seq<Mail>, mail: Mail, after: nat, first: nat)
    requires Gap(table, after, first) && mail.id >= first
    ensures Gap(table + [mail], after, first)
  {
  }

  lemma PublishAhead(table: seq<Mail>, mail: Mail, after: nat, rejected: set<nat>, runs: map<nat, Managed>)
    requires Ordered(table) && Publishes(table, mail)
    requires Ahead(table, after, runs) && RunsOk(table, after, rejected, runs)
    ensures Ahead(table + [mail], after, runs)
  {
    hide CursorProtocol.Named, Gap, Ordered, RunOk, Publishes;
    forall r | r in runs && !runs[r].world.status.finished ensures Gap(table + [mail], after, r) {
      InputNamed(table, after, rejected, r, runs[r]);
      LaterIds(table, mail, r);
      PublishGap(table, mail, after, r);
    }
  }

  lemma PublishWorkers(table: seq<Mail>, mail: Mail, after: nat, workers: map<nat, Ingress>)
    requires Ordered(table) && Publishes(table, mail) && WorkersOk(table, after, workers)
    ensures WorkersOk(table + [mail], after, workers)
  {
    hide CursorProtocol.Named, Gap, Ordered, Publishes, IsGoal;
    forall w | w in workers ensures WorkerOk(table + [mail], after, workers[w]) {
      assert WorkerOk(table, after, workers[w]);
      if workers[w].Goal? || workers[w].Skip? {
        MailNamed(table, workers[w].mail);
        LaterIds(table, mail, workers[w].mail.id);
        PublishGap(table, mail, after, workers[w].mail.id);
      }
    }
  }

  lemma PublishConsumed(table: seq<Mail>, mail: Mail, after: nat, runs: map<nat, Managed>, rejected: set<nat>)
    requires Ordered(table) && Publishes(table, mail) && CursorProtocol.Named(table, after)
    requires Consumed(table, after, runs, rejected) && RejectedOk(table, after, rejected)
    ensures Consumed(table + [mail], after, runs, rejected) && RejectedOk(table + [mail], after, rejected)
  {
    LaterIds(table, mail, after);
  }

  lemma PublishOrdered(table: seq<Mail>, mail: Mail)
    requires Ordered(table) && Publishes(table, mail)
    ensures Ordered(table + [mail])
  {
  }

  lemma PublishKeeps(s: State, mail: Mail)
    requires Inv(s)
    ensures Inv(Next(s, Publish(mail)))
  {
    hide RunOk, Separate, Ahead, WorkersOk, RejectedOk, Consumed, CursorProtocol.Named, CursorsOk, Committed, Ordered;
    if Publishes(s.table, mail) {
      PublishOrdered(s.table, mail);
      LaterIds(s.table, mail, After(s));
      forall r | r in s.runs ensures RunOk(s.table + [mail], After(s), s.rejected, r, s.runs[r]) {
        PublishRun(s.table, mail, After(s), s.rejected, r, s.runs[r]);
      }
      PublishAhead(s.table, mail, After(s), s.rejected, s.runs);
      PublishWorkers(s.table, mail, After(s), s.workers);
      PublishConsumed(s.table, mail, After(s), s.runs, s.rejected);
    }
  }

  lemma InputNamed(table: seq<Mail>, after: nat, rejected: set<nat>, r: nat, m: Managed)
    requires RunOk(table, after, rejected, r, m)
    ensures CursorProtocol.Named(table, r)
  {
    hide RecordedAll, ProgressOk;
  }

  lemma MailNamed(table: seq<Mail>, mail: Mail)
    requires mail in table
    ensures CursorProtocol.Named(table, mail.id)
  {
  }

  // ---------- Ingress ----------

  /** A worker that gives up, or has listed, knows of no message. */
  lemma IdleKeeps(s: State, worker: nat, pc: Ingress)
    requires Inv(s) && (pc.Idle? || pc.Listed?)
    ensures Inv(s.(workers := s.workers[worker := pc]))
  {
    hide RunsOk, Separate, Ahead, RejectedOk, Consumed, CursorProtocol.Named, CursorsOk, Committed, Ordered, Found;
  }

  lemma NoneUnfinished(s: State)
    requires !AnyUnfinished(s) && RunsOk(s.table, After(s), s.rejected, s.runs)
    ensures AllFinished(s.runs)
  {
    hide CursorProtocol.Named, Committed, RecordedAll, ProgressOk;
    forall r | r in s.runs ensures s.runs[r].world.status.finished {
      assert !Unfinished(s.runs[r]);
      assert RunOk(s.table, After(s), s.rejected, r, s.runs[r]);
    }
  }

  lemma FirstOfInbox(table: seq<Mail>, after: nat)
    requires Ordered(table)
    ensures var batch := ListInbox(table, CONSUMER, after, 1); batch != [] ==> Found(table, after, batch[0]) && batch[0].id > after
  {
    var batch := ListInbox(table, CONSUMER, after, 1);
    if batch != [] {
      assert batch[0] in batch;
      forall m | m in table && ForUs(m) && m.id > after ensures m.id >= batch[0].id {
        InboxContiguous(table, CONSUMER, after, 1, m);
      }
    }
  }

  /** Receiving moves no recovery point. */
  lemma PollKeepsAfter(s: State, after: nat, limit: nat)
    requires CursorsOk(s.conv)
    ensures
      var (batch, conv) := PolledFrom(s, after, limit);
      CursorsOk(conv) && Committed(conv, CONSUMER) == After(s)
  {
    hide CursorsOk, Committed, Position, Received;
    var (batch, conv) := PolledFrom(s, after, limit);
    if batch != [] {
      ReceivedKeeps(s.conv, CONSUMER, batch[|batch| - 1].id);
    }
  }

  lemma PollFirstKeeps(s: State, worker: nat)
    requires Inv(s)
    ensures Inv(Next(s, PollFirst(worker)))
  {
    hide RunsOk, Separate, Ahead, RejectedOk, Consumed, CursorProtocol.Named, CursorsOk, Committed, Ordered, Found, PolledFrom, IsGoal;
    if Worker(s, worker).Listed? {
      PollKeepsAfter(s, 0, 1);
      FirstOfInbox(s.table, After(s));
      PolledIs(s, 0, 1);
    }
  }

  lemma PolledIs(s: State, after: nat, limit: nat)
    ensures PolledFrom(s, after, limit).0 == ListInbox(s.table, CONSUMER, Max(After(s), after), limit)
  {
  }

  /** A later recovery point, and more turned down, keep what every run may rely on. */
  lemma LaterRun(table: seq<Mail>, after: nat, later: nat, rejected: set<nat>, more: set<nat>, r: nat, m: Managed)
    requires RunOk(table, after, rejected, r, m) && after <= later && rejected <= more
    ensures RunOk(table, later, more, r, m)
  {
    hide CursorProtocol.Named, BatchOk, RecordedAll;
    if m.world.status.phase != New {
      MoreRecorded(table, rejected, more, r, m.world.status);
    }
    if m.progress.Polled? && m.progress.seen == m.world.status {
      MoreBatch(table, rejected, more, m.progress.seen.through, m.progress.batch);
    }
  }

  lemma MoreRecorded(table: seq<Mail>, rejected: set<nat>, more: set<nat>, r: nat, s: Status)
    requires RecordedAll(table, rejected, r, s) && rejected <= more
    ensures RecordedAll(table, more, r, s)
  {
  }

  lemma MoreBatch(table: seq<Mail>, rejected: set<nat>, more: set<nat>, through: nat, batch: seq<Mail>)
    requires BatchOk(table, rejected, through, batch) && rejected <= more
    ensures BatchOk(table, more, through, batch)
  {
  }

  lemma LaterRuns(table: seq<Mail>, after: nat, later: nat, rejected: set<nat>, more: set<nat>, runs: map<nat, Managed>)
    requires RunsOk(table, after, rejected, runs) && after <= later && rejected <= more
    ensures RunsOk(table, later, more, runs)
  {
    hide RunOk;
    forall r | r in runs ensures RunOk(table, later, more, r, runs[r]) {
      LaterRun(table, after, later, rejected, more, r, runs[r]);
    }
  }

  lemma LaterGaps(table: seq<Mail>, after: nat, later: nat, runs: map<nat, Managed>, workers: map<nat, Ingress>)
    requires Ahead(table, after, runs) && WorkersOk(table, after, workers) && after <= later
    ensures Ahead(table, later, runs) && WorkersOk(table, later, workers)
  {
    hide Gap, IsGoal;
    forall first | Gap(table, after, first) ensures Gap(table, later, first) {
      LaterGap(table, after, later, first);
    }
    forall w | w in workers ensures WorkerOk(table, later, workers[w]) {
      assert WorkerOk(table, after, workers[w]);
    }
  }

  lemma LaterGap(table: seq<Mail>, after: nat, later: nat, first: nat)
    requires Gap(table, after, first) && after <= later
    ensures Gap(table, later, first)
  {
  }

  lemma AcknowledgeMoves(conv: Conversation, through: nat)
    requires CursorsOk(conv)
    ensures CursorsOk(Acknowledge(conv, through))
    ensures
      var (before, after) := (Committed(conv, CONSUMER), Committed(Acknowledge(conv, through), CONSUMER));
      after == if Acknowledged(conv, CONSUMER, through).Ok? then Max(before, through) else before
  {
    hide CursorsOk, Committed, Acknowledged;
    if Acknowledged(conv, CONSUMER, through).Ok? {
      AcknowledgedKeeps(conv, CONSUMER, through);
    }
  }

  /** Stepping over a message that is no goal, even if it has been consumed since. */
  lemma SkipConsumed(table: seq<Mail>, after: nat, runs: map<nat, Managed>, rejected: set<nat>, mail: Mail)
    requires Ordered(table) && Consumed(table, after, runs, rejected) && RejectedOk(table, after, rejected)
    requires Found(table, after, mail) && !IsGoal(mail)
    ensures
      var more := if IsInput(mail) then rejected + {mail.id} else rejected;
      Consumed(table, Max(after, mail.id), runs, more) && RejectedOk(table, Max(after, mail.id), more)
  {
    hide IsGoal;
    forall m | m in table && m.id == mail.id ensures m == mail {
      var i :| 0 <= i < |table| && table[i] == m;
      var j :| 0 <= j < |table| && table[j] == mail;
    }
  }

  lemma SkipKeeps(s: State, worker: nat)
    requires Inv(s)
    ensures Inv(Next(s, SkipMail(worker)))
  {
    hide RunsOk, Separate, Ahead, WorkersOk, RejectedOk, Consumed, CursorProtocol.Named, CursorsOk, Committed, Acknowledge, Acknowledged, Ordered, Found,
      IsInput, IsGoal;
    if Worker(s, worker).Skip? {
      var mail := Worker(s, worker).mail;
      SkipFound(s, worker);
      var conv := Acknowledge(s.conv, mail.id);
      AcknowledgeMoves(s.conv, mail.id);
      var later := Committed(conv, CONSUMER);
      if Acknowledged(s.conv, CONSUMER, mail.id).Ok? {
        var more := if IsInput(mail) then s.rejected + {mail.id} else s.rejected;
        MailNamed(s.table, mail);
        SkipConsumed(s.table, After(s), s.runs, s.rejected, mail);
        LaterRuns(s.table, After(s), later, s.rejected, more, s.runs);
        LaterGaps(s.table, After(s), later, s.runs, s.workers);
        var skipped := s.(conv := conv, rejected := more);
        assert Inv(skipped);
        IdleKeeps(skipped, worker, Idle);
      } else {
        var same := s.(conv := conv);
        assert Inv(same);
        IdleKeeps(same, worker, Idle);
      }
    }
  }

  lemma SkipFound(s: State, worker: nat)
    requires Inv(s) && Worker(s, worker).Skip?
    ensures Found(s.table, After(s), Worker(s, worker).mail) && !IsGoal(Worker(s, worker).mail) && Worker(s, worker).mail in s.table
  {
    hide Gap;
    assert WorkerOk(s.table, After(s), s.workers[worker]);
  }

  lemma GoalFound(s: State, worker: nat)
    requires Inv(s) && Worker(s, worker).Goal?
    ensures Found(s.table, After(s), Worker(s, worker).mail) && IsGoal(Worker(s, worker).mail) && Worker(s, worker).mail in s.table
  {
    hide Gap;
    assert WorkerOk(s.table, After(s), s.workers[worker]);
  }

  /** A run behind the cursor lies below the next message. */
  lemma FinishedBelow(table: seq<Mail>, after: nat, rejected: set<nat>, r: nat, m: Managed)
    requires RunOk(table, after, rejected, r, m) && m.world.status.finished
    ensures r <= Reach(m) <= after
  {
    hide CursorProtocol.Named, RecordedAll, ProgressOk;
  }

  lemma CreatedRun(table: seq<Mail>, after: nat, rejected: set<nat>, mail: Mail, maxRounds: int, defaultRounds: int)
    requires Found(table, after, mail)
    ensures RunOk(table, after, rejected, mail.id, Managed(Created(Spec(mail.text, mail.source.key, mail.id, maxRounds), defaultRounds), Resting, false))
  {
    hide Gap;
    MailNamed(table, mail);
    hide CursorProtocol.Named;
  }

  lemma CreateKeeps(s: State, worker: nat, maxRounds: int, defaultRounds: int)
    requires Inv(s) && CreationSafe(s, worker)
    ensures Inv(Next(s, CreateRun(worker, maxRounds, defaultRounds)))
  {
    hide CursorProtocol.Named, CursorsOk, Committed, Ordered, RunOk, Gap, WorkersOk, RejectedOk, Consumed;
    if Worker(s, worker).Goal? {
      var idle := s.(workers := s.workers[worker := Idle]);
      IdleKeeps(s, worker, Idle);
      if !AlreadyCreated(s, worker) {
        var mail := Worker(s, worker).mail;
        GoalFound(s, worker);
        NoneUnfinished(s);
        forall r | r in s.runs ensures r <= Reach(s.runs[r]) <= After(s) < mail.id {
          FinishedBelow(s.table, After(s), s.rejected, r, s.runs[r]);
        }
        CreatedRun(s.table, After(s), s.rejected, mail, maxRounds, defaultRounds);
        CreatedConsumed(s, mail.id, Managed(Created(Spec(mail.text, mail.source.key, mail.id, maxRounds), defaultRounds), Resting, false));
      }
    }
  }

  lemma CreatedConsumed(s: State, r: nat, m: Managed)
    requires Consumed(s.table, After(s), s.runs, s.rejected) && r !in s.runs
    ensures Consumed(s.table, After(s), s.runs[r := m], s.rejected)
  {
    hide Committed;
    var runs := s.runs[r := m];
    forall x | Taken(s.runs, x) ensures Taken(runs, x) {
      var a :| a in s.runs && x in s.runs[a].world.status.inputs;
      assert a in runs && runs[a] == s.runs[a];
    }
  }

  /** A goal behind the cursor has been taken. */
  lemma GoalTaken(s: State, worker: nat)
    requires Inv(s) && Worker(s, worker).Goal? && Worker(s, worker).mail.id <= After(s)
    ensures Taken(s.runs, Worker(s, worker).mail.id) && s.replaced == []
  {
    hide RunsOk, Separate, Ahead, WorkersOk, CursorProtocol.Named, CursorsOk, Committed, Ordered, IsGoal, Gap, Taken;
    GoalFound(s, worker);
    GoalIsInput(Worker(s, worker).mail);
  }

  lemma SharedByTwo(s: State, a: nat, b: nat, x: nat)
    requires a in s.runs && b in s.runs && a != b && IsFor(s.runs[a], x) && IsFor(s.runs[b], x)
    ensures !NoneShared(s)
  {
    hide IsFor;
  }

  lemma SharedWithReplaced(s: State, i: nat, r: nat, x: nat)
    requires i < |s.replaced| && r in s.runs && IsFor(s.replaced[i], x) && IsFor(s.runs[r], x)
    ensures !NoneShared(s)
  {
    hide IsFor;
  }

  /** What a creation that does not find its run does. */
  lemma CreatedIs(s: State, worker: nat, maxRounds: int, defaultRounds: int)
    requires Worker(s, worker).Goal? && !AlreadyCreated(s, worker)
    ensures
      var (next, id) := (Next(s, CreateRun(worker, maxRounds, defaultRounds)), Worker(s, worker).mail.id);
      && id in next.runs && IsFor(next.runs[id], id) && Unfinished(next.runs[id])
      && (forall r :: r in s.runs && r != id ==> r in next.runs && next.runs[r] == s.runs[r])
      && (id in s.runs ==> |next.replaced| == |s.replaced| + 1 && next.replaced[|s.replaced|] == s.runs[id])
  {
  }

  /** A creation whose message has been consumed makes a second run for it. */
  lemma ConsumedGoalShares(s: State, worker: nat, maxRounds: int, defaultRounds: int)
    requires Inv(s) && Worker(s, worker).Goal? && !AlreadyCreated(s, worker) && Worker(s, worker).mail.id <= After(s)
    ensures !NoneShared(Next(s, CreateRun(worker, maxRounds, defaultRounds)))
  {
    var id := Worker(s, worker).mail.id;
    GoalTaken(s, worker);
    CreatedIs(s, worker, maxRounds, defaultRounds);
    var next := Next(s, CreateRun(worker, maxRounds, defaultRounds));
    var a :| a in s.runs && id in s.runs[a].world.status.inputs;
    assert IsFor(s.runs[a], id);
    hide *;
    if a == id {
      SharedWithReplaced(next, |s.replaced|, id, id);
    } else {
      SharedByTwo(next, a, id, id);
    }
  }

  lemma GoalIsInput(m: Mail)
    requires IsGoal(m)
    ensures IsInput(m)
  {
  }

  /** A creation beside an unfinished run makes a second one. */
  lemma SecondUnfinished(s: State, worker: nat, maxRounds: int, defaultRounds: int)
    requires Worker(s, worker).Goal? && !AlreadyCreated(s, worker) && AnyUnfinished(s)
    ensures !AtMostOneUnfinished(Next(s, CreateRun(worker, maxRounds, defaultRounds)))
  {
    CreatedIs(s, worker, maxRounds, defaultRounds);
    var r :| r in s.runs && Unfinished(s.runs[r]);
    assert r != Worker(s, worker).mail.id;
    hide Next;
  }

  /**
   * When creating a run is safe, for any number of workers: exactly when the worker finds
   * the run it meant to create, or at the moment of creation, rather than at the earlier
   * listing and poll, no run is unfinished and its message is unconsumed.
   */
  lemma CreationIsSafeWhen(s: State, worker: nat, maxRounds: int, defaultRounds: int)
    requires Inv(s)
    ensures Guaranteed(Next(s, CreateRun(worker, maxRounds, defaultRounds))) <==> CreationSafe(s, worker)
  {
    hide Next, Inv, Guaranteed, AnyUnfinished, AlreadyCreated;
    if CreationSafe(s, worker) {
      CreateKeeps(s, worker, maxRounds, defaultRounds);
      InvGuarantees(Next(s, CreateRun(worker, maxRounds, defaultRounds)));
    } else {
      NotGuaranteed(Next(s, CreateRun(worker, maxRounds, defaultRounds)));
      if AnyUnfinished(s) {
        SecondUnfinished(s, worker, maxRounds, defaultRounds);
      } else {
        ConsumedGoalShares(s, worker, maxRounds, defaultRounds);
      }
    }
  }

  lemma NotGuaranteed(s: State)
    ensures !NoneShared(s) || !AtMostOneUnfinished(s) ==> !Guaranteed(s)
  {
  }

  // ---------- Manager ----------

  lemma TakenKept(runs: map<nat, Managed>, r: nat, m: Managed)
    requires r in runs && forall x :: x in runs[r].world.status.inputs ==> x in m.world.status.inputs
    ensures forall x :: Taken(runs, x) ==> Taken(runs[r := m], x)
  {
    var after := runs[r := m];
    forall x | Taken(runs, x) ensures Taken(after, x) {
      var a :| a in runs && x in runs[a].world.status.inputs;
      assert a in after && x in after[a].world.status.inputs;
    }
  }

  /** What a later form of a run has to keep. */
  ghost predicate Later(before: Managed, m: Managed) {
    && Reach(m) >= Reach(before) && m.world.spec == before.world.spec
    && (before.world.status.finished ==> m.world.status.finished && Reach(m) == Reach(before))
    && (forall x :: x in before.world.status.inputs ==> x in m.world.status.inputs)
  }

  /** Replacing one run by a later form of itself. */
  lemma ReplacedRun(s: State, r: nat, m: Managed)
    requires Inv(s) && r in s.runs && RunOk(s.table, After(s), s.rejected, r, m) && Later(s.runs[r], m)
    ensures Inv(WithRun(s, r, m))
  {
    hide RunOk, CursorProtocol.Named, CursorsOk, Committed, Ordered, Gap, WorkersOk, RejectedOk;
    TakenKept(s.runs, r, m);
    hide Taken, Reach;
  }

  /** The same, when the cursor object changed but not the recovery point. */
  lemma ReplacedWith(s: State, conv: Conversation, r: nat, m: Managed)
    requires Inv(s) && r in s.runs && CursorsOk(conv) && Committed(conv, CONSUMER) == After(s)
    requires RunOk(s.table, After(s), s.rejected, r, m) && Later(s.runs[r], m)
    ensures Inv(WithRun(s.(conv := conv), r, m))
  {
    hide RunsOk, RunOk, CursorProtocol.Named, CursorsOk, Committed, Ordered, Separate, Ahead, WorkersOk, RejectedOk, Consumed, Later;
    assert Inv(s.(conv := conv));
    hide Inv;
    ReplacedRun(s.(conv := conv), r, m);
  }

  lemma SameStatusLater(before: Managed, m: Managed)
    requires m.world.status == before.world.status && m.world.spec == before.world.spec
    ensures Later(before, m)
  {
  }

  /** What a Manager polls from the recovery point misses nothing beyond its boundary but what was turned down. */
  lemma PolledOk(s: State, r: nat)
    requires Inv(s) && r in s.runs && s.runs[r].world.status.phase == Receiving && s.runs[r].world.status.through <= After(s)
    ensures BatchOk(s.table, s.rejected, s.runs[r].world.status.through, ListInbox(s.table, CONSUMER, After(s), BATCH))
  {
    hide RunsOk, Ahead, WorkersOk, RejectedOk, CursorProtocol.Named, CursorsOk, Committed, ListInbox;
    var through, batch := s.runs[r].world.status.through, ListInbox(s.table, CONSUMER, After(s), BATCH);
    CursorProtocol.ListBatch(s.table, CONSUMER, After(s), BATCH);
    forall m | m in s.table && Wanted(m, CONSUMER, through) && IsInput(m) && m.id <= After(s) ensures m.id in s.rejected {
      if m.id !in s.rejected {
        BehindIsOlder(s, r, m.id);
      }
    }
    hide Consumed, Separate, Ordered;
  }

  /** A message that a run has taken is not beyond the boundary of the run that is still receiving. */
  lemma BehindIsOlder(s: State, r: nat, x: nat)
    requires RunsOk(s.table, After(s), s.rejected, s.runs) && Separate(s.runs)
    requires r in s.runs && s.runs[r].world.status.phase == Receiving && Taken(s.runs, x)
    ensures x <= s.runs[r].world.status.through
  {
    hide RunOk, Committed;
    var a :| a in s.runs && x in s.runs[a].world.status.inputs;
    ForWithin(s.table, After(s), s.rejected, a, s.runs[a], x);
    ReceivingOpen(s.table, After(s), s.rejected, r, s.runs[r]);
  }

  lemma ReceivingOpen(table: seq<Mail>, after: nat, rejected: set<nat>, r: nat, m: Managed)
    requires RunOk(table, after, rejected, r, m) && m.world.status.phase == Receiving
    ensures !m.world.status.finished && !m.deleted && r <= m.world.status.through == Reach(m)
  {
    hide CursorProtocol.Named, RecordedAll, ProgressOk;
  }

  lemma ProgressIs(table: seq<Mail>, after: nat, rejected: set<nat>, r: nat, m: Managed, progress: Progress)
    requires RunOk(table, after, rejected, r, m) && ProgressOk(table, after, rejected, m.(progress := progress))
    ensures RunOk(table, after, rejected, r, m.(progress := progress)) && Later(m, m.(progress := progress))
  {
    hide CursorProtocol.Named, RecordedAll, BatchOk;
  }

  lemma PollMoreKeeps(s: State, r: nat)
    requires Inv(s)
    ensures Inv(Next(s, PollMore(r)))
  {
    hide CursorProtocol.Named, CursorsOk, Committed, PolledFrom, Ordered, RecordedAll, Separate, Ahead, Consumed, WorkersOk, RejectedOk, BatchOk, Later;
    if r in s.runs && s.runs[r].progress.Ready? && s.runs[r].progress.seen.phase == Receiving && !s.runs[r].deleted {
      var m := s.runs[r];
      var seen := m.progress.seen;
      assert RunOk(s.table, After(s), s.rejected, r, m);
      var (batch, conv) := PolledFrom(s, seen.through, BATCH);
      PollKeepsAfter(s, seen.through, BATCH);
      PolledIs(s, seen.through, BATCH);
      if seen == m.world.status {
        PolledOk(s, r);
      }
      ProgressIs(s.table, After(s), s.rejected, r, m, Polled(seen, batch));
      hide Inv, RunOk, ProgressOk;
      ReplacedWith(s, conv, r, m.(progress := Polled(seen, batch)));
    }
  }

  /** Committing a run's boundary: what it covers has been recorded in that run, or was turned down. */
  lemma BeginConsumed(table: seq<Mail>, after: nat, runs: map<nat, Managed>, rejected: set<nat>, r: nat)
    requires Consumed(table, after, runs, rejected) && Ahead(table, after, runs) && r in runs && RunOk(table, after, rejected, r, runs[r])
    requires runs[r].world.status.phase != New
    ensures Consumed(table, Max(after, runs[r].world.status.through), runs, rejected)
  {
    hide CursorProtocol.Named, ProgressOk;
    var status := runs[r].world.status;
    if !status.finished {
      forall m | m in table && ForUs(m) && IsInput(m) && after < m.id <= status.through ensures m.id in rejected || Taken(runs, m.id) {
        assert m.id >= r;
      }
    }
  }

  lemma LaterRejected(table: seq<Mail>, after: nat, later: nat, rejected: set<nat>)
    requires RejectedOk(table, after, rejected) && after <= later
    ensures RejectedOk(table, later, rejected)
  {
    hide IsGoal;
  }

  /** Moving the recovery point to a run's boundary. */
  lemma CommitKeeps(s: State, r: nat, conv: Conversation)
    requires Inv(s) && r in s.runs && s.runs[r].world.status.phase != New
    requires CursorsOk(conv) && Committed(conv, CONSUMER) == Max(After(s), s.runs[r].world.status.through)
    ensures Inv(s.(conv := conv))
  {
    hide CursorProtocol.Named, CursorsOk, Committed, Ordered, RunOk, Separate, Ahead, WorkersOk, RejectedOk, Consumed;
    var later := Committed(conv, CONSUMER);
    assert RunOk(s.table, After(s), s.rejected, r, s.runs[r]);
    BoundaryNamed(s.table, After(s), s.rejected, r, s.runs[r]);
    BeginConsumed(s.table, After(s), s.runs, s.rejected, r);
    LaterRuns(s.table, After(s), later, s.rejected, s.rejected, s.runs);
    LaterGaps(s.table, After(s), later, s.runs, s.workers);
    LaterRejected(s.table, After(s), later, s.rejected);
    hide RunsOk;
  }

  lemma BoundaryNamed(table: seq<Mail>, after: nat, rejected: set<nat>, r: nat, m: Managed)
    requires RunOk(table, after, rejected, r, m) && m.world.status.phase != New
    ensures CursorProtocol.Named(table, m.world.status.through)
  {
    hide RecordedAll, ProgressOk;
  }

  /** A Manager that has committed its boundary is ready. */
  lemma ReadyKeeps(s: State, r: nat)
    requires Inv(s) && r in s.runs && (s.runs[r].world.status.phase != New ==> s.runs[r].world.status.through <= After(s))
    ensures Inv(WithRun(s, r, s.runs[r].(progress := Ready(s.runs[r].world.status))))
  {
    hide CursorProtocol.Named, CursorsOk, Committed, Ordered, Separate, Ahead, WorkersOk, RejectedOk, Consumed, RecordedAll, BatchOk, Later;
    assert RunOk(s.table, After(s), s.rejected, r, s.runs[r]);
    ProgressIs(s.table, After(s), s.rejected, r, s.runs[r], Ready(s.runs[r].world.status));
    hide Inv, RunOk;
    ReplacedRun(s, r, s.runs[r].(progress := Ready(s.runs[r].world.status)));
  }

  lemma BeginKeeps(s: State, r: nat)
    requires Inv(s)
    ensures Inv(Next(s, Begin(r)))
  {
    if r in s.runs && !s.runs[r].deleted {
      var status := s.runs[r].world.status;
      if status.phase == New {
        hide Inv, Acknowledge, Acknowledged;
        ReadyKeeps(s, r);
      } else if Acknowledged(s.conv, CONSUMER, status.through).Ok? {
        InvConv(s);
        hide Inv, Acknowledge, Acknowledged, CursorsOk, Committed;
        var conv := Acknowledge(s.conv, status.through);
        AcknowledgeMoves(s.conv, status.through);
        CommitKeeps(s, r, conv);
        ReadyKeeps(s.(conv := conv), r);
      }
    }
  }

  lemma InvConv(s: State)
    requires Inv(s)
    ensures CursorsOk(s.conv)
  {
  }

  /** What one write can do to a run's record: start it, absorb input, finish it, or leave it alone. */
  predicate Recorded(w: World, env: Env, next: Status) {
    var s := w.status;
    || (s.phase == New && next == Started(w.spec, w.defaultRounds))
    || (s.phase == Receiving && !Overdue(s, env) && next == AfterInput(s, w.spec.user, env.polled))
    || (s.phase.Terminal() && next.phase == s.phase && next.inputs == s.inputs && next.through == s.through && (s.finished ==> next.finished))
    || (s.phase != New && !s.phase.Terminal() && SameRecord(s, next))
  }

  lemma PlainRecord(s: Status, env: Env, audit: Ref)
    ensures Overdue(s, env) ==> SameRecord(s, Expired(s))
    ensures SameRecord(s, OverBudget(s)) && SameRecord(s, AfterExecution(s, audit))
    ensures s.phase != New ==> SameRecord(s, s.(question := Some((s.round, s.reason))))
  {
  }

  lemma ReconciledRecord(w: World, env: Env)
    requires Reconciled(w, env).Some?
    ensures Recorded(w, env, Reconciled(w, env).value)
  {
    hide HasExecution, AuditFor, Issues, AfterPlan, AfterAudit, AfterHuman, AfterInput, AfterExecution, OverBudget, Started, Expired, SameRecord;
    var s := w.status;
    PlainRecord(s, env, Ref(s.round, if s.round in w.audits then w.audits[s.round].uid else 0));
    if s.phase == Planning && s.round in w.replies {
      PlanRecord(s, w.replies[s.round]);
    } else if s.phase == Auditing && s.round in w.audits {
      AuditRecord(s, w.audits[s.round], env.executionFailed);
    } else if s.phase == WaitingForHuman && s.question.Some? && s.question.value in w.answers {
      HumanRecord(s, w.answers[s.question.value]);
    }
  }

  lemma WriteFacts(w: World, env: Env, committed: bool)
    ensures
      var next := LongHorizon.Next(w, Reconcile(env, committed));
      next.spec == w.spec && (next.status == w.status || Recorded(w, env, next.status))
  {
    hide Reconciled, Prepared, Recorded;
    PreparedSame(w, env);
    var prepared := Prepared(w, env);
    if Reconciled(prepared, env).Some? {
      ReconciledRecord(prepared, env);
      SameRecorded(w, prepared, env, Reconciled(prepared, env).value);
    }
  }

  lemma SameRecorded(w: World, after: World, env: Env, next: Status)
    requires after.status == w.status && after.spec == w.spec && after.defaultRounds == w.defaultRounds
    ensures Recorded(after, env, next) == Recorded(w, env, next)
  {
  }

  predicate SameRecord(s: Status, next: Status) {
    next.phase != New && next.inputs == s.inputs && next.through == s.through && next.finished == s.finished
  }

  lemma PlanRecord(s: Status, reply: Reply)
    requires s.phase == Planning
    ensures forall issued :: SameRecord(s, AfterPlan(s, reply, issued))
  {
    hide CanFinish, WithinBounds;
  }

  lemma AuditRecord(s: Status, audit: Audit, executionFailed: bool)
    ensures SameRecord(s, AfterAudit(s, audit, executionFailed))
  {
  }

  lemma HumanRecord(s: Status, a: Answer)
    ensures SameRecord(s, AfterHuman(s, "human", a))
  {
    hide Guided;
  }

  lemma StartedOk(table: seq<Mail>, after: nat, rejected: set<nat>, r: nat, m: Managed, world: World)
    requires RunOk(table, after, rejected, r, m) && Ordered(table) && m.world.status.phase == New && !m.deleted
    requires world.status == Started(m.world.spec, m.world.defaultRounds) && world.spec == m.world.spec
    ensures RunOk(table, after, rejected, r, m.(world := world, progress := Resting))
    ensures Later(m, m.(world := world, progress := Resting))
  {
    hide BatchOk;
  }

  lemma SameRecordOk(table: seq<Mail>, after: nat, rejected: set<nat>, r: nat, m: Managed, world: World, env: Env)
    requires RunOk(table, after, rejected, r, m) && MayWrite(m, env) && world.spec == m.world.spec
    requires m.world.status.phase != New && world.status.phase != New
    requires world.status.inputs == m.world.status.inputs && world.status.through == m.world.status.through
    requires world.status.finished ==> world.status.phase.Terminal()
    requires m.world.status.finished ==> world.status.finished
    ensures RunOk(table, after, rejected, r, m.(world := world, progress := Resting))
    ensures Later(m, m.(world := world, progress := Resting))
  {
    hide BatchOk, CursorProtocol.Named;
  }

  /** Absorbing a batch that misses nothing but what was turned down keeps the record complete. */
  lemma AbsorbedOk(table: seq<Mail>, after: nat, rejected: set<nat>, r: nat, m: Managed, world: World, batch: seq<Mail>)
    requires RunOk(table, after, rejected, r, m) && m.progress == Polled(m.world.status, batch) && world.spec == m.world.spec
    requires m.world.status.phase == Receiving && !m.deleted
    requires world.status == AfterInput(m.world.status, m.world.spec.user, batch)
    ensures RunOk(table, after, rejected, r, m.(world := world, progress := Resting))
    ensures Later(m, m.(world := world, progress := Resting))
    ensures !world.status.finished
  {
    hide CursorProtocol.Named, Absorb;
    var s, next := m.world.status, world.status;
    if |s.inputs| < INPUT_LIMIT {
      forall b | b in batch ensures b.id > s.through {
        assert Wanted(b, CONSUMER, s.through);
      }
      AbsorbRecords(s, m.world.spec.user, batch);
      AbsorbKeepsFlags(s, m.world.spec.user, batch);
      AbsorbedRecord(table, rejected, r, s, Absorb(s, m.world.spec.user, batch), batch);
      BoundaryKnown(table, rejected, s, Absorb(s, m.world.spec.user, batch), batch);
    }
  }

  lemma {:induction false} AbsorbKeepsFlags(s: Status, user: string, batch: seq<Mail>)
    ensures Absorb(s, user, batch).finished == s.finished && Absorb(s, user, batch).phase == s.phase
    decreases |batch|
  {
    if batch != [] && !(IsInput(batch[0]) && !Absorbs(s, user, batch[0])) {
      AbsorbKeepsFlags(AbsorbOne(s, batch[0]), user, batch[1..]);
    }
  }

  lemma AbsorbedRecord(table: seq<Mail>, rejected: set<nat>, r: nat, s: Status, next: Status, batch: seq<Mail>)
    requires RecordedAll(table, rejected, r, s) && Records(s, next, batch) && BatchOk(table, rejected, s.through, batch)
    ensures RecordedAll(table, rejected, r, next)
  {
    forall m | m in table && ForUs(m) && IsInput(m) && r <= m.id <= next.through ensures m.id in next.inputs || m.id in rejected {
      if m.id > s.through {
        assert Wanted(m, CONSUMER, s.through);
        var last :| last in batch && last.id == next.through;
        var i :| 0 <= i < |batch| && batch[i] == last;
        assert m.id <= batch[|batch| - 1].id;
        assert m in batch || m.id in rejected;
      }
    }
  }

  lemma BoundaryKnown(table: seq<Mail>, rejected: set<nat>, s: Status, next: Status, batch: seq<Mail>)
    requires CursorProtocol.Named(table, s.through) && Records(s, next, batch) && BatchOk(table, rejected, s.through, batch)
    ensures CursorProtocol.Named(table, next.through)
  {
  }

  /** The run's new record is a record again, reaches no less far, and loses nothing. */
  lemma WrittenOk(table: seq<Mail>, after: nat, rejected: set<nat>, r: nat, m: Managed, env: Env, committed: bool)
    requires Ordered(table) && RunOk(table, after, rejected, r, m) && MayWrite(m, env) && !m.deleted
    ensures
      var next := m.(world := LongHorizon.Next(m.world, Reconcile(env, committed)), progress := Resting);
      RunOk(table, after, rejected, r, next) && Later(m, next)
  {
    hide LongHorizon.Next, RunOk, AfterInput, Started, Later;
    var world := LongHorizon.Next(m.world, Reconcile(env, committed));
    WriteFacts(m.world, env, committed);
    var s := m.world.status;
    RunFlags(table, after, rejected, r, m);
    if world.status == s {
      UnwrittenOk(table, after, rejected, r, m, world);
    } else if s.phase == New {
      StartedOk(table, after, rejected, r, m, world);
    } else if s.phase == Receiving && m.progress.Polled? && world.status == AfterInput(s, m.world.spec.user, env.polled) {
      AbsorbedOk(table, after, rejected, r, m, world, env.polled);
    } else {
      UnabsorbedSame(m, env, world);
      SameRecordOk(table, after, rejected, r, m, world, env);
    }
  }

  lemma RunFlags(table: seq<Mail>, after: nat, rejected: set<nat>, r: nat, m: Managed)
    requires RunOk(table, after, rejected, r, m)
    ensures m.world.status.finished ==> m.world.status.phase.Terminal()
  {
    hide CursorProtocol.Named, RecordedAll, ProgressOk;
  }

  lemma UnwrittenOk(table: seq<Mail>, after: nat, rejected: set<nat>, r: nat, m: Managed, world: World)
    requires RunOk(table, after, rejected, r, m) && world.status == m.world.status && world.spec == m.world.spec
    ensures RunOk(table, after, rejected, r, m.(world := world, progress := Resting))
    ensures Later(m, m.(world := world, progress := Resting))
  {
    hide CursorProtocol.Named, RecordedAll, BatchOk;
  }

  /** A run that takes no more input, or is overdue, keeps its record. */
  lemma UnabsorbedSame(m: Managed, env: Env, world: World)
    requires MayWrite(m, env) && Recorded(m.world, env, world.status) && m.world.status.phase != New
    requires m.world.status.finished ==> m.world.status.phase.Terminal()
    requires !(m.world.status.phase == Receiving && m.progress.Polled? && world.status == AfterInput(m.world.status, m.world.spec.user, env.polled))
    ensures world.status.phase != New && world.status.inputs == m.world.status.inputs && world.status.through == m.world.status.through
    ensures (m.world.status.finished ==> world.status.finished) && (world.status.finished ==> world.status.phase.Terminal())
  {
    hide Absorb;
  }

  lemma WriteKeeps(s: State, r: nat, env: Env, committed: bool)
    requires Inv(s)
    ensures Inv(Next(s, Write(r, env, committed)))
  {
    hide RunOk, CursorProtocol.Named, CursorsOk, Committed, Separate, Ahead, WorkersOk, RejectedOk, Consumed, LongHorizon.Next, Later;
    if r in s.runs && !s.runs[r].deleted && MayWrite(s.runs[r], env) {
      assert RunOk(s.table, After(s), s.rejected, r, s.runs[r]);
      WrittenOk(s.table, After(s), s.rejected, r, s.runs[r], env, committed);
      hide Inv, MayWrite;
      ReplacedRun(s, r, s.runs[r].(world := LongHorizon.Next(s.runs[r].world, Reconcile(env, committed)), progress := Resting));
    }
  }

  /** What happens to a run's children and questions says nothing about its input. */
  lemma ChildOk(table: seq<Mail>, after: nat, rejected: set<nat>, r: nat, m: Managed, event: Event)
    requires RunOk(table, after, rejected, r, m) && !event.Reconcile?
    ensures
      var next := m.(world := LongHorizon.Next(m.world, event));
      RunOk(table, after, rejected, r, next) && Later(m, next)
  {
    hide CursorProtocol.Named, BatchOk, RecordedAll, LongHorizon.Next;
    EventRemains(m.world, event);
    SameConfiguration(m.world, event);
    RemainsStatus(m.world, LongHorizon.Next(m.world, event));
    hide ChildrenRemain;
  }

  lemma RemainsStatus(w: World, after: World)
    requires ChildrenRemain(w, after)
    ensures after.status == w.status
  {
  }

  lemma ChildKeeps(s: State, r: nat, event: Event)
    requires Inv(s)
    ensures Inv(Next(s, Child(r, event)))
  {
    hide RunOk, CursorProtocol.Named, CursorsOk, Committed, Separate, Ahead, WorkersOk, RejectedOk, Consumed, LongHorizon.Next, Later;
    if r in s.runs && !event.Reconcile? {
      ChildOk(s.table, After(s), s.rejected, r, s.runs[r], event);
      hide Inv;
      ReplacedRun(s, r, s.runs[r].(world := LongHorizon.Next(s.runs[r].world, event)));
    }
  }

  lemma DeletedOk(table: seq<Mail>, after: nat, rejected: set<nat>, r: nat, m: Managed)
    requires RunOk(table, after, rejected, r, m) && m.world.status.finished
    ensures RunOk(table, after, rejected, r, m.(deleted := true)) && Later(m, m.(deleted := true))
  {
    hide CursorProtocol.Named, BatchOk, RecordedAll;
  }

  lemma DeleteKeeps(s: State, r: nat)
    requires Inv(s)
    ensures Inv(Next(s, Delete(r)))
  {
    hide RunOk, CursorProtocol.Named, CursorsOk, Committed, Separate, Ahead, WorkersOk, RejectedOk, Consumed, Later;
    if r in s.runs && s.runs[r].world.status.finished {
      DeletedOk(s.table, After(s), s.rejected, r, s.runs[r]);
      hide Inv;
      ReplacedRun(s, r, s.runs[r].(deleted := true));
    }
  }

  // ---------- whole runs ----------

  lemma NextKeeps(s: State, step: Step)
    requires Inv(s) && (step.CreateRun? ==> CreationSafe(s, step.worker))
    ensures Inv(Next(s, step))
  {
    hide Inv, Next, CreationSafe;
    match step
    case Publish(mail) => PublishKeeps(s, mail);
    case ListRuns(worker) => ListKeeps(s, worker);
    case PollFirst(worker) => PollFirstKeeps(s, worker);
    case SkipMail(worker) => SkipKeeps(s, worker);
    case CreateRun(worker, maxRounds, defaultRounds) => CreateKeeps(s, worker, maxRounds, defaultRounds);
    case Restart(worker) => ListKeeps(s, worker);
    case Begin(r) => BeginKeeps(s, r);
    case PollMore(r) => PollMoreKeeps(s, r);
    case Write(r, env, committed) => WriteKeeps(s, r, env, committed);
    case Child(r, event) => ChildKeeps(s, r, event);
    case Delete(r) => DeleteKeeps(s, r);
  }

  lemma ListKeeps(s: State, worker: nat)
    requires Inv(s)
    ensures Inv(Next(s, ListRuns(worker))) && Inv(Next(s, Restart(worker)))
  {
    hide Inv, AnyUnfinished;
    IdleKeeps(s, worker, Idle);
    IdleKeeps(s, worker, Listed);
  }

  /** A run of the whole system: its states in order, each the next of the one before. */
  ghost predicate IsRun(run: seq<State>, steps: seq<Step>) {
    && |run| == |steps| + 1 && run[0] == Initial()
    && forall i {:trigger steps[i]} :: 0 <= i < |steps| ==> run[i + 1] == Next(run[i], steps[i])
  }

  /** Every creation among the first n steps meets the condition. */
  ghost predicate SafeUpTo(run: seq<State>, steps: seq<Step>, n: nat)
    requires |run| == |steps| + 1 && n <= |steps|
  {
    forall i :: 0 <= i < n && steps[i].CreateRun? ==> CreationSafe(run[i], steps[i].worker)
  }

  lemma InitialInv()
    ensures Inv(Initial())
  {
  }

  lemma {:induction false} Reachable(run: seq<State>, steps: seq<Step>, k: nat)
    requires IsRun(run, steps) && k < |run| && SafeUpTo(run, steps, k)
    ensures Inv(run[k])
  {
    hide Inv, Next, Initial, CreationSafe;
    if k == 0 {
      InitialInv();
    } else {
      Reachable(run, steps, k - 1);
      NextKeeps(run[k - 1], steps[k - 1]);
    }
  }

  /**
   * For any number of Ingress workers: every state of a run has at most one unfinished run
   * and no message with two runs exactly when every creation in it meets the condition.
   */
  lemma {:induction false} GuaranteedExactlyWhen(run: seq<State>, steps: seq<Step>)
    requires IsRun(run, steps)
    ensures (forall k :: 0 <= k < |run| ==> Guaranteed(run[k])) <==> SafeUpTo(run, steps, |steps|)
  {
    hide Guaranteed, CreationSafe, Next, Initial, Inv;
    if SafeUpTo(run, steps, |steps|) {
      forall k | 0 <= k < |run| ensures Guaranteed(run[k]) {
        Reachable(run, steps, k);
        InvGuarantees(run[k]);
      }
    }
    if forall k :: 0 <= k < |run| ==> Guaranteed(run[k]) {
      GuaranteedIsSafe(run, steps, |steps|);
    }
  }

  lemma {:induction false} GuaranteedIsSafe(run: seq<State>, steps: seq<Step>, n: nat)
    requires IsRun(run, steps) && n <= |steps| && forall k :: 0 <= k < |run| ==> Guaranteed(run[k])
    ensures SafeUpTo(run, steps, n)
  {
    hide Guaranteed, CreationSafe, Next, Initial, Inv;
    if n > 0 {
      GuaranteedIsSafe(run, steps, n - 1);
      Reachable(run, steps, n - 1);
      var step := steps[n - 1];
      assert Guaranteed(run[n]);
      match step
      case CreateRun(worker, maxRounds, defaultRounds) => CreationIsSafeWhen(run[n - 1], worker, maxRounds, defaultRounds);
      case _ =>
    }
  }

  /**
   * When every creation meets the condition: besides, a finished run's boundary has been
   * committed, every user message between a run's input and its boundary is recorded in it
   * or was turned down, and every user message behind the cursor is recorded in a run or
   * was turned down; no goal ever is.
   */
  lemma {:induction false} SafeRunsPartitionInput(run: seq<State>, steps: seq<Step>, k: nat)
    requires IsRun(run, steps) && k < |run| && SafeUpTo(run, steps, k)
    ensures
      var s := run[k];
      && Guaranteed(s) && s.replaced == []
      && (forall r :: r in s.runs && s.runs[r].world.status.finished ==> s.runs[r].world.status.through <= After(s))
      && (forall r :: r in s.runs && s.runs[r].world.status.phase != New ==> RecordedAll(s.table, s.rejected, r, s.runs[r].world.status))
      && Consumed(s.table, After(s), s.runs, s.rejected) && RejectedOk(s.table, After(s), s.rejected)
  {
    Reachable(run, steps, k);
    InvGuarantees(run[k]);
    hide IsRun, SafeUpTo, CursorProtocol.Named, CursorsOk, Committed, ProgressOk, Ahead, WorkersOk, Consumed, RecordedAll, Separate, RejectedOk, Guaranteed;
  }

  // ---------- one worker ----------

  /** Ingress reconciles of one conversation do not overlap: one worker, one leader. */
  predicate Serialised(step: Step) {
    match step
    case ListRuns(worker) => worker == 0
    case PollFirst(worker) => worker == 0
    case SkipMail(worker) => worker == 0
    case CreateRun(worker, _, _) => worker == 0
    case Restart(worker) => worker == 0
    case _ => true
  }

  /** What was turned down lies before an unfinished run and outside the finished ones. */
  ghost predicate Apart(rejected: set<nat>, runs: map<nat, Managed>) {
    forall x, r :: x in rejected && r in runs ==> x < r || (runs[r].world.status.finished && Reach(runs[r]) < x)
  }

  /** What the only worker knows stays true until it acts. */
  ghost predicate AloneOk(s: State) {
    && s.workers.Keys <= {0}
    && (!Worker(s, 0).Idle? ==> AllFinished(s.runs))
    && (Worker(s, 0).Goal? || Worker(s, 0).Skip? ==> Worker(s, 0).mail.id > After(s))
    && Apart(s.rejected, s.runs)
  }

  lemma AloneIsSafe(s: State)
    requires AloneOk(s)
    ensures CreationSafe(s, 0)
  {
    hide Committed, Apart;
  }

  /** What a step that is not of the worker can do to what it knows. */
  lemma AloneLater(s: State, next: State)
    requires AloneOk(s) && next.workers == s.workers && next.rejected == s.rejected && next.runs.Keys == s.runs.Keys
    requires forall r :: r in s.runs ==> Later(s.runs[r], next.runs[r])
    requires AllFinished(s.runs) ==> After(next) == After(s)
    ensures AloneOk(next)
  {
    hide Committed, Reach;
  }

  lemma SameLater(m: Managed)
    ensures Later(m, m)
  {
  }

  /** Replacing one run, with a cursor that moves only while some run is unfinished. */
  lemma AloneReplaced(s: State, conv: Conversation, r: nat, m: Managed)
    requires AloneOk(s) && r in s.runs && Later(s.runs[r], m)
    requires AllFinished(s.runs) ==> Committed(conv, CONSUMER) == After(s)
    ensures AloneOk(WithRun(s.(conv := conv), r, m))
  {
    hide AloneOk, Later, Committed, AllFinished;
    var next := WithRun(s.(conv := conv), r, m);
    forall a | a in s.runs ensures Later(s.runs[a], next.runs[a]) {
      if a != r {
        SameLater(s.runs[a]);
      }
    }
    AloneLater(s, next);
  }

  lemma AloneWorker(s: State, step: Step)
    requires Inv(s) && AloneOk(s) && Serialised(step)
    requires step.ListRuns? || step.Restart? || step.PollFirst? || step.SkipMail? || step.CreateRun?
    ensures AloneOk(Next(s, step))
  {
    match step
    case ListRuns(_) =>
      hide CursorProtocol.Named, CursorsOk, Committed, RunOk;
      if !AnyUnfinished(s) { NoneUnfinished(s); }
    case Restart(_) => hide Inv, Committed;
    case PollFirst(_) => AlonePolls(s);
    case SkipMail(_) => AloneSkips(s);
    case CreateRun(_, maxRounds, defaultRounds) => AloneCreates(s, maxRounds, defaultRounds);
  }

  lemma AlonePolls(s: State)
    requires Inv(s) && AloneOk(s)
    ensures AloneOk(Next(s, PollFirst(0)))
  {
    hide RunsOk, Separate, Ahead, WorkersOk, RejectedOk, Consumed, CursorProtocol.Named, CursorsOk, Committed, Ordered, PolledFrom, Found, IsGoal;
    if Worker(s, 0).Listed? {
      PollKeepsAfter(s, 0, 1);
      PolledIs(s, 0, 1);
      FirstOfInbox(s.table, After(s));
    }
  }

  lemma AloneSkips(s: State)
    requires Inv(s) && AloneOk(s)
    ensures AloneOk(Next(s, SkipMail(0)))
  {
    hide Separate, Ahead, WorkersOk, RejectedOk, Consumed, CursorProtocol.Named, CursorsOk, Committed, Ordered, RunOk, Acknowledge, Acknowledged;
    if Worker(s, 0).Skip? {
      forall r | r in s.runs ensures Reach(s.runs[r]) < Worker(s, 0).mail.id {
        FinishedBelow(s.table, After(s), s.rejected, r, s.runs[r]);
      }
    }
  }

  lemma AloneCreates(s: State, maxRounds: int, defaultRounds: int)
    requires Inv(s) && AloneOk(s)
    ensures AloneOk(Next(s, CreateRun(0, maxRounds, defaultRounds)))
  {
    hide RunsOk, Separate, Ahead, WorkersOk, Consumed, CursorProtocol.Named, CursorsOk, Committed, Ordered, IsGoal;
    if Worker(s, 0).Goal? && !AlreadyCreated(s, 0) {
      assert forall x :: x in s.rejected ==> x < Worker(s, 0).mail.id;
    }
  }

  lemma AloneManager(s: State, step: Step)
    requires Inv(s) && AloneOk(s)
    requires step.Begin? || step.PollMore? || step.Write? || step.Child? || step.Delete?
    ensures AloneOk(Next(s, step))
  {
    hide Inv, AloneOk, Next;
    match step
    case Begin(r) => AloneBegins(s, r);
    case PollMore(r) => AlonePollsMore(s, r);
    case Write(r, env, committed) => AloneWrites(s, r, env, committed);
    case Child(r, event) => AloneChild(s, r, event);
    case Delete(r) => AloneDeletes(s, r);
  }

  lemma InvRun(s: State, r: nat)
    requires Inv(s) && r in s.runs
    ensures RunOk(s.table, After(s), s.rejected, r, s.runs[r]) && Ordered(s.table) && CursorsOk(s.conv)
  {
    hide RunOk;
  }

  lemma AlonePollsMore(s: State, r: nat)
    requires Inv(s) && AloneOk(s)
    ensures AloneOk(Next(s, PollMore(r)))
  {
    if r in s.runs && s.runs[r].progress.Ready? && s.runs[r].progress.seen.phase == Receiving && !s.runs[r].deleted {
      InvRun(s, r);
      hide Inv, AloneOk, RunOk, CursorsOk, Committed, Ordered, PolledFrom, Later;
      var seen := s.runs[r].progress.seen;
      var polled := s.runs[r].(progress := Polled(seen, PolledFrom(s, seen.through, BATCH).0));
      PollKeepsAfter(s, seen.through, BATCH);
      SameStatusLater(s.runs[r], polled);
      AloneReplaced(s, PolledFrom(s, seen.through, BATCH).1, r, polled);
    }
  }

  lemma AloneWrites(s: State, r: nat, env: Env, committed: bool)
    requires Inv(s) && AloneOk(s)
    ensures AloneOk(Next(s, Write(r, env, committed)))
  {
    if r in s.runs && !s.runs[r].deleted && MayWrite(s.runs[r], env) {
      InvRun(s, r);
      hide Inv, AloneOk, RunOk, CursorsOk, Committed, Ordered, Later, LongHorizon.Next, MayWrite;
      WrittenOk(s.table, After(s), s.rejected, r, s.runs[r], env, committed);
      AloneReplaced(s, s.conv, r, s.runs[r].(world := LongHorizon.Next(s.runs[r].world, Reconcile(env, committed)), progress := Resting));
    }
  }

  lemma AloneChild(s: State, r: nat, event: Event)
    requires Inv(s) && AloneOk(s)
    ensures AloneOk(Next(s, Child(r, event)))
  {
    if r in s.runs && !event.Reconcile? {
      InvRun(s, r);
      hide Inv, AloneOk, RunOk, CursorsOk, Committed, Ordered, Later, LongHorizon.Next;
      ChildOk(s.table, After(s), s.rejected, r, s.runs[r], event);
      AloneReplaced(s, s.conv, r, s.runs[r].(world := LongHorizon.Next(s.runs[r].world, event)));
    }
  }

  lemma AloneDeletes(s: State, r: nat)
    requires Inv(s) && AloneOk(s)
    ensures AloneOk(Next(s, Delete(r)))
  {
    hide Inv, AloneOk, Committed, Later;
    if r in s.runs && s.runs[r].world.status.finished {
      SameStatusLater(s.runs[r], s.runs[r].(deleted := true));
      AloneReplaced(s, s.conv, r, s.runs[r].(deleted := true));
    }
  }

  lemma AloneBegins(s: State, r: nat)
    requires Inv(s) && AloneOk(s)
    ensures AloneOk(Next(s, Begin(r)))
  {
    hide RunOk, Separate, Ahead, WorkersOk, RejectedOk, Consumed, CursorProtocol.Named, CursorsOk, Committed, Acknowledge, Acknowledged, AloneOk, Later;
    if r in s.runs && !s.runs[r].deleted {
      var m := s.runs[r];
      var ready := m.(progress := Ready(m.world.status));
      SameStatusLater(m, ready);
      if m.world.status.phase == New {
        AloneReplaced(s, s.conv, r, ready);
      } else if Acknowledged(s.conv, CONSUMER, m.world.status.through).Ok? {
        AcknowledgeMoves(s.conv, m.world.status.through);
        if m.world.status.finished {
          FinishedBelow(s.table, After(s), s.rejected, r, m);
        }
        AloneReplaced(s, Acknowledge(s.conv, m.world.status.through), r, ready);
      }
    }
  }

  lemma AloneNext(s: State, step: Step)
    requires Inv(s) && AloneOk(s) && Serialised(step)
    ensures AloneOk(Next(s, step))
  {
    if step.Publish? {
      hide Inv, Committed;
    } else if step.Begin? || step.PollMore? || step.Write? || step.Child? || step.Delete? {
      hide Inv, AloneOk, Next;
      AloneManager(s, step);
    } else {
      hide Inv, AloneOk, Next;
      AloneWorker(s, step);
    }
  }

  /** One worker meets the condition without checking anything again. */
  lemma {:induction false} SerialisedIsSafe(run: seq<State>, steps: seq<Step>, k: nat)
    requires IsRun(run, steps) && k < |run| && forall i :: 0 <= i < |steps| ==> Serialised(steps[i])
    ensures SafeUpTo(run, steps, k) && AloneOk(run[k])
  {
    hide Inv, Next, CreationSafe, AloneOk, Initial;
    if k == 0 {
      InitialAlone();
    } else {
      SerialisedIsSafe(run, steps, k - 1);
      Reachable(run, steps, k - 1);
      AloneIsSafe(run[k - 1]);
      AloneNext(run[k - 1], steps[k - 1]);
    }
  }

  lemma InitialAlone()
    ensures AloneOk(Initial())
  {
  }

  /** Every user message between a run's input and its boundary is in its record. */
  ghost predicate RecordComplete(table: seq<Mail>, r: nat, s: Status) {
    forall m :: m in table && ForUs(m) && IsInput(m) && r <= m.id <= s.through ==> m.id in s.inputs
  }

  /**
   * With serialised Ingress reconciles: at most one run of a conversation is unfinished, no
   * message has two runs, a finished run's boundary has been committed, every user message
   * between a run's input and its boundary is recorded in it, and every user message behind
   * the cursor is recorded in a run or was turned down as a goal.
   */
  lemma {:induction false} RunsPartitionInput(run: seq<State>, steps: seq<Step>, k: nat)
    requires IsRun(run, steps) && k < |run| && forall i :: 0 <= i < |steps| ==> Serialised(steps[i])
    ensures
      var s := run[k];
      && Guaranteed(s)
      && (forall r :: r in s.runs && s.runs[r].world.status.finished ==> s.runs[r].world.status.through <= After(s))
      && (forall r :: r in s.runs && s.runs[r].world.status.phase != New ==> RecordComplete(s.table, r, s.runs[r].world.status))
      && Consumed(s.table, After(s), s.runs, s.rejected)
  {
    SerialisedIsSafe(run, steps, k);
    SafeRunsPartitionInput(run, steps, k);
    hide IsRun, SafeUpTo, Committed, Consumed, RejectedOk, Guaranteed, RecordedAll, RecordComplete;
    var s := run[k];
    forall r | r in s.runs && s.runs[r].world.status.phase != New ensures RecordComplete(s.table, r, s.runs[r].world.status) {
      ApartComplete(s.table, s.rejected, s.runs, r);
    }
  }

  lemma ApartComplete(table: seq<Mail>, rejected: set<nat>, runs: map<nat, Managed>, r: nat)
    requires Apart(rejected, runs) && r in runs && runs[r].world.status.phase != New && RecordedAll(table, rejected, r, runs[r].world.status)
    ensures RecordComplete(table, r, runs[r].world.status)
  {
  }

  // ---------- what overlapping reconciles can do ----------

  /** A run with one more step. */
  lemma Extended(run: seq<State>, steps: seq<Step>, step: Step) returns (longer: seq<State>, more: seq<Step>)
    requires IsRun(run, steps)
    ensures IsRun(longer, more) && more == steps + [step] && |longer| == |run| + 1 && run == longer[..|run|]
    ensures longer[|run|] == Next(run[|run| - 1], step)
  {
    hide Next, Initial;
    longer, more := run + [Next(run[|run| - 1], step)], steps + [step];
    forall i | 0 <= i < |more| ensures longer[i + 1] == Next(longer[i], more[i]) {
      if i < |steps| {
        assert more[i] == steps[i] && longer[i] == run[i] && longer[i + 1] == run[i + 1];
      }
    }
  }

  /** Several more steps. */
  lemma {:induction false} ExtendedBy(run: seq<State>, steps: seq<Step>, rest: seq<Step>) returns (longer: seq<State>)
    requires IsRun(run, steps)
    ensures IsRun(longer, steps + rest) && |longer| == |run| + |rest| && run == longer[..|run|]
    ensures forall i {:trigger rest[i]} :: 0 <= i < |rest| ==> longer[|run| + i] == Next(longer[|run| + i - 1], rest[i])
    decreases |rest|
  {
    hide Next, Initial;
    if rest == [] {
      longer := run;
      assert steps + rest == steps;
    } else {
      var one, more := Extended(run, steps, rest[0]);
      longer := ExtendedBy(one, more, rest[1..]);
      assert more + rest[1..] == steps + rest;
      forall i | 0 <= i < |rest| ensures longer[|run| + i] == Next(longer[|run| + i - 1], rest[i]) {
        if i == 0 {
          assert longer[|run|] == longer[..|one|][|run|] && longer[|run| - 1] == longer[..|one|][|run| - 1];
          assert one[..|run|][|run| - 1] == one[|run| - 1];
        } else {
          assert rest[1..][i - 1] == rest[i];
        }
      }
      forall i | 0 <= i < |run| ensures longer[i] == run[i] {
        assert longer[i] == longer[..|one|][i] && one[i] == one[..|run|][i];
      }
    }
  }

  const USER := Actor("user", "u")
  const FIRST := Mail(1, USER, Some(CONSUMER), "one", false)
  const SECOND := Mail(2, USER, Some(CONSUMER), "two", false)
  const QUIET := Env(false, [], false, "")
  const LATE := Env(true, [], false, "")
  const TOLD := Env(false, [], false, "f")

  /** Two Ingress reconciles list before either creates; one creates a run, which starts and commits its input. */
  const SHARED_LISTING: seq<Step> :=
    [Publish(FIRST), ListRuns(0), ListRuns(1), PollFirst(0), CreateRun(0, 25, 25), Begin(1), Write(1, QUIET, true), Begin(1), Publish(SECOND), PollFirst(1)]

  function FirstSpec(): Spec {
    Spec("one", "u", 1, 25)
  }

  /** After the shared listing the other worker holds the second message, and the first run is receiving. */
  ghost predicate Overlapped(s: State) {
    && s.table == [FIRST, SECOND] && s.conv.consumers == [Consumer(CONSUMER, 2, 1)] && s.workers == map[0 := Idle, 1 := Goal(SECOND)]
    && s.runs.Keys == {1} && s.replaced == [] && s.runs[1].world.status == Started(FirstSpec(), 25) && s.runs[1].world.spec == FirstSpec()
    && s.runs[1].progress == Ready(Started(FirstSpec(), 25)) && !s.runs[1].deleted
  }

  lemma ListingCreates(s0: State) returns (s: State)
    requires s0 == Initial()
    ensures Next(Next(Next(Next(s0, Publish(FIRST)), ListRuns(0)), ListRuns(1)), PollFirst(0)).runs == map[]
    ensures s == Next(Next(Next(Next(Next(s0, Publish(FIRST)), ListRuns(0)), ListRuns(1)), PollFirst(0)), CreateRun(0, 25, 25))
    ensures s.table == [FIRST] && s.conv.consumers == [Consumer(CONSUMER, 1, 0)] && s.workers == map[0 := Idle, 1 := Listed]
    ensures s.runs == map[1 := Managed(Created(FirstSpec(), 25), Resting, false)] && s.replaced == []
  {
    var s1 := Next(s0, Publish(FIRST));
    assert s1.table == [FIRST];
    var s3 := Next(Next(s1, ListRuns(0)), ListRuns(1));
    assert s3.workers == map[0 := Listed, 1 := Listed];
    assert ListInbox([FIRST], CONSUMER, 0, 1) == [FIRST];
    var s4 := Next(s3, PollFirst(0));
    assert s4.workers[0] == Goal(FIRST);
    s := Next(s4, CreateRun(0, 25, 25));
    assert s.workers == map[0 := Idle, 1 := Listed];
  }

  /** The first run starts and commits its input. */
  lemma FirstCommits(s: State) returns (after: State)
    requires s.conv.consumers == [Consumer(CONSUMER, 1, 0)]
    requires s.runs == map[1 := Managed(Created(FirstSpec(), 25), Resting, false)]
    ensures after == Next(Next(Next(s, Begin(1)), Write(1, QUIET, true)), Begin(1))
    ensures after.table == s.table && after.workers == s.workers && after.replaced == s.replaced && after.conv.consumers == [Consumer(CONSUMER, 1, 1)]
    ensures after.runs.Keys == {1} && after.runs[1].world.status == Started(FirstSpec(), 25) && after.runs[1].world.spec == FirstSpec()
    ensures after.runs[1].progress == Ready(Started(FirstSpec(), 25)) && !after.runs[1].deleted
  {
    var s1 := Next(s, Begin(1));
    assert s1.runs[1].progress == Ready(NewStatus());
    var s2 := Next(s1, Write(1, QUIET, true));
    assert Reconciled(Created(FirstSpec(), 25), QUIET) == Some(Started(FirstSpec(), 25));
    assert s2.runs[1].world.status == Started(FirstSpec(), 25);
    assert s2.runs.Keys == {1};
    after := Next(s2, Begin(1));
    AcknowledgeOne(s.conv, 1, 0, 1);
    assert after.runs.Keys == {1};
  }

  lemma AcknowledgeOne(conv: Conversation, position: nat, committed: nat, through: nat)
    requires conv.consumers == [Consumer(CONSUMER, position, committed)] && committed <= through <= position && through > 0
    ensures Acknowledged(conv, CONSUMER, through).Ok? && Acknowledge(conv, through).consumers == [Consumer(CONSUMER, position, through)]
  {
    assert ConsumerIndex(conv.consumers, CONSUMER) == 0;
  }

  lemma SecondFound(s: State) returns (after: State)
    requires s.table == [FIRST] && s.workers == map[0 := Idle, 1 := Listed] && s.conv.consumers == [Consumer(CONSUMER, 1, 1)]
    ensures after == Next(Next(s, Publish(SECOND)), PollFirst(1))
    ensures after.table == [FIRST, SECOND] && after.workers == map[0 := Idle, 1 := Goal(SECOND)] && after.runs == s.runs && after.replaced == s.replaced
    ensures after.conv.consumers == [Consumer(CONSUMER, 2, 1)]
  {
    var s9 := Next(s, Publish(SECOND));
    assert s9.table == [FIRST, SECOND];
    assert ConsumerIndex(s.conv.consumers, CONSUMER) == 0;
    assert ListInbox([FIRST, SECOND][1..], CONSUMER, 1, 1) == [SECOND];
    assert ListInbox([FIRST, SECOND], CONSUMER, 1, 1) == [SECOND];
    after := Next(s9, PollFirst(1));
    assert after.workers == map[0 := Idle, 1 := Goal(SECOND)];
  }

  lemma SharedListing() returns (run: seq<State>)
    ensures IsRun(run, SHARED_LISTING) && |run| == 11 && Overlapped(run[10]) && !AnyUnfinished(run[4])
  {
    run := ExtendedBy([Initial()], [], SHARED_LISTING);
    assert [] + SHARED_LISTING == SHARED_LISTING;
    SharedStates(run);
    var s5 := ListingCreates(Initial());
    var s8 := FirstCommits(s5);
    var s := SecondFound(s8);
  }

  lemma SharedStates(run: seq<State>)
    requires |run| == 11 && run[0] == Initial()
    requires forall i {:trigger SHARED_LISTING[i]} :: 0 <= i < |SHARED_LISTING| ==> run[1 + i] == Next(run[i], SHARED_LISTING[i])
    ensures run[4] == Next(Next(Next(Next(run[0], Publish(FIRST)), ListRuns(0)), ListRuns(1)), PollFirst(0))
    ensures run[5] == Next(run[4], CreateRun(0, 25, 25))
    ensures run[8] == Next(Next(Next(run[5], Begin(1)), Write(1, QUIET, true)), Begin(1))
    ensures run[10] == Next(Next(run[8], Publish(SECOND)), PollFirst(1))
  {
    hide Next;
    assert SHARED_LISTING[0] == Publish(FIRST) && SHARED_LISTING[1] == ListRuns(0) && SHARED_LISTING[2] == ListRuns(1);
    assert SHARED_LISTING[3] == PollFirst(0) && SHARED_LISTING[4] == CreateRun(0, 25, 25);
    assert SHARED_LISTING[5] == Begin(1) && SHARED_LISTING[6] == Write(1, QUIET, true) && SHARED_LISTING[7] == Begin(1);
    assert SHARED_LISTING[8] == Publish(SECOND) && SHARED_LISTING[9] == PollFirst(1);
  }

  /**
   * Without serialisation the guarantee fails: an Ingress that listed before the first run
   * was created polls after that run has committed its input, and creates a second
   * unfinished run beside it.
   */
  lemma OverlappingIngressBreaks() returns (run: seq<State>)
    ensures
      && IsRun(run, SHARED_LISTING + [CreateRun(1, 25, 25)])
      && var s := run[|run| - 1];
         1 in s.runs && 2 in s.runs && Unfinished(s.runs[1]) && Unfinished(s.runs[2])
  {
    var before := SharedListing();
    var steps;
    run, steps := Extended(before, SHARED_LISTING, CreateRun(1, 25, 25));
  }

  /** The first run absorbs the second message, fails at its deadline and finishes. */
  const ABSORBED: seq<Step> :=
    [PollMore(1), Write(1, Env(false, [SECOND], false, ""), true), Begin(1), Write(1, LATE, true), Begin(1),
     Write(1, TOLD, true), Begin(1), Write(1, QUIET, true)]

  /** Then the other worker creates its run, which starts. */
  const STALE_GOAL: seq<Step> := [CreateRun(1, 25, 25), Begin(2), Write(2, QUIET, true)]

  /** The statuses of the first run on the way. */
  function SecondAbsorbed(): Status {
    Started(FirstSpec(), 25).(guidance := "\n[2] two", inputs := [1, 2], version := 2, through := 2, phase := Planning)
  }

  function EndedFirst(): Status {
    Expired(SecondAbsorbed()).(finalMessage := "f", finished := true)
  }

  lemma AbsorbsSecond()
    ensures AfterInput(Started(FirstSpec(), 25), "u", [SECOND]) == SecondAbsorbed()
  {
    var s := Started(FirstSpec(), 25);
    assert Digits(2) == "2";
    assert s.guidance == "" && s.inputs == [1];
    assert Absorbs(s, "u", SECOND);
    assert "" + "\n[" + "2" + "] " + "two" == "\n[2] two";
    assert [1] + [2] == [1, 2];
    assert Absorb(s, "u", [SECOND]) == Absorb(AbsorbOne(s, SECOND), "u", []) by {
      assert [SECOND][1..] == [];
    }
  }

  /** One write of a run that is ready, on a status and an outcome that are known. */
  lemma WriteIs(s: State, r: nat, env: Env, was: Status, next: Status)
    requires r in s.runs && !s.runs[r].deleted && s.runs[r].world.status == was && MayWrite(s.runs[r], env)
    requires Reconciled(Prepared(s.runs[r].world, env), env) == Some(next)
    ensures
      var after := Next(s, Write(r, env, true));
      && after.runs.Keys == s.runs.Keys && after.runs[r].world.status == next && after.runs[r].world.spec == s.runs[r].world.spec
      && after.runs[r].world.defaultRounds == s.runs[r].world.defaultRounds && after.runs[r].progress == Resting && !after.runs[r].deleted
      && after == s.(runs := s.runs[r := after.runs[r]])
  {
    hide Prepared, Reconciled, MayWrite;
    PreparedSame(s.runs[r].world, env);
  }

  /** Beginning a run whose boundary is the received position. */
  lemma BeginIs(s: State, r: nat, position: nat, committed: nat)
    requires r in s.runs && !s.runs[r].deleted && s.conv.consumers == [Consumer(CONSUMER, position, committed)]
    requires s.runs[r].world.status.phase != New && s.runs[r].world.status.through > 0
    requires committed <= s.runs[r].world.status.through <= position
    ensures
      var after := Next(s, Begin(r));
      && after.runs == s.runs[r := s.runs[r].(progress := Ready(s.runs[r].world.status))]
      && after.conv.consumers == [Consumer(CONSUMER, position, s.runs[r].world.status.through)]
      && after.table == s.table && after.workers == s.workers && after.replaced == s.replaced && after.rejected == s.rejected
  {
    AcknowledgeOne(s.conv, position, committed, s.runs[r].world.status.through);
    hide Acknowledged, Acknowledge;
  }

  /** The other worker's goal, kept while the first run goes on. */
  ghost predicate Holding(s: State, status: Status, committed: nat) {
    && s.table == [FIRST, SECOND] && s.conv.consumers == [Consumer(CONSUMER, 2, committed)] && s.workers == map[0 := Idle, 1 := Goal(SECOND)]
    && s.runs.Keys == {1} && s.replaced == [] && s.runs[1].world.status == status && s.runs[1].world.spec == FirstSpec() && !s.runs[1].deleted
  }

  lemma FirstAbsorbs(s: State) returns (after: State)
    requires Overlapped(s)
    ensures after == Next(Next(Next(s, PollMore(1)), Write(1, Env(false, [SECOND], false, ""), true)), Begin(1))
    ensures Holding(after, SecondAbsorbed(), 2) && after.runs[1].progress == Ready(SecondAbsorbed())
  {
    var env := Env(false, [SECOND], false, "");
    var status := Started(FirstSpec(), 25);
    assert ConsumerIndex(s.conv.consumers, CONSUMER) == 0;
    assert ListInbox([FIRST, SECOND][1..], CONSUMER, 1, BATCH) == [SECOND] by {
      assert ListInbox([FIRST, SECOND][1..][1..], CONSUMER, 1, BATCH - 1) == [];
    }
    assert ListInbox([FIRST, SECOND], CONSUMER, 1, BATCH) == [SECOND];
    var s1 := Next(s, PollMore(1));
    assert s1.runs[1].progress == Polled(status, [SECOND]);
    assert s1.conv.consumers == [Consumer(CONSUMER, 2, 1)];
    AbsorbsSecond();
    WriteIs(s1, 1, env, status, SecondAbsorbed());
    var s2 := Next(s1, Write(1, env, true));
    BeginIs(s2, 1, 2, 1);
    after := Next(s2, Begin(1));
  }

  lemma FirstFinishes(s: State) returns (after: State)
    requires Holding(s, SecondAbsorbed(), 2) && s.runs[1].progress == Ready(SecondAbsorbed())
    ensures after == Next(Next(Next(Next(Next(s, Write(1, LATE, true)), Begin(1)), Write(1, TOLD, true)), Begin(1)), Write(1, QUIET, true))
    ensures Holding(after, EndedFirst(), 2)
  {
    var failed := Expired(SecondAbsorbed());
    WriteIs(s, 1, LATE, SecondAbsorbed(), failed);
    var s1 := Next(s, Write(1, LATE, true));
    BeginIs(s1, 1, 2, 2);
    var s2 := Next(s1, Begin(1));
    var told := failed.(finalMessage := "f");
    WriteIs(s2, 1, TOLD, failed, told);
    var s3 := Next(s2, Write(1, TOLD, true));
    BeginIs(s3, 1, 2, 2);
    var s4 := Next(s3, Begin(1));
    WriteIs(s4, 1, QUIET, told, EndedFirst());
    after := Next(s4, Write(1, QUIET, true));
  }

  /** The stale goal becomes a run when no other is unfinished, and its message then has two runs. */
  lemma StaleCreates(s: State) returns (after: State)
    requires Holding(s, EndedFirst(), 2)
    ensures after == Next(Next(Next(s, CreateRun(1, 25, 25)), Begin(2)), Write(2, QUIET, true))
    ensures !AnyUnfinished(s) && !CreationSafe(s, 1)
    ensures 1 in after.runs && 2 in after.runs && 2 in after.runs[1].world.status.inputs && 2 in after.runs[2].world.status.inputs
  {
    assert ConsumerIndex(s.conv.consumers, CONSUMER) == 0;
    assert s.runs[1].world.status.inputs == [1, 2] && [1, 2][1] == 2;
    var spec := Spec("two", "u", 2, 25);
    var s1 := Next(s, CreateRun(1, 25, 25));
    assert s1.runs[2] == Managed(Created(spec, 25), Resting, false) && s1.runs[1] == s.runs[1];
    var s2 := Next(s1, Begin(2));
    assert s2.runs[2].progress == Ready(NewStatus()) && s2.runs[1] == s.runs[1];
    assert Reconciled(Created(spec, 25), QUIET) == Some(Started(spec, 25));
    WriteIs(s2, 2, QUIET, NewStatus(), Started(spec, 25));
    after := Next(s2, Write(2, QUIET, true));
    assert [2][0] == 2 && after.runs[2].world.status.inputs == [2];
  }

  /**
   * That no run is unfinished at the moment of creation is not enough: the message that the
   * other worker polled has been absorbed by the first run meanwhile, and both runs take it.
   */
  lemma StaleGoalShares() returns (run: seq<State>)
    ensures
      var steps := SHARED_LISTING + ABSORBED + STALE_GOAL;
      && IsRun(run, steps)
      && steps[4] == CreateRun(0, 25, 25) && !AnyUnfinished(run[4]) && steps[18] == CreateRun(1, 25, 25) && !AnyUnfinished(run[18])
      && !CreationSafe(run[18], 1)
      && var s := run[|run| - 1];
         1 in s.runs && 2 in s.runs && 2 in s.runs[1].world.status.inputs && 2 in s.runs[2].world.status.inputs
  {
    var before := SharedListing();
    var absorbed := ExtendedBy(before, SHARED_LISTING, ABSORBED);
    run := ExtendedBy(absorbed, SHARED_LISTING + ABSORBED, STALE_GOAL);
    assert absorbed[10] == absorbed[..11][10] == before[10] && absorbed[4] == absorbed[..11][4] == before[4];
    assert run[18] == run[..19][18] == absorbed[18] && run[4] == run[..19][4] == absorbed[4];
    AbsorbedStates(absorbed);
    StaleStates(run);
    hide Next, IsRun, CreationSafe, AnyUnfinished, Holding, Overlapped;
    var s13 := FirstAbsorbs(absorbed[10]);
    var s18 := FirstFinishes(s13);
    var s21 := StaleCreates(s18);
    assert SHARED_LISTING[4] == CreateRun(0, 25, 25) && STALE_GOAL[0] == CreateRun(1, 25, 25);
  }

  lemma AbsorbedStates(run: seq<State>)
    requires |run| == 19 && forall i {:trigger ABSORBED[i]} :: 0 <= i < |ABSORBED| ==> run[11 + i] == Next(run[11 + i - 1], ABSORBED[i])
    ensures run[13] == Next(Next(Next(run[10], PollMore(1)), Write(1, Env(false, [SECOND], false, ""), true)), Begin(1))
    ensures run[18] == Next(Next(Next(Next(Next(run[13], Write(1, LATE, true)), Begin(1)), Write(1, TOLD, true)), Begin(1)), Write(1, QUIET, true))
  {
    hide Next;
    assert ABSORBED[0] == PollMore(1) && ABSORBED[1] == Write(1, Env(false, [SECOND], false, ""), true) && ABSORBED[2] == Begin(1);
    assert ABSORBED[3] == Write(1, LATE, true) && ABSORBED[4] == Begin(1);
    assert ABSORBED[5] == Write(1, TOLD, true) && ABSORBED[6] == Begin(1) && ABSORBED[7] == Write(1, QUIET, true);
  }

  lemma StaleStates(run: seq<State>)
    requires |run| == 22 && forall i {:trigger STALE_GOAL[i]} :: 0 <= i < |STALE_GOAL| ==> run[19 + i] == Next(run[19 + i - 1], STALE_GOAL[i])
    ensures run[21] == Next(Next(Next(run[18], CreateRun(1, 25, 25)), Begin(2)), Write(2, QUIET, true))
  {
    hide Next;
    assert STALE_GOAL[0] == CreateRun(1, 25, 25) && STALE_GOAL[1] == Begin(2) && STALE_GOAL[2] == Write(2, QUIET, true);
  }
}
