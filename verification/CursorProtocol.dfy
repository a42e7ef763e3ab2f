/**
 * Signal, Poll and Commit from many processes at once.  Each call reads the object,
 * perhaps the inbox, and writes back only if the object is still the version it read;
 * any reply can be lost.  Messages commit in increasing id order, and callers pass
 * `after` and `through` values that came from results their actor received.
 */
module CursorProtocol {
  import opened Wrappers
  import opened Cursors

  /** A Poll between its steps. */
  datatype Stage = Begun | Got(v: Conversation, version: nat) | Read(v: Conversation, version: nat, start: nat, batch: seq<Mail>)

  datatype Request =
    | PollRequest(actor: Actor, after: nat, limit: nat)
    | CommitRequest(actor: Actor, through: nat)
    | SignalRequest(id: nat, target: Option<Actor>, workspace: string)

  datatype Call = Call(request: Request, stage: Stage)

  /** `received` are the messages each actor got in a reply, `known` the cursor values it may use. */
  datatype State = State(table: seq<Mail>, value: Conversation, version: nat, calls: map<nat, Call>,
                         received: set<(Actor, nat)>, known: set<(Actor, nat)>)

  datatype Step =
    | Publish(mail: Mail)
    | Begin(n: nat, request: Request)
    | Get(n: nat)
    | List(n: nat)
    | Finish(n: nat, heard: bool)
    | Abandon(n: nat)

  predicate MayBegin(s: State, request: Request) {
    match request
    case PollRequest(actor, after, _) => after == 0 || (actor, after) in s.known
    case CommitRequest(actor, through) => (actor, through) in s.known
    case SignalRequest(id, _, _) => id > 0
  }

  /** The reply to a poll: its messages, and cursor values the actor may pass on. */
  function Heard(s: State, actor: Actor, start: nat, batch: seq<Mail>): State {
    s.(received := s.received + (set m | m in batch :: (actor, m.id)),
       known := s.known + (set m | m in batch :: (actor, m.id)) + {(actor, start)})
  }

  function Dropped(s: State, n: nat): State {
    s.(calls := s.calls - {n})
  }

  /** The write of a call, if the object is still the version it read; otherwise it starts over. */
  function Finished(s: State, n: nat, heard: bool): State
    requires n in s.calls
  {
    var (request, stage) := (s.calls[n].request, s.calls[n].stage);
    var again := s.(calls := s.calls[n := Call(request, Begun)]);
    match request
    case PollRequest(actor, _, _) =>
      if !stage.Read? then s
      else if stage.batch == [] then (if heard then Heard(Dropped(s, n), actor, stage.start, []) else Dropped(s, n))
      else if stage.version != s.version then again
      else
        var written := Dropped(s, n).(value := Received(stage.v, actor, stage.batch[|stage.batch| - 1].id), version := s.version + 1);
        if heard then Heard(written, actor, stage.start, stage.batch) else written
    case CommitRequest(actor, through) =>
      if !stage.Got? then s
      else
        (match Acknowledged(stage.v, actor, through)
         case Err(_) => Dropped(s, n)
         case Ok(after) =>
           if after == stage.v then Dropped(s, n)
           else if stage.version != s.version then again
           else Dropped(s, n).(value := after, version := s.version + 1))
    case SignalRequest(id, target, workspace) =>
      if !stage.Got? then s
      else if stage.version != s.version then again
      else Dropped(s, n).(value := Signaled(stage.v, id, target, workspace), version := s.version + 1)
  }

  function Next(s: State, step: Step): State {
    match step
    case Publish(mail) =>
      if mail.id > 0 && (s.table == [] || mail.id > s.table[|s.table| - 1].id) then s.(table := s.table + [mail]) else s
    case Begin(n, request) => if n !in s.calls && MayBegin(s, request) then s.(calls := s.calls[n := Call(request, Begun)]) else s
    case Get(n) =>
      if n in s.calls && s.calls[n].stage == Begun then s.(calls := s.calls[n := Call(s.calls[n].request, Got(s.value, s.version))]) else s
    case List(n) =>
      if n in s.calls && s.calls[n].request.PollRequest? && s.calls[n].stage.Got? then
        var (request, got) := (s.calls[n].request, s.calls[n].stage);
        if IsParticipant(got.v, request.actor) then
          var start := Max(Committed(got.v, request.actor), request.after);
          var batch := ListInbox(s.table, request.actor, start, request.limit);
          s.(calls := s.calls[n := Call(request, Read(got.v, got.version, start, batch))])
        else Dropped(s, n)
      else s
    case Finish(n, heard) => if n in s.calls then Finished(s, n, heard) else s
    case Abandon(n) => Dropped(s, n)
  }

  function Initial(): State {
    State([], Conversation([], []), 0, map[], {}, {})
  }

  /** The actor has received everything addressed to it up to x. */
  ghost predicate Covered(table: seq<Mail>, received: set<(Actor, nat)>, actor: Actor, x: nat) {
    forall m :: m in table && Wanted(m, actor, 0) && m.id <= x ==> (actor, m.id) in received
  }

  /** Values that name a message, or nothing: no later message gets an id below them. */
  predicate Named(table: seq<Mail>, x: nat) {
    x == 0 || exists m :: m in table && m.id == x
  }

  /** A poll's batch is all that was wanted between where it started and its last message. */
  ghost predicate BatchOk(table: seq<Mail>, actor: Actor, start: nat, batch: seq<Mail>) {
    && Ordered(batch)
    && (forall m :: m in batch ==> m in table && Wanted(m, actor, start))
    && (batch != [] ==> forall m :: m in table && Wanted(m, actor, start) && m.id <= batch[|batch| - 1].id ==> m in batch)
  }

  ghost predicate SnapshotOk(s: State, v: Conversation, version: nat) {
    && version <= s.version && (version == s.version ==> v == s.value)
    && (forall actor :: Covered(s.table, s.received, actor, Committed(v, actor)) && Named(s.table, Committed(v, actor)))
  }

  ghost predicate CallOk(s: State, call: Call) {
    && (match call.request
        case PollRequest(actor, after, _) => Covered(s.table, s.received, actor, after) && Named(s.table, after)
        case CommitRequest(actor, through) => Covered(s.table, s.received, actor, through) && Named(s.table, through)
        case SignalRequest(_, _, _) => true)
    && (match call.stage
        case Begun => true
        case Got(v, version) => SnapshotOk(s, v, version)
        case Read(v, version, start, batch) =>
          && call.request.PollRequest? && SnapshotOk(s, v, version)
          && Covered(s.table, s.received, call.request.actor, start) && Named(s.table, start)
          && BatchOk(s.table, call.request.actor, start, batch))
  }

  ghost predicate KnownOk(s: State) {
    forall k :: k in s.known ==> Covered(s.table, s.received, k.0, k.1) && Named(s.table, k.1)
  }

  ghost predicate Inv(s: State) {
    && Ordered(s.table) && CursorsOk(s.value) && KnownOk(s)
    && SnapshotOk(s, s.value, s.version)
    && (forall n :: n in s.calls ==> CallOk(s, s.calls[n]))
  }

  // ---------- steps ----------

  lemma PublishCovers(table: seq<Mail>, mail: Mail, received: set<(Actor, nat)>, actor: Actor, x: nat)
    requires Ordered(table) && (table == [] || mail.id > table[|table| - 1].id) && mail.id > 0
    requires Covered(table, received, actor, x) && Named(table, x)
    ensures Covered(table + [mail], received, actor, x) && Named(table + [mail], x)
  {
    if x > 0 {
      var m :| m in table && m.id == x;
      assert m in table + [mail];
      var i :| 0 <= i < |table| && table[i] == m;
      assert m.id <= table[|table| - 1].id;
    }
  }

  lemma PublishBatch(table: seq<Mail>, mail: Mail, actor: Actor, start: nat, batch: seq<Mail>)
    requires Ordered(table) && (table == [] || mail.id > table[|table| - 1].id) && mail.id > 0
    requires BatchOk(table, actor, start, batch)
    ensures BatchOk(table + [mail], actor, start, batch)
  {
    if batch != [] {
      var last := batch[|batch| - 1];
      assert last in batch && last in table;
      var i :| 0 <= i < |table| && table[i] == last;
      assert last.id <= table[|table| - 1].id;
    }
  }

  lemma PublishKeeps(s: State, mail: Mail)
    requires Inv(s)
    ensures Inv(Next(s, Publish(mail)))
  {
    hide Covered, Named, BatchOk, CursorsOk, Committed;
    if mail.id > 0 && (s.table == [] || mail.id > s.table[|s.table| - 1].id) {
      var next := s.(table := s.table + [mail]);
      forall actor, x | Covered(s.table, s.received, actor, x) && Named(s.table, x)
        ensures Covered(next.table, next.received, actor, x) && Named(next.table, x)
      {
        PublishCovers(s.table, mail, s.received, actor, x);
      }
      forall actor, start, batch | BatchOk(s.table, actor, start, batch) ensures BatchOk(next.table, actor, start, batch) {
        PublishBatch(s.table, mail, actor, start, batch);
      }
    }
  }

  lemma NothingBefore(table: seq<Mail>, received: set<(Actor, nat)>, actor: Actor)
    requires Ordered(table)
    ensures Covered(table, received, actor, 0) && Named(table, 0)
  {
    forall m | m in table ensures m.id > 0 {
      var i :| 0 <= i < |table| && table[i] == m;
    }
  }

  lemma ListBatch(table: seq<Mail>, actor: Actor, start: nat, limit: nat)
    requires Ordered(table)
    ensures BatchOk(table, actor, start, ListInbox(table, actor, start, limit))
  {
    hide *;
    var batch := ListInbox(table, actor, start, limit);
    InboxOrdered(table, actor, start, limit);
    if batch != [] {
      ListReaches(table, actor, start, limit, batch[|batch| - 1].id);
    }
    BatchIs(table, actor, start, batch);
  }

  /** Nothing wanted up to the end of a batch is missing from it. */
  lemma ListReaches(table: seq<Mail>, actor: Actor, start: nat, limit: nat, last: nat)
    requires Ordered(table)
    requires var batch := ListInbox(table, actor, start, limit); batch != [] && batch[|batch| - 1].id == last
    ensures forall m :: m in table && Wanted(m, actor, start) && m.id <= last ==> m in ListInbox(table, actor, start, limit)
  {
    hide *;
    forall m | m in table && Wanted(m, actor, start) && m.id <= last ensures m in ListInbox(table, actor, start, limit) {
      InboxContiguous(table, actor, start, limit, m);
    }
  }

  lemma BatchIs(table: seq<Mail>, actor: Actor, start: nat, batch: seq<Mail>)
    requires Ordered(batch) && forall m :: m in batch ==> m in table && Wanted(m, actor, start)
    requires batch != [] ==> forall m :: m in table && Wanted(m, actor, start) && m.id <= batch[|batch| - 1].id ==> m in batch
    ensures BatchOk(table, actor, start, batch)
  {
    hide Ordered, Wanted;
  }

  lemma BeginKeeps(s: State, step: Step)
    requires Inv(s) && (step.Begin? || step.Get? || step.List? || step.Abandon?)
    ensures Inv(Next(s, step))
  {
    hide Covered, Named, BatchOk, CursorsOk, Committed, Ordered;
    match step
    case Begin(n, request) =>
      if request.PollRequest? {
        NothingBefore(s.table, s.received, request.actor);
      }
    case Get(n) =>
    case List(n) =>
      if n in s.calls && s.calls[n].request.PollRequest? && s.calls[n].stage.Got? {
        var (request, got) := (s.calls[n].request, s.calls[n].stage);
        assert CallOk(s, s.calls[n]);
        var start := Max(Committed(got.v, request.actor), request.after);
        ListBatch(s.table, request.actor, start, request.limit);
        assert Covered(s.table, s.received, request.actor, start) && Named(s.table, start);
      }
    case Abandon(n) =>
  }

  /** Receiving more never uncovers anything. */
  lemma MoreReceived(s: State, after: State)
    requires after.table == s.table && s.received <= after.received
    ensures forall actor, x :: Covered(s.table, s.received, actor, x) ==> Covered(after.table, after.received, actor, x)
  {
  }

  /** Hearing a batch covers everything up to each of its messages. */
  lemma BatchCovers(table: seq<Mail>, received: set<(Actor, nat)>, actor: Actor, start: nat, batch: seq<Mail>, heard: set<(Actor, nat)>, m: Mail)
    requires Covered(table, received, actor, start) && BatchOk(table, actor, start, batch) && m in batch
    requires received <= heard && forall b :: b in batch ==> (actor, b.id) in heard
    ensures Covered(table, heard, actor, m.id) && Named(table, m.id)
  {
    var i :| 0 <= i < |batch| && batch[i] == m;
    forall w | w in table && Wanted(w, actor, 0) && w.id <= m.id ensures (actor, w.id) in heard {
      if w.id > start {
        assert Wanted(w, actor, start);
      }
    }
  }

  lemma HeardKeeps(s: State, actor: Actor, start: nat, batch: seq<Mail>)
    requires Inv(s) && Covered(s.table, s.received, actor, start) && Named(s.table, start) && BatchOk(s.table, actor, start, batch)
    ensures Inv(Heard(s, actor, start, batch))
  {
    hide Covered, Named, BatchOk, CursorsOk, Committed, Ordered;
    var next := Heard(s, actor, start, batch);
    MoreReceived(s, next);
    forall k | k in next.known ensures Covered(next.table, next.received, k.0, k.1) && Named(next.table, k.1) {
      if k !in s.known && k != (actor, start) {
        var m :| m in batch && k == (actor, m.id);
        BatchCovers(s.table, s.received, actor, start, batch, next.received, m);
      }
    }
  }

  /** A write of a cursor that keeps the recovery points covered keeps everything. */
  lemma WriteKeeps(s: State, v: Conversation)
    requires Inv(s) && CursorsOk(v)
    requires forall actor :: Covered(s.table, s.received, actor, Committed(v, actor)) && Named(s.table, Committed(v, actor))
    ensures Inv(s.(value := v, version := s.version + 1))
  {
    hide Covered, Named, BatchOk, CursorsOk, Committed, Ordered;
  }

  lemma DropKeeps(s: State, n: nat)
    requires Inv(s)
    ensures Inv(Dropped(s, n))
  {
    hide Covered, Named, BatchOk, CursorsOk, Committed, Ordered;
  }

  lemma AgainKeeps(s: State, n: nat)
    requires Inv(s) && n in s.calls
    ensures Inv(s.(calls := s.calls[n := Call(s.calls[n].request, Begun)]))
  {
    hide Covered, Named, BatchOk, CursorsOk, Committed, Ordered;
    assert CallOk(s, s.calls[n]);
  }

  lemma FinishPollKeeps(s: State, n: nat, heard: bool)
    requires Inv(s) && n in s.calls && s.calls[n].request.PollRequest?
    ensures Inv(Finished(s, n, heard))
  {
    hide Covered, Named, BatchOk, CursorsOk, Ordered, Committed, Position, Received;
    var (request, stage) := (s.calls[n].request, s.calls[n].stage);
    assert CallOk(s, s.calls[n]);
    if stage.Read? {
      DropKeeps(s, n);
      AgainKeeps(s, n);
      if stage.batch != [] && stage.version == s.version {
        ReceivedKeeps(stage.v, request.actor, stage.batch[|stage.batch| - 1].id);
        var v := Received(stage.v, request.actor, stage.batch[|stage.batch| - 1].id);
        SameCommitted(stage.v, v, request.actor);
        WriteKeeps(Dropped(s, n), v);
        HeardKeeps(Dropped(s, n).(value := v, version := s.version + 1), request.actor, stage.start, stage.batch);
      } else if stage.batch == [] {
        HeardKeeps(Dropped(s, n), request.actor, stage.start, []);
      }
    }
  }

  lemma SameCommitted(before: Conversation, after: Conversation, actor: Actor)
    requires Committed(after, actor) == Committed(before, actor)
    requires forall other :: other != actor ==> ConsumerOf(after, other) == ConsumerOf(before, other)
    ensures forall any :: Committed(after, any) == Committed(before, any)
  {
    hide ConsumerIndex;
    forall any ensures Committed(after, any) == Committed(before, any) {
      if any != actor {
        assert ConsumerOf(after, any) == ConsumerOf(before, any);
      }
    }
  }

  lemma FinishWriteKeeps(s: State, n: nat, heard: bool)
    requires Inv(s) && n in s.calls && !s.calls[n].request.PollRequest?
    ensures Inv(Finished(s, n, heard))
  {
    hide Covered, Named, BatchOk, CursorsOk, Ordered, Committed, Position, Acknowledged, Signaled;
    var (request, stage) := (s.calls[n].request, s.calls[n].stage);
    assert CallOk(s, s.calls[n]);
    if stage.Got? {
      DropKeeps(s, n);
      AgainKeeps(s, n);
      if stage.version == s.version {
        if request.CommitRequest? && Acknowledged(stage.v, request.actor, request.through).Ok? {
          AcknowledgedKeeps(stage.v, request.actor, request.through);
          var v := Acknowledged(stage.v, request.actor, request.through).value;
          OthersCommitted(stage.v, v, request.actor);
          assert Committed(v, request.actor) == Committed(stage.v, request.actor) || Committed(v, request.actor) == request.through;
          WriteKeeps(Dropped(s, n), v);
        } else if request.SignalRequest? {
          SignaledKeeps(stage.v, request.id, request.target, request.workspace);
          var v := Signaled(stage.v, request.id, request.target, request.workspace);
          SameConsumers(stage.v, v);
          WriteKeeps(Dropped(s, n), v);
        }
      }
    }
  }

  lemma OthersCommitted(before: Conversation, after: Conversation, actor: Actor)
    requires forall other :: other != actor ==> ConsumerOf(after, other) == ConsumerOf(before, other)
    ensures forall other :: other != actor ==> Committed(after, other) == Committed(before, other)
  {
    hide ConsumerIndex;
    forall other | other != actor ensures Committed(after, other) == Committed(before, other) {
      assert ConsumerOf(after, other) == ConsumerOf(before, other);
    }
  }

  lemma SameConsumers(before: Conversation, after: Conversation)
    requires after.consumers == before.consumers
    ensures forall any :: Committed(after, any) == Committed(before, any) && Position(after, any) == Position(before, any)
    ensures CursorsOk(before) ==> CursorsOk(after)
  {
  }

  lemma NextKeeps(s: State, step: Step)
    requires Inv(s)
    ensures Inv(Next(s, step))
  {
    hide Inv, Finished;
    match step
    case Publish(mail) => PublishKeeps(s, mail);
    case Begin(n, request) => BeginKeeps(s, step);
    case Get(n) => BeginKeeps(s, step);
    case List(n) => BeginKeeps(s, step);
    case Finish(n, heard) =>
      if n in s.calls {
        if s.calls[n].request.PollRequest? {
          FinishPollKeeps(s, n, heard);
        } else {
          FinishWriteKeeps(s, n, heard);
        }
      }
    case Abandon(n) => BeginKeeps(s, step);
  }

  /** A run: its states in order, each the next of the one before. */
  ghost predicate IsRun(run: seq<State>, steps: seq<Step>) {
    && |run| == |steps| + 1 && run[0] == Initial()
    && forall i {:trigger steps[i]} :: 0 <= i < |steps| ==> run[i + 1] == Next(run[i], steps[i])
  }

  lemma InitialInv()
    ensures Inv(Initial())
  {
    forall actor ensures Covered([], {}, actor, 0) && Named([], 0) {
    }
  }

  lemma {:induction false} Reachable(run: seq<State>, steps: seq<Step>, k: nat)
    requires IsRun(run, steps) && k < |run|
    ensures Inv(run[k])
  {
    hide Inv, Next, Initial;
    if k == 0 {
      InitialInv();
    } else {
      Reachable(run, steps, k - 1);
      NextKeeps(run[k - 1], steps[k - 1]);
    }
  }

  /**
   * In every interleaving: a message another sender addressed to the actor, at or below
   * its recovery point, was in a result the actor received; and the recovery point never
   * passes the received position.
   */
  lemma {:induction false} NothingSkipped(run: seq<State>, steps: seq<Step>, k: nat, actor: Actor, m: Mail)
    requires IsRun(run, steps) && k < |run|
    ensures
      var s := run[k];
      && Committed(s.value, actor) <= Position(s.value, actor)
      && (m in s.table && AddressedTo(m, actor) && m.source != actor && m.id <= Committed(s.value, actor) ==> (actor, m.id) in s.received)
  {
    Reachable(run, steps, k);
    hide IsRun;
    var s := run[k];
    assert Covered(s.table, s.received, actor, Committed(s.value, actor));
    if m in s.table {
      var i :| 0 <= i < |s.table| && s.table[i] == m;
      assert s.table[i].id > 0;
    }
  }

  /** Both cursors only grow, and one actor's calls never move another's. */
  lemma {:induction false} CursorsGrow(run: seq<State>, steps: seq<Step>, k: nat, actor: Actor)
    requires IsRun(run, steps) && k < |steps|
    ensures
      var (s, next) := (run[k], run[k + 1]);
      && Committed(s.value, actor) <= Committed(next.value, actor) && Position(s.value, actor) <= Position(next.value, actor)
      && (!Moves(s, steps[k], actor) ==> ConsumerOf(next.value, actor) == ConsumerOf(s.value, actor))
  {
    hide Inv, Next, Initial, Committed, Position, ConsumerOf, Moves;
    Reachable(run, steps, k);
    StepGrows(run[k], steps[k], actor);
  }

  /** Whose cursor a call can move. */
  predicate Moves(s: State, step: Step, actor: Actor) {
    step.Finish? && step.n in s.calls && !s.calls[step.n].request.SignalRequest? && s.calls[step.n].request.actor == actor
  }

  lemma StepGrows(s: State, step: Step, actor: Actor)
    requires Inv(s)
    ensures
      var next := Next(s, step);
      && Committed(s.value, actor) <= Committed(next.value, actor) && Position(s.value, actor) <= Position(next.value, actor)
      && (!Moves(s, step, actor) ==> ConsumerOf(next.value, actor) == ConsumerOf(s.value, actor))
  {
    hide Covered, Named, BatchOk, CursorsOk, Ordered, Received, Acknowledged, Signaled, ConsumerIndex;
    if step.Finish? && step.n in s.calls {
      var (request, stage) := (s.calls[step.n].request, s.calls[step.n].stage);
      assert CallOk(s, s.calls[step.n]);
      if stage != Begun && stage.version == s.version {
        match request
        case PollRequest(a, _, _) =>
          if stage.Read? && stage.batch != [] {
            ReceivedKeeps(stage.v, a, stage.batch[|stage.batch| - 1].id);
          }
        case CommitRequest(a, through) =>
          if Acknowledged(stage.v, a, through).Ok? {
            AcknowledgedKeeps(stage.v, a, through);
          }
        case SignalRequest(id, target, workspace) =>
          SignaledKeeps(stage.v, id, target, workspace);
          SameConsumer(stage.v, Signaled(stage.v, id, target, workspace), actor);
      }
    }
  }

  lemma SameConsumer(before: Conversation, after: Conversation, actor: Actor)
    requires after.consumers == before.consumers
    ensures ConsumerOf(after, actor) == ConsumerOf(before, actor)
  {
  }
}
