/** The page's message list: a pure reducer over snapshots, updates, metadata and body reads. */
module Browser {
  import opened Wrappers
  import opened Agentue
  import opened Streams

  /** A message as the page has it: perhaps only its metadata. */
  datatype Msg = Msg(id: nat, revision: nat, content: Option<Model>, info: string)

  /** An event of the conversation stream, addressed to a message; a snapshot brings the message along. */
  datatype Delivery = Delivery(target: Option<nat>, message: Option<Msg>, event: StreamEvent)

  datatype PageError = IdentityMismatch | NoSnapshot | PatchRefused

  function Find(messages: seq<Msg>, id: nat): Option<Msg> {
    if messages == [] then None
    else if messages[0].id == id then Some(messages[0])
    else Find(messages[1..], id)
  }

  function Without(messages: seq<Msg>, id: nat): seq<Msg> {
    if messages == [] then []
    else (if messages[0].id == id then [] else [messages[0]]) + Without(messages[1..], id)
  }

  /** Sorting by id, as insertion into the sorted rest. */
  function Insert(sorted: seq<Msg>, m: Msg): seq<Msg> {
    if sorted == [] || m.id <= sorted[0].id then [m] + sorted
    else [sorted[0]] + Insert(sorted[1..], m)
  }

  function SortById(messages: seq<Msg>): seq<Msg> {
    if messages == [] then [] else Insert(SortById(messages[1..]), messages[0])
  }

  /** mergeMessage: never older, and metadata does not erase a body of the same revision. */
  function Merge(messages: seq<Msg>, incoming: Msg): seq<Msg> {
    var existing := Find(messages, incoming.id);
    if existing.Some? && existing.value.revision > incoming.revision then messages
    else
      var kept := if existing.Some? && existing.value.content.Some? && incoming.content.None? && existing.value.revision == incoming.revision
                  then incoming.(content := existing.value.content) else incoming;
      SortById(Without(messages, incoming.id) + [kept])
  }

  /** applyPatch: a snapshot replaces, the end changes nothing, an update is applied. */
  function Patched(lib: Library, base: Model, ev: StreamEvent): Option<Model> {
    match ev
    case StartAt(_, model) => Some(model)
    case Patch(e) => Apply(lib, base, e)
    case EndAt(_) => Some(base)
    case PingAt(_) => Some(base)
  }

  /** applyMessageEvent. */
  function Receive(lib: Library, messages: seq<Msg>, d: Delivery): Result<seq<Msg>, PageError> {
    if d.target.None? || (d.message.Some? && d.message.value.id != d.target.value) then Err(IdentityMismatch)
    else
      var existing := Find(messages, d.target.value);
      var seqno := Seq(d.event);
      if existing.Some? && (existing.value.revision > seqno || (!d.event.StartAt? && existing.value.revision == seqno)) then Ok(messages)
      else if d.message.None? && existing.None? then Err(NoSnapshot)
      else
        var base := if d.message.Some? then d.message.value else existing.value;
        var loaded := if existing.Some? then existing.value.content else None;
        if base.content.None? && loaded.None? && !d.event.StartAt? then Ok(Merge(messages, base.(revision := seqno)))
        else
          var start := if d.event.StartAt? then d.event.model else if loaded.Some? then loaded.value else base.content.value;
          match Patched(lib, start, d.event)
          case None => Err(PatchRefused)
          case Some(model) => Ok(Merge(messages, base.(revision := seqno, content := Some(model))))
  }

  // ---------- merging changes one message ----------

  ghost predicate Listed(messages: seq<Msg>) {
    forall i, j :: 0 <= i < j < |messages| ==> messages[i].id < messages[j].id
  }

  lemma {:induction false} FindWithout(messages: seq<Msg>, id: nat, other: nat)
    ensures Find(Without(messages, id), other) == if other == id then None else Find(messages, other)
    ensures forall m :: m in Without(messages, id) ==> m in messages && m.id != id
  {
    if messages != [] {
      FindWithout(messages[1..], id, other);
      var head := if messages[0].id == id then [] else [messages[0]];
      assert Without(messages, id) == head + Without(messages[1..], id);
      assert head != [] ==> Without(messages, id)[1..] == Without(messages[1..], id);
      assert head == [] ==> Without(messages, id) == Without(messages[1..], id);
    }
  }

  lemma {:induction false} InsertAre(sorted: seq<Msg>, m: Msg)
    ensures forall x :: x in Insert(sorted, m) ==> x == m || x in sorted
  {
    if sorted != [] && m.id > sorted[0].id {
      InsertAre(sorted[1..], m);
    }
  }

  lemma {:induction false} InsertLists(sorted: seq<Msg>, m: Msg)
    requires Listed(sorted) && forall x :: x in sorted ==> x.id != m.id
    ensures Listed(Insert(sorted, m))
  {
    if sorted != [] && m.id > sorted[0].id {
      var rest := sorted[1..];
      InsertLists(rest, m);
      InsertAre(rest, m);
      var next := Insert(rest, m);
      forall i | 0 <= i < |next| ensures sorted[0].id < next[i].id {
        assert next[i] in next;
      }
    }
  }

  lemma {:induction false} FindInsert(sorted: seq<Msg>, m: Msg, other: nat)
    requires Find(sorted, m.id).None?
    ensures Find(Insert(sorted, m), other) == if other == m.id then Some(m) else Find(sorted, other)
  {
    if sorted == [] || m.id <= sorted[0].id {
      assert ([m] + sorted)[1..] == sorted;
    } else {
      var next := Insert(sorted[1..], m);
      FindInsert(sorted[1..], m, other);
      assert ([sorted[0]] + next)[1..] == next;
    }
  }

  lemma {:induction false} FindSorted(messages: seq<Msg>, other: nat)
    requires forall i, j :: 0 <= i < j < |messages| ==> messages[i].id != messages[j].id
    ensures Listed(SortById(messages)) && Find(SortById(messages), other) == Find(messages, other)
  {
    if messages != [] {
      FindSorted(messages[1..], other);
      FindSorted(messages[1..], messages[0].id);
      FindAbsent(messages[1..], messages[0].id);
      NoneFound(SortById(messages[1..]), messages[0].id);
      InsertLists(SortById(messages[1..]), messages[0]);
      FindInsert(SortById(messages[1..]), messages[0], other);
    }
  }

  lemma {:induction false} NoneFound(messages: seq<Msg>, id: nat)
    requires Find(messages, id).None?
    ensures forall x :: x in messages ==> x.id != id
  {
    if messages != [] {
      NoneFound(messages[1..], id);
    }
  }

  lemma {:induction false} FindAbsent(messages: seq<Msg>, id: nat)
    requires forall i :: 0 <= i < |messages| ==> messages[i].id != id
    ensures Find(messages, id).None?
  {
    if messages != [] {
      FindAbsent(messages[1..], id);
    }
  }

  lemma {:induction false} WithoutDistinct(messages: seq<Msg>, id: nat)
    requires Listed(messages)
    ensures forall i, j :: 0 <= i < j < |Without(messages, id)| ==> Without(messages, id)[i].id < Without(messages, id)[j].id
  {
    if messages != [] {
      var rest := Without(messages[1..], id);
      WithoutDistinct(messages[1..], id);
      FindWithout(messages[1..], id, 0);
      hide Find;
      forall i | 0 <= i < |rest| ensures rest[i].id > messages[0].id {
        assert rest[i] in rest && rest[i] in messages[1..];
        var j :| 0 <= j < |messages[1..]| && messages[1..][j] == rest[i];
        assert messages[j + 1] == rest[i];
      }
    }
  }

  lemma {:induction false} FindAppended(messages: seq<Msg>, m: Msg, other: nat)
    requires Find(messages, m.id).None?
    ensures Find(messages + [m], other) == if other == m.id then Some(m) else Find(messages, other)
  {
    if messages != [] {
      assert (messages + [m])[1..] == messages[1..] + [m];
      FindAppended(messages[1..], m, other);
    }
  }

  /** What merging does, message by message. */
  lemma MergeIs(messages: seq<Msg>, incoming: Msg, other: nat)
    requires Listed(messages)
    ensures Listed(Merge(messages, incoming))
    ensures
      var (existing, now) := (Find(messages, other), Find(Merge(messages, incoming), other));
      if other != incoming.id then now == existing
      else if existing.Some? && existing.value.revision > incoming.revision then now == existing
      else
        && now.Some? && now.value.id == incoming.id && now.value.revision == incoming.revision
        && now.value.content ==
           if existing.Some? && existing.value.content.Some? && incoming.content.None? && existing.value.revision == incoming.revision
           then existing.value.content else incoming.content
  {
    var existing := Find(messages, incoming.id);
    if !(existing.Some? && existing.value.revision > incoming.revision) {
      var kept := if existing.Some? && existing.value.content.Some? && incoming.content.None? && existing.value.revision == incoming.revision
                  then incoming.(content := existing.value.content) else incoming;
      var rest := Without(messages, incoming.id);
      FindWithout(messages, incoming.id, incoming.id);
      FindWithout(messages, incoming.id, other);
      WithoutDistinct(messages, incoming.id);
      FindAppended(rest, kept, other);
      DistinctAppended(rest, kept);
      FindSorted(rest + [kept], other);
    }
  }

  lemma DistinctAppended(rest: seq<Msg>, m: Msg)
    requires Listed(rest) && forall x :: x in rest ==> x.id != m.id
    ensures forall i, j :: 0 <= i < j < |rest + [m]| ==> (rest + [m])[i].id != (rest + [m])[j].id
  {
    var all := rest + [m];
    forall i | 0 <= i < |rest| ensures all[i].id != m.id {
      assert rest[i] in rest;
    }
  }

  // ---------- the page, its connections and SQL ----------

  /** `heard` is, for each connection and message, the revision up to which the connection has delivered. */
  datatype System = System(histories: map<nat, History>, messages: seq<Msg>, heard: map<(nat, nat), nat>)

  datatype Step =
    | Create(id: nat, content: Model, status: Status)
    | Sql(id: nat, write: SqlWrite)
    | Snapshot(connection: nat, id: nat, seqno: nat, info: string)
    | Update(connection: nat, id: nat, event: Event)
    | Finish(connection: nat, id: nat)
    | Refresh(id: nat, revision: nat, info: string)
    | ReadBody(id: nat, revision: nat, info: string)

  function At(h: History, revision: nat): Model
    requires 1 <= revision <= |h|
  {
    h[revision - 1].content
  }

  function Heard(s: System, connection: nat, id: nat): nat {
    if (connection, id) in s.heard then s.heard[(connection, id)] else 0
  }

  function Shows(s: System, lib: Library, connection: nat, id: nat, seqno: nat, d: Delivery): System {
    s.(messages := match Receive(lib, s.messages, d) case Ok(messages) => messages case Err(_) => s.messages,
       heard := s.heard[(connection, id) := seqno])
  }

  /**
   * Each connection delivers without gaps: a snapshot ahead of what it delivered, the next
   * accepted update, or the end where it is.  Metadata and bodies arrive from any revision,
   * in any order.
   */
  ghost function Next(lib: Library, s: System, step: Step): System {
    match step
    case Create(id, content, status) =>
      if id in s.histories || content.meta.output.Some? then s else s.(histories := s.histories[id := [Version(content, status, None)]])
    case Sql(id, write) =>
      if id in s.histories && s.histories[id] != [] then s.(histories := s.histories[id := Written(lib, s.histories[id], write)]) else s
    case Snapshot(c, id, seqno, info) =>
      if id in s.histories && Heard(s, c, id) < seqno <= |s.histories[id]| then
        var model := At(s.histories[id], seqno);
        Shows(s, lib, c, id, seqno, Delivery(Some(id), Some(Msg(id, seqno, Some(model), info)), StartAt(seqno, model)))
      else s
    case Update(c, id, e) =>
      if id in s.histories && Truthful(s.histories[id], Patch(e)) && Heard(s, c, id) >= 1 && e.seqno == Heard(s, c, id) + 1 then
        Shows(s, lib, c, id, e.seqno, Delivery(Some(id), None, Patch(e)))
      else s
    case Finish(c, id) =>
      if Heard(s, c, id) >= 1 then Shows(s, lib, c, id, Heard(s, c, id), Delivery(Some(id), None, EndAt(Heard(s, c, id)))) else s
    case Refresh(id, revision, info) =>
      if id in s.histories && 1 <= revision <= |s.histories[id]| then s.(messages := Merge(s.messages, Msg(id, revision, None, info))) else s
    case ReadBody(id, revision, info) =>
      if id in s.histories && 1 <= revision <= |s.histories[id]| then
        s.(messages := Merge(s.messages, Msg(id, revision, Some(At(s.histories[id], revision)), info)))
      else s
  }

  /** A message on the page names a revision of SQL, and a loaded body is that revision's content. */
  ghost predicate BodyOk(s: System, m: Msg) {
    && m.id in s.histories && 1 <= m.revision <= |s.histories[m.id]|
    && (m.content.Some? ==> SameContent(m.content.value, At(s.histories[m.id], m.revision)))
  }

  ghost predicate Inv(lib: Library, s: System) {
    && (forall id :: id in s.histories ==> HistoryOk(lib, s.histories[id]))
    && Listed(s.messages)
    && (forall id :: Find(s.messages, id).Some? ==> Find(s.messages, id).value.id == id && BodyOk(s, Find(s.messages, id).value))
    && (forall k :: k in s.heard ==> Find(s.messages, k.1).Some? && Find(s.messages, k.1).value.revision >= s.heard[k] >= 1)
  }

  lemma SqlKeeps(lib: Library, s: System, step: Step)
    requires Inv(lib, s) && (step.Create? || step.Sql?)
    ensures Inv(lib, Next(lib, s, step))
  {
    hide Written, MadeOk, Listed;
    if step.Sql? && step.id in s.histories && s.histories[step.id] != [] {
      var h := s.histories[step.id];
      WrittenKeeps(lib, h, step.write);
      hide HistoryOk;
      var later := Written(lib, h, step.write);
      assert forall r :: 1 <= r <= |h| ==> At(later, r) == At(h, r);
    }
  }

  /** A merge of something truthful keeps every body truthful, and no revision goes back. */
  lemma MergeKeeps(lib: Library, s: System, incoming: Msg)
    requires Inv(lib, s) && BodyOk(s, incoming)
    ensures Inv(lib, s.(messages := Merge(s.messages, incoming)))
    ensures Find(Merge(s.messages, incoming), incoming.id).Some?
    ensures Find(Merge(s.messages, incoming), incoming.id).value.revision >= incoming.revision
    ensures forall id :: Find(s.messages, id).Some? ==>
              Find(Merge(s.messages, incoming), id).Some? && Find(Merge(s.messages, incoming), id).value.revision >= Find(s.messages, id).value.revision
  {
    hide HistoryOk, Listed, Merge;
    forall id
      ensures var (was, now) := (Find(s.messages, id), Find(Merge(s.messages, incoming), id));
              && (was.Some? ==> now.Some? && now.value.revision >= was.value.revision)
              && (now.Some? ==> now.value.id == id && BodyOk(s, now.value))
    {
      MergeIs(s.messages, incoming, id);
    }
    MergeIs(s.messages, incoming, incoming.id);
  }

  /** A delivery that follows its connection is applied: no error, a truthful body, nothing older. */
  lemma ReceiveKeeps(lib: Library, s: System, id: nat, d: Delivery)
    requires Inv(lib, s) && d.target == Some(id) && id in s.histories
    requires
      || (d.event.StartAt? && Truthful(s.histories[id], d.event) && d.message.Some? && d.message.value.id == id
          && d.message.value.content == Some(d.event.model) && d.message.value.revision == Seq(d.event))
      || (d.event.Patch? && d.message.None? && Truthful(s.histories[id], d.event) && Find(s.messages, id).Some?
          && Find(s.messages, id).value.revision + 1 >= Seq(d.event))
      || (d.event.EndAt? && d.message.None? && Find(s.messages, id).Some? && Find(s.messages, id).value.revision >= Seq(d.event))
    ensures
      var r := Receive(lib, s.messages, d);
      && r.Ok? && Inv(lib, s.(messages := r.value))
      && Find(r.value, id).Some? && Find(r.value, id).value.revision >= Seq(d.event)
      && (forall other :: Find(s.messages, other).Some? ==>
            Find(r.value, other).Some? && Find(r.value, other).value.revision >= Find(s.messages, other).value.revision)
  {
    hide Merge, Listed, Apply;
    var existing := Find(s.messages, id);
    var seqno := Seq(d.event);
    if d.event.StartAt? {
      if !(existing.Some? && existing.value.revision > seqno) {
        MergeKeeps(lib, s, d.message.value);
      }
    } else if existing.value.revision < seqno {
      var h := s.histories[id];
      var e := d.event.event;
      if existing.value.content.None? {
        MergeKeeps(lib, s, existing.value.(revision := seqno));
      } else {
        assert MadeOk(lib, h, seqno - 1);
        ApplySameContent(lib, existing.value.content.value, At(h, seqno - 1), e);
        MergeKeeps(lib, s, existing.value.(revision := seqno, content := Some(Apply(lib, existing.value.content.value, e).value)));
      }
    }
  }

  lemma SnapshotTruthful(h: History, seqno: nat)
    requires 1 <= seqno <= |h|
    ensures Truthful(h, StartAt(seqno, At(h, seqno)))
  {
  }

  /** What no step does: lose a message, or take it back to an older revision. */
  ghost predicate Onward(s: System, next: System) {
    forall id :: Find(s.messages, id).Some? ==>
      Find(next.messages, id).Some? && Find(next.messages, id).value.revision >= Find(s.messages, id).value.revision
  }

  lemma DeliveryKeeps(lib: Library, s: System, step: Step)
    requires Inv(lib, s) && (step.Snapshot? || step.Update? || step.Finish?)
    ensures Inv(lib, Next(lib, s, step)) && Onward(s, Next(lib, s, step))
  {
    hide Merge, Listed, Written, Receive, HistoryOk, Find, Truthful;
    match step
    case Snapshot(c, id, seqno, info) =>
      if id in s.histories && Heard(s, c, id) < seqno <= |s.histories[id]| {
        var model := At(s.histories[id], seqno);
        SnapshotTruthful(s.histories[id], seqno);
        ReceiveKeeps(lib, s, id, Delivery(Some(id), Some(Msg(id, seqno, Some(model), info)), StartAt(seqno, model)));
      }
    case Update(c, id, e) =>
      if id in s.histories && Truthful(s.histories[id], Patch(e)) && Heard(s, c, id) >= 1 && e.seqno == Heard(s, c, id) + 1 {
        assert (c, id) in s.heard;
        ReceiveKeeps(lib, s, id, Delivery(Some(id), None, Patch(e)));
      }
    case Finish(c, id) =>
      if Heard(s, c, id) >= 1 {
        assert (c, id) in s.heard;
        ReceiveKeeps(lib, s, id, Delivery(Some(id), None, EndAt(Heard(s, c, id))));
      }
  }

  lemma ReadKeeps(lib: Library, s: System, step: Step)
    requires Inv(lib, s) && (step.Refresh? || step.ReadBody?)
    ensures Inv(lib, Next(lib, s, step)) && Onward(s, Next(lib, s, step))
  {
    hide Merge, Listed, Written, Receive, HistoryOk, Find, Truthful;
    match step
    case Refresh(id, revision, info) =>
      if id in s.histories && 1 <= revision <= |s.histories[id]| {
        MergeKeeps(lib, s, Msg(id, revision, None, info));
      }
    case ReadBody(id, revision, info) =>
      if id in s.histories && 1 <= revision <= |s.histories[id]| {
        MergeKeeps(lib, s, Msg(id, revision, Some(At(s.histories[id], revision)), info));
      }
  }

  lemma SqlOnward(lib: Library, s: System, step: Step)
    requires step.Create? || step.Sql?
    ensures Onward(s, Next(lib, s, step))
  {
    hide Written, Find;
  }

  lemma NextKeeps(lib: Library, s: System, step: Step)
    requires Inv(lib, s)
    ensures Inv(lib, Next(lib, s, step)) && Onward(s, Next(lib, s, step))
  {
    hide Inv, Next, Onward;
    if step.Create? || step.Sql? {
      SqlKeeps(lib, s, step);
      SqlOnward(lib, s, step);
    } else if step.Snapshot? || step.Update? || step.Finish? {
      DeliveryKeeps(lib, s, step);
    } else {
      ReadKeeps(lib, s, step);
    }
  }

  /** A run: its states in order, each the next of the one before. */
  ghost predicate IsRun(lib: Library, run: seq<System>, steps: seq<Step>) {
    && |run| == |steps| + 1 && run[0] == System(map[], [], map[])
    && forall i {:trigger steps[i]} :: 0 <= i < |steps| ==> run[i + 1] == Next(lib, run[i], steps[i])
  }

  lemma InitialInv(lib: Library)
    ensures Inv(lib, System(map[], [], map[]))
  {
  }

  lemma {:induction false} Reachable(lib: Library, run: seq<System>, steps: seq<Step>, k: nat)
    requires IsRun(lib, run, steps) && k < |run|
    ensures Inv(lib, run[k]) && (k > 0 ==> Onward(run[k - 1], run[k]))
  {
    hide Inv, Next, Onward;
    if k == 0 {
      InitialInv(lib);
    } else {
      Reachable(lib, run, steps, k - 1);
      NextKeeps(lib, run[k - 1], steps[k - 1]);
    }
  }

  /**
   * Whatever the order of deltas, snapshots, metadata refreshes and body reads, from any
   * number of gap-free connections: every loaded body on the page is SQL's content at the
   * revision recorded beside it, and no message's revision ever goes back.
   */
  lemma {:induction false} PageAgrees(lib: Library, run: seq<System>, steps: seq<Step>, k: nat, id: nat)
    requires IsRun(lib, run, steps) && k < |run|
    ensures Find(run[k].messages, id).Some? ==> BodyOk(run[k], Find(run[k].messages, id).value)
    ensures k > 0 && Find(run[k - 1].messages, id).Some? ==>
              Find(run[k].messages, id).Some? && Find(run[k].messages, id).value.revision >= Find(run[k - 1].messages, id).value.revision
  {
    Reachable(lib, run, steps, k);
    hide IsRun, Find, BodyOk, Listed, HistoryOk;
  }
}
