/** One stream of a conversation: every active message is watched, and repaired from SQL. */
module ConvListeners {
  import opened Wrappers
  import opened Agentue
  import opened Streams

  /** A row as a query returns it; `human` marks a pending human card. */
  datatype Row = Row(id: nat, message: Message, human: bool)

  /** An active message: the last delivered revision, the status last seen, and its current bridge reader. */
  datatype Watch = Watch(revision: nat, status: Status, reader: Option<nat>)

  /** `outs` is what was delivered, by the message it is addressed to. */
  datatype Listener = Listener(watching: map<nat, Watch>, outs: map<nat, seq<StreamEvent>>, after: nat, readers: nat)

  function Out(l: Listener, id: nat): seq<StreamEvent> {
    if id in l.outs then l.outs[id] else []
  }

  function Delivered(l: Listener, id: nat, events: seq<StreamEvent>): Listener {
    l.(outs := l.outs[id := Out(l, id) + events])
  }

  /** snapshot: the full message when it is ahead of the watch, and its end if it has ended. */
  function Snapshots(revision: nat, m: Message): seq<StreamEvent> {
    if revision >= m.revision then []
    else [StartAt(m.revision, m.content)] + if Terminal(m.status) then [EndAt(m.revision)] else []
  }

  /** observe: delivers what is new and keeps watching only what can still change. */
  function Observed(l: Listener, row: Row): Listener {
    var watch := if row.id in l.watching then l.watching[row.id] else Watch(0, row.message.status, None);
    var sent := Snapshots(watch.revision, row.message);
    var told := if sent == [] then l else Delivered(l, row.id, sent);
    var revision := if watch.revision >= row.message.revision then watch.revision else row.message.revision;
    if !Terminal(row.message.status) || row.human then
      var start := !Terminal(row.message.status) && watch.reader.None?;
      told.(watching := told.watching[row.id := Watch(revision, row.message.status, if start then Some(l.readers) else watch.reader)],
            readers := if start then l.readers + 1 else l.readers)
    else told.(watching := told.watching - {row.id})
  }

  /** discover: rows in id order, each observed once. */
  function Discovered(l: Listener, rows: seq<Row>): Listener
    decreases |rows|
  {
    if rows == [] then l else Discovered(Observed(l, rows[0]).(after := rows[0].id), rows[1..])
  }

  lemma DiscoveredOne(l: Listener, row: Row)
    ensures Discovered(l, [row]) == Observed(l, row).(after := row.id)
  {
    hide Observed;
    assert [row][1..] == [];
  }

  lemma DeliveredBoth(l: Listener, id: nat, a: StreamEvent, b: StreamEvent)
    ensures Delivered(Delivered(l, id, [a]), id, [b]) == Delivered(l, id, [a] + [b])
  {
    assert Out(l, id) + [a] + [b] == Out(l, id) + ([a] + [b]);
  }

  datatype Reaction = Passed | Dropped | Reread

  /** One delivery of a bridge reader. */
  function Heard(l: Listener, id: nat, reader: nat, ev: Option<StreamEvent>): (Listener, Reaction) {
    if id !in l.watching || l.watching[id].reader != Some(reader) then (l, Dropped)
    else
      var watch := l.watching[id];
      match ev
      case None => (l.(watching := l.watching[id := watch.(reader := None)]), Dropped)
      case Some(e) =>
        if e.EndAt? || (e.Patch? && e.event.op == End) || (e.StartAt? && e.seqno > watch.revision) then (l, Reread)
        else if !e.Patch? || Seq(e) <= watch.revision || Seq(e) != watch.revision + 1 then (l, Dropped)
        else (Delivered(l.(watching := l.watching[id := watch.(revision := Seq(e))]), id, [e]), Passed)
  }

  /** refreshActive drops a message whose state shows it over and nothing newer than the watch. */
  function Refreshed(l: Listener, id: nat, revision: nat, status: Status, human: bool): Listener {
    if id in l.watching && revision <= l.watching[id].revision && status == l.watching[id].status && Terminal(status) && !human then
      l.(watching := l.watching - {id})
    else l
  }

  class ConvListener {
    var watching: map<nat, Watch>
    var outs: map<nat, seq<StreamEvent>>
    var after: nat
    var readers: nat

    ghost function State(): Listener
      reads this
    {
      Listener(watching, outs, after, readers)
    }

    constructor ()
      ensures State() == Listener(map[], map[], 0, 0)
    {
      watching, outs, after, readers := map[], map[], 0, 0;
    }

    method Deliver(id: nat, ev: StreamEvent)
      modifies `outs
      ensures State() == Delivered(old(State()), id, [ev])
    {
      outs := outs[id := (if id in outs then outs[id] else []) + [ev]];
    }

    method Observe(row: Row)
      modifies this
      ensures State() == Observed(old(State()), row)
    {
      var watch := if row.id in watching then watching[row.id] else Watch(0, row.message.status, None);
      if watch.revision < row.message.revision {
        Deliver(row.id, StartAt(row.message.revision, row.message.content));
        assert [StartAt(row.message.revision, row.message.content)] + [] == [StartAt(row.message.revision, row.message.content)];
        watch := watch.(revision := row.message.revision);
        if Terminal(row.message.status) {
          Deliver(row.id, EndAt(row.message.revision));
          DeliveredBoth(old(State()), row.id, StartAt(row.message.revision, row.message.content), EndAt(row.message.revision));
        }
      }
      watch := watch.(status := row.message.status);
      if !Terminal(row.message.status) || row.human {
        if !Terminal(row.message.status) && watch.reader.None? {
          watch := watch.(reader := Some(readers));
          readers := readers + 1;
        }
        watching := watching[row.id := watch];
      } else {
        watching := watching - {row.id};
      }
    }

    method Discover(rows: seq<Row>)
      modifies this
      ensures State() == Discovered(old(State()), rows)
    {
      var i := 0;
      assert rows[0..] == rows;
      while i < |rows|
        invariant 0 <= i <= |rows|
        invariant Discovered(State(), rows[i..]) == Discovered(old(State()), rows)
      {
        assert rows[i..][0] == rows[i] && rows[i..][1..] == rows[i + 1..];
        Observe(rows[i]);
        after := rows[i].id;
        i := i + 1;
      }
    }

    method Hear(id: nat, reader: nat, ev: Option<StreamEvent>) returns (r: Reaction)
      modifies this
      ensures (State(), r) == Heard(old(State()), id, reader, ev)
    {
      if id !in watching || watching[id].reader != Some(reader) {
        return Dropped;
      }
      var watch := watching[id];
      if ev.None? {
        watching := watching[id := watch.(reader := None)];
        return Dropped;
      }
      var e := ev.value;
      if e.EndAt? || (e.Patch? && e.event.op == End) || (e.StartAt? && e.seqno > watch.revision) {
        return Reread;
      }
      if !e.Patch? || Seq(e) <= watch.revision || Seq(e) != watch.revision + 1 {
        return Dropped;
      }
      watching := watching[id := watch.(revision := Seq(e))];
      Deliver(id, e);
      r := Passed;
    }

    method Refresh(id: nat, revision: nat, status: Status, human: bool)
      modifies this
      ensures State() == Refreshed(old(State()), id, revision, status, human)
    {
      if id in watching && revision <= watching[id].revision && status == watching[id].status && Terminal(status) && !human {
        watching := watching - {id};
      }
    }
  }

  // ---------- the listener beside SQL and the bridge ----------

  /** `histories` are all messages by id; a query sees the current revision of each. */
  datatype System = System(histories: map<nat, History>, listener: Listener)

  datatype Step =
    | Create(id: nat, content: Model, status: Status)
    | Sql(id: nat, write: SqlWrite)
    | Discover(id: nat, human: bool)
    | Observe(id: nat, human: bool)
    | Receive(id: nat, reader: nat, ev: Option<StreamEvent>)
    | Refresh(id: nat, revision: nat, status: Status, human: bool)
    | Watermark(id: nat)

  function RowOf(s: System, id: nat, human: bool): Row
    requires id in s.histories && s.histories[id] != []
  {
    Row(id, Current(s.histories[id]), human)
  }

  /** The bridge delivers any truthful event at any time; discovery meets each id once, in increasing order. */
  ghost function Next(lib: Library, s: System, step: Step): System {
    match step
    case Create(id, content, status) =>
      if id in s.histories || content.meta.output.Some? then s else s.(histories := s.histories[id := [Version(content, status, None)]])
    case Sql(id, write) =>
      if id in s.histories && s.histories[id] != [] then s.(histories := s.histories[id := Written(lib, s.histories[id], write)]) else s
    case Discover(id, human) =>
      if id in s.histories && s.histories[id] != [] && id > s.listener.after then s.(listener := Discovered(s.listener, [RowOf(s, id, human)])) else s
    case Observe(id, human) =>
      if id in s.histories && s.histories[id] != [] && id in s.listener.watching then s.(listener := Observed(s.listener, RowOf(s, id, human))) else s
    case Receive(id, reader, ev) =>
      if id in s.histories && (ev.Some? ==> Truthful(s.histories[id], ev.value)) then s.(listener := Heard(s.listener, id, reader, ev).0) else s
    case Refresh(id, revision, status, human) => s.(listener := Refreshed(s.listener, id, revision, status, human))
    case Watermark(id) => if id > s.listener.after then s.(listener := s.listener.(after := id)) else s
  }

  /** What was delivered for one message, and the watch on it. */
  ghost predicate MessageOk(lib: Library, s: System, id: nat) {
    var l := s.listener;
    && (id in s.histories ==> HistoryOk(lib, s.histories[id]))
    && (id in l.outs ==> id in s.histories && id <= l.after && (exists revision: nat :: Follows(lib, s.histories[id], l.outs[id], revision)))
    && (id in l.watching ==> id in l.outs && id in s.histories && Follows(lib, s.histories[id], l.outs[id], l.watching[id].revision))
  }

  ghost predicate Inv(lib: Library, s: System) {
    forall id :: MessageOk(lib, s, id)
  }

  /** A step about one message leaves every other message as it was. */
  ghost predicate OnlyAbout(s: System, next: System, id: nat) {
    && s.listener.after <= next.listener.after
    && (forall other :: other != id && other in s.histories ==> other in next.histories && next.histories[other] == s.histories[other])
    && (forall other :: other != id && other in next.histories ==> other in s.histories)
    && (forall other :: other != id ==> (other in next.listener.outs <==> other in s.listener.outs) && (other in next.listener.watching <==> other in s.listener.watching))
    && (forall other :: other != id && other in s.listener.outs ==> next.listener.outs[other] == s.listener.outs[other])
    && (forall other :: other != id && other in s.listener.watching ==> next.listener.watching[other] == s.listener.watching[other])
  }

  lemma OthersKeep(lib: Library, s: System, next: System, id: nat)
    requires Inv(lib, s) && OnlyAbout(s, next, id) && MessageOk(lib, next, id)
    ensures Inv(lib, next)
  {
    hide Follows, HistoryOk;
    forall other ensures MessageOk(lib, next, other) {
      assert MessageOk(lib, s, other);
    }
  }

  lemma ObservedFollows(lib: Library, s: System, row: Row)
    requires MessageOk(lib, s, row.id) && row.id in s.histories && s.histories[row.id] != [] && row.message == Current(s.histories[row.id])
    requires row.id in s.listener.watching || row.id !in s.listener.outs
    ensures
      var (l, h) := (Observed(s.listener, row), s.histories[row.id]);
      && row.id in l.outs && (exists revision: nat :: Follows(lib, h, l.outs[row.id], revision))
      && (row.id in l.watching ==> Follows(lib, h, l.outs[row.id], l.watching[row.id].revision))
  {
    hide Follows, HistoryOk;
    var (l, h, m) := (s.listener, s.histories[row.id], row.message);
    var out := Out(l, row.id);
    var watch := if row.id in l.watching then l.watching[row.id] else Watch(0, m.status, None);
    if watch.revision < m.revision {
      FollowsStart(lib, h, out, m.content, m.revision);
      var told := out + [StartAt(m.revision, m.content)];
      assert !Terminal(m.status) ==> out + Snapshots(watch.revision, m) == told;
      if Terminal(m.status) {
        FollowsQuiet(lib, h, told, EndAt(m.revision), m.revision);
        assert told + [EndAt(m.revision)] == out + Snapshots(watch.revision, m);
      }
    } else {
      WatchedAhead(lib, h, out, watch.revision);
    }
  }

  lemma WatchedAhead(lib: Library, h: History, out: seq<StreamEvent>, revision: nat)
    ensures Follows(lib, h, out, revision) ==> revision <= |h|
  {
    hide Fold, Increasing, LastBearing;
  }

  lemma HeardFollows(lib: Library, s: System, id: nat, reader: nat, ev: Option<StreamEvent>)
    requires MessageOk(lib, s, id) && id in s.histories && (ev.Some? ==> Truthful(s.histories[id], ev.value))
    ensures MessageOk(lib, s.(listener := Heard(s.listener, id, reader, ev).0), id)
  {
    hide Follows, MadeOk;
    var l := s.listener;
    if id in l.watching && ev.Some? && ev.value.Patch? && Seq(ev.value) == l.watching[id].revision + 1 {
      FollowsPatch(lib, s.histories[id], l.outs[id], ev.value.event, l.watching[id].revision);
    }
  }

  lemma SqlFollows(lib: Library, s: System, id: nat, write: SqlWrite)
    requires MessageOk(lib, s, id) && id in s.histories && s.histories[id] != []
    ensures MessageOk(lib, s.(histories := s.histories[id := Written(lib, s.histories[id], write)]), id)
  {
    hide Follows, HistoryOk;
    var h := s.histories[id];
    WrittenKeeps(lib, h, write);
    var later := Written(lib, h, write);
    if id in s.listener.outs {
      var revision: nat :| Follows(lib, h, s.listener.outs[id], revision);
      FollowsLater(lib, h, later, s.listener.outs[id], revision);
    }
    if id in s.listener.watching {
      FollowsLater(lib, h, later, s.listener.outs[id], s.listener.watching[id].revision);
    }
  }

  lemma CreateFollows(lib: Library, s: System, id: nat, content: Model, status: Status)
    requires MessageOk(lib, s, id) && id !in s.histories && content.meta.output.None?
    ensures MessageOk(lib, s.(histories := s.histories[id := [Version(content, status, None)]]), id)
  {
    hide Follows;
  }

  /** The message a step is about. */
  function About(step: Step): nat {
    match step
    case Create(id, _, _) => id
    case Sql(id, _) => id
    case Discover(id, _) => id
    case Observe(id, _) => id
    case Receive(id, _, _) => id
    case Refresh(id, _, _, _) => id
    case Watermark(id) => id
  }

  lemma StepAbout(lib: Library, s: System, step: Step)
    ensures OnlyAbout(s, Next(lib, s, step), About(step))
  {
    hide Written, Truthful, Snapshots;
    if step.Discover? && step.id in s.histories && s.histories[step.id] != [] {
      DiscoveredOne(s.listener, RowOf(s, step.id, step.human));
    }
  }

  lemma StepMessage(lib: Library, s: System, step: Step)
    requires MessageOk(lib, s, About(step))
    ensures MessageOk(lib, Next(lib, s, step), About(step))
  {
    hide Follows, HistoryOk, Written, Truthful, Heard;
    match step
    case Create(id, content, status) =>
      if id !in s.histories && content.meta.output.None? {
        CreateFollows(lib, s, id, content, status);
      }
    case Sql(id, write) =>
      if id in s.histories && s.histories[id] != [] {
        SqlFollows(lib, s, id, write);
      }
    case Discover(id, human) => if id in s.histories && s.histories[id] != [] && id > s.listener.after {
        DiscoveredOne(s.listener, RowOf(s, id, human));
        ObservedFollows(lib, s, RowOf(s, id, human));
      }
    case Observe(id, human) => if id in s.histories && s.histories[id] != [] && id in s.listener.watching { ObservedFollows(lib, s, RowOf(s, id, human)); }
    case Receive(id, reader, ev) =>
      if id in s.histories && (ev.Some? ==> Truthful(s.histories[id], ev.value)) {
        HeardFollows(lib, s, id, reader, ev);
      }
    case Refresh(_, _, _, _) =>
    case Watermark(_) =>
  }

  lemma NextKeeps(lib: Library, s: System, step: Step)
    requires Inv(lib, s)
    ensures Inv(lib, Next(lib, s, step))
  {
    assert MessageOk(lib, s, About(step));
    hide OnlyAbout, MessageOk, Inv, Next;
    StepAbout(lib, s, step);
    StepMessage(lib, s, step);
    OthersKeep(lib, s, Next(lib, s, step), About(step));
  }

  ghost function Exec(lib: Library, s: System, steps: seq<Step>): System {
    if steps == [] then s else Next(lib, Exec(lib, s, steps[..|steps| - 1]), steps[|steps| - 1])
  }

  function Initial(): System {
    System(map[], Listener(map[], map[], 0, 0))
  }

  /**
   * For every message of the conversation, whatever the bridge loses, repeats or reorders
   * and whenever SQL is read: what was delivered folds to SQL's content at the last delivered
   * revision, content-bearing revisions strictly increase, and a watched message is at the
   * revision the listener remembers.
   */
  lemma {:induction false} ObserversAreConsistent(lib: Library, steps: seq<Step>, id: nat)
    ensures
      var s := Exec(lib, Initial(), steps);
      && Inv(lib, s)
      && (id in s.listener.outs ==> id in s.histories && exists revision: nat :: Follows(lib, s.histories[id], s.listener.outs[id], revision))
      && (id in s.listener.watching ==> id in s.listener.outs && id in s.histories
                                        && Follows(lib, s.histories[id], s.listener.outs[id], s.listener.watching[id].revision))
  {
    if steps == [] {
    } else {
      hide Follows, Next, HistoryOk;
      ObserversAreConsistent(lib, steps[..|steps| - 1], id);
      NextKeeps(lib, Exec(lib, Initial(), steps[..|steps| - 1]), steps[|steps| - 1]);
      assert MessageOk(lib, Exec(lib, Initial(), steps), id);
    }
  }
}
