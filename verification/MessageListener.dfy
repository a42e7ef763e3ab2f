/** One stream of one run's message: bridge increments, repaired from SQL. */
module MessageListeners {
  import opened Wrappers
  import opened Agentue
  import opened Streams

  /** What the listener remembers, and everything it has delivered. */
  datatype Listener = Listener(revision: nat, out: seq<StreamEvent>, done: bool)

  function Begun(m: Message): Listener {
    var start := [StartAt(m.revision, m.content)];
    if Terminal(m.status) then Listener(m.revision, start + [EndAt(m.revision)], true) else Listener(m.revision, start, false)
  }

  datatype Reaction = Delivered | Ignored | NeedsRepair

  /** One event from the bridge. */
  function Heard(l: Listener, ev: StreamEvent): (Listener, Reaction) {
    if ev.PingAt? then (l.(out := l.out + [ev]), Delivered)
    else if Seq(ev) <= l.revision then (l, Ignored)
    else if !ev.StartAt? && Seq(ev) != l.revision + 1 then (l, NeedsRepair)
    else (Listener(Seq(ev), l.out + [ev], ev.EndAt? || (ev.Patch? && ev.event.op == End)), Delivered)
  }

  /** repair: a state read first, and the full message only if the state is ahead. */
  function Repaired(l: Listener, seen: nat, ended: bool, m: Message): Listener {
    var next := if seen > l.revision then l.(out := l.out + [StartAt(m.revision, m.content)], revision := m.revision) else l;
    if ended then next.(out := next.out + [EndAt(next.revision)], done := true) else next
  }

  class MessageListener {
    var revision: nat
    var out: seq<StreamEvent>
    var done: bool

    ghost function State(): Listener
      reads this
    {
      Listener(revision, out, done)
    }

    /** Run up to its loop: the full message first, and nothing more when it has ended. */
    constructor (m: Message)
      ensures State() == Begun(m)
    {
      revision := m.revision;
      out := if Terminal(m.status) then [StartAt(m.revision, m.content), EndAt(m.revision)] else [StartAt(m.revision, m.content)];
      done := Terminal(m.status);
    }

    method Deliver(ev: StreamEvent)
      modifies `out
      ensures out == old(out) + [ev]
    {
      out := out + [ev];
    }

    method Hear(ev: StreamEvent) returns (r: Reaction)
      modifies this
      ensures (State(), r) == Heard(old(State()), ev) || (old(done) && r == Ignored && State() == old(State()))
      ensures !old(done) ==> (State(), r) == Heard(old(State()), ev)
    {
      if done {
        return Ignored;
      }
      if ev.PingAt? {
        Deliver(ev);
        return Delivered;
      }
      if Seq(ev) <= revision {
        return Ignored;
      }
      if !ev.StartAt? && Seq(ev) != revision + 1 {
        return NeedsRepair;
      }
      Deliver(ev);
      revision := Seq(ev);
      done := ev.EndAt? || (ev.Patch? && ev.event.op == End);
      r := Delivered;
    }

    method Repair(seen: nat, ended: bool, m: Message)
      modifies this
      ensures State() == if old(done) then old(State()) else Repaired(old(State()), seen, ended, m)
    {
      if done {
        return;
      }
      if seen > revision {
        Deliver(StartAt(m.revision, m.content));
        revision := m.revision;
      }
      if ended {
        Deliver(EndAt(revision));
        done := true;
      }
    }
  }

  // ---------- the listener beside SQL and the bridge ----------

  /** `seen` is a state that a repair in progress has read. */
  datatype System = System(history: History, listener: Option<Listener>, seen: Option<(nat, bool)>)

  datatype Step =
    | Sql(event: Event, status: Option<Status>)
    | Begin
    | Receive(ev: StreamEvent)
    | ReadState
    | ReadMessage

  predicate Listening(s: System) {
    s.listener.Some? && !s.listener.value.done
  }

  /** A run's message has no writers but its harness; the bridge delivers any truthful event at any time. */
  ghost function Next(lib: Library, s: System, step: Step): System
    requires s.history != []
  {
    match step
    case Sql(event, status) => s.(history := Written(lib, s.history, Projecting(event, status, true)))
    case Begin => if s.listener.None? then s.(listener := Some(Begun(Current(s.history)))) else s
    case Receive(ev) =>
      if Listening(s) && s.seen.None? && Truthful(s.history, ev) then s.(listener := Some(Heard(s.listener.value, ev).0)) else s
    case ReadState =>
      if Listening(s) && s.seen.None? then s.(seen := Some((|s.history|, Terminal(Current(s.history).status)))) else s
    case ReadMessage =>
      if Listening(s) && s.seen.Some? then
        s.(seen := None, listener := Some(Repaired(s.listener.value, s.seen.value.0, s.seen.value.1, Current(s.history))))
      else s
  }

  /** Only the last revision is terminal. */
  ghost predicate EndsOnce(h: History) {
    forall r :: 0 <= r < |h| - 1 ==> !Terminal(h[r].status)
  }

  ghost predicate Inv(lib: Library, s: System) {
    && HistoryOk(lib, s.history) && EndsOnce(s.history)
    && (s.seen.Some? ==> Listening(s) && 1 <= s.seen.value.0 <= |s.history| && s.seen.value.1 == Terminal(s.history[s.seen.value.0 - 1].status))
    && (s.listener.Some? ==>
          && Follows(lib, s.history, s.listener.value.out, s.listener.value.revision)
          && (s.listener.value.done ==> Terminal(s.history[|s.history| - 1].status) && s.listener.value.revision == |s.history|))
  }

  lemma SqlKeeps(lib: Library, s: System, event: Event, status: Option<Status>)
    requires Inv(lib, s)
    ensures Inv(lib, Next(lib, s, Sql(event, status)))
  {
    hide Follows, HistoryOk, Project;
    var h := s.history;
    NotEmpty(lib, h);
    var later := Written(lib, h, Projecting(event, status, true));
    WrittenKeeps(lib, h, Projecting(event, status, true));
    if later != h {
      OpenBefore(lib, h, event, status);
    }
    if s.listener.Some? {
      FollowsLater(lib, h, later, s.listener.value.out, s.listener.value.revision);
    }
  }

  lemma NotEmpty(lib: Library, h: History)
    requires HistoryOk(lib, h)
    ensures h != []
  {
  }

  lemma OpenBefore(lib: Library, h: History, event: Event, status: Option<Status>)
    requires h != [] && Written(lib, h, Projecting(event, status, true)) != h
    ensures !Terminal(h[|h| - 1].status) && |Written(lib, h, Projecting(event, status, true))| == |h| + 1
  {
    hide Apply;
  }

  lemma BeginKeeps(lib: Library, s: System)
    requires Inv(lib, s)
    ensures Inv(lib, Next(lib, s, Begin))
  {
    hide HistoryOk;
    NotEmpty(lib, s.history);
    if s.listener.None? {
      var m := Current(s.history);
      FollowsStart(lib, s.history, [], m.content, m.revision);
      assert [] + [StartAt(m.revision, m.content)] == [StartAt(m.revision, m.content)];
      hide Follows;
      if Terminal(m.status) {
        FollowsQuiet(lib, s.history, [StartAt(m.revision, m.content)], EndAt(m.revision), m.revision);
      }
    }
  }

  lemma ReceiveKeeps(lib: Library, s: System, ev: StreamEvent)
    requires Inv(lib, s)
    ensures Inv(lib, Next(lib, s, Receive(ev)))
  {
    hide Follows, MadeOk;
    if Listening(s) && s.seen.None? && Truthful(s.history, ev) {
      var l, h := s.listener.value, s.history;
      if ev.PingAt? {
        FollowsQuiet(lib, h, l.out, ev, l.revision);
      } else if ev.StartAt? && Seq(ev) > l.revision {
        FollowsStart(lib, h, l.out, ev.model, ev.seqno);
      } else if ev.Patch? && Seq(ev) == l.revision + 1 {
        FollowsPatch(lib, h, l.out, ev.event, l.revision);
        EndIsLast(lib, h, ev.event);
      }
    }
  }

  lemma EndIsLast(lib: Library, h: History, e: Event)
    requires HistoryOk(lib, h) && EndsOnce(h) && Truthful(h, Patch(e))
    ensures e.op == End ==> e.seqno == |h| && Terminal(h[|h| - 1].status)
  {
    assert MadeOk(lib, h, e.seqno - 1);
  }

  lemma RepairKeeps(lib: Library, s: System)
    requires Inv(lib, s)
    ensures Inv(lib, Next(lib, s, ReadState)) && Inv(lib, Next(lib, s, ReadMessage))
  {
    hide Follows, MadeOk;
    if Listening(s) && s.seen.Some? {
      var l, h := s.listener.value, s.history;
      var (seen, ended) := s.seen.value;
      var m := Current(h);
      AheadOf(lib, h, l.out, l.revision);
      var next := l;
      if seen > l.revision {
        FollowsStart(lib, h, l.out, m.content, m.revision);
        next := l.(out := l.out + [StartAt(m.revision, m.content)], revision := m.revision);
      }
      if ended {
        FollowsQuiet(lib, h, next.out, EndAt(next.revision), next.revision);
      }
    }
  }

  lemma AheadOf(lib: Library, h: History, out: seq<StreamEvent>, revision: nat)
    requires Follows(lib, h, out, revision)
    ensures 1 <= revision <= |h|
  {
    hide Fold, Increasing, LastBearing;
  }

  ghost function Exec(lib: Library, s: System, steps: seq<Step>): System
    requires s.history != []
    ensures Exec(lib, s, steps).history != []
  {
    if steps == [] then s
    else
      var before := Exec(lib, s, steps[..|steps| - 1]);
      Next(lib, before, steps[|steps| - 1])
  }

  function Initial(content: Model): System {
    System([Version(content, Streaming, None)], None, None)
  }

  lemma {:induction false} Reachable(lib: Library, content: Model, steps: seq<Step>)
    requires content.meta.output.None?
    ensures Inv(lib, Exec(lib, Initial(content), steps))
  {
    if steps != [] {
      hide Inv, Next;
      Reachable(lib, content, steps[..|steps| - 1]);
      var s, step := Exec(lib, Initial(content), steps[..|steps| - 1]), steps[|steps| - 1];
      match step
      case Sql(event, status) => SqlKeeps(lib, s, event, status);
      case Begin => BeginKeeps(lib, s);
      case Receive(ev) => ReceiveKeeps(lib, s, ev);
      case ReadState => RepairKeeps(lib, s);
      case ReadMessage => RepairKeeps(lib, s);
    }
  }

  /**
   * Under any loss, duplication or reordering of deliveries and any timing of repairs: what
   * the observer has folded is SQL's content at the last delivered revision, content-bearing
   * revisions strictly increase, and the stream ends only when the observer has the final content.
   */
  lemma ObserverIsConsistent(lib: Library, content: Model, steps: seq<Step>)
    requires content.meta.output.None?
    ensures
      var s := Exec(lib, Initial(content), steps);
      s.listener.Some? ==>
        var l := s.listener.value;
        && Follows(lib, s.history, l.out, l.revision)
        && (l.done ==> Terminal(Current(s.history).status) && SameContent(Fold(lib, l.out).value.content, Current(s.history).content))
  {
    Reachable(lib, content, steps);
    hide Exec, HistoryOk, Increasing, LastBearing;
  }
}
