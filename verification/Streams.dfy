/**
 * What SQL says about a message over time, and what an observer of its events sees.
 * A revision determines the logical content; an event that SQL accepted leads from the
 * content before it to the content at its own sequence number.
 */
module Streams {
  import opened Wrappers
  import opened Agentue

  /** One revision: its content and status, and the event that made it, unless something else did. */
  datatype Version = Version(content: Model, status: Status, made: Option<Event>)

  /** All revisions of a message; revision r is at index r - 1. */
  type History = seq<Version>

  /** A replacement brings new content and either keeps the remembered write or forgets it. */
  datatype SqlWrite = Projecting(event: Event, status: Option<Status>, harnessWrite: bool) | Expiring | Replacing(content: Model, forget: bool)

  function Current(h: History): Message
    requires h != []
  {
    Message(h[|h| - 1].status, |h|, h[|h| - 1].content)
  }

  /** What a write adds; a refused or repeated one adds nothing. */
  function Written(lib: Library, h: History, write: SqlWrite): History
    requires h != []
  {
    var last := h[|h| - 1];
    match write
    case Projecting(e, status, harnessWrite) =>
      if e.op == End && !(status.Some? && Terminal(status.value)) then h
      else
        (match Project(lib, Current(h), e, status, harnessWrite)
         case Err(_) => h
         case Ok(m) => if m.revision == |h| then h else h + [Version(m.content, m.status, Some(e))])
    case Expiring => if Terminal(last.status) then h else h + [Version(last.content, Expired, None)]
    case Replacing(content, forget) =>
      h + [Version(content.(meta := content.meta.(output := if forget then None else last.content.meta.output)), last.status, None)]
  }

  ghost predicate MadeOk(lib: Library, h: History, r: nat)
    requires 0 < r < |h|
  {
    h[r].made.Some? ==>
      var e := h[r].made.value;
      && e.seqno == r + 1
      && Apply(lib, h[r - 1].content, e).Some? && SameContent(Apply(lib, h[r - 1].content, e).value, h[r].content)
      && (e.op == End ==> Terminal(h[r].status))
  }

  ghost predicate HistoryOk(lib: Library, h: History) {
    && h != [] && h[0].made.None?
    && (forall r :: 0 < r < |h| ==> MadeOk(lib, h, r))
    && (h[|h| - 1].content.meta.output.Some? ==> OutputOk(h, h[|h| - 1].content.meta.output.value))
  }

  /** The remembered write made its own revision, if that is the current one. */
  predicate OutputOk(h: History, f: Fingerprint)
    requires h != []
  {
    f.event.seqno <= |h| && (f.event.seqno == |h| ==> h[|h| - 1].made == Some(f.event))
  }

  lemma WrittenKeeps(lib: Library, h: History, write: SqlWrite)
    requires HistoryOk(lib, h)
    ensures HistoryOk(lib, Written(lib, h, write)) && h <= Written(lib, h, write)
  {
    hide Apply;
    var next := Written(lib, h, write);
    if next != h {
      assert next[..|h|] == h;
      forall r | 0 < r < |next| ensures MadeOk(lib, next, r) {
        if r < |h| {
          assert MadeOk(lib, h, r);
        } else if write.Projecting? {
          assert Refusal(Current(h), write.event, write.harnessWrite).None?;
        }
      }
    }
  }

  // ---------- events ----------

  /** What travels to observers: a full snapshot, one accepted update, the end, or a heartbeat. */
  datatype StreamEvent = StartAt(seqno: nat, model: Model) | Patch(event: Event) | EndAt(seqno: nat) | PingAt(seqno: nat)

  function Seq(ev: StreamEvent): nat {
    match ev
    case StartAt(seqno, _) => seqno
    case Patch(e) => e.seqno
    case EndAt(seqno) => seqno
    case PingAt(seqno) => seqno
  }

  /** What the bridge may hold: SQL snapshots, and events that made their revision. */
  ghost predicate Truthful(h: History, ev: StreamEvent) {
    match ev
    case StartAt(seqno, model) => 1 <= seqno <= |h| && SameContent(model, h[seqno - 1].content)
    case Patch(e) => 2 <= e.seqno <= |h| && h[e.seqno - 1].made == Some(e)
    case EndAt(_) => false
    case PingAt(_) => true
  }

  /** publish: the accepted event itself when the bridge is just behind it, a snapshot otherwise, or nothing. */
  function Published(h: History, bridge: Option<nat>, e: Event, revision: nat): Option<StreamEvent>
    requires h != []
  {
    if bridge.None? then Some(StartAt(|h|, h[|h| - 1].content))
    else if bridge.value < revision then
      if bridge.value + 1 != e.seqno || revision != e.seqno then Some(StartAt(|h|, h[|h| - 1].content)) else Some(Patch(e))
    else None
  }

  /** An update that SQL acknowledged, newly or as a repetition, made the revision with its number. */
  lemma AcknowledgedMade(lib: Library, h: History, e: Event, status: Option<Status>, harnessWrite: bool)
    requires HistoryOk(lib, h) && Project(lib, Current(h), e, status, harnessWrite).Ok?
    requires e.op == End ==> status.Some? && Terminal(status.value)
    ensures
      var next := Written(lib, h, Projecting(e, status, harnessWrite));
      1 <= e.seqno <= |next| && next[e.seqno - 1].made == Some(e)
  {
    hide Apply;
  }

  /** Whatever the bridge has seen and whoever wrote in between, what is published for an acknowledged update is truthful. */
  lemma PublishedTruthful(lib: Library, h: History, bridge: Option<nat>, e: Event, revision: nat)
    requires HistoryOk(lib, h) && 1 <= e.seqno <= |h| && h[e.seqno - 1].made == Some(e)
    ensures Published(h, bridge, e, revision).Some? ==> Truthful(h, Published(h, bridge, e, revision).value)
  {
    assert e.seqno >= 2;
  }

  // ---------- observers ----------

  datatype View = View(revision: nat, content: Model)

  /** What an observer has after one more event. */
  function Shown(lib: Library, v: Option<View>, ev: StreamEvent): Option<View> {
    match ev
    case StartAt(seqno, model) => Some(View(seqno, model))
    case Patch(e) =>
      if v.None? then None
      else
        (match Apply(lib, v.value.content, e)
         case None => None
         case Some(content) => Some(View(e.seqno, content)))
    case EndAt(_) => v
    case PingAt(_) => v
  }

  function Fold(lib: Library, out: seq<StreamEvent>): Option<View> {
    if out == [] then None else Shown(lib, Fold(lib, out[..|out| - 1]), out[|out| - 1])
  }

  predicate Bearing(ev: StreamEvent) {
    ev.StartAt? || (ev.Patch? && ev.event.op != End)
  }

  /** The last revision whose content was delivered. */
  function LastBearing(out: seq<StreamEvent>): nat {
    if out == [] then 0
    else if Bearing(out[|out| - 1]) then Seq(out[|out| - 1])
    else LastBearing(out[..|out| - 1])
  }

  /** Content-bearing revisions strictly increase. */
  predicate Increasing(out: seq<StreamEvent>) {
    out == [] || (Increasing(out[..|out| - 1]) && (Bearing(out[|out| - 1]) ==> Seq(out[|out| - 1]) > LastBearing(out[..|out| - 1])))
  }

  /** The observer is at `revision` and has its content. */
  ghost predicate Follows(lib: Library, h: History, out: seq<StreamEvent>, revision: nat) {
    && 1 <= revision <= |h| && LastBearing(out) <= revision && Increasing(out)
    && Fold(lib, out).Some?
    && var v := Fold(lib, out).value;
       v.revision == revision && SameContent(v.content, h[revision - 1].content)
  }

  lemma FollowsLater(lib: Library, h: History, later: History, out: seq<StreamEvent>, revision: nat)
    requires Follows(lib, h, out, revision) && h <= later
    ensures Follows(lib, later, out, revision)
  {
    hide Fold, Increasing, LastBearing;
  }

  /** A snapshot ahead of the observer moves it there. */
  lemma FollowsStart(lib: Library, h: History, out: seq<StreamEvent>, model: Model, seqno: nat)
    requires Truthful(h, StartAt(seqno, model))
    requires out == [] || exists revision: nat :: revision < seqno && Follows(lib, h, out, revision)
    ensures Follows(lib, h, out + [StartAt(seqno, model)], seqno)
  {
    assert (out + [StartAt(seqno, model)])[..|out|] == out;
  }

  /** The next accepted update moves the observer by one, to SQL's content. */
  lemma FollowsPatch(lib: Library, h: History, out: seq<StreamEvent>, e: Event, revision: nat)
    requires HistoryOk(lib, h) && Truthful(h, Patch(e)) && Follows(lib, h, out, revision) && e.seqno == revision + 1
    ensures Follows(lib, h, out + [Patch(e)], e.seqno)
  {
    hide Apply;
    assert (out + [Patch(e)])[..|out|] == out;
    assert MadeOk(lib, h, revision);
    ApplySameContent(lib, Fold(lib, out).value.content, h[revision - 1].content, e);
  }

  lemma FollowsQuiet(lib: Library, h: History, out: seq<StreamEvent>, ev: StreamEvent, revision: nat)
    requires Follows(lib, h, out, revision) && (ev.EndAt? || ev.PingAt?)
    ensures Follows(lib, h, out + [ev], revision)
  {
    assert (out + [ev])[..|out|] == out;
  }
}
