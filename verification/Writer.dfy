/**
 * One logical writer of a message and the server that accepts its updates, over a
 * network that may lose, delay and repeat requests and responses.
 */
module Writers {
  import opened Wrappers
  import opened Agentue

  datatype WriterError = MessageEnded | InvalidEmit | EndStatusInvalid | EndStatusConflict | PendingUpdate | WriteFailed

  /** The body of one update: the numbered event and the status it carries. */
  datatype Request = Request(event: Event, status: Option<Status>)

  /** A handle on a message: the next sequence number and the one update whose outcome is unknown. */
  datatype Writer = Writer(next: nat, ended: bool, pending: Option<Request>, status: Status, revision: nat)

  function NewWriter(revision: nat, status: Status): Writer {
    Writer(if revision + 1 < 2 then 2 else revision + 1, Terminal(status), None, status, revision)
  }

  /** emit up to the request: an update of unknown outcome may only be repeated. */
  function Prepared(w: Writer, e: Event, status: Option<Status>): Result<Request, WriterError> {
    var request := Request(e.(seqno := w.next), status);
    if w.pending.Some? && w.pending != Some(request) then Err(PendingUpdate) else Ok(request)
  }

  /** emit after the request: only an acknowledged update moves the sequence on. */
  function Settled(w: Writer, request: Request, ok: bool): Writer {
    if !ok then w.(pending := Some(request))
    else
      w.(pending := None, next := request.event.seqno + 1, revision := request.event.seqno,
         status := if request.event.op == End then request.status.GetOr(w.status) else w.status,
         ended := w.ended || request.event.op == End)
  }

  /** What Emit sends, or why it does not. */
  function Emitted(w: Writer, e: Event): Result<Request, WriterError> {
    if w.ended then Err(MessageEnded)
    else if e.op != Set && e.op != Append then Err(InvalidEmit)
    else Prepared(w, e, None)
  }

  /** What End sends; repeating the same end needs nothing to be sent. */
  function Finished(w: Writer, status: Status): Result<Option<Request>, WriterError> {
    if !Terminal(status) then Err(EndStatusInvalid)
    else if w.ended then (if w.status != status then Err(EndStatusConflict) else Ok(None))
    else
      match Prepared(w, Event(End, 0, None, "", None), Some(status))
      case Err(error) => Err(error)
      case Ok(request) => Ok(Some(request))
  }

  /** The runtime's writer; `ok` is whether some attempt of the write was answered with success. */
  class MessageStream {
    var next: nat
    var ended: bool
    var pending: Option<Request>
    var status: Status
    var revision: nat

    ghost function Handle(): Writer
      reads this
    {
      Writer(next, ended, pending, status, revision)
    }

    constructor (revision: nat, status: Status)
      ensures Handle() == NewWriter(revision, status)
    {
      this.next := if revision + 1 < 2 then 2 else revision + 1;
      this.ended := Terminal(status);
      this.pending := None;
      this.status := status;
      this.revision := revision;
    }

    method Emit(e: Event, ok: bool) returns (r: Option<WriterError>)
      modifies this
      ensures
        match Emitted(old(Handle()), e)
        case Err(error) => r == Some(error) && Handle() == old(Handle())
        case Ok(request) => r == (if ok then None else Some(WriteFailed)) && Handle() == Settled(old(Handle()), request, ok)
    {
      if ended {
        return Some(MessageEnded);
      }
      if e.op != Set && e.op != Append {
        return Some(InvalidEmit);
      }
      r := Send(e, None, ok);
    }

    method Close(status: Status, ok: bool) returns (r: Option<WriterError>)
      modifies this
      ensures
        match Finished(old(Handle()), status)
        case Err(error) => r == Some(error) && Handle() == old(Handle())
        case Ok(None) => r == None && Handle() == old(Handle())
        case Ok(Some(request)) => r == (if ok then None else Some(WriteFailed)) && Handle() == Settled(old(Handle()), request, ok)
    {
      if !Terminal(status) {
        return Some(EndStatusInvalid);
      }
      if ended {
        return if this.status != status then Some(EndStatusConflict) else None;
      }
      r := Send(Event(End, 0, None, "", None), Some(status), ok);
      if r.None? {
        ended := true;
      }
    }

    method Send(e: Event, status: Option<Status>, ok: bool) returns (r: Option<WriterError>)
      modifies this
      ensures
        match Prepared(old(Handle()), e, status)
        case Err(error) => r == Some(error) && Handle() == old(Handle())
        case Ok(request) =>
          && r == (if ok then None else Some(WriteFailed))
          && Handle() == Settled(old(Handle()), request, ok).(ended := old(ended))
    {
      var request := Request(e.(seqno := next), status);
      if pending.Some? && pending.value != request {
        return Some(PendingUpdate);
      }
      if !ok {
        pending := Some(request);
        return Some(WriteFailed);
      }
      pending := None;
      if e.op == End && status.Some? {
        this.status := status.value;
      }
      next := request.event.seqno + 1;
      revision := request.event.seqno;
      r := None;
    }
  }

  // ---------- the server ----------

  /** EmitMessage: a repeated end of an ended message is acknowledged; anything else is projected. */
  function Served(lib: Library, m: Message, q: Request): Result<Message, Error> {
    var status := if q.event.op == End && q.status.None? then Some(Completed) else q.status;
    if (q.event.op == End && !(status.Some? && Terminal(status.value))) || (q.event.op != End && status.Some?) then Err(InvalidContent)
    else if Terminal(m.status) then
      if q.event.op == End && status == Some(m.status) then Ok(m) else Err(Conflict)
    else if q.event.seqno > m.revision + 1 then Err(InvalidContent)
    else Project(lib, m, q.event, status, false)
  }

  // ---------- writer, network and server ----------

  /**
   * `sent` are all requests ever sent, any of which may still arrive, again and again; `answered`
   * those that were answered with success, which the writer may hear at any time.  `accepted`
   * lists the set and append events that the server applied, `acked` those a writer was told of,
   * and `settled` also those that a restored handle found in place.
   */
  datatype State = State(message: Message, writer: Writer, calling: Option<Request>, sent: set<Request>, answered: set<Request>,
                         accepted: seq<Event>, settled: seq<Event>, acked: seq<Event>)

  datatype Step =
    | CallEmit(event: Event)
    | CallEnd(status: Status)
    | Arrive(request: Request)
    | Hear(ok: bool)
    | Restore
    | Expire
    | Replace(content: Model, forget: bool)

  predicate Content(e: Event) {
    e.op == Set || e.op == Append
  }

  function Calling(s: State, q: Request): State {
    s.(calling := Some(q), sent := s.sent + {q})
  }

  function Next(lib: Library, s: State, step: Step): State {
    match step
    case CallEmit(e) =>
      if s.calling.None? && Emitted(s.writer, e).Ok? then Calling(s, Emitted(s.writer, e).value) else s
    case CallEnd(status) =>
      if s.calling.None? && Finished(s.writer, status).Ok? && Finished(s.writer, status).value.Some? then
        Calling(s, Finished(s.writer, status).value.value)
      else s
    case Arrive(q) =>
      if q !in s.sent then s
      else
        (match Served(lib, s.message, q)
         case Err(_) => s
         case Ok(m) =>
           s.(message := m, answered := s.answered + {q},
              accepted := if m.revision != s.message.revision && Content(q.event) then s.accepted + [q.event] else s.accepted))
    case Hear(ok) =>
      if s.calling.None? || (ok && s.calling.value !in s.answered) then s
      else
        s.(calling := None, writer := Settled(s.writer, s.calling.value, ok),
           settled := if ok && Content(s.calling.value.event) then s.settled + [s.calling.value.event] else s.settled,
         acked := if ok && Content(s.calling.value.event) then s.acked + [s.calling.value.event] else s.acked)
    case Restore => s.(calling := None, writer := NewWriter(s.message.revision, s.message.status), settled := s.accepted)
    case Expire => if Terminal(s.message.status) then s else s.(message := s.message.(status := Expired, revision := s.message.revision + 1))
    case Replace(content, forget) =>
      s.(message := s.message.(revision := s.message.revision + 1,
                               content := content.(meta := content.meta.(output := if forget then None else s.message.content.meta.output))))
  }

  function Exec(lib: Library, s: State, steps: seq<Step>): State {
    if steps == [] then s else Next(lib, Exec(lib, s, steps[..|steps| - 1]), steps[|steps| - 1])
  }

  /** The update whose outcome the writer does not know. */
  function Current(s: State): Option<Request> {
    if s.calling.Some? then s.calling else s.writer.pending
  }

  predicate WellSent(q: Request) {
    (q.status.Some? <==> q.event.op == End) && (q.event.op == End || Content(q.event))
  }

  /** An update that was sent, and accepted after everything that is settled. */
  ghost predicate Extra(s: State, q: Request) {
    q in s.sent && Content(q.event) && (q.event.seqno == s.writer.next || s.writer.ended) && s.accepted == s.settled + [q.event]
  }

  /** What the server accepted is settled, but perhaps for one update. */
  ghost predicate AllButOne(s: State) {
    s.accepted == s.settled || exists q :: Extra(s, q)
  }

  ghost predicate Inv(s: State) {
    && s.message.revision + 1 >= s.writer.next && s.message.revision >= 1
    && (s.calling.Some? && s.writer.pending.Some? ==> s.writer.pending == s.calling)
    && (Current(s).Some? ==> Current(s).value.event.seqno == s.writer.next && Current(s).value in s.sent)
    && (forall q :: q in s.sent ==> WellSent(q) && q.event.seqno <= s.writer.next)
    && (forall q :: q in s.answered ==> q in s.sent && AnswerOk(s, q))
    && AllButOne(s) && (s.accepted != s.settled ==> s.message.revision >= s.writer.next)
    && (Current(s).Some? ==> !s.writer.ended) && (s.writer.ended ==> Terminal(s.message.status))
    && (Terminal(s.message.status) && !s.writer.ended ==> s.message.revision >= s.writer.next + if s.accepted != s.settled then 1 else 0)
    && (s.message.content.meta.output.Some? ==> LastWrite(s, s.message.content.meta.output.value))
  }

  /** An update with the next number is answered only when it is the one that was accepted, or an end when the message has ended. */
  ghost predicate AnswerOk(s: State, q: Request) {
    !s.writer.ended && q.event.seqno == s.writer.next ==>
      s.message.revision >= s.writer.next && if Content(q.event) then s.accepted == s.settled + [q.event] else Terminal(s.message.status)
  }

  /** The last write the server remembers is over, or has the next number and was accepted. */
  ghost predicate LastWrite(s: State, f: Fingerprint) {
    && f.event.seqno <= s.message.revision
    && (f.event.seqno < s.writer.next
        || (f.event.seqno == s.writer.next && if Content(f.event) then s.accepted == s.settled + [f.event] else Terminal(s.message.status)))
  }

  function Initial(m: Message): State {
    State(m, NewWriter(m.revision, m.status), None, {}, {}, [], [], [])
  }

  lemma InitialInv(m: Message)
    requires m.revision >= 1
    requires m.content.meta.output.Some? ==> m.content.meta.output.value.event.seqno <= m.revision
    ensures Inv(Initial(m))
  {
  }

  /** More requests may be on their way than before. */
  lemma MoreSent(s: State, next: State)
    requires AllButOne(s) && s.sent <= next.sent && next.accepted == s.accepted && next.settled == s.settled && next.writer.next == s.writer.next
    requires s.writer.ended ==> next.writer.ended
    ensures AllButOne(next)
  {
    if s.accepted != s.settled {
      var q :| Extra(s, q);
      assert Extra(next, q);
    }
  }

  lemma CallKeeps(lib: Library, s: State, q: Request)
    requires Inv(s) && s.calling.None? && WellSent(q) && q.event.seqno == s.writer.next && !s.writer.ended
    requires s.writer.pending.Some? ==> s.writer.pending == Some(q)
    ensures Inv(Calling(s, q))
  {
    MoreSent(s, Calling(s, q));
    hide AllButOne;
  }

  /** An arriving request is applied at most once, and only if it has the next number and nothing with that number was. */
  lemma ArriveKeeps(lib: Library, s: State, q: Request)
    requires Inv(s) && q in s.sent
    ensures Inv(Next(lib, s, Arrive(q)))
  {
    hide Apply;
    var next := Next(lib, s, Arrive(q));
    match Served(lib, s.message, q)
    case Err(_) =>
    case Ok(m) =>
      assert WellSent(q);
      if m.revision != s.message.revision {
        assert q.event.seqno == s.message.revision + 1 == s.writer.next;
        assert s.accepted == s.settled;
        assert Content(q.event) ==> Extra(next, q);
      } else {
        MoreSent(s, next);
        hide AllButOne;
      }
  }

  lemma HearKeeps(lib: Library, s: State, ok: bool)
    requires Inv(s)
    ensures Inv(Next(lib, s, Hear(ok)))
  {
    var next := Next(lib, s, Hear(ok));
    if s.calling.Some? && ok && s.calling.value in s.answered {
      var q := s.calling.value;
      assert AnswerOk(s, q);
      if Content(q.event) {
        assert s.accepted == s.settled + [q.event];
      } else if s.accepted != s.settled {
        var p :| Extra(s, p);
        assert Extra(next, p);
      }
    } else {
      MoreSent(s, next);
      hide AllButOne;
    }
  }

  lemma NextKeeps(lib: Library, s: State, step: Step)
    requires Inv(s)
    ensures Inv(Next(lib, s, step))
  {
    match step
    case CallEmit(e) => if s.calling.None? && Emitted(s.writer, e).Ok? { CallKeeps(lib, s, Emitted(s.writer, e).value); }
    case CallEnd(status) =>
      if s.calling.None? && Finished(s.writer, status).Ok? && Finished(s.writer, status).value.Some? {
        CallKeeps(lib, s, Finished(s.writer, status).value.value);
      }
    case Arrive(q) => if q in s.sent { ArriveKeeps(lib, s, q); }
    case Hear(ok) => HearKeeps(lib, s, ok);
    case Restore =>
    case Expire =>
      MoreSent(s, Next(lib, s, step));
      hide AllButOne;
    case Replace(_, _) =>
      MoreSent(s, Next(lib, s, step));
      hide AllButOne;
  }

  /** Some of the events, in the same order. */
  predicate Among(some: seq<Event>, all: seq<Event>)
    decreases |all|
  {
    if all == [] then some == []
    else
      var last := |all| - 1;
      Among(some, all[..last]) || (some != [] && some[|some| - 1] == all[last] && Among(some[..|some| - 1], all[..last]))
  }

  lemma AmongBoth(some: seq<Event>, all: seq<Event>, e: Event)
    requires Among(some, all)
    ensures Among(some + [e], all + [e]) && Among(some, all + [e])
  {
    assert (all + [e])[..|all|] == all && (some + [e])[..|some|] == some;
  }

  /** Every step keeps what writers were told of among what is settled, in order. */
  lemma AckedAmong(lib: Library, s: State, step: Step)
    requires Inv(s) && Among(s.acked, s.settled)
    ensures Among(Next(lib, s, step).acked, Next(lib, s, step).settled)
  {
    hide Among;
    match step
    case Hear(ok) =>
      if s.calling.Some? && Content(s.calling.value.event) {
        AmongBoth(s.acked, s.settled, s.calling.value.event);
      }
    case Restore =>
      if s.accepted != s.settled {
        var q :| Extra(s, q);
        AmongBoth(s.acked, s.settled, q.event);
      }
    case CallEmit(_) =>
    case CallEnd(_) =>
    case Arrive(_) =>
    case Expire =>
    case Replace(_, _) =>
  }

  /**
   * Whatever is lost, delayed or repeated, and however often a handle is restored while an
   * update is on its way: what the server accepted is settled, but perhaps for one update
   * that was sent; and the events that writers were told of are among the settled ones, in order.
   */
  lemma {:induction false} RestoredExactlyOnce(lib: Library, m: Message, steps: seq<Step>)
    requires m.revision >= 1
    requires m.content.meta.output.Some? ==> m.content.meta.output.value.event.seqno <= m.revision
    ensures
      var s := Exec(lib, Initial(m), steps);
      Inv(s) && AllButOne(s) && Among(s.acked, s.settled)
  {
    if steps == [] {
      InitialInv(m);
    } else {
      hide Inv, Next, Among;
      RestoredExactlyOnce(lib, m, steps[..|steps| - 1]);
      NextKeeps(lib, Exec(lib, Initial(m), steps[..|steps| - 1]), steps[|steps| - 1]);
      AckedAmong(lib, Exec(lib, Initial(m), steps[..|steps| - 1]), steps[|steps| - 1]);
      InvAllButOne(Exec(lib, Initial(m), steps));
    }
  }

  lemma InvAllButOne(s: State)
    requires Inv(s)
    ensures AllButOne(s)
  {
  }

  /** One handle: only its current update has the next number. */
  ghost predicate Single(s: State) {
    && s.acked == s.settled
    && (forall q :: q in s.sent ==> q.event.seqno < s.writer.next || Current(s) == Some(q))
    && (s.accepted != s.settled ==> Current(s).Some? && s.accepted == s.settled + [Current(s).value.event])
  }

  lemma SingleKeeps(lib: Library, s: State, step: Step)
    requires Inv(s) && Single(s) && !step.Restore?
    ensures Single(Next(lib, s, step))
  {
    hide AllButOne;
    match step
    case CallEmit(e) =>
    case CallEnd(status) =>
    case Arrive(q) =>
      hide Apply;
      if q in s.sent && Served(lib, s.message, q).Ok? && Served(lib, s.message, q).value.revision != s.message.revision {
        assert q.event.seqno == s.writer.next;
      }
    case Hear(ok) =>
      if s.calling.Some? && ok && s.calling.value in s.answered {
        assert AnswerOk(s, s.calling.value);
        if s.accepted != s.settled {
          SingleContent(s);
        }
      }
    case Expire =>
    case Replace(_, _) =>
  }

  /** With one handle an accepted update that is not settled is the current one. */
  lemma SingleContent(s: State)
    requires Inv(s) && Single(s) && s.calling.Some? && s.accepted != s.settled
    ensures Content(s.calling.value.event)
  {
    var q :| Extra(s, q);
  }

  /**
   * Whatever is lost, delayed or repeated, with one handle: the events the server accepted are
   * the acknowledged ones in order, or those and the one the writer still has pending.
   */
  lemma {:induction false} ExactlyOnce(lib: Library, m: Message, steps: seq<Step>)
    requires m.revision >= 1 && forall i :: 0 <= i < |steps| ==> !steps[i].Restore?
    requires m.content.meta.output.Some? ==> m.content.meta.output.value.event.seqno <= m.revision
    ensures
      var s := Exec(lib, Initial(m), steps);
      && Inv(s) && Single(s)
      && (s.accepted == s.acked || (Current(s).Some? && s.accepted == s.acked + [Current(s).value.event]))
  {
    if steps == [] {
      InitialInv(m);
    } else {
      hide Inv, Next, Single;
      ExactlyOnce(lib, m, steps[..|steps| - 1]);
      NextKeeps(lib, Exec(lib, Initial(m), steps[..|steps| - 1]), steps[|steps| - 1]);
      SingleKeeps(lib, Exec(lib, Initial(m), steps[..|steps| - 1]), steps[|steps| - 1]);
      AcceptedOrPending(Exec(lib, Initial(m), steps));
    }
  }

  lemma AcceptedOrPending(s: State)
    requires Single(s)
    ensures s.accepted == s.acked || (Current(s).Some? && s.accepted == s.acked + [Current(s).value.event])
  {
  }
}
