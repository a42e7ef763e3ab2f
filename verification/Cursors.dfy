/**
 * Consumption cursors: one conversation object, one cursor per actor.  Message ids are
 * UUIDv7 values, ordered as numbers here; 0 stands for the empty id.
 */
module Cursors {
  import opened Wrappers

  datatype Actor = Actor(kind: string, key: string)

  /** A message as the inbox sees it; no target means a broadcast. */
  datatype Mail = Mail(id: nat, source: Actor, target: Option<Actor>, text: string, human: bool)

  datatype Participant = Participant(actor: Actor, end: nat, workspace: string)
  datatype Consumer = Consumer(actor: Actor, position: nat, committed: nat)
  datatype Conversation = Conversation(participants: seq<Participant>, consumers: seq<Consumer>)

  datatype CursorError = NotFound | NotParticipant | InvalidCommit

  // ---------- the inbox ----------

  ghost predicate Ordered(table: seq<Mail>) {
    && (forall i, j :: 0 <= i < j < |table| ==> table[i].id < table[j].id)
    && (forall i :: 0 <= i < |table| ==> table[i].id > 0)
  }

  predicate AddressedTo(m: Mail, actor: Actor) {
    m.target.None? || m.target == Some(actor)
  }

  /** What ListInbox selects: addressed to the actor, and not from it. */
  predicate Wanted(m: Mail, actor: Actor, after: nat) {
    m.id > after && AddressedTo(m, actor) && m.source != actor
  }

  /** ListInbox: the first `limit` wanted messages in id order. */
  function ListInbox(table: seq<Mail>, actor: Actor, after: nat, limit: nat): (r: seq<Mail>)
    ensures |r| <= limit
    ensures forall m :: m in r ==> m in table && Wanted(m, actor, after)
  {
    if table == [] || limit == 0 then []
    else if Wanted(table[0], actor, after) then [table[0]] + ListInbox(table[1..], actor, after, limit - 1)
    else ListInbox(table[1..], actor, after, limit)
  }

  lemma {:induction false} InboxOrdered(table: seq<Mail>, actor: Actor, after: nat, limit: nat)
    requires Ordered(table)
    ensures Ordered(ListInbox(table, actor, after, limit))
  {
    if table != [] && limit > 0 {
      InboxOrdered(table[1..], actor, after, if Wanted(table[0], actor, after) then limit - 1 else limit);
      if Wanted(table[0], actor, after) {
        var rest := ListInbox(table[1..], actor, after, limit - 1);
        forall i | 0 <= i < |rest| ensures rest[i].id > table[0].id {
          assert rest[i] in rest && rest[i] in table[1..];
        }
      }
    }
  }

  /** A batch leaves no gap: a wanted message up to its last one is in it. */
  lemma {:induction false} InboxContiguous(table: seq<Mail>, actor: Actor, after: nat, limit: nat, m: Mail)
    requires Ordered(table) && m in table && Wanted(m, actor, after)
    ensures
      var batch := ListInbox(table, actor, after, limit);
      batch != [] && m.id <= batch[|batch| - 1].id ==> m in batch
  {
    if limit > 0 {
      var taken := Wanted(table[0], actor, after);
      var rest := ListInbox(table[1..], actor, after, if taken then limit - 1 else limit);
      if m != table[0] {
        assert m in table[1..];
        InboxContiguous(table[1..], actor, after, if taken then limit - 1 else limit, m);
        if taken && rest == [] {
          assert ListInbox(table, actor, after, limit) == [table[0]];
        }
      }
    }
  }

  // ---------- the object ----------

  function ConsumerIndex(consumers: seq<Consumer>, actor: Actor): (k: nat)
    ensures k <= |consumers|
    ensures k < |consumers| ==> consumers[k].actor == actor
    ensures forall i :: 0 <= i < k ==> consumers[i].actor != actor
  {
    if consumers == [] then 0
    else if consumers[0].actor == actor then 0
    else 1 + ConsumerIndex(consumers[1..], actor)
  }

  function ConsumerOf(v: Conversation, actor: Actor): Consumer {
    var k := ConsumerIndex(v.consumers, actor);
    if k < |v.consumers| then v.consumers[k] else Consumer(actor, 0, 0)
  }

  function Committed(v: Conversation, actor: Actor): nat {
    ConsumerOf(v, actor).committed
  }

  function Position(v: Conversation, actor: Actor): nat {
    ConsumerOf(v, actor).position
  }

  predicate IsParticipant(v: Conversation, actor: Actor) {
    exists i :: 0 <= i < |v.participants| && v.participants[i].actor == actor
  }

  function Max(a: nat, b: nat): nat {
    if a < b then b else a
  }

  /** Poll's update: the position of one actor moves forward. */
  function Received(v: Conversation, actor: Actor, next: nat): Conversation {
    var k := ConsumerIndex(v.consumers, actor);
    v.(consumers :=
      if k < |v.consumers| then v.consumers[k := v.consumers[k].(position := Max(v.consumers[k].position, next))]
      else v.consumers + [Consumer(actor, next, 0)])
  }

  /** Commit's update, or why there is none. */
  function Acknowledged(v: Conversation, actor: Actor, through: nat): Result<Conversation, CursorError> {
    var k := ConsumerIndex(v.consumers, actor);
    if through == 0 then Err(InvalidCommit)
    else if k == |v.consumers| then Err(NotParticipant)
    else if through <= v.consumers[k].committed then Ok(v)
    else if through > v.consumers[k].position then Err(InvalidCommit)
    else Ok(v.(consumers := v.consumers[k := v.consumers[k].(committed := through)]))
  }

  function Touched(p: Participant, id: nat, target: Option<Actor>, workspace: string): Participant {
    if target.None? || target == Some(p.actor) then
      Participant(p.actor, Max(p.end, id), if target.Some? && workspace != "" then workspace else p.workspace)
    else p
  }

  function TouchedAll(participants: seq<Participant>, id: nat, target: Option<Actor>, workspace: string): (r: seq<Participant>)
    ensures |r| == |participants|
    ensures forall i :: 0 <= i < |r| ==> r[i] == Touched(participants[i], id, target, workspace)
  {
    seq(|participants|, i requires 0 <= i < |participants| => Touched(participants[i], id, target, workspace))
  }

  /** Signal's update of the participants: recipients advance, a new target joins. */
  function Signaled(v: Conversation, id: nat, target: Option<Actor>, workspace: string): Conversation {
    var touched := TouchedAll(v.participants, id, target, workspace);
    v.(participants := if target.Some? && !IsParticipant(v, target.value) then touched + [Participant(target.value, id, workspace)] else touched)
  }

  ghost predicate CursorsOk(v: Conversation) {
    && (forall i, j :: 0 <= i < j < |v.consumers| ==> v.consumers[i].actor != v.consumers[j].actor)
    && (forall i :: 0 <= i < |v.consumers| ==> v.consumers[i].committed <= v.consumers[i].position)
  }

  /** Receiving moves one actor's position forward and nothing else. */
  lemma ReceivedKeeps(v: Conversation, actor: Actor, next: nat)
    requires CursorsOk(v)
    ensures CursorsOk(Received(v, actor, next))
    ensures Position(Received(v, actor, next), actor) == Max(Position(v, actor), next)
    ensures Committed(Received(v, actor, next), actor) == Committed(v, actor)
    ensures forall other :: other != actor ==> ConsumerOf(Received(v, actor, next), other) == ConsumerOf(v, other)
    ensures Received(v, actor, next).participants == v.participants
  {
    var after := Received(v, actor, next);
    var k := ConsumerIndex(v.consumers, actor);
    assert after.consumers[k].actor == actor;
    forall other ensures other != actor ==> ConsumerOf(after, other) == ConsumerOf(v, other) {
      if other != actor {
        SameConsumer(v.consumers, after.consumers, actor, other);
      }
    }
  }

  lemma SameConsumer(before: seq<Consumer>, after: seq<Consumer>, actor: Actor, other: Actor)
    requires other != actor && |before| <= |after| <= |before| + 1
    requires forall i :: 0 <= i < |before| ==> before[i].actor == after[i].actor && (before[i].actor == actor || before[i] == after[i])
    requires forall i :: |before| <= i < |after| ==> after[i].actor == actor
    ensures ConsumerIndex(before, other) < |before| <==> ConsumerIndex(after, other) < |after|
    ensures ConsumerIndex(before, other) < |before| ==> before[ConsumerIndex(before, other)] == after[ConsumerIndex(after, other)]
  {
    var j, k := ConsumerIndex(before, other), ConsumerIndex(after, other);
    assert k < |before| ==> before[k].actor == other;
    assert j < |before| ==> after[j].actor == other;
  }

  /** Committing moves one actor's recovery point forward, never past what it received, and nothing else. */
  lemma AcknowledgedKeeps(v: Conversation, actor: Actor, through: nat)
    requires CursorsOk(v) && Acknowledged(v, actor, through).Ok?
    ensures
      var after := Acknowledged(v, actor, through).value;
      && CursorsOk(after)
      && Committed(after, actor) == Max(Committed(v, actor), through) && Position(after, actor) == Position(v, actor)
      && Committed(after, actor) <= Position(after, actor)
      && (forall other :: other != actor ==> ConsumerOf(after, other) == ConsumerOf(v, other))
      && after.participants == v.participants
  {
    var after := Acknowledged(v, actor, through).value;
    var k := ConsumerIndex(v.consumers, actor);
    assert after.consumers[k].actor == actor;
    assert forall i :: 0 <= i < |v.consumers| ==> after.consumers[i].actor == v.consumers[i].actor;
    forall other ensures other != actor ==> ConsumerOf(after, other) == ConsumerOf(v, other) {
      if other != actor {
        SameConsumer(v.consumers, after.consumers, actor, other);
      }
    }
  }

  /** A signal moves no cursor; the targets' end offsets only grow, and a target is a participant afterwards. */
  lemma SignaledKeeps(v: Conversation, id: nat, target: Option<Actor>, workspace: string)
    ensures Signaled(v, id, target, workspace).consumers == v.consumers
    ensures forall actor :: IsParticipant(v, actor) ==> IsParticipant(Signaled(v, id, target, workspace), actor)
    ensures target.Some? ==> IsParticipant(Signaled(v, id, target, workspace), target.value)
    ensures forall i :: 0 <= i < |v.participants| ==>
              v.participants[i].end <= Signaled(v, id, target, workspace).participants[i].end
              && v.participants[i].actor == Signaled(v, id, target, workspace).participants[i].actor
  {
    var after := Signaled(v, id, target, workspace);
    forall actor | IsParticipant(v, actor) ensures IsParticipant(after, actor) {
      var i :| 0 <= i < |v.participants| && v.participants[i].actor == actor;
      assert after.participants[i].actor == actor;
    }
    if target.Some? && !IsParticipant(v, target.value) {
      assert after.participants[|v.participants|].actor == target.value;
    }
  }

  /** One conversation object behind the three calls; each is atomic under the object's version check. */
  class ConversationClient {
    var value: Option<Conversation>

    constructor ()
      ensures value == None
    {
      value := None;
    }

    /** Signal records a message's recipient; the first one creates the object. */
    method Signal(id: nat, target: Option<Actor>, workspace: string)
      requires id > 0
      modifies this
      ensures value.Some?
      ensures
        var before := old(value).GetOr(Conversation([], []));
        value == Some(Signaled(before, id, target, workspace))
    {
      var v := value.GetOr(Conversation([], []));
      ghost var before := v;
      var found, i := false, 0;
      while i < |v.participants|
        invariant 0 <= i <= |v.participants| == |before.participants| && v.consumers == before.consumers
        invariant forall k :: 0 <= k < i ==> v.participants[k] == Touched(before.participants[k], id, target, workspace)
        invariant forall k :: i <= k < |v.participants| ==> v.participants[k] == before.participants[k]
        invariant target.Some? ==> (found <==> exists k :: 0 <= k < i && before.participants[k].actor == target.value)
      {
        var p := v.participants[i];
        if target.None? || target == Some(p.actor) {
          if target.Some? && workspace != "" && p.workspace != workspace {
            p := p.(workspace := workspace);
          }
          found := true;
          if p.end < id {
            p := p.(end := id);
          }
          v := v.(participants := v.participants[i := p]);
        }
        i := i + 1;
      }
      assert v.participants == TouchedAll(before.participants, id, target, workspace);
      if !found && target.Some? {
        v := v.(participants := v.participants + [Participant(target.value, id, workspace)]);
      }
      value := Some(v);
    }

    /** Poll records receipt: the batch after the later of the committed point and `afterId`. */
    method Poll(actor: Actor, afterId: nat, table: seq<Mail>, limit: nat) returns (r: Result<(seq<Mail>, nat), CursorError>)
      requires Ordered(table)
      modifies this
      ensures old(value).None? ==> r == Err(NotFound) && value == old(value)
      ensures old(value).Some? && !IsParticipant(old(value).value, actor) ==> r == Err(NotParticipant) && value == old(value)
      ensures old(value).Some? && IsParticipant(old(value).value, actor) ==>
                var v := old(value).value;
                var after := Max(Committed(v, actor), afterId);
                var batch := ListInbox(table, actor, after, limit);
                r == Ok((batch, if batch == [] then after else batch[|batch| - 1].id))
                && value == if batch == [] then old(value) else Some(Received(v, actor, batch[|batch| - 1].id))
    {
      if value.None? {
        return Err(NotFound);
      }
      var v := value.value;
      if !IsParticipant(v, actor) {
        return Err(NotParticipant);
      }
      var after := Max(Committed(v, actor), afterId);
      var batch := ListInbox(table, actor, after, limit);
      if batch == [] {
        return Ok((batch, after));
      }
      InboxOrdered(table, actor, after, limit);
      var next, i := after, 0;
      while i < |batch|
        invariant 0 <= i <= |batch| && next == if i == 0 then after else batch[i - 1].id
      {
        assert batch[i] in batch && batch[i].id > next && AddressedTo(batch[i], actor);
        next := batch[i].id;
        i := i + 1;
      }
      var k := ConsumerIndex(v.consumers, actor);
      if k < |v.consumers| {
        if v.consumers[k].position < next {
          v := v.(consumers := v.consumers[k := v.consumers[k].(position := next)]);
        }
      } else {
        v := v.(consumers := v.consumers + [Consumer(actor, next, 0)]);
      }
      assert v == Received(old(value).value, actor, next);
      value := Some(v);
      r := Ok((batch, next));
    }

    /** Commit stores the recovery point, which never passes what was received. */
    method Commit(actor: Actor, through: nat) returns (r: Option<CursorError>)
      modifies this
      ensures through == 0 ==> r == Some(InvalidCommit)
      ensures old(value).None? && through > 0 ==> r == Some(NotFound)
      ensures r.Some? ==> value == old(value)
      ensures old(value).Some? && through > 0 ==>
                match Acknowledged(old(value).value, actor, through)
                case Ok(after) => r.None? && value == Some(after)
                case Err(error) => r == Some(error)
    {
      if through == 0 {
        return Some(InvalidCommit);
      }
      if value.None? {
        return Some(NotFound);
      }
      var v := value.value;
      var i := 0;
      while i < |v.consumers|
        invariant 0 <= i <= |v.consumers| && i <= ConsumerIndex(v.consumers, actor)
        invariant value == old(value) && v == value.value
      {
        if v.consumers[i].actor == actor {
          if through <= v.consumers[i].committed {
            return None;
          }
          if through > v.consumers[i].position {
            return Some(InvalidCommit);
          }
          value := Some(v.(consumers := v.consumers[i := v.consumers[i].(committed := through)]));
          return None;
        }
        i := i + 1;
      }
      r := Some(NotParticipant);
    }
  }
}
