/**
 * Logical messages: an ordered list of uniquely identified blocks plus metadata,
 * and the events that change them.  What an event does to the text of the block
 * it addresses is decided by a library outside this repository, so it is a
 * parameter (`Library`) of everything below; where the event may act is fixed:
 * on the addressed block, or at the end when there is none, and on metadata.
 */
module Agentue {
  import opened Wrappers

  const FRAME_TYPE := "storage.frame"
  const RESULT_TYPE := "result"
  const RESULT_ID := "result"

  datatype Block = Block(id: string, kind: string, body: string)

  datatype Op = Start | Set | Append | End | Ping

  /** The block an event addresses: `kind` is empty when the event names no type. */
  datatype BlockPatch = BlockPatch(id: string, kind: string, body: string, isRef: bool)

  datatype Event = Event(op: Op, seqno: nat, block: Option<BlockPatch>, mask: string, meta: Option<string>)

  datatype Status = Streaming | Completed | Failed | Cancelled | Expired

  predicate Terminal(status: Status) {
    status != Streaming
  }

  /** The write identity kept in meta.output: the event together with the status it carried. */
  datatype Fingerprint = Fingerprint(event: Event, status: Option<Status>)

  datatype Meta = Meta(text: string, human: bool, output: Option<Fingerprint>)

  datatype Model = Model(meta: Meta, blocks: seq<Block>)

  datatype Message = Message(status: Status, revision: nat, content: Model)

  datatype Error = Conflict | InvalidContent | TooLarge | NotFound | Corrupt | Rejected | Lost | Capacity | CallerCancelled

  /** The parts of the event library that the repository only calls. */
  datatype Library = Library(
    editBlock: (Event, Option<Block>) -> Option<string>,
    editMeta: (Event, string) -> Option<string>,
    parse: string -> Option<Event>)

  ghost predicate UniqueIds(blocks: seq<Block>) {
    forall i, j :: 0 <= i < j < |blocks| ==> blocks[i].id != blocks[j].id
  }

  /** The position of the block called `id`, or |blocks| when there is none. */
  function IndexOf(blocks: seq<Block>, id: string): (k: nat)
    ensures k <= |blocks|
    ensures k < |blocks| ==> blocks[k].id == id
    ensures forall i :: 0 <= i < k ==> blocks[i].id != id
  {
    if blocks == [] then 0
    else if blocks[0].id == id then 0
    else 1 + IndexOf(blocks[1..], id)
  }

  function Edited(lib: Library, e: Event, patch: BlockPatch, prev: Option<Block>): Option<Block> {
    match lib.editBlock(e, prev)
    case None => None
    case Some(body) =>
      Some(Block(patch.id, if patch.kind != "" || prev.None? then patch.kind else prev.value.kind, body))
  }

  function ApplyBlocks(lib: Library, blocks: seq<Block>, e: Event): Option<seq<Block>> {
    if e.block.None? then Some(blocks)
    else
      var k := IndexOf(blocks, e.block.value.id);
      var prev := if k < |blocks| then Some(blocks[k]) else None;
      match Edited(lib, e, e.block.value, prev)
      case None => None
      case Some(b) => Some(if k < |blocks| then blocks[k := b] else blocks + [b])
  }

  function ApplyMeta(lib: Library, text: string, e: Event): Option<string> {
    if e.meta.None? then Some(text) else lib.editMeta(e, text)
  }

  function Apply(lib: Library, m: Model, e: Event): Option<Model> {
    if e.op == End then Some(m)
    else if e.op != Set && e.op != Append then None
    else
      match (ApplyBlocks(lib, m.blocks, e), ApplyMeta(lib, m.meta.text, e))
      case (Some(blocks), Some(text)) => Some(Model(m.meta.(text := text), blocks))
      case _ => None
  }

  /** Two models agree up to meta.output, which only records the last write. */
  ghost predicate SameContent(a: Model, b: Model) {
    a.blocks == b.blocks && a.meta.text == b.meta.text && a.meta.human == b.meta.human
  }

  /** Why an event is refused before it reaches the event library, if it is. */
  function Refusal(m: Message, e: Event, harnessWrite: bool): Option<Error> {
    if !harnessWrite && m.content.meta.human then Some(Conflict)
    else if e.seqno != m.revision + 1 then Some(Conflict)
    else if Terminal(m.status) then Some(Conflict)
    else if e.block.Some? && (e.block.value.isRef || e.block.value.kind == FRAME_TYPE) then Some(InvalidContent)
    else None
  }

  /** A repeat of the write that produced the current revision. */
  predicate IsRetry(m: Message, e: Event, status: Option<Status>, harnessWrite: bool) {
    && (harnessWrite || !m.content.meta.human)
    && e.seqno == m.revision
    && m.content.meta.output == Some(Fingerprint(e, status))
  }

  /** What an accepted write makes of the message, on its logical content. */
  function Projected(m: Message, e: Event, status: Option<Status>, next: Model): Message {
    Message(
      if e.op == End && status.Some? then status.value else m.status,
      e.seqno,
      next.(meta := next.meta.(output := Some(Fingerprint(e, status)))))
  }

  /** projectOutput on the complete logical message. */
  function Project(lib: Library, m: Message, e: Event, status: Option<Status>, harnessWrite: bool): (r: Result<Message, Error>)
    ensures r.Ok? ==> r.value.revision == e.seqno && (r.value == m || e.seqno == m.revision + 1)
  {
    if IsRetry(m, e, status, harnessWrite) then Ok(m)
    else
      match Refusal(m, e, harnessWrite)
      case Some(error) => Err(error)
      case None =>
        match Apply(lib, m.content, e)
        case None => Err(Rejected)
        case Some(next) => Ok(Projected(m, e, status, next))
  }

  /** Applying an event keeps ids unique, touches no other block, and keeps the order of all of them. */
  lemma ApplyBlocksKeeps(lib: Library, blocks: seq<Block>, e: Event)
    requires UniqueIds(blocks)
    ensures
      var r := ApplyBlocks(lib, blocks, e);
      r.Some? ==>
        && UniqueIds(r.value)
        && |blocks| <= |r.value| <= |blocks| + 1
        && (forall i :: 0 <= i < |blocks| ==> r.value[i].id == blocks[i].id)
        && (forall i :: 0 <= i < |blocks| ==>
              (e.block.Some? && blocks[i].id == e.block.value.id) || r.value[i] == blocks[i])
  {
    var r := ApplyBlocks(lib, blocks, e);
    if r.Some? && e.block.Some? {
      var k := IndexOf(blocks, e.block.value.id);
      assert forall i :: 0 <= i < |blocks| ==> r.value[i].id == blocks[i].id;
      assert k == |blocks| ==> r.value[|blocks|].id == e.block.value.id;
    }
  }

  /** The same content up to meta.output yields the same content up to meta.output. */
  lemma ApplySameContent(lib: Library, a: Model, b: Model, e: Event)
    requires SameContent(a, b)
    ensures Apply(lib, a, e).Some? <==> Apply(lib, b, e).Some?
    ensures Apply(lib, a, e).Some? ==> SameContent(Apply(lib, a, e).value, Apply(lib, b, e).value)
  {
  }
}
