/** Reading a message block by block: pages at one revision and the cursor loop over them. */
module Pages {
  import opened Wrappers
  import opened Agentue
  import opened Framing

  const PAGE_BLOCKS := 100
  const PAGE_BYTES := 0x100000

  /** The decoded cursor parameter; `Malformed` is one that does not parse. */
  datatype Cursor = First | Malformed | At(revision: nat, position: nat)

  datatype Page = Page(revision: nat, data: seq<Block>, next: Option<nat>)

  /** Where a page that starts at `from` ends: a budget may stop between blocks, never reject the first one. */
  function PageEnd(blocks: seq<Block>, from: nat, count: nat, bytes: nat): (end: nat)
    requires from <= |blocks|
    ensures from <= end <= |blocks|
    ensures count == 0 && from < |blocks| ==> end > from
    decreases |blocks| - from
  {
    if from == |blocks| then from
    else
      var size := |Encode(blocks[from])|;
      if count >= PAGE_BLOCKS || (count > 0 && bytes + size > PAGE_BYTES) then from
      else PageEnd(blocks, from + 1, count + 1, bytes + size)
  }

  /** The answer to a page request, on the logical message alone. */
  function PageOf(m: Option<Message>, blockId: string, cursor: Cursor): Result<Page, Error> {
    if cursor.Malformed? then Err(InvalidContent)
    else if m.None? then Err(NotFound)
    else
      var blocks := m.value.content.blocks;
      if cursor.At? && cursor.revision != m.value.revision then Err(Conflict)
      else if blockId != "" then
        var k := IndexOf(blocks, blockId);
        if k == |blocks| then Err(NotFound) else Ok(Page(m.value.revision, [blocks[k]], None))
      else
        var position := if cursor.At? then cursor.position else 0;
        if position > |blocks| then Err(InvalidContent)
        else
          var end := PageEnd(blocks, position, 0, 0);
          Ok(Page(m.value.revision, blocks[position..end], if end < |blocks| then Some(end) else None))
  }

  /**
   * The client's loop over pages.  `at(i)` is the message as the i-th request finds it;
   * other writers may change it between requests, but one revision has one content.
   */
  method Blocks(at: nat -> Option<Message>) returns (r: Result<seq<Block>, Error>, ghost requests: nat)
    requires forall i, j :: at(i).Some? && at(j).Some? && at(i).value.revision == at(j).value.revision ==>
               at(i).value.content.blocks == at(j).value.content.blocks
    ensures r.Ok? ==> at(0).Some? && r.value == at(0).value.content.blocks
    ensures r.Err? ==> r.error == NotFound || (r.error == Conflict && at(0).Some?)
    ensures at(0).None? ==> r == Err(NotFound)
    ensures r.Ok? ==> requests >= 1
                      && forall i :: 0 <= i < requests ==> at(i).Some? && at(i).value.revision == at(0).value.revision
    ensures r.Err? ==> (requests >= 1 && at(requests - 1).None? && r.error == NotFound)
                       || (requests >= 2 && at(0).Some? && at(requests - 1).Some?
                           && at(requests - 1).value.revision != at(0).value.revision && r.error == Conflict)
    ensures at(0).Some? ==> requests <= |at(0).value.content.blocks| + 1
  {
    var cursor := First;
    var all: seq<Block> := [];
    requests := 0;
    var i := 0;
    while true
      invariant i == requests
      invariant i == 0 ==> cursor == First && all == []
      invariant i > 0 ==> at(0).Some? && cursor == At(at(0).value.revision, |all|) && i <= |all| < |at(0).value.content.blocks|
      invariant i > 0 ==> all == at(0).value.content.blocks[..|all|]
      invariant forall k :: 0 <= k < i ==> at(k).Some? && at(k).value.revision == at(0).value.revision
      decreases if i == 0 then 1 else 0, if at(0).Some? then |at(0).value.content.blocks| - |all| else 0
    {
      var page := PageOf(at(i), "", cursor);
      i := i + 1;
      requests := requests + 1;
      if page.Err? {
        return Err(page.error), requests;
      }
      all := all + page.value.data;
      if page.value.next.None? {
        return Ok(all), requests;
      }
      cursor := At(page.value.revision, page.value.next.value);
    }
  }

  /** An undisturbed message is read completely, each block once and in order. */
  method BlocksAtRest(m: Message) returns (r: seq<Block>)
    ensures r == m.content.blocks
  {
    var answer, requests := Blocks(i => Some(m));
    assert answer.Ok?;
    r := answer.value;
  }
}
