/**
 * Physical encoding of blocks: their bytes, the frames an oversized block is cut
 * into, the rows that hold a part group, and how a group of rows is read back.
 */
module Framing {
  import opened Wrappers
  import opened Agentue

  /** Bytes the envelope of one frame adds around its chunk. */
  const ENVELOPE := 128
  /** The length of {"blocks":[]} around the content of a part. */
  const WRAPPER := 13

  // ---------- the bytes of one block ----------

  function Escape(s: string): string {
    if s == "" then ""
    else (if s[0] == '"' || s[0] == '\\' then ['\\', s[0]] else [s[0]]) + Escape(s[1..])
  }

  function Quote(s: string): string {
    ['"'] + Escape(s) + ['"']
  }

  /** Reads an escaped string up to its closing quote; the rest of the input is returned too. */
  function ReadString(s: string): (r: Option<(string, string)>)
    ensures r.Some? ==> |r.value.1| < |s|
  {
    if s == "" then None
    else if s[0] == '"' then Some(("", s[1..]))
    else if s[0] == '\\' then
      if |s| < 2 then None
      else match ReadString(s[2..])
        case None => None
        case Some(p) => Some(([s[1]] + p.0, p.1))
    else match ReadString(s[1..])
      case None => None
      case Some(p) => Some(([s[0]] + p.0, p.1))
  }

  function ReadQuoted(s: string): Option<(string, string)> {
    if s == "" || s[0] != '"' then None else ReadString(s[1..])
  }

  function Encode(b: Block): (s: string)
    ensures s != ""
  {
    Quote(b.id) + Quote(b.kind) + Quote(b.body)
  }

  function Decode(s: string): Option<Block> {
    match ReadQuoted(s)
    case None => None
    case Some(id) =>
      match ReadQuoted(id.1)
      case None => None
      case Some(kind) =>
        match ReadQuoted(kind.1)
        case None => None
        case Some(body) => if body.1 == "" then Some(Block(id.0, kind.0, body.0)) else None
  }

  lemma {:induction false} ReadEscaped(s: string, rest: string)
    ensures ReadString(Escape(s) + ['"'] + rest) == Some((s, rest))
  {
    var text := Escape(s) + ['"'] + rest;
    if s == "" {
      assert text == ['"'] + rest;
      assert text[1..] == rest;
    } else {
      ReadEscaped(s[1..], rest);
      var tail := Escape(s[1..]) + ['"'] + rest;
      if s[0] == '"' || s[0] == '\\' {
        assert text == ['\\', s[0]] + tail;
        assert text[2..] == tail;
      } else {
        assert text == [s[0]] + tail;
        assert text[1..] == tail;
      }
      assert [s[0]] + s[1..] == s;
    }
  }

  lemma ReadQuote(s: string, rest: string)
    ensures ReadQuoted(Quote(s) + rest) == Some((s, rest))
  {
    var text := Quote(s) + rest;
    assert text[1..] == Escape(s) + ['"'] + rest;
    ReadEscaped(s, rest);
  }

  /** Bytes determine the block: reading back an encoded block gives that block. */
  lemma DecodeEncode(b: Block)
    ensures Decode(Encode(b)) == Some(b)
  {
    var last := Quote(b.body);
    var mid := Quote(b.kind) + last;
    assert Encode(b) == Quote(b.id) + mid;
    ReadQuote(b.id, mid);
    ReadQuote(b.kind, last);
    assert last == last + "";
    ReadQuote(b.body, "");
  }

  // ---------- frames ----------

  datatype FrameBlock = FrameBlock(index: nat, total: nat, chunk: string)

  function FrameBytes(f: FrameBlock): nat {
    ENVELOPE + |f.chunk|
  }

  function Chunks(data: string, size: nat): (r: seq<string>)
    requires size > 0
    ensures |r| >= 1
    ensures forall i :: 0 <= i < |r| ==> |r[i]| <= size
    decreases |data|
  {
    if |data| <= size then [data] else [data[..size]] + Chunks(data[size..], size)
  }

  function Join(chunks: seq<string>): string {
    if chunks == [] then "" else Join(chunks[..|chunks| - 1]) + chunks[|chunks| - 1]
  }

  /** Cuts data into frames of at most `limit` bytes, envelopes included. */
  function Frame(data: string, limit: int): (r: Option<seq<FrameBlock>>)
    ensures r.Some? <==> limit > ENVELOPE
    ensures r.Some? ==> |r.value| >= 1 && forall i :: 0 <= i < |r.value| ==>
              FrameBytes(r.value[i]) <= limit && r.value[i].index == i && r.value[i].total == |r.value|
  {
    if limit <= ENVELOPE then None
    else
      var chunks := Chunks(data, limit - ENVELOPE);
      Some(seq(|chunks|, i requires 0 <= i < |chunks| => FrameBlock(i, |chunks|, chunks[i])))
  }

  function Slot(frames: seq<FrameBlock>, index: nat): Option<string> {
    if frames == [] then None
    else if frames[0].index == index then Some(frames[0].chunk)
    else Slot(frames[1..], index)
  }

  /** The chunks numbered below n, in order; a missing one counts as empty. */
  function Gather(frames: seq<FrameBlock>, n: nat): string {
    if n == 0 then "" else Gather(frames, n - 1) + Slot(frames, n - 1).GetOr("")
  }

  predicate Complete(frames: seq<FrameBlock>) {
    && frames != []
    && (forall i :: 0 <= i < |frames| ==> frames[i].total == |frames|)
    && (forall i :: 0 <= i < |frames| ==> Slot(frames, i).Some?)
  }

  /** Reassembles frames found in any order; an incomplete or mixed set is refused. */
  function Unframe(frames: seq<FrameBlock>): Option<string> {
    if Complete(frames) then Some(Gather(frames, |frames|)) else None
  }

  lemma {:induction false} JoinCons(first: string, rest: seq<string>)
    ensures Join([first] + rest) == first + Join(rest)
  {
    var all := [first] + rest;
    if rest != [] {
      JoinCons(first, rest[..|rest| - 1]);
      assert all[..|all| - 1] == [first] + rest[..|rest| - 1];
    } else {
      assert all[..0] == [];
    }
  }

  lemma {:induction false} JoinChunks(data: string, size: nat)
    requires size > 0
    ensures Join(Chunks(data, size)) == data
    decreases |data|
  {
    if |data| <= size {
      assert [data][..0] == [];
    } else {
      JoinChunks(data[size..], size);
      JoinCons(data[..size], Chunks(data[size..], size));
    }
  }

  lemma {:induction false} SlotFound(frames: seq<FrameBlock>, f: FrameBlock)
    requires f in frames
    requires forall g :: g in frames && g.index == f.index ==> g == f
    ensures Slot(frames, f.index) == Some(f.chunk)
  {
    if frames[0].index != f.index {
      SlotFound(frames[1..], f);
    }
  }

  /** Frames read back in any order give the framed bytes. */
  lemma UnframeFrame(data: string, limit: int, found: seq<FrameBlock>)
    requires limit > ENVELOPE
    requires |found| == |Frame(data, limit).value|
    requires forall f :: f in found <==> f in Frame(data, limit).value
    ensures Unframe(found) == Some(data)
  {
    var frames := Frame(data, limit).value;
    var chunks := Chunks(data, limit - ENVELOPE);
    forall i | 0 <= i < |found| ensures found[i].total == |found| {
      assert found[i] in found;
    }
    GatherJoin(found, frames, chunks, |chunks|);
    assert chunks[..|chunks|] == chunks;
    JoinChunks(data, limit - ENVELOPE);
  }

  lemma {:induction false} GatherJoin(found: seq<FrameBlock>, frames: seq<FrameBlock>, chunks: seq<string>, n: nat)
    requires n <= |chunks| == |frames|
    requires forall f :: f in found <==> f in frames
    requires forall i :: 0 <= i < |frames| ==> frames[i].index == i && frames[i].chunk == chunks[i]
    ensures Gather(found, n) == Join(chunks[..n])
    ensures forall i :: 0 <= i < n ==> Slot(found, i).Some?
  {
    if n > 0 {
      GatherJoin(found, frames, chunks, n - 1);
      assert frames[n - 1] in frames;
      SlotFound(found, frames[n - 1]);
      assert chunks[..n][..n - 1] == chunks[..n - 1];
    }
  }

  // ---------- part groups ----------

  type GroupId = nat

  /** One element of the blocks array of a stored part. */
  datatype Item = Whole(block: Block) | Nested(id: string) | Piece(frame: FrameBlock)

  datatype Row = Row(owner: string, group: GroupId, items: seq<Item>)

  function Bytes(blocks: seq<Block>): nat {
    if blocks == [] then 0 else |Encode(blocks[0])| + 1 + Bytes(blocks[1..])
  }

  /** The encoded size of a part holding these blocks, commas included. */
  function PartBytes(blocks: seq<Block>): int {
    WRAPPER + (if blocks == [] then 0 else Bytes(blocks) - 1)
  }

  function ItemBytes(item: Item): nat {
    match item
    case Whole(b) => |Encode(b)|
    case Nested(id) => |id|
    case Piece(f) => FrameBytes(f)
  }

  function ItemsBytes(items: seq<Item>): nat {
    if items == [] then 0 else ItemBytes(items[0]) + 1 + ItemsBytes(items[1..])
  }

  function RowBytes(items: seq<Item>): int {
    WRAPPER + (if items == [] then 0 else ItemsBytes(items) - 1)
  }

  function Wholes(blocks: seq<Block>): (r: seq<Item>)
    ensures |r| == |blocks|
    ensures forall i :: 0 <= i < |r| ==> r[i] == Whole(blocks[i])
  {
    seq(|blocks|, i requires 0 <= i < |blocks| => Whole(blocks[i]))
  }

  /** The rows a group is written as: one, or one for each frame of an oversized block. */
  function Payloads(blocks: seq<Block>, maxBytes: int): (r: Option<seq<seq<Item>>>)
    ensures r.Some? <==> PartBytes(blocks) <= maxBytes || (|blocks| == 1 && maxBytes - WRAPPER > ENVELOPE)
    ensures r.Some? ==> |r.value| >= 1
  {
    if PartBytes(blocks) <= maxBytes then Some([Wholes(blocks)])
    else if |blocks| != 1 then None
    else match Frame(Encode(blocks[0]), maxBytes - WRAPPER)
      case None => None
      case Some(frames) => Some(seq(|frames|, i requires 0 <= i < |frames| => [Piece(frames[i])]))
  }

  lemma {:induction false} WholesBytes(blocks: seq<Block>)
    ensures ItemsBytes(Wholes(blocks)) == Bytes(blocks)
  {
    if blocks != [] {
      WholesBytes(blocks[1..]);
      assert Wholes(blocks)[1..] == Wholes(blocks[1..]);
    }
  }

  /** Every row written for a group respects the byte limit. */
  lemma PayloadsBounded(blocks: seq<Block>, maxBytes: int, i: nat)
    requires Payloads(blocks, maxBytes).Some? && i < |Payloads(blocks, maxBytes).value|
    ensures RowBytes(Payloads(blocks, maxBytes).value[i]) <= maxBytes
  {
    if PartBytes(blocks) <= maxBytes {
      WholesBytes(blocks);
    } else {
      var frames := Frame(Encode(blocks[0]), maxBytes - WRAPPER).value;
      var items := Payloads(blocks, maxBytes).value[i];
      assert items == [Piece(frames[i])];
      assert ItemsBytes(items) == FrameBytes(frames[i]) + 1 + ItemsBytes(items[1..]) && items[1..] == [];
    }
  }

  // ---------- reading a group back ----------

  function ItemsUpTo(rows: seq<Row>, n: nat): seq<Item>
    requires n <= |rows|
  {
    if n == 0 then [] else ItemsUpTo(rows, n - 1) + rows[n - 1].items
  }

  function Items(rows: seq<Row>): seq<Item> {
    ItemsUpTo(rows, |rows|)
  }

  function BlocksOf(items: seq<Item>): seq<Block> {
    if items == [] then []
    else
      var last := items[|items| - 1];
      BlocksOf(items[..|items| - 1]) + if last.Whole? then [last.block] else []
  }

  function FramesOf(items: seq<Item>): seq<FrameBlock> {
    if items == [] then []
    else
      var last := items[|items| - 1];
      FramesOf(items[..|items| - 1]) + if last.Piece? then [last.frame] else []
  }

  /** The identity checked for duplicates inside a group; the framing library numbers frames. */
  datatype Key = BlockKey(id: string) | FrameKey(index: nat)

  function KeyOf(item: Item): Key {
    match item
    case Whole(b) => BlockKey(b.id)
    case Nested(id) => BlockKey(id)
    case Piece(f) => FrameKey(f.index)
  }

  function Keys(items: seq<Item>): set<Key> {
    if items == [] then {} else Keys(items[..|items| - 1]) + {KeyOf(items[|items| - 1])}
  }

  predicate Allowed(item: Item) {
    !item.Nested? && (item.Whole? ==> item.block.kind != FRAME_TYPE)
  }

  /** No nested reference, no frame posing as a block, no identity twice. */
  predicate Readable(items: seq<Item>) {
    items == [] ||
    var last := items[|items| - 1];
    var rest := items[..|items| - 1];
    Readable(rest) && Allowed(last) && KeyOf(last) !in Keys(rest)
  }

  predicate OneGroup(rows: seq<Row>) {
    forall i :: 0 <= i < |rows| ==> rows[i].owner == rows[0].owner && rows[i].group == rows[0].group
  }

  /** Complete blocks as they are, or the one block that the frames of a group make up. */
  function Assemble(blocks: seq<Block>, frames: seq<FrameBlock>): Option<seq<Block>> {
    if frames == [] then Some(blocks)
    else if blocks != [] then None
    else match Unframe(frames)
      case None => None
      case Some(data) =>
        match Decode(data)
        case None => None
        case Some(b) => Some([b])
  }

  /** The blocks of a group, or nothing when its rows are not one well-formed group. */
  function DecodeGroup(rows: seq<Row>): Option<seq<Block>> {
    if rows == [] || !OneGroup(rows) || !Readable(Items(rows)) then None
    else Assemble(BlocksOf(Items(rows)), FramesOf(Items(rows)))
  }

  lemma AddItem(items: seq<Item>, item: Item)
    ensures Keys(items + [item]) == Keys(items) + {KeyOf(item)}
    ensures Readable(items + [item]) <==> Readable(items) && Allowed(item) && KeyOf(item) !in Keys(items)
    ensures BlocksOf(items + [item]) == BlocksOf(items) + if item.Whole? then [item.block] else []
    ensures FramesOf(items + [item]) == FramesOf(items) + if item.Piece? then [item.frame] else []
  {
    assert (items + [item])[..|items|] == items;
  }

  /** The inner loop of decodePart: adds the items of one row, or reports that they do not belong. */
  method AddRow(items: seq<Item>, ids: set<Key>, blocks: seq<Block>, frames: seq<FrameBlock>, ghost seen: seq<Item>)
    returns (ok: bool, ids': set<Key>, blocks': seq<Block>, frames': seq<FrameBlock>)
    requires Readable(seen) && ids == Keys(seen) && blocks == BlocksOf(seen) && frames == FramesOf(seen)
    ensures ok <==> Readable(seen + items)
    ensures ok ==> ids' == Keys(seen + items) && blocks' == BlocksOf(seen + items) && frames' == FramesOf(seen + items)
  {
    ids', blocks', frames' := ids, blocks, frames;
    assert seen + items[..0] == seen;
    for j := 0 to |items|
      invariant Readable(seen + items[..j])
      invariant ids' == Keys(seen + items[..j])
      invariant blocks' == BlocksOf(seen + items[..j]) && frames' == FramesOf(seen + items[..j])
    {
      var item := items[j];
      AddItem(seen + items[..j], item);
      assert seen + items[..j] + [item] == seen + items[..j + 1];
      if item.Nested? || (item.Whole? && item.block.kind == FRAME_TYPE) || KeyOf(item) in ids' {
        ReadablePrefix(seen + items[..j + 1], seen + items);
        return false, ids', blocks', frames';
      }
      ids' := ids' + {KeyOf(item)};
      if item.Piece? {
        frames' := frames' + [item.frame];
      } else {
        blocks' := blocks' + [item.block];
      }
    }
    assert items[..|items|] == items;
    ok := true;
  }

  lemma {:induction false} ReadablePrefix(prefix: seq<Item>, items: seq<Item>)
    requires prefix <= items
    ensures Readable(items) ==> Readable(prefix)
  {
    if prefix != items {
      ReadablePrefix(prefix, items[..|items| - 1]);
    }
  }

  lemma {:induction false} KeysAre(items: seq<Item>)
    ensures forall k :: k in Keys(items) ==> exists n :: 0 <= n < |items| && KeyOf(items[n]) == k
  {
    if items != [] {
      KeysAre(items[..|items| - 1]);
    }
  }

  /** Distinct identities make a group readable. */
  lemma {:induction false} DistinctReadable(items: seq<Item>)
    requires forall i :: 0 <= i < |items| ==> Allowed(items[i])
    requires forall i, j :: 0 <= i < j < |items| ==> KeyOf(items[i]) != KeyOf(items[j])
    ensures Readable(items)
  {
    if items != [] {
      DistinctReadable(items[..|items| - 1]);
      KeysAre(items[..|items| - 1]);
    }
  }

  /** The outer loop of decodePart: one pass over the rows, keeping blocks and frames apart. */
  method Collect(rows: seq<Row>) returns (ok: bool, blocks: seq<Block>, frames: seq<FrameBlock>)
    requires rows != []
    ensures ok <==> OneGroup(rows) && Readable(Items(rows))
    ensures ok ==> blocks == BlocksOf(Items(rows)) && frames == FramesOf(Items(rows))
  {
    var ids: set<Key> := {};
    blocks, frames := [], [];
    ghost var seen: seq<Item> := [];
    var i := 0;
    while i < |rows|
      invariant 0 <= i <= |rows| && seen == ItemsUpTo(rows, i)
      invariant forall k :: 0 <= k < i ==> rows[k].owner == rows[0].owner && rows[k].group == rows[0].group
      invariant Readable(seen) && ids == Keys(seen) && blocks == BlocksOf(seen) && frames == FramesOf(seen)
    {
      if rows[i].owner != rows[0].owner || rows[i].group != rows[0].group {
        return false, blocks, frames;
      }
      ItemsPrefix(rows, i + 1, |rows|);
      ok, ids, blocks, frames := AddRow(rows[i].items, ids, blocks, frames, seen);
      seen := seen + rows[i].items;
      if !ok {
        ReadablePrefix(seen, Items(rows));
        return false, blocks, frames;
      }
      i := i + 1;
    }
    ok := true;
  }

  /** decodePart: the blocks of one part group, from its rows in any order. */
  method DecodePart(rows: seq<Row>) returns (r: Option<seq<Block>>)
    ensures r == DecodeGroup(rows)
  {
    if rows == [] {
      return None;
    }
    var ok, blocks, frames := Collect(rows);
    DecodeReadable(rows);
    DecodeUnreadable(rows);
    r := if ok then Assemble(blocks, frames) else None;
  }

  lemma DecodeReadable(rows: seq<Row>)
    ensures rows != [] && OneGroup(rows) && Readable(Items(rows)) ==>
              DecodeGroup(rows) == Assemble(BlocksOf(Items(rows)), FramesOf(Items(rows)))
  {
  }

  lemma DecodeUnreadable(rows: seq<Row>)
    ensures rows == [] || !OneGroup(rows) || !Readable(Items(rows)) ==> DecodeGroup(rows) == None
  {
  }

  lemma {:induction false} ItemsPrefix(rows: seq<Row>, i: nat, n: nat)
    requires i <= n <= |rows|
    ensures ItemsUpTo(rows, i) <= ItemsUpTo(rows, n)
  {
    if i < n {
      ItemsPrefix(rows, i, n - 1);
    }
  }

  // ---------- groups in the parts table ----------

  ghost predicate InGroup(rows: map<nat, Row>, r: nat, owner: string, group: GroupId) {
    r in rows && rows[r].owner == owner && rows[r].group == group
  }

  /** keys lists, in some order and once each, the rows of one group. */
  ghost predicate Enumerates(keys: seq<nat>, rows: map<nat, Row>, owner: string, group: GroupId) {
    && (forall i, j :: 0 <= i < j < |keys| ==> keys[i] != keys[j])
    && (forall r :: r in keys <==> InGroup(rows, r, owner, group))
  }

  /** The table holds exactly these blocks as the given group. */
  ghost predicate Stores(rows: map<nat, Row>, owner: string, group: GroupId, blocks: seq<Block>, maxBytes: int) {
    Payloads(blocks, maxBytes).Some? && exists ids :: StoresAt(rows, owner, group, Payloads(blocks, maxBytes).value, ids)
  }

  ghost predicate StoresAt(rows: map<nat, Row>, owner: string, group: GroupId, payloads: seq<seq<Item>>, ids: seq<nat>) {
    && Enumerates(ids, rows, owner, group)
    && |ids| == |payloads|
    && forall i :: 0 <= i < |ids| ==> ids[i] in rows && rows[ids[i]].items == payloads[i]
  }

  function Select(rows: map<nat, Row>, keys: seq<nat>): (r: seq<Row>)
    requires forall k :: k in keys ==> k in rows
    ensures |r| == |keys| && forall i :: 0 <= i < |r| ==> r[i] == rows[keys[i]]
  {
    seq(|keys|, i requires 0 <= i < |keys| => rows[keys[i]])
  }

  function ToSet(s: seq<nat>): set<nat> {
    set x | x in s
  }

  lemma {:induction false} DistinctSize(s: seq<nat>)
    requires forall i, j :: 0 <= i < j < |s| ==> s[i] != s[j]
    ensures |ToSet(s)| == |s|
  {
    if s != [] {
      DistinctSize(s[1..]);
      assert ToSet(s) == {s[0]} + ToSet(s[1..]);
    }
  }

  lemma {:induction false} ItemsOfSingles(rows: seq<Row>, pieces: seq<FrameBlock>, n: nat)
    requires n <= |rows| == |pieces| && forall i :: 0 <= i < |rows| ==> rows[i].items == [Piece(pieces[i])]
    ensures ItemsUpTo(rows, n) == PiecesOf(pieces[..n])
  {
    if n > 0 {
      ItemsOfSingles(rows, pieces, n - 1);
      assert PiecesOf(pieces[..n]) == PiecesOf(pieces[..n - 1]) + [Piece(pieces[n - 1])];
    }
  }

  function PiecesOf(frames: seq<FrameBlock>): (r: seq<Item>)
    ensures |r| == |frames| && forall i :: 0 <= i < |r| ==> r[i] == Piece(frames[i])
  {
    seq(|frames|, i requires 0 <= i < |frames| => Piece(frames[i]))
  }

  lemma {:induction false} PartsOfPieces(frames: seq<FrameBlock>)
    ensures BlocksOf(PiecesOf(frames)) == [] && FramesOf(PiecesOf(frames)) == frames
  {
    if frames != [] {
      var n := |frames| - 1;
      PartsOfPieces(frames[..n]);
      assert PiecesOf(frames)[..n] == PiecesOf(frames[..n]);
    }
  }

  lemma {:induction false} PartsOfWholes(blocks: seq<Block>)
    ensures BlocksOf(Wholes(blocks)) == blocks && FramesOf(Wholes(blocks)) == []
  {
    if blocks != [] {
      var n := |blocks| - 1;
      PartsOfWholes(blocks[..n]);
      assert Wholes(blocks)[..n] == Wholes(blocks[..n]);
    }
  }

  lemma WholesReadable(blocks: seq<Block>)
    requires Plain(blocks)
    ensures Readable(Wholes(blocks))
  {
    DistinctReadable(Wholes(blocks));
  }

  ghost predicate Plain(blocks: seq<Block>) {
    UniqueIds(blocks) && forall i :: 0 <= i < |blocks| ==> blocks[i].kind != FRAME_TYPE
  }

  ghost function PositionIn(s: seq<nat>, x: nat): (k: nat)
    requires x in s
    ensures k < |s| && s[k] == x
  {
    var k :| 0 <= k < |s| && s[k] == x; k
  }

  /** Two listings of the same rows have the same length and reach each other's positions. */
  lemma SameListing(rows: map<nat, Row>, owner: string, group: GroupId, ids: seq<nat>, keys: seq<nat>)
    requires Enumerates(ids, rows, owner, group) && Enumerates(keys, rows, owner, group)
    ensures |ids| == |keys| && forall r :: r in ids <==> r in keys
    ensures forall k :: k in keys ==> k in rows
    ensures OneGroup(Select(rows, keys))
  {
    assert ToSet(ids) == ToSet(keys);
    DistinctSize(ids);
    DistinctSize(keys);
    forall i | 0 <= i < |keys| ensures InGroup(rows, keys[i], owner, group) {
      assert keys[i] in keys;
    }
  }

  /** Whatever order the database returns the rows in, a stored group decodes to its blocks. */
  lemma StoredDecodes(rows: map<nat, Row>, owner: string, group: GroupId, blocks: seq<Block>, maxBytes: int, keys: seq<nat>)
    requires Stores(rows, owner, group, blocks, maxBytes) && Plain(blocks)
    requires Enumerates(keys, rows, owner, group)
    ensures DecodeGroup(Select(rows, keys)) == Some(blocks)
  {
    var payloads := Payloads(blocks, maxBytes).value;
    var ids :| StoresAt(rows, owner, group, payloads, ids);
    SameListing(rows, owner, group, ids, keys);
    var found := Select(rows, keys);
    if PartBytes(blocks) <= maxBytes {
      WholeItems(rows, owner, group, blocks, keys, ids);
      DecodeWhole(found, blocks);
    } else {
      assert blocks == [blocks[0]];
      var data := Encode(blocks[0]);
      var frames := Frame(data, maxBytes - WRAPPER).value;
      assert forall i :: 0 <= i < |ids| ==> ids[i] in ids && rows[ids[i]].items == [Piece(frames[i])];
      var pieces := FramedRows(rows, data, maxBytes - WRAPPER, keys, ids);
      DecodeFramed(found, pieces, blocks[0]);
    }
  }

  lemma DecodeWhole(rows: seq<Row>, blocks: seq<Block>)
    requires rows != [] && OneGroup(rows) && Readable(Items(rows))
    requires BlocksOf(Items(rows)) == blocks && FramesOf(Items(rows)) == []
    ensures DecodeGroup(rows) == Some(blocks)
  {
  }

  lemma DecodeFramed(rows: seq<Row>, pieces: seq<FrameBlock>, b: Block)
    requires rows != [] && OneGroup(rows) && Readable(Items(rows))
    requires BlocksOf(Items(rows)) == [] && FramesOf(Items(rows)) == pieces && pieces != []
    requires Unframe(pieces) == Some(Encode(b))
    ensures DecodeGroup(rows) == Some([b])
  {
    DecodeEncode(b);
  }

  lemma WholeItems(rows: map<nat, Row>, owner: string, group: GroupId, blocks: seq<Block>, keys: seq<nat>, ids: seq<nat>)
    requires Plain(blocks)
    requires StoresAt(rows, owner, group, [Wholes(blocks)], ids)
    requires Enumerates(keys, rows, owner, group) && |keys| == |ids|
    ensures |keys| == 1 && Readable(Items(Select(rows, keys)))
    ensures BlocksOf(Items(Select(rows, keys))) == blocks && FramesOf(Items(Select(rows, keys))) == []
  {
    var found := Select(rows, keys);
    assert keys[0] in keys && ids[0] == keys[0];
    assert ItemsUpTo(found, 0) == [];
    assert Items(found) == [] + found[0].items == Wholes(blocks);
    WholesReadable(blocks);
    PartsOfWholes(blocks);
  }

  /** Rows of one frame each, listed in any order, read as those frames in some order. */
  lemma FramedItems(rows: map<nat, Row>, frames: seq<FrameBlock>, keys: seq<nat>, ids: seq<nat>)
    returns (pieces: seq<FrameBlock>)
    requires |keys| == |ids| == |frames|
    requires forall r :: r in ids <==> r in keys
    requires forall i, j :: 0 <= i < j < |keys| ==> keys[i] != keys[j]
    requires forall i, j :: 0 <= i < j < |ids| ==> ids[i] != ids[j]
    requires forall i :: 0 <= i < |ids| ==> ids[i] in rows && rows[ids[i]].items == [Piece(frames[i])]
    requires forall k :: k in keys ==> k in rows
    requires forall i :: 0 <= i < |frames| ==> frames[i].index == i
    ensures |pieces| == |frames| && forall f :: f in pieces <==> f in frames
    ensures Items(Select(rows, keys)) == PiecesOf(pieces) && Readable(PiecesOf(pieces))
  {
    assert forall j :: 0 <= j < |keys| ==> keys[j] in keys;
    pieces := seq(|keys|, j requires 0 <= j < |keys| => frames[PositionIn(ids, keys[j])]);
    ItemsOfSingles(Select(rows, keys), pieces, |pieces|);
    assert pieces[..|pieces|] == pieces;
    PiecesCover(keys, ids, frames, pieces);
    DistinctPieces(keys, ids, frames, pieces);
  }

  lemma FramedRows(rows: map<nat, Row>, data: string, limit: int, keys: seq<nat>, ids: seq<nat>)
    returns (pieces: seq<FrameBlock>)
    requires limit > ENVELOPE && |keys| == |ids| == |Frame(data, limit).value|
    requires forall r :: r in ids <==> r in keys
    requires forall i, j :: 0 <= i < j < |keys| ==> keys[i] != keys[j]
    requires forall i, j :: 0 <= i < j < |ids| ==> ids[i] != ids[j]
    requires forall i :: 0 <= i < |ids| ==> ids[i] in rows && rows[ids[i]].items == [Piece(Frame(data, limit).value[i])]
    requires forall k :: k in keys ==> k in rows
    ensures pieces != [] && Unframe(pieces) == Some(data) && Readable(Items(Select(rows, keys)))
    ensures BlocksOf(Items(Select(rows, keys))) == [] && FramesOf(Items(Select(rows, keys))) == pieces
  {
    pieces := FramedItems(rows, Frame(data, limit).value, keys, ids);
    PartsOfPieces(pieces);
    UnframeFrame(data, limit, pieces);
  }

  lemma PiecesCover(keys: seq<nat>, ids: seq<nat>, frames: seq<FrameBlock>, pieces: seq<FrameBlock>)
    requires |pieces| == |keys| && |ids| == |frames|
    requires forall j :: 0 <= j < |keys| ==> keys[j] in ids && pieces[j] == frames[PositionIn(ids, keys[j])]
    requires forall r :: r in ids ==> r in keys
    requires forall i, j :: 0 <= i < j < |ids| ==> ids[i] != ids[j]
    ensures forall f :: f in pieces <==> f in frames
  {
    forall f | f in frames ensures f in pieces {
      var i :| 0 <= i < |frames| && frames[i] == f;
      assert ids[i] in keys;
      var j :| 0 <= j < |keys| && keys[j] == ids[i];
      assert PositionIn(ids, keys[j]) == i;
      assert pieces[j] == f;
    }
  }

  lemma DistinctPieces(keys: seq<nat>, ids: seq<nat>, frames: seq<FrameBlock>, pieces: seq<FrameBlock>)
    requires |pieces| == |keys| && |ids| == |frames|
    requires forall j :: 0 <= j < |keys| ==> keys[j] in ids && pieces[j] == frames[PositionIn(ids, keys[j])]
    requires forall i, j :: 0 <= i < j < |keys| ==> keys[i] != keys[j]
    requires forall i :: 0 <= i < |frames| ==> frames[i].index == i
    ensures Readable(PiecesOf(pieces))
  {
    var items := PiecesOf(pieces);
    forall m, n | 0 <= m < n < |items| ensures KeyOf(items[m]) != KeyOf(items[n]) {
      assert ids[PositionIn(ids, keys[m])] != ids[PositionIn(ids, keys[n])];
    }
    DistinctReadable(items);
  }
}
