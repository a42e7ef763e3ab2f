/**
 * The physical shape of one stored message: a root whose entries are inline
 * blocks or references, and part groups that hold the referenced bodies.
 * These are facts about values; the objects that load and change them are in
 * MessageStore.
 */
module Layout {
  import opened Wrappers
  import opened Agentue
  import opened Framing

  datatype Entry = Inline(block: Block) | Ref(ref: string, group: GroupId) {
    function Id(): string {
      if Inline? then block.id else ref
    }
  }

  type Groups = map<GroupId, seq<Block>>

  ghost predicate Is(groups: Groups, g: GroupId, b: Block) {
    g in groups && b in groups[g]
  }

  ghost predicate Has(groups: Groups, g: GroupId, id: string) {
    exists b :: Is(groups, g, b) && b.id == id
  }

  /** A group fits the byte limit unless it holds a single block. */
  ghost predicate Fits(blocks: seq<Block>, maxBytes: int) {
    |blocks| == 1 || (|blocks| > 1 && PartBytes(blocks) <= maxBytes)
  }

  ghost predicate Sound(groups: Groups, maxBytes: int) {
    forall g :: g in groups ==> Plain(groups[g]) && Fits(groups[g], maxBytes)
  }

  ghost predicate Resolves(e: Entry, b: Block, groups: Groups) {
    if e.Inline? then e.block == b else e.ref == b.id && Is(groups, e.group, b)
  }

  /** The root and its groups show exactly these blocks, in this order. */
  ghost predicate Shows(entries: seq<Entry>, groups: Groups, blocks: seq<Block>) {
    |entries| == |blocks| && forall i :: 0 <= i < |blocks| ==> Resolves(entries[i], blocks[i], groups)
  }

  /** Inline blocks first, references after them. */
  ghost predicate Shape(entries: seq<Entry>) {
    forall i, j :: 0 <= i < j < |entries| && entries[i].Ref? ==> entries[j].Ref?
  }

  /** Every stored body is referenced. */
  ghost predicate Exact(entries: seq<Entry>, groups: Groups) {
    forall g, b :: Is(groups, g, b) ==> Ref(b.id, g) in entries
  }

  /** A stored message at rest. */
  ghost predicate Settled(entries: seq<Entry>, groups: Groups, blocks: seq<Block>, maxBytes: int) {
    Plain(blocks) && Shows(entries, groups, blocks) && Shape(entries) && Exact(entries, groups) && Sound(groups, maxBytes)
  }

  function EntryBytes(e: Entry): nat {
    if e.Inline? then |Encode(e.block)| else |e.ref| + 60
  }

  function EntriesBytes(entries: seq<Entry>): nat {
    if entries == [] then 0 else EntryBytes(entries[0]) + 1 + EntriesBytes(entries[1..])
  }

  /** The encoded size of a root: envelope, metadata and the block directory. */
  function RootBytes(meta: Meta, version: string, entries: seq<Entry>): int {
    48 + |version| + |meta.text| + (if meta.human then 32 else 0) + (if meta.output.Some? then 96 else 0)
    + (if entries == [] then 0 else EntriesBytes(entries) - 1)
  }

  // ---------- a settled message is decided by its root and groups ----------

  lemma ShowsUnique(entries: seq<Entry>, groups: Groups, a: seq<Block>, b: seq<Block>, maxBytes: int)
    requires Sound(groups, maxBytes) && Shows(entries, groups, a) && Shows(entries, groups, b)
    ensures a == b
  {
    forall i | 0 <= i < |a| ensures a[i] == b[i] {
      if entries[i].Ref? {
        SameIdSame(groups[entries[i].group], a[i], b[i]);
      }
    }
  }

  lemma SameIdSame(blocks: seq<Block>, a: Block, b: Block)
    requires UniqueIds(blocks) && a in blocks && b in blocks && a.id == b.id
    ensures a == b
  {
    var i :| 0 <= i < |blocks| && blocks[i] == a;
    var j :| 0 <= j < |blocks| && blocks[j] == b;
  }

  /** Nothing is referenced twice: a body belongs to one entry of a settled message. */
  lemma ReferencedOnce(entries: seq<Entry>, groups: Groups, blocks: seq<Block>, maxBytes: int, g: GroupId, b: Block)
    requires Settled(entries, groups, blocks, maxBytes) && Is(groups, g, b)
    ensures exists i :: 0 <= i < |entries| && entries[i] == Ref(b.id, g) && blocks[i] == b
                        && forall j :: 0 <= j < |entries| && j != i ==> entries[j].Id() != b.id
  {
    var i :| 0 <= i < |entries| && entries[i] == Ref(b.id, g);
    SameIdSame(groups[g], blocks[i], b);
    assert forall j :: 0 <= j < |entries| ==> entries[j].Id() == blocks[j].id;
  }

  // ---------- placing one block ----------

  /** The body of b now lives in group g and nowhere else; no other body moved. */
  ghost predicate Placed(before: Groups, after: Groups, b: Block, g: GroupId) {
    && (forall h: GroupId, x: Block :: x.id != b.id ==> (Is(after, h, x) <==> Is(before, h, x)))
    && (forall h: GroupId, x: Block :: x.id == b.id ==> (Is(after, h, x) <==> h == g && x == b))
  }

  /** The only place an id may already be stored is where the loaded root pointed. */
  ghost predicate Free(groups: Groups, original: map<string, GroupId>, id: string) {
    forall h, x :: Is(groups, h, x) && x.id == id ==> id in original && original[id] == h
  }

  function RemoveAt(blocks: seq<Block>, i: nat): seq<Block>
    requires i < |blocks|
  {
    blocks[..i] + blocks[i + 1..]
  }

  lemma {:induction false} BytesAppend(a: seq<Block>, b: seq<Block>)
    ensures Bytes(a + b) == Bytes(a) + Bytes(b)
  {
    if a == [] {
      assert a + b == b;
    } else {
      assert (a + b)[1..] == a[1..] + b;
      BytesAppend(a[1..], b);
    }
  }

  /** A part gets smaller when a block is removed. */
  lemma RemoveShrinks(blocks: seq<Block>, i: nat)
    requires i < |blocks| && |blocks| > 1
    ensures PartBytes(RemoveAt(blocks, i)) < PartBytes(blocks)
  {
    assert blocks == blocks[..i] + ([blocks[i]] + blocks[i + 1..]);
    BytesAppend(blocks[..i], [blocks[i]] + blocks[i + 1..]);
    BytesAppend([blocks[i]], blocks[i + 1..]);
    BytesAppend(blocks[..i], blocks[i + 1..]);
  }

  lemma RemovedAre(blocks: seq<Block>, i: nat)
    requires i < |blocks| && UniqueIds(blocks)
    ensures forall x :: x in RemoveAt(blocks, i) <==> x in blocks && x.id != blocks[i].id
    ensures UniqueIds(RemoveAt(blocks, i))
  {
    var r := RemoveAt(blocks, i);
    forall x | x in blocks && x.id != blocks[i].id ensures x in r {
      var k :| 0 <= k < |blocks| && blocks[k] == x;
      assert r[if k < i then k else k - 1] == x;
    }
    assert forall k :: 0 <= k < |r| ==> r[k] == blocks[if k < i then k else k + 1];
  }

  lemma UpdatedAre(blocks: seq<Block>, i: nat, b: Block)
    requires i < |blocks| && UniqueIds(blocks) && blocks[i].id == b.id
    ensures forall x :: x in blocks[i := b] <==> x == b || (x in blocks && x.id != b.id)
    ensures UniqueIds(blocks[i := b])
  {
    var r := blocks[i := b];
    forall x | x == b || (x in blocks && x.id != b.id) ensures x in r {
      if x == b {
        assert r[i] == x;
      } else {
        var k :| 0 <= k < |blocks| && blocks[k] == x;
        assert r[k] == x;
      }
    }
  }

  lemma PlaceInGroup(groups: Groups, original: map<string, GroupId>, key: GroupId, i: nat, b: Block, maxBytes: int)
    requires Sound(groups, maxBytes) && b.kind != FRAME_TYPE && Free(groups, original, b.id)
    requires b.id in original && original[b.id] == key && key in groups
    requires i < |groups[key]| && groups[key][i].id == b.id
    ensures Placed(groups, groups[key := groups[key][i := b]], b, key) && Plain(groups[key][i := b])
  {
    var after := groups[key := groups[key][i := b]];
    UpdatedAre(groups[key], i, b);
    forall h: GroupId, x: Block ensures Is(after, h, x) <==> if x.id == b.id then h == key && x == b else Is(groups, h, x) {
      if h != key {
        assert Is(after, h, x) <==> Is(groups, h, x);
      }
    }
  }

  lemma PlaceMoved(groups: Groups, original: map<string, GroupId>, key: GroupId, i: nat, b: Block, g: GroupId, maxBytes: int)
    requires Sound(groups, maxBytes) && b.kind != FRAME_TYPE && Free(groups, original, b.id)
    requires b.id in original && original[b.id] == key && key in groups && g !in groups
    requires i < |groups[key]| && groups[key][i].id == b.id && |groups[key]| > 1
    ensures
      var after := groups[key := RemoveAt(groups[key], i)][g := [b]];
      Placed(groups, after, b, g) && Sound(after, maxBytes)
  {
    var rest := RemoveAt(groups[key], i);
    var after := groups[key := rest][g := [b]];
    RemovedAre(groups[key], i);
    RemoveShrinks(groups[key], i);
    forall h: GroupId, x: Block ensures Is(after, h, x) <==> if x.id == b.id then h == g && x == b else Is(groups, h, x) {
      if h != key && h != g {
        assert Is(after, h, x) <==> Is(groups, h, x);
      }
    }
    forall k | 0 <= k < |rest| ensures rest[k].kind != FRAME_TYPE {
      assert rest[k] in groups[key];
    }
  }

  lemma AppendedAre(blocks: seq<Block>, b: Block)
    requires Plain(blocks) && b.kind != FRAME_TYPE
    requires forall x :: x in blocks ==> x.id != b.id
    ensures Plain(blocks + [b]) && forall x :: x in blocks + [b] <==> x in blocks || x == b
  {
    assert forall k :: 0 <= k < |blocks| ==> blocks[k] in blocks;
  }

  lemma PlaceAppended(groups: Groups, original: map<string, GroupId>, g: GroupId, b: Block, maxBytes: int)
    requires Sound(groups, maxBytes) && b.kind != FRAME_TYPE && Free(groups, original, b.id)
    requires b.id !in original
    requires g in groups ==> PartBytes(groups[g] + [b]) <= maxBytes
    ensures
      var after := groups[g := if g in groups then groups[g] + [b] else [b]];
      Placed(groups, after, b, g) && Sound(after, maxBytes)
  {
    var after := groups[g := if g in groups then groups[g] + [b] else [b]];
    if g in groups {
      forall x | x in groups[g] ensures x.id != b.id {
        assert Is(groups, g, x);
      }
      AppendedAre(groups[g], b);
    }
    forall h: GroupId, x: Block ensures Is(after, h, x) <==> if x.id == b.id then h == g && x == b else Is(groups, h, x) {
      if h != g {
        assert Is(after, h, x) <==> Is(groups, h, x);
      }
    }
  }

  // ---------- packing ----------

  /** A stored body is referenced, or still waits where the loaded root had it. */
  ghost predicate Owned(entries: seq<Entry>, groups: Groups, original: map<string, GroupId>) {
    forall g, b :: Is(groups, g, b) ==>
      Ref(b.id, g) in entries
      || (b.id in original && original[b.id] == g && forall k :: 0 <= k < |entries| && entries[k].Ref? ==> entries[k].ref != b.id)
  }

  /** A loaded block that is inline for now still has a body to replace. */
  ghost predicate Waiting(entries: seq<Entry>, groups: Groups, original: map<string, GroupId>) {
    forall k :: 0 <= k < |entries| && entries[k].Inline? && entries[k].block.id in original ==>
      Has(groups, original[entries[k].block.id], entries[k].block.id)
  }

  /** The state of packing: the goal is shown at every moment, partly inline and partly stored. */
  ghost predicate Packing(entries: seq<Entry>, groups: Groups, original: map<string, GroupId>, goal: seq<Block>, maxBytes: int) {
    && Plain(goal) && Shows(entries, groups, goal) && Sound(groups, maxBytes)
    && Owned(entries, groups, original) && Waiting(entries, groups, original)
  }

  lemma PackingFree(entries: seq<Entry>, groups: Groups, original: map<string, GroupId>, goal: seq<Block>, maxBytes: int, i: nat)
    requires Packing(entries, groups, original, goal, maxBytes)
    requires i < |entries| && entries[i].Inline?
    ensures Free(groups, original, entries[i].block.id)
  {
    assert forall j :: 0 <= j < |entries| ==> entries[j].Id() == goal[j].id;
  }

  /** Replacing an inline block by a reference to where it was placed keeps showing the goal. */
  lemma PackingStep(entries: seq<Entry>, groups: Groups, original: map<string, GroupId>, goal: seq<Block>, maxBytes: int,
                    i: nat, after: Groups, g: GroupId)
    requires Packing(entries, groups, original, goal, maxBytes)
    requires i < |entries| && entries[i].Inline?
    requires Sound(after, maxBytes) && Placed(groups, after, entries[i].block, g)
    ensures Packing(entries[i := Ref(entries[i].block.id, g)], after, original, goal, maxBytes)
  {
    var b := entries[i].block;
    var next := entries[i := Ref(b.id, g)];
    assert forall j :: 0 <= j < |entries| ==> entries[j].Id() == goal[j].id;
    forall j | 0 <= j < |next| ensures Resolves(next[j], goal[j], after) {
      if j != i {
        assert Resolves(entries[j], goal[j], groups);
      }
    }
    StepOwned(entries, groups, original, i, after, g);
    forall k | 0 <= k < |next| && next[k].Inline? && next[k].block.id in original
      ensures Has(after, original[next[k].block.id], next[k].block.id)
    {
      assert entries[k] == next[k] && next[k].block.id != b.id;
      var x :| Is(groups, original[next[k].block.id], x) && x.id == next[k].block.id;
      assert Is(after, original[next[k].block.id], x);
    }
  }

  lemma StepOwned(entries: seq<Entry>, groups: Groups, original: map<string, GroupId>, i: nat, after: Groups, g: GroupId)
    requires Owned(entries, groups, original)
    requires i < |entries| && entries[i].Inline?
    requires forall j :: 0 <= j < |entries| && j != i ==> entries[j].Id() != entries[i].block.id
    requires Placed(groups, after, entries[i].block, g)
    ensures Owned(entries[i := Ref(entries[i].block.id, g)], after, original)
  {
    var b := entries[i].block;
    var next := entries[i := Ref(b.id, g)];
    forall h, x | Is(after, h, x)
      ensures Ref(x.id, h) in next
              || (x.id in original && original[x.id] == h && forall k :: 0 <= k < |next| && next[k].Ref? ==> next[k].ref != x.id)
    {
      if x.id == b.id {
        assert next[i] == Ref(x.id, h);
      } else {
        assert Is(groups, h, x);
        if Ref(x.id, h) in entries {
          var k :| 0 <= k < |entries| && entries[k] == Ref(x.id, h);
          assert next[k] == Ref(x.id, h);
        }
      }
    }
  }

  /** Packing is over when no inline block has a body left behind. */
  ghost predicate Packed(entries: seq<Entry>, groups: Groups, original: map<string, GroupId>, goal: seq<Block>, maxBytes: int) {
    && Packing(entries, groups, original, goal, maxBytes) && Shape(entries)
    && forall k :: 0 <= k < |entries| && entries[k].Inline? ==> entries[k].block.id !in original
  }

  /** When the loaded root only pointed at blocks that are still there, packing settles the message. */
  lemma PackedSettles(entries: seq<Entry>, groups: Groups, original: map<string, GroupId>, goal: seq<Block>, maxBytes: int)
    requires Packed(entries, groups, original, goal, maxBytes)
    requires forall id :: id in original ==> exists i :: 0 <= i < |goal| && goal[i].id == id
    ensures Settled(entries, groups, goal, maxBytes)
  {
    forall g, b | Is(groups, g, b) ensures Ref(b.id, g) in entries {
      if b.id in original {
        var i :| 0 <= i < |goal| && goal[i].id == b.id;
        assert entries[i].Id() == goal[i].id;
      }
    }
  }

  // ---------- opening a settled message for an update ----------

  /** The references a root was loaded with. */
  ghost predicate RefsOf(entries: seq<Entry>, original: map<string, GroupId>) {
    && (forall k :: 0 <= k < |entries| && entries[k].Ref? ==> entries[k].ref in original && original[entries[k].ref] == entries[k].group)
    && (forall id :: id in original ==> Ref(id, original[id]) in entries)
  }

  lemma SettledDistinct(entries: seq<Entry>, groups: Groups, blocks: seq<Block>, maxBytes: int)
    requires Settled(entries, groups, blocks, maxBytes)
    ensures forall i, j :: 0 <= i < j < |entries| ==> entries[i].Id() != entries[j].Id()
    ensures forall i :: 0 <= i < |entries| ==> entries[i].Id() == blocks[i].id
    ensures forall i :: 0 <= i < |entries| && entries[i].Ref? ==> entries[i].group in groups && Has(groups, entries[i].group, entries[i].ref)
  {
    forall i | 0 <= i < |entries| ensures entries[i].Id() == blocks[i].id && (entries[i].Ref? ==> Is(groups, entries[i].group, blocks[i])) {
      assert Resolves(entries[i], blocks[i], groups);
    }
  }

  lemma SettledPacking(entries: seq<Entry>, groups: Groups, blocks: seq<Block>, maxBytes: int, original: map<string, GroupId>)
    requires Settled(entries, groups, blocks, maxBytes) && RefsOf(entries, original)
    ensures Packing(entries, groups, original, blocks, maxBytes)
  {
    SettledDistinct(entries, groups, blocks, maxBytes);
    forall id | id in original ensures forall k :: 0 <= k < |entries| && entries[k].Inline? ==> entries[k].block.id != id {
      var j :| 0 <= j < |entries| && entries[j] == Ref(id, original[id]);
      assert entries[j].Id() == id;
    }
  }

  /** Loading a referenced body inline leaves its stored copy waiting to be replaced. */
  lemma OpenedPacking(entries: seq<Entry>, groups: Groups, blocks: seq<Block>, maxBytes: int, original: map<string, GroupId>, k: nat)
    requires Packing(entries, groups, original, blocks, maxBytes) && RefsOf(entries, original)
    requires k < |entries| && entries[k].Ref?
    ensures Packing(entries[k := Inline(blocks[k])], groups, original, blocks, maxBytes)
  {
    var next := entries[k := Inline(blocks[k])];
    var id := blocks[k].id;
    assert Resolves(entries[k], blocks[k], groups);
    assert forall j :: 0 <= j < |entries| ==> entries[j].Id() == blocks[j].id by {
      forall j | 0 <= j < |entries| ensures entries[j].Id() == blocks[j].id {
        assert Resolves(entries[j], blocks[j], groups);
      }
    }
    forall g, b | Is(groups, g, b)
      ensures Ref(b.id, g) in next
              || (b.id in original && original[b.id] == g && forall j :: 0 <= j < |next| && next[j].Ref? ==> next[j].ref != b.id)
    {
      if Ref(b.id, g) in entries {
        var j :| 0 <= j < |entries| && entries[j] == Ref(b.id, g);
        if j != k {
          assert next[j] == Ref(b.id, g);
        }
      }
    }
    forall j | 0 <= j < |next| ensures Resolves(next[j], blocks[j], groups) {
      assert Resolves(entries[j], blocks[j], groups);
    }
  }

  /** Changing the text of an inline block changes the goal at that position. */
  lemma EditedPacking(entries: seq<Entry>, groups: Groups, blocks: seq<Block>, maxBytes: int, original: map<string, GroupId>, k: nat, b: Block)
    requires Packing(entries, groups, original, blocks, maxBytes)
    requires k < |entries| && entries[k].Inline? && b.id == blocks[k].id && b.kind != FRAME_TYPE
    ensures Packing(entries[k := Inline(b)], groups, original, blocks[k := b], maxBytes)
  {
    var next := entries[k := Inline(b)];
    assert Resolves(entries[k], blocks[k], groups);
    forall j | 0 <= j < |next| ensures Resolves(next[j], blocks[k := b][j], groups) {
      assert Resolves(entries[j], blocks[j], groups);
    }
    forall g, x | Is(groups, g, x) && Ref(x.id, g) in entries ensures Ref(x.id, g) in next {
      var j :| 0 <= j < |entries| && entries[j] == Ref(x.id, g);
      assert next[j] == Ref(x.id, g);
    }
  }

  lemma AppendedPacking(entries: seq<Entry>, groups: Groups, blocks: seq<Block>, maxBytes: int, original: map<string, GroupId>, b: Block)
    requires Packing(entries, groups, original, blocks, maxBytes)
    requires b.kind != FRAME_TYPE && b.id !in original && forall i :: 0 <= i < |blocks| ==> blocks[i].id != b.id
    ensures Packing(entries + [Inline(b)], groups, original, blocks + [b], maxBytes)
  {
    var next := entries + [Inline(b)];
    forall j | 0 <= j < |entries| ensures Resolves(next[j], (blocks + [b])[j], groups) {
      assert Resolves(entries[j], blocks[j], groups);
    }
    forall g, x | Is(groups, g, x) && Ref(x.id, g) in entries ensures Ref(x.id, g) in next {
      var j :| 0 <= j < |entries| && entries[j] == Ref(x.id, g);
      assert next[j] == Ref(x.id, g);
    }
  }

  /** A complete replacement starts inline, over whatever the old root still has stored. */
  lemma ReplacementPacking(before: seq<Entry>, groups: Groups, blocks: seq<Block>, maxBytes: int, original: map<string, GroupId>,
                           entries: seq<Entry>, goal: seq<Block>)
    requires Settled(before, groups, blocks, maxBytes) && RefsOf(before, original)
    requires Plain(goal) && |entries| == |goal| && forall i :: 0 <= i < |goal| ==> entries[i] == Inline(goal[i])
    ensures Packing(entries, groups, original, goal, maxBytes)
  {
    SettledDistinct(before, groups, blocks, maxBytes);
    forall g, b | Is(groups, g, b) ensures b.id in original && original[b.id] == g {
      var k :| 0 <= k < |before| && before[k] == Ref(b.id, g);
    }
    forall k | 0 <= k < |entries| && entries[k].block.id in original ensures Has(groups, original[entries[k].block.id], entries[k].block.id) {
      var id := entries[k].block.id;
      var j :| 0 <= j < |before| && before[j] == Ref(id, original[id]);
    }
  }

  // ---------- dropping the bodies of removed blocks ----------

  function Filter(blocks: seq<Block>, ids: set<string>): seq<Block> {
    if blocks == [] then []
    else (if blocks[0].id in ids then [blocks[0]] else []) + Filter(blocks[1..], ids)
  }

  lemma {:induction false} FilterAre(blocks: seq<Block>, ids: set<string>)
    ensures forall x :: x in Filter(blocks, ids) <==> x in blocks && x.id in ids
    ensures Bytes(Filter(blocks, ids)) <= Bytes(blocks) && |Filter(blocks, ids)| <= |blocks|
    ensures |Filter(blocks, ids)| == |blocks| ==> Filter(blocks, ids) == blocks
  {
    if blocks != [] {
      FilterAre(blocks[1..], ids);
      var head := if blocks[0].id in ids then [blocks[0]] else [];
      BytesAppend(head, Filter(blocks[1..], ids));
      assert blocks == [blocks[0]] + blocks[1..];
      forall x ensures x in Filter(blocks, ids) <==> x in blocks && x.id in ids {
      }
    }
  }

  lemma ConsPlain(b: Block, rest: seq<Block>)
    requires Plain(rest) && b.kind != FRAME_TYPE
    requires forall x :: x in rest ==> x.id != b.id
    ensures Plain([b] + rest)
  {
    assert forall k :: 0 <= k < |rest| ==> rest[k] in rest;
  }

  lemma {:induction false} FilterPlain(blocks: seq<Block>, ids: set<string>)
    requires Plain(blocks)
    ensures Plain(Filter(blocks, ids))
  {
    if blocks != [] {
      var tail := blocks[1..];
      FilterPlain(tail, ids);
      FilterAre(tail, ids);
      if blocks[0].id in ids {
        forall x | x in Filter(tail, ids) ensures x.id != blocks[0].id {
          var n :| 0 <= n < |tail| && tail[n] == x;
          assert blocks[n + 1] == x;
        }
        ConsPlain(blocks[0], Filter(tail, ids));
      }
    }
  }

  /** The ids a root still refers to in one group. */
  function Kept(entries: seq<Entry>, g: GroupId): set<string> {
    set e | e in entries && e.Ref? && e.group == g :: e.ref
  }

  function KeptGroups(entries: seq<Entry>): set<GroupId> {
    set e | e in entries && e.Ref? :: e.group
  }

  ghost function Restricted(groups: Groups, keep: set<GroupId>): Groups {
    map g | g in groups && g in keep :: groups[g]
  }

  function Trimmed(entries: seq<Entry>, groups: Groups): Groups {
    map g | g in groups && g in KeptGroups(entries) :: Filter(groups[g], Kept(entries, g))
  }

  /** Trimming to the referenced bodies settles any packed message. */
  lemma TrimmedSettles(entries: seq<Entry>, groups: Groups, original: map<string, GroupId>, goal: seq<Block>, maxBytes: int)
    requires Packed(entries, groups, original, goal, maxBytes)
    ensures Settled(entries, Trimmed(entries, groups), goal, maxBytes)
    ensures Trimmed(entries, groups).Keys == KeptGroups(entries)
  {
    var after := Trimmed(entries, groups);
    forall g, b ensures Is(after, g, b) <==> Is(groups, g, b) && Ref(b.id, g) in entries {
      if g in groups {
        FilterAre(groups[g], Kept(entries, g));
      }
      if Ref(b.id, g) in entries {
        assert b.id in Kept(entries, g) && g in KeptGroups(entries);
      }
    }
    forall i | 0 <= i < |goal| ensures Resolves(entries[i], goal[i], after) {
      assert Resolves(entries[i], goal[i], groups) && entries[i] in entries;
    }
    forall g | g in KeptGroups(entries) ensures g in after && after[g] != [] && Plain(after[g]) && Fits(after[g], maxBytes) {
      TrimmedSound(entries, groups, goal, maxBytes, g);
    }
  }

  lemma TrimmedSound(entries: seq<Entry>, groups: Groups, goal: seq<Block>, maxBytes: int, g: GroupId)
    requires Shows(entries, groups, goal) && Sound(groups, maxBytes) && g in KeptGroups(entries)
    ensures g in groups && Plain(Filter(groups[g], Kept(entries, g))) && Fits(Filter(groups[g], Kept(entries, g)), maxBytes)
  {
    var e :| e in entries && e.Ref? && e.group == g;
    var i :| 0 <= i < |entries| && entries[i] == e;
    assert Resolves(entries[i], goal[i], groups);
    FilterAre(groups[g], Kept(entries, g));
    FilterPlain(groups[g], Kept(entries, g));
    assert goal[i] in Filter(groups[g], Kept(entries, g)) by {
      assert e.ref in Kept(entries, g);
    }
  }
}
