/**
 * The message store: roots and parts in one transaction.  `contents` is the complete
 * logical message that each root stands for; every operation is stated on it.
 */
module MessageStore {
  import opened Wrappers
  import opened Agentue
  import opened Framing
  import opened Layout
  import opened PartRows
  import opened MessageContents
  import opened Pages

  datatype Root = Root(status: Status, revision: nat, meta: Meta, version: string, entries: seq<Entry>)

  /** One stored message: its root and groups show its content, bounded and without leftovers. */
  ghost predicate MessageOk(rows: map<nat, Row>, maxBytes: int, id: string, root: Root, groups: Groups, content: Model) {
    && Settled(root.entries, groups, content.blocks, maxBytes)
    && content.meta == root.meta
    && Represents(rows, id, groups, maxBytes)
    && RootBytes(root.meta, root.version, root.entries) <= maxBytes
  }

  ghost predicate StoreOk(rows: map<nat, Row>, nextId: nat, maxBytes: int,
                          roots: map<string, Root>, layout: map<string, Groups>, contents: map<string, Model>) {
    && RowsOk(rows, nextId, maxBytes)
    && roots.Keys == layout.Keys == contents.Keys
    && (forall id :: id in roots ==> MessageOk(rows, maxBytes, id, roots[id], layout[id], contents[id]))
    && (forall r :: r in rows ==> rows[r].owner in roots)
  }

  /** Writing one message leaves the others as they were. */
  lemma WriteKeeps(rows: map<nat, Row>, nextId: nat, maxBytes: int,
                   roots: map<string, Root>, layout: map<string, Groups>, contents: map<string, Model>,
                   after: map<nat, Row>, nextId': nat, id: string, root: Root, groups: Groups, content: Model)
    requires StoreOk(rows, nextId, maxBytes, roots, layout, contents)
    requires RowsOk(after, nextId', maxBytes) && OthersSame(rows, after, id)
    requires MessageOk(after, maxBytes, id, root, groups, content)
    ensures StoreOk(after, nextId', maxBytes, roots[id := root], layout[id := groups], contents[id := content])
  {
    hide RowsOk, Settled, Represents, RootBytes;
    forall m | m in roots && m != id ensures MessageOk(after, maxBytes, m, roots[m], layout[m], contents[m]) {
      RepresentsKept(rows, after, id, m, layout[m], maxBytes);
    }
    hide MessageOk;
    forall r | r in after ensures after[r].owner in roots[id := root] {
      if after[r].owner != id {
        assert r in rows && rows[r] == after[r];
      }
    }
  }

  lemma StoredMessage(rows: map<nat, Row>, nextId: nat, maxBytes: int,
                      roots: map<string, Root>, layout: map<string, Groups>, contents: map<string, Model>, id: string)
    requires StoreOk(rows, nextId, maxBytes, roots, layout, contents) && id in roots
    ensures id in layout && id in contents
    ensures RowsOk(rows, nextId, maxBytes) && Represents(rows, id, layout[id], maxBytes)
    ensures Settled(roots[id].entries, layout[id], contents[id].blocks, maxBytes) && contents[id].meta == roots[id].meta
    ensures Sound(layout[id], maxBytes) && forall g :: g in layout[id] ==> Plain(layout[id][g])
    ensures forall i, j :: 0 <= i < j < |roots[id].entries| ==> roots[id].entries[i].Id() != roots[id].entries[j].Id()
  {
    hide RowsOk, Represents, RootBytes, Plain;
    assert MessageOk(rows, maxBytes, id, roots[id], layout[id], contents[id]);
    SettledDistinct(roots[id].entries, layout[id], contents[id].blocks, maxBytes);
  }

  lemma StoredKeys(rows: map<nat, Row>, nextId: nat, maxBytes: int,
                   roots: map<string, Root>, layout: map<string, Groups>, contents: map<string, Model>)
    requires StoreOk(rows, nextId, maxBytes, roots, layout, contents)
    ensures roots.Keys == layout.Keys == contents.Keys
  {
    hide RowsOk, MessageOk;
  }

  lemma NoRowsYet(rows: map<nat, Row>, nextId: nat, maxBytes: int,
                  roots: map<string, Root>, layout: map<string, Groups>, contents: map<string, Model>, id: string)
    requires StoreOk(rows, nextId, maxBytes, roots, layout, contents) && id !in roots
    ensures RowsOk(rows, nextId, maxBytes) && Represents(rows, id, map[], maxBytes)
  {
    hide RowsOk, MessageOk;
  }

  /** The bytes of a root with every block in parts: what metadata and directory alone need. */
  ghost function DirectoryBytes(meta: Meta, version: string, blocks: seq<Block>): int {
    RootBytes(meta, version, seq(|blocks|, i requires 0 <= i < |blocks| => Ref(blocks[i].id, 0)))
  }

  lemma {:induction false} RefBytes(a: seq<Entry>, b: seq<Entry>)
    requires |a| == |b| && forall i :: 0 <= i < |a| ==> a[i].Ref? && b[i].Ref? && a[i].ref == b[i].ref
    ensures EntriesBytes(a) == EntriesBytes(b)
  {
    if a != [] {
      RefBytes(a[1..], b[1..]);
    }
  }

  lemma AllRefsBytes(meta: Meta, version: string, entries: seq<Entry>, groups: Groups, blocks: seq<Block>)
    requires Shows(entries, groups, blocks) && forall k :: 0 <= k < |entries| ==> entries[k].Ref?
    ensures RootBytes(meta, version, entries) == DirectoryBytes(meta, version, blocks)
  {
    forall i | 0 <= i < |blocks| ensures entries[i].ref == blocks[i].id {
      assert Resolves(entries[i], blocks[i], groups);
    }
    RefBytes(entries, seq(|blocks|, i requires 0 <= i < |blocks| => Ref(blocks[i].id, 0)));
  }

  /** The only two ways storing a message can be too large. */
  ghost predicate CannotFit(meta: Meta, version: string, blocks: seq<Block>, maxBytes: int) {
    || DirectoryBytes(meta, if blocks == [] then version else PROTOCOL_VERSION, blocks) > maxBytes
    || maxBytes <= WRAPPER + ENVELOPE
  }

  /** Where the limit leaves room for a frame, every sound group can be written. */
  lemma SoundPersists(groups: Groups, maxBytes: int)
    requires Sound(groups, maxBytes) && maxBytes > WRAPPER + ENVELOPE
    ensures forall g :: g in groups ==> Payloads(groups[g], maxBytes).Some?
  {
    hide Plain;
    forall g | g in groups ensures Payloads(groups[g], maxBytes).Some? {
      assert Fits(groups[g], maxBytes);
    }
  }

  // ---------- events on an open content ----------

  function EntryIndex(entries: seq<Entry>, id: string): (k: nat)
    ensures k <= |entries|
    ensures k < |entries| ==> entries[k].Id() == id
    ensures forall i :: 0 <= i < k ==> entries[i].Id() != id
  {
    if entries == [] then 0
    else if entries[0].Id() == id then 0
    else 1 + EntryIndex(entries[1..], id)
  }

  lemma SameIndex(entries: seq<Entry>, groups: Groups, blocks: seq<Block>, id: string)
    requires Shows(entries, groups, blocks)
    ensures EntryIndex(entries, id) == IndexOf(blocks, id)
    ensures forall k :: 0 <= k < |entries| ==> entries[k].Id() == blocks[k].id && (entries[k].Inline? ==> entries[k].block == blocks[k])
  {
    forall k | 0 <= k < |entries| ensures entries[k].Id() == blocks[k].id && (entries[k].Inline? ==> entries[k].block == blocks[k]) {
      assert Resolves(entries[k], blocks[k], groups);
    }
  }

  /** Every reference of the loaded root names a block of the message. */
  ghost predicate RefsKnown(original: map<string, GroupId>, blocks: seq<Block>) {
    forall id :: id in original ==> exists i :: 0 <= i < |blocks| && blocks[i].id == id
  }

  /** The event library's block change, on a snapshot where the addressed block is loaded. */
  function ApplyEntries(lib: Library, entries: seq<Entry>, e: Event): Option<seq<Entry>> {
    if e.block.None? then Some(entries)
    else
      var k := EntryIndex(entries, e.block.value.id);
      var prev := if k < |entries| && entries[k].Inline? then Some(entries[k].block) else None;
      match Edited(lib, e, e.block.value, prev)
      case None => None
      case Some(b) => Some(if k < |entries| then entries[k := Inline(b)] else entries + [Inline(b)])
  }

  /** What an event may do to the entries: at most the addressed one changes, and it stays inline. */
  ghost predicate EntryChange(before: seq<Entry>, after: seq<Entry>, original: map<string, GroupId>) {
    && |before| <= |after|
    && (forall k :: 0 <= k < |before| ==>
          after[k] == before[k] || (after[k].Inline? && before[k].Inline? && after[k].block.id == before[k].block.id))
    && (forall k :: |before| <= k < |after| ==> after[k].Inline? && after[k].block.id !in original)
  }

  /** On a loaded snapshot the library does what it does on the complete message. */
  lemma ApplyEntriesIs(lib: Library, entries: seq<Entry>, groups: Groups, original: map<string, GroupId>, blocks: seq<Block>, maxBytes: int, e: Event)
    requires Packing(entries, groups, original, blocks, maxBytes) && RefsKnown(original, blocks)
    requires e.block.Some? ==>
               && e.block.value.kind != FRAME_TYPE
               && forall k :: 0 <= k < |entries| && entries[k].Id() == e.block.value.id ==> entries[k].Inline?
    ensures ApplyEntries(lib, entries, e).Some? <==> ApplyBlocks(lib, blocks, e).Some?
    ensures ApplyEntries(lib, entries, e).Some? ==>
              var (next, goal) := (ApplyEntries(lib, entries, e).value, ApplyBlocks(lib, blocks, e).value);
              Packing(next, groups, original, goal, maxBytes) && RefsKnown(original, goal) && EntryChange(entries, next, original)
  {
    hide Packing, RefsKnown, EntryChange;
    if e.block.Some? {
      var id := e.block.value.id;
      PackingFacts(entries, groups, original, blocks, maxBytes, id);
      var k := EntryIndex(entries, id);
      var prev := if k < |blocks| then Some(blocks[k]) else None;
      var b := Edited(lib, e, e.block.value, prev);
      if b.Some? {
        if k < |entries| {
          EntryEdited(entries, groups, original, blocks, maxBytes, k, b.value);
        } else {
          EntryAppended(entries, groups, original, blocks, maxBytes, b.value);
        }
      }
    } else {
      EntryUnchanged(entries, original);
    }
  }

  lemma EntryUnchanged(entries: seq<Entry>, original: map<string, GroupId>)
    ensures EntryChange(entries, entries, original)
  {
  }

  lemma PackingFacts(entries: seq<Entry>, groups: Groups, original: map<string, GroupId>, blocks: seq<Block>, maxBytes: int, id: string)
    requires Packing(entries, groups, original, blocks, maxBytes)
    ensures |entries| == |blocks| && EntryIndex(entries, id) == IndexOf(blocks, id)
    ensures forall k :: 0 <= k < |entries| ==> entries[k].Id() == blocks[k].id && (entries[k].Inline? ==> entries[k].block == blocks[k])
    ensures forall k :: 0 <= k < |blocks| ==> blocks[k].kind != FRAME_TYPE
  {
    hide Sound, Owned, Waiting;
    SameIndex(entries, groups, blocks, id);
  }

  lemma EntryEdited(entries: seq<Entry>, groups: Groups, original: map<string, GroupId>, blocks: seq<Block>, maxBytes: int, k: nat, b: Block)
    requires Packing(entries, groups, original, blocks, maxBytes) && RefsKnown(original, blocks)
    requires k < |entries| == |blocks| && entries[k].Inline? && entries[k].block == blocks[k] && b.id == blocks[k].id && b.kind != FRAME_TYPE
    ensures Packing(entries[k := Inline(b)], groups, original, blocks[k := b], maxBytes)
    ensures RefsKnown(original, blocks[k := b]) && EntryChange(entries, entries[k := Inline(b)], original)
  {
    hide Packing, RefsKnown;
    EditedPacking(entries, groups, blocks, maxBytes, original, k, b);
    KnownAfterEdit(original, blocks, k, b);
  }

  lemma EntryAppended(entries: seq<Entry>, groups: Groups, original: map<string, GroupId>, blocks: seq<Block>, maxBytes: int, b: Block)
    requires Packing(entries, groups, original, blocks, maxBytes) && RefsKnown(original, blocks)
    requires b.kind != FRAME_TYPE && forall i :: 0 <= i < |blocks| ==> blocks[i].id != b.id
    ensures Packing(entries + [Inline(b)], groups, original, blocks + [b], maxBytes)
    ensures RefsKnown(original, blocks + [b]) && EntryChange(entries, entries + [Inline(b)], original)
  {
    hide Packing;
    AppendedPacking(entries, groups, blocks, maxBytes, original, b);
    KnownAfterAppend(original, blocks, b);
  }

  lemma KnownAfterEdit(original: map<string, GroupId>, blocks: seq<Block>, k: nat, b: Block)
    requires RefsKnown(original, blocks) && k < |blocks| && b.id == blocks[k].id
    ensures RefsKnown(original, blocks[k := b])
  {
    var next := blocks[k := b];
    forall id | id in original ensures exists i :: 0 <= i < |next| && next[i].id == id {
      var i :| 0 <= i < |blocks| && blocks[i].id == id;
      assert next[i].id == id;
    }
  }

  lemma KnownAfterAppend(original: map<string, GroupId>, blocks: seq<Block>, b: Block)
    requires RefsKnown(original, blocks)
    ensures RefsKnown(original, blocks + [b])
  {
    var next := blocks + [b];
    forall id | id in original ensures exists i :: 0 <= i < |next| && next[i].id == id {
      var i :| 0 <= i < |blocks| && blocks[i].id == id;
      assert next[i].id == id;
    }
  }

  /** Applies an event to an open content: the addressed block and metadata, or nothing at all. */
  method ApplyEvent(lib: Library, c: MessageContent, e: Event, ghost blocks: seq<Block>) returns (ok: bool)
    requires Packing(c.entries, c.groups, c.originalRefs, blocks, c.tx.maxBytes) && RefsKnown(c.originalRefs, blocks)
    requires (e.op == Set || e.op == Append) && e.block.Some? ==>
               && e.block.value.kind != FRAME_TYPE
               && forall k :: 0 <= k < |c.entries| && c.entries[k].Id() == e.block.value.id ==> c.entries[k].Inline?
    modifies c`entries, c`meta
    ensures ok <==> Apply(lib, Model(old(c.meta), blocks), e).Some?
    ensures !ok ==> c.entries == old(c.entries) && c.meta == old(c.meta)
    ensures ok ==>
              var next := Apply(lib, Model(old(c.meta), blocks), e).value;
              && Packing(c.entries, c.groups, c.originalRefs, next.blocks, c.tx.maxBytes) && c.meta == next.meta
              && RefsKnown(c.originalRefs, next.blocks) && EntryChange(old(c.entries), c.entries, c.originalRefs)
  {
    hide Packing, ApplyEntries, ApplyBlocks, RefsKnown;
    if e.op == End {
      return true;
    }
    if e.op != Set && e.op != Append {
      return false;
    }
    ApplyEntriesIs(lib, c.entries, c.groups, c.originalRefs, blocks, c.tx.maxBytes, e);
    var entries := ApplyEntries(lib, c.entries, e);
    var text := ApplyMeta(lib, c.meta.text, e);
    if entries.None? || text.None? {
      return false;
    }
    c.entries := entries.value;
    c.meta := c.meta.(text := text.value);
    ok := true;
  }

  // ---------- what an update may load and must keep ----------

  /** No inline block has a stored copy, except possibly the one with this id. */
  ghost predicate OnlyOpened(entries: seq<Entry>, original: map<string, GroupId>, id: Option<string>) {
    forall k :: 0 <= k < |entries| && entries[k].Inline? && entries[k].block.id in original ==> id == Some(entries[k].block.id)
  }

  lemma NothingOpened(entries: seq<Entry>, original: map<string, GroupId>)
    requires RefsOf(entries, original)
    requires forall i, j :: 0 <= i < j < |entries| ==> entries[i].Id() != entries[j].Id()
    ensures OnlyOpened(entries, original, None)
  {
    forall id | id in original ensures forall k :: 0 <= k < |entries| && entries[k].Inline? ==> entries[k].block.id != id {
      var j :| 0 <= j < |entries| && entries[j] == Ref(id, original[id]);
      assert entries[j].Id() == id;
    }
  }

  lemma ChangeKeepsOpened(before: seq<Entry>, after: seq<Entry>, original: map<string, GroupId>, id: Option<string>)
    requires OnlyOpened(before, original, id) && EntryChange(before, after, original)
    ensures OnlyOpened(after, original, id)
  {
    forall k | 0 <= k < |after| && after[k].Inline? && after[k].block.id in original ensures id == Some(after[k].block.id) {
      assert k < |before| && before[k].Inline? && before[k].block.id == after[k].block.id;
    }
  }

  /** The groups an update may read: that of the addressed block and the tail. */
  ghost predicate MayLoad(entries: seq<Entry>, id: Option<string>, g: GroupId) {
    (id.Some? && Ref(id.value, g) in entries) || LastRef(entries, |entries|, g)
  }

  ghost predicate StaysExternal(before: seq<Entry>, after: seq<Entry>) {
    |before| <= |after| && forall k :: 0 <= k < |before| && before[k].Ref? ==> after[k].Ref? && after[k].ref == before[k].ref
  }

  /** A block that the old root refers to is not inline in the new one. */
  ghost predicate NoneReturns(before: seq<Entry>, after: seq<Entry>) {
    forall i, k :: 0 <= i < |before| && before[i].Ref? && 0 <= k < |after| && after[k].Inline? ==> after[k].block.id != before[i].ref
  }

  lemma PackedReturnsNone(before: seq<Entry>, after: seq<Entry>, refs: map<string, GroupId>)
    requires RefsOf(before, refs) && forall k :: 0 <= k < |after| && after[k].Inline? ==> after[k].block.id !in refs
    ensures NoneReturns(before, after)
  {
  }

  /** A block that was external before the update is external after it. */
  lemma ExternalKept(root: seq<Entry>, loaded: seq<Entry>, edited: seq<Entry>, packed: seq<Entry>, original: map<string, GroupId>,
                     groups: Groups, goal: seq<Block>, maxBytes: int)
    requires RefsOf(root, original) && |loaded| == |root|
    requires forall k :: 0 <= k < |root| ==> loaded[k].Id() == root[k].Id() && (loaded[k].Ref? ==> loaded[k] == root[k])
    requires EntryChange(loaded, edited, original) && |packed| == |edited|
    requires forall k :: 0 <= k < |edited| && edited[k].Ref? ==> packed[k] == edited[k]
    requires forall k :: 0 <= k < |edited| ==> packed[k].Id() == edited[k].Id()
    requires Packed(packed, groups, original, goal, maxBytes)
    ensures StaysExternal(root, packed)
  {
    hide Packing, Shape;
    forall k | 0 <= k < |root| && root[k].Ref? ensures packed[k].Ref? && packed[k].ref == root[k].ref {
      assert root[k].ref in original;
      assert packed[k].Id() == root[k].ref;
    }
  }

  /** Loading the addressed block, and nothing else, leaves the complete message on display. */
  lemma OpenedFacts(root: seq<Entry>, groups: Groups, blocks: seq<Block>, maxBytes: int, original: map<string, GroupId>,
                    loaded: seq<Entry>, id: Option<string>)
    requires Settled(root, groups, blocks, maxBytes) && RefsOf(root, original) && |loaded| == |root|
    requires forall k :: 0 <= k < |root| && Some(root[k].Id()) != id ==> loaded[k] == root[k]
    requires forall k :: 0 <= k < |root| && Some(root[k].Id()) == id ==>
               loaded[k].Inline? && if root[k].Inline? then loaded[k] == root[k]
                                    else Is(groups, root[k].group, loaded[k].block) && loaded[k].block.id == root[k].ref
    ensures Packing(loaded, groups, original, blocks, maxBytes)
    ensures OnlyOpened(loaded, original, id)
    ensures forall k :: 0 <= k < |root| ==> loaded[k].Id() == root[k].Id() && (loaded[k].Ref? ==> loaded[k] == root[k])
  {
    hide Packing, RefsOf, Sound;
    SettledDistinct(root, groups, blocks, maxBytes);
    SettledPacking(root, groups, blocks, maxBytes, original);
    NothingOpened(root, original);
    if k :| 0 <= k < |root| && root[k].Ref? && Some(root[k].Id()) == id {
      OpenedPacking(root, groups, blocks, maxBytes, original, k);
      SettledBody(root, groups, blocks, maxBytes, k, loaded[k].block);
      assert loaded == root[k := Inline(blocks[k])];
    } else {
      assert loaded == root;
    }
  }

  lemma SettledBody(root: seq<Entry>, groups: Groups, blocks: seq<Block>, maxBytes: int, k: nat, b: Block)
    requires Settled(root, groups, blocks, maxBytes) && k < |root| && root[k].Ref?
    requires Is(groups, root[k].group, b) && b.id == root[k].ref
    ensures b == blocks[k]
  {
    assert Resolves(root[k], blocks[k], groups);
    SameIdSame(groups[root[k].group], b, blocks[k]);
  }

  lemma SettledKnown(root: seq<Entry>, groups: Groups, blocks: seq<Block>, maxBytes: int, original: map<string, GroupId>)
    requires Settled(root, groups, blocks, maxBytes) && RefsOf(root, original)
    ensures RefsKnown(original, blocks)
  {
    SettledDistinct(root, groups, blocks, maxBytes);
    forall id | id in original ensures exists i :: 0 <= i < |blocks| && blocks[i].id == id {
      var i :| 0 <= i < |root| && root[i] == Ref(id, original[id]);
      assert blocks[i].id == id;
    }
  }

  /** Ids consumed by an abandoned transaction do not disturb the store. */
  lemma LaterIds(rows: map<nat, Row>, nextId: nat, later: nat, maxBytes: int,
                 roots: map<string, Root>, layout: map<string, Groups>, contents: map<string, Model>)
    requires StoreOk(rows, nextId, maxBytes, roots, layout, contents) && nextId <= later
    ensures StoreOk(rows, later, maxBytes, roots, layout, contents)
  {
    hide MessageOk, HasHead;
  }

  class Store {
    const lib: Library
    const inlineBlocks: nat
    const table: PartTable
    var roots: map<string, Root>
    /** Messages that belong to a harness run. */
    var runOwned: set<string>
    ghost var layout: map<string, Groups>
    /** The complete logical content of every message. */
    ghost var contents: map<string, Model>

    ghost predicate Valid()
      reads `roots, `layout, `contents, table
    {
      StoreOk(table.rows, table.nextId, table.maxBytes, roots, layout, contents)
    }

    ghost function Logical(id: string): Message
      requires id in roots && id in contents
      reads `roots, `contents
    {
      Message(roots[id].status, roots[id].revision, contents[id])
    }

    constructor (lib: Library, inlineBlocks: nat, maxBytes: int)
      ensures Valid() && fresh(table) && roots == map[] && runOwned == {}
      ensures this.lib == lib && this.inlineBlocks == inlineBlocks && table.maxBytes == maxBytes
    {
      this.lib, this.inlineBlocks := lib, inlineBlocks;
      this.table := new PartTable(maxBytes);
      this.roots, this.runOwned, this.layout, this.contents := map[], {}, map[], map[];
    }

    /** Opens a stored message for an update of one block, loading that block only. */
    method Open(id: string, target: Option<string>) returns (c: MessageContent, ghost allowed: set<GroupId>)
      requires Valid() && id in roots
      ensures fresh(c) && c.tx == table && c.owner == id && c.inlineBlocks == inlineBlocks
      ensures c.meta == roots[id].meta && c.version == roots[id].version
      ensures c.Valid() && c.groups == layout[id] && RefsOf(roots[id].entries, c.originalRefs)
      ensures Packing(c.entries, c.groups, c.originalRefs, contents[id].blocks, table.maxBytes)
      ensures RefsKnown(c.originalRefs, contents[id].blocks) && OnlyOpened(c.entries, c.originalRefs, target)
      ensures |c.entries| == |roots[id].entries|
      ensures forall k :: 0 <= k < |c.entries| ==>
                c.entries[k].Id() == roots[id].entries[k].Id() && (c.entries[k].Ref? ==> c.entries[k] == roots[id].entries[k])
      ensures forall k :: 0 <= k < |c.entries| && Some(c.entries[k].Id()) == target ==> c.entries[k].Inline?
      ensures c.tail.Some? ==> c.tail.value in c.groups
      ensures c.loaded <= allowed && (c.tail.Some? ==> c.tail.value in allowed)
      ensures target.Some? && target.value in c.originalRefs ==> c.originalRefs[target.value] in allowed
      ensures forall g :: g in allowed ==> MayLoad(roots[id].entries, target, g)
    {
      hide StoreOk, Settled, Represents, RowsOk, Sound, ContentOk, Packing, Plain, OnlyOpened, RefsKnown, MayLoad, LastRef;
      StoredMessage(table.rows, table.nextId, table.maxBytes, roots, layout, contents, id);
      ghost var was, blocks, maxBytes := roots[id].entries, contents[id].blocks, table.maxBytes;
      SettledDistinct(was, layout[id], blocks, maxBytes);
      c := new MessageContent(table, id, inlineBlocks, roots[id].meta, roots[id].version, roots[id].entries, layout[id]);
      assert RefsOf(was, c.originalRefs);
      hide RefsOf;
      allowed := if c.tail.Some? then {c.tail.value} else {};
      if c.tail.Some? {
        TailLoads(was, layout[id], target, c.tail.value);
      }
      if target.Some? {
        if target.value in c.originalRefs {
          allowed := allowed + {c.originalRefs[target.value]};
          TargetLoads(was, target.value, c.originalRefs[target.value]);
        }
        var error := c.Materialize(target.value);
        assert error.None?;
      }
      OpenedFacts(was, layout[id], blocks, maxBytes, c.originalRefs, c.entries, target);
      SettledKnown(was, layout[id], blocks, maxBytes, c.originalRefs);
    }

    /** Packs, writes the parts and the root of an updated message; on failure the transaction leaves nothing. */
    method Commit(c: MessageContent, id: string, status: Status, revision: nat, ghost next: Model, ghost allowed: set<GroupId>)
      returns (r: Option<Error>)
      requires Valid() && id in roots && c.tx == table && c.owner == id && c.Valid()
      requires Packing(c.entries, c.groups, c.originalRefs, next.blocks, table.maxBytes) && RefsKnown(c.originalRefs, next.blocks)
      requires c.meta == next.meta && c.version == roots[id].version
      requires (c.tail.Some? ==> c.tail.value in c.groups) && c.Within(allowed)
      modifies c, table, `roots, `layout, `contents
      ensures Valid() && c.loaded <= allowed && c.originalRefs == old(c.originalRefs) && table.nextId >= old(table.nextId)
      ensures r.Some? ==> roots == old(roots) && contents == old(contents) && table.rows == old(table.rows)
      ensures r.Some? ==> r == Some(TooLarge) && CannotFit(next.meta, old(roots)[id].version, next.blocks, table.maxBytes)
      ensures r.None? ==> id in roots && roots == old(roots)[id := roots[id]] && contents == old(contents)[id := next]
      ensures r.None? ==> roots[id].status == status && roots[id].revision == revision
      ensures r.None? ==> Packed(roots[id].entries, c.groups, c.originalRefs, next.blocks, table.maxBytes)
                          && |roots[id].entries| == |old(c.entries)|
      ensures r.None? ==> forall k :: 0 <= k < |old(c.entries)| ==> roots[id].entries[k].Id() == old(c.entries)[k].Id()
      ensures r.None? ==> forall k :: 0 <= k < |old(c.entries)| && old(c.entries)[k].Ref? ==> roots[id].entries[k] == old(c.entries)[k]
    {
      hide StoreOk, Settled, Represents, RowsOk, Sound, ContentOk, Packed, Packing, Plain, RefsKnown, RootBytes, CannotFit, OthersSame, Payloads;
      ghost var rows, nextId := table.rows, table.nextId;
      var snapshot := table.rows;
      var packed := c.PackContent(next.blocks, allowed);
      if packed.Err? {
        PackedTooLarge(next.meta, roots[id].version, c.version, c.entries, c.groups, c.originalRefs, next.blocks, table.maxBytes);
        LaterIds(rows, nextId, table.nextId, table.maxBytes, roots, layout, contents);
        return Some(TooLarge);
      }
      ghost var parts := c.parts;
      PackedIsSound(c.entries, c.groups, c.originalRefs, next.blocks, table.maxBytes);
      SoundContent(table.rows, table.nextId, table.maxBytes, id, c.stored, parts, c.groups);
      var saved := c.Persist();
      if saved.Err? {
        table.rows := snapshot;
        LimitTooSmall(next.meta, roots[id].version, next.blocks, table.maxBytes);
        LaterIds(rows, nextId, table.nextId, table.maxBytes, roots, layout, contents);
        return Some(TooLarge);
      }
      PackedSettlesMessage(c.entries, c.groups, c.originalRefs, next.blocks, table.maxBytes);
      PersistedOk(table.rows, table.nextId, table.maxBytes, id, c.stored, c.parts, c.groups);
      var root := Root(status, revision, c.meta, c.version, c.entries);
      StoredOk(table.rows, table.maxBytes, id, root, c.groups, next);
      WriteKeeps(rows, nextId, table.maxBytes, roots, layout, contents, table.rows, table.nextId, id, root, c.groups, next);
      roots, layout, contents := roots[id := root], layout[id := c.groups], contents[id := next];
      r := None;
    }

    /** The groups an event may read: none before it reaches the blocks. */
    static function Target(e: Event): Option<string> {
      if (e.op == Set || e.op == Append) && e.block.Some? then Some(e.block.value.id) else None
    }

    /** The accepted branch of projectOutput: only the addressed block and perhaps the tail part are loaded. */
    method Update(id: string, e: Event, status: Option<Status>) returns (r: Option<Error>, ghost loaded: set<GroupId>)
      requires Valid() && id in roots
      requires Refusal(Logical(id), e, true).None?
      modifies table, `roots, `layout, `contents
      ensures Valid() && table.nextId >= old(table.nextId)
      ensures r.Some? ==> roots == old(roots) && contents == old(contents) && table.rows == old(table.rows)
      ensures
        var m := old(Logical(id));
        match Apply(lib, m.content, e)
        case None => r == Some(Rejected)
        case Some(next) =>
          var goal := Projected(m, e, status, next);
          if r.None? then
            && id in roots && id in contents && roots == old(roots)[id := roots[id]] && contents == old(contents)[id := goal.content]
            && Logical(id) == goal
          else r == Some(TooLarge) && CannotFit(goal.content.meta, old(roots)[id].version, goal.content.blocks, table.maxBytes)
      ensures forall g :: g in loaded ==> MayLoad(old(roots)[id].entries, Target(e), g)
      ensures id in roots && StaysExternal(old(roots)[id].entries, roots[id].entries)
    {
      hide StoreOk, Settled, Represents, RowsOk, Sound, ContentOk, Packed, Packing, RefsKnown, RootBytes, CannotFit,
        OnlyOpened, EntryChange, MayLoad, StaysExternal, ApplyBlocks, RefsOf, Plain;
      StoredMessage(table.rows, table.nextId, table.maxBytes, roots, layout, contents, id);
      ghost var m := Logical(id);
      ghost var was := roots[id].entries;
      assert m.content == Model(roots[id].meta, m.content.blocks);
      var c, allowed := Open(id, Target(e));
      ghost var seen := c.entries;
      var ok := ApplyEvent(lib, c, e, m.content.blocks);
      if !ok {
        UnchangedStaysExternal(was);
        return Some(Rejected), c.loaded;
      }
      ghost var next := Apply(lib, m.content, e).value;
      ghost var edited := c.entries;
      c.meta := c.meta.(output := Some(Fingerprint(e, status)));
      ghost var goal := Projected(m, e, status, next);
      OpenedWithin(seen, edited, c.originalRefs, Target(e), allowed);
      var end := if e.op == End && status.Some? then status.value else roots[id].status;
      r := Commit(c, id, end, e.seqno, goal.content, allowed);
      loaded := c.loaded;
      if r.None? {
        ExternalKept(was, seen, edited, roots[id].entries, c.originalRefs, c.groups, goal.content.blocks, table.maxBytes);
      } else {
        UnchangedStaysExternal(was);
      }
    }

    /** projectOutput: sequence check, retry by fingerprint, then a partial update in one transaction. */
    method WriteOutput(id: string, e: Event, status: Option<Status>, harnessWrite: bool) returns (r: Option<Error>, ghost loaded: set<GroupId>)
      requires Valid()
      modifies table, `roots, `layout, `contents
      ensures Valid() && roots.Keys == old(roots.Keys) && table.nextId >= old(table.nextId)
      ensures r.Some? ==> roots == old(roots) && contents == old(contents) && table.rows == old(table.rows)
      ensures id !in old(roots) ==> r == Some(NotFound)
      ensures id in old(roots) && !harnessWrite && id in runOwned ==> r == Some(Conflict)
      ensures id in old(roots) && (harnessWrite || id !in runOwned) ==>
                match Project(lib, old(Logical(id)), e, status, harnessWrite)
                case Err(error) => r == Some(error)
                case Ok(goal) =>
                  if r.None? then
                    && id in contents && roots == old(roots)[id := roots[id]] && contents == old(contents)[id := goal.content]
                    && Logical(id) == goal
                  else r == Some(TooLarge) && CannotFit(goal.content.meta, old(roots)[id].version, goal.content.blocks, table.maxBytes)
      ensures forall g :: g in loaded ==> id in old(roots) && MayLoad(old(roots)[id].entries, Target(e), g)
      ensures id in old(roots) ==> StaysExternal(old(roots)[id].entries, roots[id].entries)
    {
      hide StoreOk, Packed, Packing, RootBytes, CannotFit, MayLoad, StaysExternal, ApplyBlocks, Apply;
      loaded := {};
      if id !in roots {
        return Some(NotFound), loaded;
      }
      UnchangedStaysExternal(roots[id].entries);
      StoredMessage(table.rows, table.nextId, table.maxBytes, roots, layout, contents, id);
      if !harnessWrite && id in runOwned {
        return Some(Conflict), loaded;
      }
      var m := roots[id];
      if !harnessWrite && m.meta.human {
        return Some(Conflict), loaded;
      }
      if e.seqno <= m.revision {
        if e.seqno == m.revision && m.meta.output == Some(Fingerprint(e, status)) {
          assert contents == contents[id := contents[id]] && roots == roots[id := roots[id]];
          return None, loaded;
        }
        return Some(Conflict), loaded;
      }
      if e.seqno != m.revision + 1 || Terminal(m.status) {
        return Some(Conflict), loaded;
      }
      if e.block.Some? && (e.block.value.isRef || e.block.value.kind == FRAME_TYPE) {
        return Some(InvalidContent), loaded;
      }
      assert Refusal(Logical(id), e, harnessWrite).None? && Refusal(Logical(id), e, true).None?;
      r, loaded := Update(id, e, status);
    }

    /** The status a public write ends with, or why the combination is refused. */
    static function EndStatus(e: Event, statuses: seq<Status>): Result<Option<Status>, Error> {
      if |statuses| > 1 then Err(Conflict)
      else
        var given := if statuses == [] then None else Some(statuses[0]);
        var status := if e.op == End && given.None? then Some(Completed) else given;
        if (e.op == End && !(status.Some? && Terminal(status.value))) || (e.op != End && status.Some?) then Err(Conflict)
        else Ok(status)
    }

    /** ProjectOutput: what any caller but a harness run may write. */
    method ProjectOutput(id: string, e: Event, statuses: seq<Status>) returns (r: Option<Error>)
      requires Valid()
      modifies table, `roots, `layout, `contents
      ensures Valid()
      ensures r.Some? ==> roots == old(roots) && contents == old(contents) && table.rows == old(table.rows)
      ensures id in runOwned ==> roots == old(roots) && contents == old(contents) && table.rows == old(table.rows)
      ensures r.None? ==>
                && EndStatus(e, statuses).Ok? && id in old(roots) && id in roots && id in contents
                && Project(lib, old(Logical(id)), e, EndStatus(e, statuses).value, false) == Ok(Logical(id))
                && (old(roots)[id].revision < e.seqno ==> (Terminal(roots[id].status) <==> e.op == End))
      ensures forall other :: other in old(roots) && other != id ==>
                other in roots && other in contents && roots[other] == old(roots)[other] && contents[other] == old(contents)[other]
    {
      hide StoreOk, RootBytes, CannotFit, MayLoad, StaysExternal, Apply;
      StoredKeys(table.rows, table.nextId, table.maxBytes, roots, layout, contents);
      var status := EndStatus(e, statuses);
      if status.Err? {
        return Some(status.error);
      }
      ghost var loaded;
      r, loaded := WriteOutput(id, e, status.value, false);
      StoredKeys(table.rows, table.nextId, table.maxBytes, roots, layout, contents);
    }

    /** Why a complete model is refused, if it is. */
    static predicate Complete(entries: seq<Entry>) {
      && (forall i, j :: 0 <= i < j < |entries| ==> entries[i].Id() != entries[j].Id())
      && (forall i :: 0 <= i < |entries| ==> entries[i].Inline? && entries[i].block.kind != FRAME_TYPE)
    }

    /** Drops from every named group the bodies that the new root does not refer to. */
    method TrimKept(c: MessageContent, ghost goal: seq<Block>) returns (keep: set<GroupId>)
      requires c.Valid() && Packed(c.entries, c.groups, c.originalRefs, goal, c.tx.maxBytes)
      modifies c`parts, c`loaded, c`groups
      ensures c.Valid() && Sound(c.groups, c.tx.maxBytes)
      ensures keep == KeptGroups(c.entries) && keep <= c.groups.Keys
      ensures Restricted(c.groups, keep) == Trimmed(c.entries, old(c.groups))
    {
      hide ContentOk, Packed, Sound, Plain, Fits, Settled, Kept, KeptGroups;
      ghost var before := c.groups;
      PackedIsSound(c.entries, before, c.originalRefs, goal, c.tx.maxBytes);
      TrimmedSettles(c.entries, before, c.originalRefs, goal, c.tx.maxBytes);
      keep := KeptGroups(c.entries);
      var todo := keep;
      while todo != {}
        invariant todo <= keep && c.Valid() && Sound(c.groups, c.tx.maxBytes) && c.groups.Keys == before.Keys
        invariant forall g :: g in before && (g !in keep || g in todo) ==> c.groups[g] == before[g]
        invariant forall g :: g in keep && g !in todo ==> c.groups[g] == Filter(before[g], Kept(c.entries, g))
        decreases |todo|
      {
        var g :| g in todo;
        todo := todo - {g};
        ghost var was := c.groups;
        PackedTrims(c.entries, before, c.originalRefs, goal, c.tx.maxBytes, g);
        c.Trim(g);
        SoundWith(was, g, c.groups[g], c.tx.maxBytes);
      }
    }

    /** Writes the trimmed parts of a packed content and deletes every other group of its message. */
    method WriteKept(c: MessageContent, ghost goal: seq<Block>) returns (ok: bool)
      requires c.tx == table && c.Valid() && Packed(c.entries, c.groups, c.originalRefs, goal, table.maxBytes)
      modifies c`parts, c`loaded, c`groups, c`stored, table
      ensures ok ==> OthersSame(old(table.rows), table.rows, c.owner)
      ensures ok ==> RowsOk(table.rows, table.nextId, table.maxBytes)
                     && Represents(table.rows, c.owner, Trimmed(c.entries, old(c.groups)), table.maxBytes)
      ensures !ok ==> table.maxBytes <= WRAPPER + ENVELOPE
      ensures table.nextId >= old(table.nextId)
    {
      hide StoreOk, Represents, RowsOk, Sound, ContentOk, Packed, Plain, OthersSame, Payloads, KeptGroups, Trimmed, Restricted;
      ghost var rows := table.rows;
      var keep := TrimKept(c, goal);
      SoundContent(table.rows, table.nextId, table.maxBytes, c.owner, c.stored, c.parts, c.groups);
      var saved := c.Persist();
      if saved.Err? {
        return false;
      }
      PersistedOk(table.rows, table.nextId, table.maxBytes, c.owner, c.stored, c.parts, c.groups);
      ghost var written := table.rows;
      table.Retain(c.owner, keep);
      RetainedRepresents(written, table.rows, c.owner, c.groups, keep, table.maxBytes);
      OthersTransitive(rows, written, table.rows, c.owner);
      ok := true;
    }

    /** saveMessage: stores a complete model over whatever layout the message had; the body it was given is what it shows. */
    method Save(id: string, root: Root, create: bool) returns (r: Option<Error>)
      requires Valid()
      modifies table, `roots, `layout, `contents
      ensures Valid()
      ensures r.Some? ==> roots == old(roots) && contents == old(contents) && table.rows == old(table.rows)
      ensures r == Some(InvalidContent) <==> !Complete(root.entries)
      ensures r == Some(NotFound) <==> Complete(root.entries) && !create && id !in old(roots)
      ensures r == Some(Conflict) <==> Complete(root.entries) && create && id in old(roots)
      ensures r.Some? ==> r.value in {InvalidContent, NotFound, Conflict, TooLarge}
      ensures r == Some(TooLarge) ==> Complete(root.entries) && CannotFit(root.meta, root.version, Bodies(root.entries), table.maxBytes)
      ensures r.None? && id in old(roots) ==> id in roots && NoneReturns(old(roots)[id].entries, roots[id].entries)
      ensures r.None? ==>
                && Complete(root.entries)
                && id in roots && roots == old(roots)[id := roots[id]] && roots[id].status == root.status && roots[id].revision == root.revision
                && contents == old(contents)[id := Model(root.meta, Bodies(root.entries))]
    {
      hide StoreOk, Settled, Represents, RowsOk, Sound, Packing, Plain, RootBytes, CannotFit, OthersSame, Payloads, ContentOk, RefsOf, NoneReturns;
      if !Complete(root.entries) {
        return Some(InvalidContent);
      }
      if !create && id !in roots {
        return Some(NotFound);
      }
      if create && id in roots {
        return Some(Conflict);
      }
      var c := Incoming(id, root);
      ghost var refs := c.originalRefs;
      r := Overwrite(c, id, root.status, root.revision, Model(root.meta, Bodies(root.entries)));
      if r.None? && id in old(roots) {
        PackedReturnsNone(old(roots)[id].entries, roots[id].entries, refs);
      }
    }

    /** Packs and trims an opened model, writes its parts and root, and deletes the groups it no longer names. */
    method Overwrite(c: MessageContent, id: string, status: Status, revision: nat, ghost next: Model) returns (r: Option<Error>)
      requires Valid() && c.tx == table && c.owner == id && c.Valid() && c.loaded == {}
      requires Packing(c.entries, c.groups, c.originalRefs, next.blocks, table.maxBytes) && c.meta == next.meta
      requires c.tail.Some? ==> c.tail.value in c.groups
      modifies c, table, `roots, `layout, `contents
      ensures Valid()
      ensures r.Some? ==> roots == old(roots) && contents == old(contents) && table.rows == old(table.rows)
      ensures r.Some? ==> r == Some(TooLarge) && CannotFit(next.meta, old(c.version), next.blocks, table.maxBytes)
      ensures r.None? ==> id in roots && forall k :: 0 <= k < |roots[id].entries| && roots[id].entries[k].Inline? ==>
                                                 roots[id].entries[k].block.id !in old(c.originalRefs)
      ensures r.None? ==>
                && id in roots && roots == old(roots)[id := roots[id]] && roots[id].status == status && roots[id].revision == revision
                && contents == old(contents)[id := next]
    {
      hide StoreOk, Settled, Represents, RowsOk, Sound, ContentOk, Packed, Packing, Plain, RootBytes, CannotFit, OthersSame, Payloads,
        KeptGroups, Trimmed, Restricted;
      ghost var rows, nextId, version := table.rows, table.nextId, c.version;
      var snapshot := table.rows;
      ghost var everything := (set x | x in c.originalRefs :: c.originalRefs[x]) + (if c.tail.Some? then {c.tail.value} else {});
      var packed := c.PackContent(next.blocks, everything);
      if packed.Err? {
        PackedTooLarge(next.meta, version, c.version, c.entries, c.groups, c.originalRefs, next.blocks, table.maxBytes);
        LaterIds(rows, nextId, table.nextId, table.maxBytes, roots, layout, contents);
        return Some(TooLarge);
      }
      ghost var shown := c.groups;
      var saved := WriteKept(c, next.blocks);
      if !saved {
        table.rows := snapshot;
        LimitTooSmall(next.meta, version, next.blocks, table.maxBytes);
        LaterIds(rows, nextId, table.nextId, table.maxBytes, roots, layout, contents);
        return Some(TooLarge);
      }
      ghost var groups := Trimmed(c.entries, shown);
      PackedInline(c.entries, shown, c.originalRefs, next.blocks, table.maxBytes);
      TrimmedSettles(c.entries, shown, c.originalRefs, next.blocks, table.maxBytes);
      var root := Root(status, revision, c.meta, c.version, c.entries);
      StoredOk(table.rows, table.maxBytes, id, root, groups, next);
      WriteKeeps(rows, nextId, table.maxBytes, roots, layout, contents, table.rows, table.nextId, id, root, groups, next);
      roots, layout, contents := roots[id := root], layout[id := groups], contents[id := next];
      r := None;
    }

    /** The references and the tail of a stored message. */
    method Earlier(id: string) returns (refs: map<string, GroupId>, last: Option<GroupId>)
      requires Valid() && id in roots
      ensures RefsOf(roots[id].entries, refs)
      ensures id in layout && (last.Some? ==> last.value in layout[id])
    {
      hide StoreOk, Settled, Represents, RowsOk, Sound, Plain, LastRef, RefsOf;
      StoredMessage(table.rows, table.nextId, table.maxBytes, roots, layout, contents, id);
      SettledDistinct(roots[id].entries, layout[id], contents[id].blocks, table.maxBytes);
      var index;
      index, refs, last := Index(roots[id].entries);
      RefsFound(roots[id].entries, refs, index);
      if last.Some? {
        TailLoads(roots[id].entries, layout[id], None, last.value);
      }
    }

    /** Opens the given model over the references and tail of the message it replaces. */
    method Incoming(id: string, root: Root) returns (c: MessageContent)
      requires Valid() && Complete(root.entries)
      ensures fresh(c) && c.tx == table && c.owner == id && c.Valid() && c.entries == root.entries
      ensures c.meta == root.meta && c.version == root.version
      ensures Packing(c.entries, c.groups, c.originalRefs, Bodies(root.entries), table.maxBytes)
      ensures c.tail.Some? ==> c.tail.value in c.groups
      ensures c.loaded == {}
      ensures id in roots ==> RefsOf(roots[id].entries, c.originalRefs)
    {
      hide StoreOk, Settled, Represents, RowsOk, Sound, Packing, Plain, ContentOk, LastRef, RefsOf;
      ghost var rows, nextId, maxBytes := table.rows, table.nextId, table.maxBytes;
      ghost var groups: Groups := map[];
      var before: seq<Entry> := [];
      if id in roots {
        StoredMessage(rows, nextId, maxBytes, roots, layout, contents, id);
        groups, before := layout[id], roots[id].entries;
      } else {
        NoRowsYet(rows, nextId, maxBytes, roots, layout, contents, id);
      }
      c := new MessageContent(table, id, inlineBlocks, root.meta, root.version, root.entries, groups);
      if id in roots {
        var refs, last := Earlier(id);
        c.originalRefs, c.tail := refs, last;
        ReplacesStored(before, groups, contents[id].blocks, maxBytes, refs, root.entries);
      } else {
        assert c.originalRefs == map[];
        FirstPacking(root.entries, maxBytes);
        NoTail(root.entries, c.tail);
      }
    }

    /** UpdateMessageContent: replaces the content of a message that no harness run owns. */
    method UpdateMessageContent(id: string, meta: Meta, version: string, entries: seq<Entry>) returns (r: Option<Error>)
      requires Valid()
      modifies table, `roots, `layout, `contents
      ensures Valid()
      ensures r.Some? ==> roots == old(roots) && contents == old(contents) && table.rows == old(table.rows)
      ensures id !in old(roots) ==> r == Some(NotFound)
      ensures id in old(roots) && id in runOwned ==> r == Some(Conflict)
      ensures id in old(roots) && id !in runOwned ==> (r == Some(InvalidContent) <==> !Complete(entries))
      ensures r == Some(TooLarge) ==> Complete(entries) && CannotFit(meta, version, Bodies(entries), table.maxBytes)
      ensures r.Some? ==> r.value in {NotFound, Conflict, InvalidContent, TooLarge}
      ensures r.None? ==> id in old(roots) && id in roots && NoneReturns(old(roots)[id].entries, roots[id].entries)
      ensures r.None? ==>
                && id in old(roots) && id !in runOwned && Complete(entries) && id in roots && id in contents
                && roots == old(roots)[id := roots[id]] && contents == old(contents)[id := contents[id]]
                && Logical(id) == Message(old(roots)[id].status, old(roots)[id].revision + 1, Model(meta, Bodies(entries)))
    {
      hide StoreOk, CannotFit, NoneReturns;
      if id !in roots {
        return Some(NotFound);
      }
      if id in runOwned {
        return Some(Conflict);
      }
      r := Save(id, Root(roots[id].status, roots[id].revision + 1, meta, version, entries), false);
    }

    /** DeleteMessage removes the message and every part of it. */
    method DeleteMessage(id: string) returns (r: Option<Error>)
      requires Valid()
      modifies table`rows, `roots, `layout, `contents
      ensures Valid()
      ensures r == if id !in old(roots) then Some(NotFound) else if id in runOwned then Some(Conflict) else None
      ensures r.Some? ==> roots == old(roots) && contents == old(contents) && table.rows == old(table.rows)
      ensures r.None? ==> roots == old(roots) - {id} && contents == old(contents) - {id}
      ensures r.None? ==> forall k :: k in table.rows ==> table.rows[k].owner != id
    {
      hide StoreOk, RowsOk, MessageOk;
      if id !in roots {
        return Some(NotFound);
      }
      if id in runOwned {
        return Some(Conflict);
      }
      ghost var rows := table.rows;
      StoredMessage(rows, table.nextId, table.maxBytes, roots, layout, contents, id);
      table.Retain(id, {});
      DeletedKeeps(rows, table.nextId, table.maxBytes, roots, layout, contents, table.rows, id);
      roots, layout, contents := roots - {id}, layout - {id}, contents - {id};
      r := None;
    }

    /** A candidate that is still streaming, idle, unowned and unchanged since it was listed. */
    static predicate Stale(roots: map<string, Root>, runOwned: set<string>, idle: set<string>, c: (string, nat)) {
      c.0 in roots && c.0 !in runOwned && c.0 in idle && roots[c.0].status == Streaming && roots[c.0].revision == c.1
    }

    /**
     * ExpireMessages: closes stale output.  The candidates were listed earlier with the
     * revision they had; a write accepted since then wins.  `idle` are the messages whose
     * last write is older than the cutoff.
     */
    method ExpireMessages(candidates: seq<(string, nat)>, idle: set<string>) returns (expired: seq<string>)
      requires Valid()
      modifies `roots
      ensures Valid() && roots.Keys == old(roots.Keys)
      ensures forall id :: id in expired ==>
                id in old(roots) && (id, old(roots)[id].revision) in candidates && Stale(old(roots), runOwned, idle, (id, old(roots)[id].revision))
      ensures forall id :: id in old(roots) ==>
                roots[id] == if id in expired then old(roots)[id].(status := Expired, revision := old(roots)[id].revision + 1) else old(roots)[id]
      ensures forall c :: c in candidates && Stale(old(roots), runOwned, idle, c) ==> c.0 in expired
    {
      hide StoreOk;
      expired := [];
      for i := 0 to |candidates|
        invariant Valid() && roots.Keys == old(roots.Keys)
        invariant forall id :: id in expired ==>
                    id in old(roots) && (id, old(roots)[id].revision) in candidates[..i] && Stale(old(roots), runOwned, idle, (id, old(roots)[id].revision))
        invariant forall id :: id in old(roots) ==>
                    roots[id] == if id in expired then old(roots)[id].(status := Expired, revision := old(roots)[id].revision + 1) else old(roots)[id]
        invariant forall k :: 0 <= k < i && Stale(old(roots), runOwned, idle, candidates[k]) ==> candidates[k].0 in expired
      {
        var (id, seen) := candidates[i];
        if Stale(roots, runOwned, idle, candidates[i]) {
          var root := roots[id].(status := Expired, revision := seen + 1);
          RestatedKeeps(table.rows, table.nextId, table.maxBytes, roots, layout, contents, id, root);
          roots := roots[id := root];
          expired := expired + [id];
        }
      }
    }

    /** Puts the body of one entry inline, if it is not there yet. */
    method Load(c: MessageContent, id: string, ghost root: seq<Entry>, ghost blocks: seq<Block>)
      requires c.Valid() && Settled(root, c.groups, blocks, c.tx.maxBytes) && PartlyLoaded(c.entries, root, blocks)
      requires id in c.positions && c.positions[id] < |root| && root[c.positions[id]].Id() == id
      modifies c`parts, c`loaded, c`entries
      ensures c.Valid() && PartlyLoaded(c.entries, root, blocks) && |c.entries| == |root| == |blocks|
      ensures c.entries[c.positions[id]] == Inline(blocks[c.positions[id]])
      ensures forall k :: 0 <= k < |root| && k != c.positions[id] ==> c.entries[k] == old(c.entries)[k]
    {
      hide ContentOk, Settled, Sound, Has, Is, Plain;
      SettledDistinct(root, c.groups, blocks, c.tx.maxBytes);
      SettledShown(root, c.groups, blocks, c.tx.maxBytes);
      ghost var k := c.positions[id];
      ghost var stored := c.entries[k].Ref?;
      var error := c.Materialize(id);
      assert error.None?;
      if stored {
        SettledBody(root, c.groups, blocks, c.tx.maxBytes, k, c.entries[k].block);
      }
    }

    /** Puts every referenced body of an opened message inline. */
    method Hydrate(c: MessageContent, ghost root: seq<Entry>, ghost blocks: seq<Block>)
      requires c.Valid() && Settled(root, c.groups, blocks, c.tx.maxBytes) && c.entries == root
      requires forall id :: id in c.originalRefs ==> id in c.positions
      requires forall id :: id in c.positions ==> c.positions[id] < |root| && root[c.positions[id]].Id() == id
      requires forall k :: 0 <= k < |root| && root[k].Ref? ==> root[k].ref in c.originalRefs
      modifies c`parts, c`loaded, c`entries
      ensures |c.entries| == |blocks| && forall k :: 0 <= k < |blocks| ==> c.entries[k] == Inline(blocks[k])
    {
      hide ContentOk, Settled, PartlyLoaded;
      NothingLoaded(root, c.groups, blocks, c.tx.maxBytes);
      var todo := c.originalRefs.Keys;
      while todo != {}
        invariant c.Valid() && todo <= c.originalRefs.Keys && PartlyLoaded(c.entries, root, blocks) && |c.entries| == |root|
        invariant forall k :: 0 <= k < |root| && c.entries[k].Ref? ==> root[k].Id() in todo
        decreases |todo|
      {
        var id :| id in todo;
        todo := todo - {id};
        Load(c, id, root, blocks);
        OnlyOneNamed(root, c.groups, blocks, c.tx.maxBytes, c.positions[id]);
      }
      AllLoaded(c.entries, root, blocks);
    }

    /** hydrateMessages for one message: every reference is resolved inside one snapshot. */
    method GetMessage(id: string) returns (r: Result<Message, Error>)
      requires Valid()
      ensures r == if id in roots then Ok(Logical(id)) else Err(NotFound)
    {
      hide StoreOk, Settled, Represents, RowsOk, Sound, ContentOk, Packing, Plain, LastRef, Has;
      if id !in roots {
        return Err(NotFound);
      }
      StoredMessage(table.rows, table.nextId, table.maxBytes, roots, layout, contents, id);
      ghost var was, blocks := roots[id].entries, contents[id].blocks;
      SettledDistinct(was, layout[id], blocks, table.maxBytes);
      SettledShown(was, layout[id], blocks, table.maxBytes);
      var c := new MessageContent(table, id, inlineBlocks, roots[id].meta, roots[id].version, roots[id].entries, layout[id]);
      Hydrate(c, was, blocks);
      r := Ok(Message(roots[id].status, roots[id].revision, Model(c.meta, Bodies(c.entries))));
      assert Bodies(c.entries) == blocks;
    }

    /** MessageBlocks: one page of logical blocks at one revision, whatever the physical layout. */
    method MessageBlocks(id: string, blockId: string, cursor: Cursor) returns (r: Result<Page, Error>)
      requires Valid()
      ensures r == PageOf(if id in roots then Some(Logical(id)) else None, blockId, cursor)
    {
      hide StoreOk, Settled, Represents, RowsOk, Sound, ContentOk, Plain, LastRef, Is, Has, PageEnd;
      if cursor.Malformed? {
        return Err(InvalidContent);
      }
      if id !in roots {
        return Err(NotFound);
      }
      var revision := roots[id].revision;
      if cursor.At? && cursor.revision != revision {
        return Err(Conflict);
      }
      StoredMessage(table.rows, table.nextId, table.maxBytes, roots, layout, contents, id);
      ghost var was, blocks := roots[id].entries, contents[id].blocks;
      SettledShown(was, layout[id], blocks, table.maxBytes);
      SettledDistinct(was, layout[id], blocks, table.maxBytes);
      var c := new MessageContent(table, id, inlineBlocks, roots[id].meta, roots[id].version, roots[id].entries, layout[id]);
      if blockId != "" {
        PositionFound(was, blocks, c.positions, blockId);
        if blockId !in c.positions {
          return Err(NotFound);
        }
        Load(c, blockId, was, blocks);
        return Ok(Page(revision, [c.entries[c.positions[blockId]].block], None));
      }
      var position := if cursor.At? then cursor.position else 0;
      if position > |c.entries| {
        return Err(InvalidContent);
      }
      var data, next := ReadPage(c, position, was, blocks);
      r := Ok(Page(revision, data, next));
    }

    /** The page loop: blocks from a position until a budget is used up or there are no more. */
    method ReadPage(c: MessageContent, position: nat, ghost root: seq<Entry>, ghost blocks: seq<Block>)
      returns (data: seq<Block>, next: Option<nat>)
      requires c.Valid() && Settled(root, c.groups, blocks, c.tx.maxBytes) && c.entries == root && position <= |root| == |blocks|
      requires forall k :: 0 <= k < |root| ==> root[k].Id() in c.positions && c.positions[root[k].Id()] == k
      modifies c`parts, c`loaded, c`entries
      ensures
        var end := PageEnd(blocks, position, 0, 0);
        data == blocks[position..end] && next == if end < |blocks| then Some(end) else None
    {
      hide ContentOk, Settled, PartlyLoaded, PageEnd, Encode;
      NothingLoaded(root, c.groups, blocks, c.tx.maxBytes);
      data := [];
      var total: nat, i := 0, position;
      while i < |c.entries|
        invariant position <= i <= |root| == |c.entries| && c.Valid() && PartlyLoaded(c.entries, root, blocks)
        invariant data == blocks[position..i]
        invariant PageEnd(blocks, position, 0, 0) == PageEnd(blocks, i, |data|, total)
        decreases |root| - i
      {
        LoadedId(root, c.groups, blocks, c.tx.maxBytes, c.entries, i);
        Load(c, c.entries[i].Id(), root, blocks);
        var block := c.entries[i].block;
        var size := |Encode(block)|;
        PageStep(blocks, i, |data|, total);
        if |data| >= PAGE_BLOCKS || (|data| > 0 && total + size > PAGE_BYTES) {
          return data, Some(i);
        }
        data := data + [block];
        total := total + size;
        i := i + 1;
      }
      PageStep(blocks, i, |data|, total);
      next := None;
    }
  }

  /** Some referenced bodies have been put inline; everything else is as the root has it. */
  ghost predicate PartlyLoaded(entries: seq<Entry>, root: seq<Entry>, blocks: seq<Block>) {
    |entries| == |root| == |blocks|
    && forall k :: 0 <= k < |root| ==> entries[k] == Inline(blocks[k]) || (entries[k] == root[k] && root[k].Ref?)
  }

  lemma PageStep(blocks: seq<Block>, i: nat, count: nat, bytes: nat)
    requires i <= |blocks|
    ensures PageEnd(blocks, i, count, bytes) ==
            if i == |blocks| || count >= PAGE_BLOCKS || (count > 0 && bytes + |Encode(blocks[i])| > PAGE_BYTES) then i
            else PageEnd(blocks, i + 1, count + 1, bytes + |Encode(blocks[i])|)
  {
    hide Encode;
  }

  lemma NothingLoaded(root: seq<Entry>, groups: Groups, blocks: seq<Block>, maxBytes: int)
    requires Settled(root, groups, blocks, maxBytes)
    ensures PartlyLoaded(root, root, blocks)
  {
    hide Settled;
    SettledShown(root, groups, blocks, maxBytes);
  }

  lemma AllLoaded(entries: seq<Entry>, root: seq<Entry>, blocks: seq<Block>)
    requires PartlyLoaded(entries, root, blocks) && |entries| == |root| && forall k :: 0 <= k < |root| ==> entries[k].Inline?
    ensures |entries| == |blocks| && forall k :: 0 <= k < |blocks| ==> entries[k] == Inline(blocks[k])
  {
  }

  lemma LoadedId(root: seq<Entry>, groups: Groups, blocks: seq<Block>, maxBytes: int, entries: seq<Entry>, i: nat)
    requires Settled(root, groups, blocks, maxBytes) && PartlyLoaded(entries, root, blocks) && i < |root|
    ensures |entries| == |root| && entries[i].Id() == root[i].Id()
  {
    hide Settled;
    SettledDistinct(root, groups, blocks, maxBytes);
  }

  lemma OnlyOneNamed(root: seq<Entry>, groups: Groups, blocks: seq<Block>, maxBytes: int, k: nat)
    requires Settled(root, groups, blocks, maxBytes) && k < |root|
    ensures forall j :: 0 <= j < |root| && j != k ==> root[j].Id() != root[k].Id()
  {
    hide Settled;
    SettledDistinct(root, groups, blocks, maxBytes);
  }

  lemma PositionFound(root: seq<Entry>, blocks: seq<Block>, positions: map<string, nat>, id: string)
    requires |root| == |blocks| && forall k :: 0 <= k < |root| ==> root[k].Id() == blocks[k].id
    requires forall i, j :: 0 <= i < j < |root| ==> root[i].Id() != root[j].Id()
    requires forall k :: 0 <= k < |root| ==> root[k].Id() in positions && positions[root[k].Id()] == k
    requires forall x :: x in positions ==> positions[x] < |root| && root[positions[x]].Id() == x
    ensures id in positions <==> IndexOf(blocks, id) < |blocks|
    ensures id in positions ==> positions[id] == IndexOf(blocks, id)
  {
    var k := IndexOf(blocks, id);
    if k < |blocks| {
      assert root[k].Id() == id;
    }
  }

  lemma SettledShown(entries: seq<Entry>, groups: Groups, blocks: seq<Block>, maxBytes: int)
    requires Settled(entries, groups, blocks, maxBytes)
    ensures Sound(groups, maxBytes) && |entries| == |blocks|
    ensures forall k :: 0 <= k < |entries| && entries[k].Inline? ==> entries[k] == Inline(blocks[k])
  {
    hide Sound;
    forall k | 0 <= k < |entries| && entries[k].Inline? ensures entries[k] == Inline(blocks[k]) {
      assert Resolves(entries[k], blocks[k], groups);
    }
  }

  /** Removing one message with all of its rows leaves the others as they were. */
  lemma DeletedKeeps(rows: map<nat, Row>, nextId: nat, maxBytes: int,
                     roots: map<string, Root>, layout: map<string, Groups>, contents: map<string, Model>, after: map<nat, Row>, id: string)
    requires StoreOk(rows, nextId, maxBytes, roots, layout, contents) && RowsOk(after, nextId, maxBytes)
    requires after == map r | r in rows && (rows[r].owner != id || rows[r].group in {}) :: rows[r]
    ensures StoreOk(after, nextId, maxBytes, roots - {id}, layout - {id}, contents - {id})
    ensures forall r :: r in after ==> after[r].owner != id
  {
    hide RowsOk, Settled, Represents, RootBytes;
    assert OthersSame(rows, after, id);
    forall m | m in roots && m != id ensures MessageOk(after, maxBytes, m, roots[m], layout[m], contents[m]) {
      RepresentsKept(rows, after, id, m, layout[m], maxBytes);
    }
  }

  /** A root's status and revision say nothing about its layout. */
  lemma RestatedKeeps(rows: map<nat, Row>, nextId: nat, maxBytes: int,
                      roots: map<string, Root>, layout: map<string, Groups>, contents: map<string, Model>, id: string, root: Root)
    requires StoreOk(rows, nextId, maxBytes, roots, layout, contents) && id in roots
    requires root.meta == roots[id].meta && root.version == roots[id].version && root.entries == roots[id].entries
    ensures StoreOk(rows, nextId, maxBytes, roots[id := root], layout, contents)
  {
    hide RowsOk, Settled, Represents, RootBytes;
    assert MessageOk(rows, maxBytes, id, root, layout[id], contents[id]);
    hide MessageOk;
  }

  /** The bodies of a complete model. */
  function Bodies(entries: seq<Entry>): (r: seq<Block>)
    requires forall i :: 0 <= i < |entries| ==> entries[i].Inline?
    ensures |r| == |entries| && forall i :: 0 <= i < |r| ==> r[i] == entries[i].block
  {
    seq(|entries|, i requires 0 <= i < |entries| => entries[i].block)
  }

  lemma PackedIsSound(entries: seq<Entry>, groups: Groups, original: map<string, GroupId>, goal: seq<Block>, maxBytes: int)
    requires Packed(entries, groups, original, goal, maxBytes)
    ensures Sound(groups, maxBytes)
  {
  }

  lemma PackedInline(entries: seq<Entry>, groups: Groups, original: map<string, GroupId>, goal: seq<Block>, maxBytes: int)
    requires Packed(entries, groups, original, goal, maxBytes)
    ensures forall k :: 0 <= k < |entries| && entries[k].Inline? ==> entries[k].block.id !in original
  {
    hide Packing;
  }

  lemma PackedTrims(entries: seq<Entry>, groups: Groups, original: map<string, GroupId>, goal: seq<Block>, maxBytes: int, g: GroupId)
    requires Packed(entries, groups, original, goal, maxBytes) && g in KeptGroups(entries)
    ensures g in groups && Plain(Filter(groups[g], Kept(entries, g))) && Fits(Filter(groups[g], Kept(entries, g)), maxBytes)
  {
    hide Sound, Plain, Fits, Kept, KeptGroups, Owned, Waiting, Shape;
    TrimmedSound(entries, groups, goal, maxBytes, g);
  }

  lemma RefsFound(entries: seq<Entry>, refs: map<string, GroupId>, index: map<string, nat>)
    requires forall i, j :: 0 <= i < j < |entries| ==> entries[i].Id() != entries[j].Id()
    requires forall k :: 0 <= k < |entries| ==> entries[k].Id() in index && index[entries[k].Id()] == k
    requires forall id :: id in index ==> index[id] < |entries|
    requires forall id :: id in refs ==> id in index && entries[index[id]] == Ref(id, refs[id])
    requires forall k :: 0 <= k < |entries| && entries[k].Ref? ==> entries[k].ref in refs
    ensures RefsOf(entries, refs)
  {
    forall k | 0 <= k < |entries| && entries[k].Ref? ensures refs[entries[k].ref] == entries[k].group {
      assert index[entries[k].Id()] == k;
    }
  }

  lemma ReplacesStored(before: seq<Entry>, groups: Groups, blocks: seq<Block>, maxBytes: int, refs: map<string, GroupId>, entries: seq<Entry>)
    requires Settled(before, groups, blocks, maxBytes) && RefsOf(before, refs)
    requires Store.Complete(entries)
    ensures Packing(entries, groups, refs, Bodies(entries), maxBytes)
  {
    hide Packing, Settled, RefsOf;
    PlainBodies(entries);
    ReplacementPacking(before, groups, blocks, maxBytes, refs, entries, Bodies(entries));
  }

  lemma PlainBodies(entries: seq<Entry>)
    requires Store.Complete(entries)
    ensures Plain(Bodies(entries))
  {
    assert forall i :: 0 <= i < |entries| ==> entries[i].Id() == Bodies(entries)[i].id;
  }

  lemma FirstPacking(entries: seq<Entry>, maxBytes: int)
    requires Store.Complete(entries)
    ensures Packing(entries, map[], map[], Bodies(entries), maxBytes)
  {
    PlainBodies(entries);
  }

  lemma NoTail(entries: seq<Entry>, tail: Option<GroupId>)
    requires forall k :: 0 <= k < |entries| ==> entries[k].Inline?
    requires tail.Some? ==> LastRef(entries, |entries|, tail.value)
    ensures tail.None?
  {
  }

  lemma UnchangedStaysExternal(entries: seq<Entry>)
    ensures StaysExternal(entries, entries)
  {
  }

  lemma OpenedWithin(seen: seq<Entry>, edited: seq<Entry>, original: map<string, GroupId>, target: Option<string>, allowed: set<GroupId>)
    requires OnlyOpened(seen, original, target) && EntryChange(seen, edited, original)
    requires target.Some? && target.value in original ==> original[target.value] in allowed
    ensures forall id :: id in original && original[id] !in allowed ==>
              forall k :: 0 <= k < |edited| && edited[k].Inline? ==> edited[k].block.id != id
  {
    ChangeKeepsOpened(seen, edited, original, target);
  }

  lemma PackedTooLarge(meta: Meta, version: string, written: string, entries: seq<Entry>, groups: Groups, original: map<string, GroupId>,
                       blocks: seq<Block>, maxBytes: int)
    requires Packed(entries, groups, original, blocks, maxBytes)
    requires forall k :: 0 <= k < |entries| ==> entries[k].Ref?
    requires RootBytes(meta, written, entries) > maxBytes && written == if entries == [] then version else PROTOCOL_VERSION
    ensures CannotFit(meta, version, blocks, maxBytes)
  {
    hide RootBytes, DirectoryBytes, Sound;
    AllRefsBytes(meta, written, entries, groups, blocks);
  }

  lemma LimitTooSmall(meta: Meta, version: string, blocks: seq<Block>, maxBytes: int)
    requires maxBytes <= WRAPPER + ENVELOPE
    ensures CannotFit(meta, version, blocks, maxBytes)
  {
    hide DirectoryBytes;
  }

  /** Only a limit below one frame stops a part from being written. */
  lemma SoundContent(rows: map<nat, Row>, nextId: nat, maxBytes: int, owner: string, stored: Groups, parts: map<GroupId, Part>, groups: Groups)
    requires ContentOk(rows, nextId, maxBytes, owner, stored, parts, groups) && Sound(groups, maxBytes)
    ensures (exists g :: g in parts && Payloads(parts[g].body, maxBytes).None?) ==> maxBytes <= WRAPPER + ENVELOPE
  {
    hide RowsOk, Represents, Plain, PartOk, Payloads, Sound;
    if maxBytes > WRAPPER + ENVELOPE {
      SoundPersists(groups, maxBytes);
    }
  }

  lemma PackedSettlesMessage(entries: seq<Entry>, groups: Groups, original: map<string, GroupId>, goal: seq<Block>, maxBytes: int)
    requires Packed(entries, groups, original, goal, maxBytes) && RefsKnown(original, goal)
    ensures Settled(entries, groups, goal, maxBytes)
  {
    hide Packed, Settled;
    PackedSettles(entries, groups, original, goal, maxBytes);
  }

  lemma PersistedOk(rows: map<nat, Row>, nextId: nat, maxBytes: int, owner: string, stored: Groups, parts: map<GroupId, Part>, groups: Groups)
    requires ContentOk(rows, nextId, maxBytes, owner, stored, parts, groups) && stored == groups
    ensures RowsOk(rows, nextId, maxBytes) && Represents(rows, owner, groups, maxBytes)
  {
    hide RowsOk, Represents, Plain, PartOk;
  }

  lemma StoredOk(rows: map<nat, Row>, maxBytes: int, id: string, root: Root, groups: Groups, content: Model)
    requires Settled(root.entries, groups, content.blocks, maxBytes) && content.meta == root.meta
    requires Represents(rows, id, groups, maxBytes) && RootBytes(root.meta, root.version, root.entries) <= maxBytes
    ensures MessageOk(rows, maxBytes, id, root, groups, content)
  {
    hide Settled, Represents, RootBytes;
  }

  lemma TailLoads(entries: seq<Entry>, groups: Groups, target: Option<string>, g: GroupId)
    requires LastRef(entries, |entries|, g)
    requires forall i :: 0 <= i < |entries| && entries[i].Ref? ==> entries[i].group in groups
    ensures MayLoad(entries, target, g) && g in groups
  {
  }

  lemma TargetLoads(entries: seq<Entry>, id: string, g: GroupId)
    requires Ref(id, g) in entries
    ensures MayLoad(entries, Some(id), g)
  {
  }
}
