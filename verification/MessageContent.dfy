/**
 * One message content opened inside a transaction.  Updates are routed by block
 * id, independently of where a block lives; only loaded or new parts take part.
 */
module MessageContents {
  import opened Wrappers
  import opened Agentue
  import opened Framing
  import opened Layout
  import opened PartRows

  const PROTOCOL_VERSION := "1.1"

  datatype Part = Part(body: seq<Block>, dirty: bool)

  /** A loaded part agrees with the table until it is changed; a new one has no rows yet. */
  ghost predicate PartOk(p: Part, g: GroupId, stored: Groups, rows: map<nat, Row>, nextId: nat) {
    && g < nextId && Plain(p.body)
    && (g in stored || NewGroup(rows, g))
    && (!p.dirty ==> g in stored && p.body == stored[g])
  }

  /**
   * An open transaction on one message: the table holds `stored`, some groups are
   * loaded or new, and `groups` is what the transaction sees.
   */
  ghost predicate ContentOk(rows: map<nat, Row>, nextId: nat, maxBytes: int, owner: string,
                            stored: Groups, parts: map<GroupId, Part>, groups: Groups) {
    && RowsOk(rows, nextId, maxBytes)
    && Represents(rows, owner, stored, maxBytes)
    && (forall g :: g in stored ==> g in groups && Plain(stored[g]))
    && (forall g :: g in parts ==> g in groups && parts[g].body == groups[g] && PartOk(parts[g], g, stored, rows, nextId))
    && (forall g :: g in groups && g !in parts ==> g in stored && stored[g] == groups[g])
  }

  lemma OpenedOk(rows: map<nat, Row>, nextId: nat, maxBytes: int, owner: string, stored: Groups)
    requires RowsOk(rows, nextId, maxBytes) && Represents(rows, owner, stored, maxBytes)
    requires forall g :: g in stored ==> Plain(stored[g])
    ensures ContentOk(rows, nextId, maxBytes, owner, stored, map[], stored)
  {
    hide RowsOk, Represents, Plain;
  }

  /** A group the transaction sees but has not loaded is in the table; loading it changes nothing. */
  lemma LoadedOk(rows: map<nat, Row>, nextId: nat, maxBytes: int, owner: string,
                 stored: Groups, parts: map<GroupId, Part>, groups: Groups, key: GroupId)
    requires ContentOk(rows, nextId, maxBytes, owner, stored, parts, groups) && key in groups && key !in parts
    ensures Stores(rows, owner, key, groups[key], maxBytes) && Plain(groups[key])
    ensures ContentOk(rows, nextId, maxBytes, owner, stored, parts[key := Part(groups[key], false)], groups)
  {
    hide RowsOk, Represents, Plain, Stores, NewGroup;
    RepresentedGroup(rows, nextId, owner, stored, maxBytes, key);
  }

  lemma UnseenHasNoRows(rows: map<nat, Row>, nextId: nat, maxBytes: int, owner: string,
                        stored: Groups, parts: map<GroupId, Part>, groups: Groups, key: GroupId)
    requires ContentOk(rows, nextId, maxBytes, owner, stored, parts, groups) && key !in groups
    ensures forall r :: !InGroup(rows, r, owner, key)
  {
    hide RowsOk, Plain, Stores, PartOk;
  }

  lemma ChangedOk(rows: map<nat, Row>, nextId: nat, maxBytes: int, owner: string,
                  stored: Groups, parts: map<GroupId, Part>, groups: Groups, key: GroupId, body: seq<Block>)
    requires ContentOk(rows, nextId, maxBytes, owner, stored, parts, groups) && key in parts && Plain(body)
    ensures ContentOk(rows, nextId, maxBytes, owner, stored, parts[key := Part(body, true)], groups[key := body])
  {
    hide RowsOk, Represents, Plain, NewGroup;
  }

  lemma SeenAllocated(rows: map<nat, Row>, nextId: nat, maxBytes: int, owner: string,
                      stored: Groups, parts: map<GroupId, Part>, groups: Groups, g: GroupId)
    requires ContentOk(rows, nextId, maxBytes, owner, stored, parts, groups) && g in groups
    ensures g < nextId
  {
    hide RowsOk, Represents, Plain, NewGroup, Stores;
    if g in parts {
      assert PartOk(parts[g], g, stored, rows, nextId);
    } else {
      RepresentedGroup(rows, nextId, owner, stored, maxBytes, g);
    }
  }

  lemma PartStillOk(p: Part, g: GroupId, stored: Groups, rows: map<nat, Row>, nextId: nat)
    requires PartOk(p, g, stored, rows, nextId)
    ensures PartOk(p, g, stored, rows, nextId + 1)
  {
    hide Plain, NewGroup;
  }

  lemma AddedOk(rows: map<nat, Row>, nextId: nat, maxBytes: int, owner: string,
                stored: Groups, parts: map<GroupId, Part>, groups: Groups, b: Block)
    requires ContentOk(rows, nextId, maxBytes, owner, stored, parts, groups) && b.kind != FRAME_TYPE
    ensures nextId !in groups
    ensures ContentOk(rows, nextId + 1, maxBytes, owner, stored, parts[nextId := Part([b], true)], groups[nextId := [b]])
  {
    hide RowsOk, Represents, NewGroup, Stores;
    if nextId in groups {
      SeenAllocated(rows, nextId, maxBytes, owner, stored, parts, groups, nextId);
    }
    AllocatedIsNew(rows, nextId, maxBytes, nextId);
    assert PartOk(Part([b], true), nextId, stored, rows, nextId + 1);
    hide Plain;
    forall g | g in parts ensures PartOk(parts[g], g, stored, rows, nextId + 1) {
      PartStillOk(parts[g], g, stored, rows, nextId);
    }
    hide PartOk;
  }

  lemma PartIs(rows: map<nat, Row>, nextId: nat, maxBytes: int, owner: string,
               stored: Groups, parts: map<GroupId, Part>, groups: Groups, key: GroupId)
    requires ContentOk(rows, nextId, maxBytes, owner, stored, parts, groups) && key in parts
    ensures key in groups && parts[key].body == groups[key] && PartOk(parts[key], key, stored, rows, nextId)
  {
    hide RowsOk, Represents, Plain, NewGroup;
  }

  /** Writing one part back: the table and the transaction agree on it again. */
  lemma WrittenOk(rows: map<nat, Row>, nextId: nat, maxBytes: int, owner: string,
                  stored: Groups, parts: map<GroupId, Part>, groups: Groups,
                  key: GroupId, after: map<nat, Row>, nextId': nat)
    requires ContentOk(rows, nextId, maxBytes, owner, stored, parts, groups) && key in parts && nextId <= nextId'
    requires RowsOk(after, nextId', maxBytes) && SameOutside(rows, after, owner, key)
    requires Stores(after, owner, key, parts[key].body, maxBytes)
    requires forall r :: r in after && r !in rows ==> r == key || r >= nextId
    ensures ContentOk(after, nextId', maxBytes, owner, stored[key := parts[key].body], parts[key := parts[key].(dirty := false)], groups)
    ensures OthersSame(rows, after, owner)
  {
    hide RowsOk, Plain, Stores;
    ReplacedRepresents(rows, after, owner, stored, key, parts[key].body, maxBytes);
    hide Represents;
    forall g | g in parts && g != key ensures PartOk(parts[g], g, stored[key := parts[key].body], after, nextId') {
      assert PartOk(parts[g], g, stored, rows, nextId);
      if g !in stored {
        NewGroupKept(rows, nextId, owner, key, after, g);
      }
    }
    assert PartOk(parts[key], key, stored, rows, nextId);
    hide PartOk, SameOutside, OthersSame;
  }

  lemma NewGroupKept(rows: map<nat, Row>, nextId: nat, owner: string, key: GroupId, after: map<nat, Row>, g: GroupId)
    requires SameOutside(rows, after, owner, key) && NewGroup(rows, g) && g != key && g < nextId
    requires forall r :: r in after && r !in rows ==> r == key || r >= nextId
    ensures NewGroup(after, g)
  {
    forall r | r in after ensures after[r].group != g {
      if !InGroup(after, r, owner, key) {
        assert r in rows && rows[r] == after[r];
      }
    }
  }

  lemma CleanIsStored(rows: map<nat, Row>, nextId: nat, maxBytes: int, owner: string,
                      stored: Groups, parts: map<GroupId, Part>, groups: Groups)
    requires ContentOk(rows, nextId, maxBytes, owner, stored, parts, groups)
    requires forall g :: g in parts ==> !parts[g].dirty
    ensures stored == groups
  {
    hide RowsOk, Represents, Plain, NewGroup;
    assert forall g :: g in groups ==> g in stored && stored[g] == groups[g];
  }

  /** A part to be written back has its own head row or no row at all. */
  lemma WritableHead(rows: map<nat, Row>, nextId: nat, maxBytes: int, owner: string,
                     stored: Groups, parts: map<GroupId, Part>, groups: Groups, key: GroupId)
    requires ContentOk(rows, nextId, maxBytes, owner, stored, parts, groups) && key in parts
    ensures RowsOk(rows, nextId, maxBytes) && key < nextId
    ensures key in rows ==> rows[key].group == key && rows[key].owner == owner
  {
    hide RowsOk, Represents, Plain, Stores;
    assert PartOk(parts[key], key, stored, rows, nextId);
    if key in stored {
      RepresentedGroup(rows, nextId, owner, stored, maxBytes, key);
    }
  }

  /** Where a part has to go when it does not fit, and that it can only be in one place. */
  lemma FoundIn(groups: Groups, key: GroupId, id: string, maxBytes: int)
    requires Sound(groups, maxBytes) && key in groups
    ensures Has(groups, key, id) <==> IndexOf(groups[key], id) < |groups[key]|
    ensures Plain(groups[key])
  {
    var i := IndexOf(groups[key], id);
    if i < |groups[key]| {
      assert Is(groups, key, groups[key][i]);
    }
  }

  /** g is the group of the last reference among the first n entries. */
  ghost predicate LastRef(entries: seq<Entry>, n: nat, g: GroupId)
    requires n <= |entries|
  {
    exists k :: 0 <= k < n && entries[k].Ref? && entries[k].group == g && forall j :: k < j < n ==> entries[j].Inline?
  }

  /** Positions and references of a root's blocks by id; the last reference is the tail. */
  method Index(entries: seq<Entry>) returns (positions: map<string, nat>, refs: map<string, GroupId>, tail: Option<GroupId>)
    requires forall i, j :: 0 <= i < j < |entries| ==> entries[i].Id() != entries[j].Id()
    ensures forall k :: 0 <= k < |entries| ==> entries[k].Id() in positions && positions[entries[k].Id()] == k
    ensures forall id :: id in positions ==> positions[id] < |entries| && entries[positions[id]].Id() == id
    ensures forall id :: id in refs ==> id in positions && entries[positions[id]] == Ref(id, refs[id])
    ensures forall k :: 0 <= k < |entries| && entries[k].Ref? ==> entries[k].ref in refs
    ensures tail.Some? ==> LastRef(entries, |entries|, tail.value)
  {
    positions, refs, tail := map[], map[], None;
    for i := 0 to |entries|
      invariant forall k :: 0 <= k < i ==> entries[k].Id() in positions && positions[entries[k].Id()] == k
      invariant forall id :: id in positions ==> positions[id] < i && entries[positions[id]].Id() == id
      invariant forall id :: id in refs ==> id in positions && entries[positions[id]] == Ref(id, refs[id])
      invariant forall k :: 0 <= k < i && entries[k].Ref? ==> entries[k].ref in refs
      invariant tail.Some? ==> LastRef(entries, i, tail.value)
    {
      var e := entries[i];
      positions := positions[e.Id() := i];
      if e.Ref? {
        refs := refs[e.ref := e.group];
        tail := Some(e.group);
      }
    }
  }

  class MessageContent {
    const tx: PartTable
    const owner: string
    const inlineBlocks: nat
    var meta: Meta
    var version: string
    var entries: seq<Entry>
    const positions: map<string, nat>
    var originalRefs: map<string, GroupId>
    var parts: map<GroupId, Part>
    var tail: Option<GroupId>
    /** What the table holds for this message, what this transaction sees, and which groups it read. */
    ghost var stored: Groups
    ghost var groups: Groups
    ghost var loaded: set<GroupId>

    ghost predicate Valid()
      reads `stored, `parts, `groups, tx
    {
      ContentOk(tx.rows, tx.nextId, tx.maxBytes, owner, stored, parts, groups)
    }

    /** openMessageContent: indexes the blocks of a stored root; the last reference is the tail. */
    constructor (tx: PartTable, owner: string, inlineBlocks: nat, meta: Meta, version: string, entries: seq<Entry>, ghost stored: Groups)
      requires RowsOk(tx.rows, tx.nextId, tx.maxBytes) && Represents(tx.rows, owner, stored, tx.maxBytes)
      requires forall g :: g in stored ==> Plain(stored[g])
      requires forall i, j :: 0 <= i < j < |entries| ==> entries[i].Id() != entries[j].Id()
      ensures this.tx == tx && this.owner == owner && this.inlineBlocks == inlineBlocks
      ensures this.meta == meta && this.version == version && this.entries == entries
      ensures this.stored == stored && Valid() && groups == stored && parts == map[] && loaded == {}
      ensures forall k :: 0 <= k < |entries| ==> entries[k].Id() in positions && positions[entries[k].Id()] == k
      ensures forall id :: id in positions ==> positions[id] < |entries| && entries[positions[id]].Id() == id
      ensures forall id :: id in originalRefs ==> id in positions && entries[positions[id]] == Ref(id, originalRefs[id])
      ensures forall k :: 0 <= k < |entries| && entries[k].Ref? ==> entries[k].ref in originalRefs
      ensures tail.Some? ==> LastRef(entries, |entries|, tail.value)
    {
      this.tx := tx;
      this.owner := owner;
      this.inlineBlocks := inlineBlocks;
      this.meta := meta;
      this.version := version;
      this.entries := entries;
      var index, refs, last := Index(entries);
      this.positions := index;
      this.originalRefs := refs;
      this.parts := map[];
      this.tail := last;
      this.stored := stored;
      this.groups := stored;
      this.loaded := {};
      new;
      hide ContentOk, RowsOk, Represents, Plain;
      OpenedOk(tx.rows, tx.nextId, tx.maxBytes, owner, stored);
    }

    /** Reads a part group once; a group the table does not hold is an error. */
    method LoadPart(key: GroupId) returns (r: Option<seq<Block>>)
      requires Valid()
      modifies this`parts, this`loaded
      ensures Valid()
      ensures r == if key in groups then Some(groups[key]) else None
      ensures r.Some? ==> key in parts
      ensures r.None? ==> parts == old(parts)
      ensures forall g :: g in old(parts) ==> g in parts && parts[g] == old(parts[g])
      ensures forall g :: g in parts && g !in old(parts) ==> g == key && !parts[g].dirty
      ensures loaded == old(loaded) + (if key in old(parts) then {} else {key})
    {
      hide ContentOk, PartOk, Plain, Stores, DecodeGroup;
      if key in parts {
        PartIs(tx.rows, tx.nextId, tx.maxBytes, owner, stored, parts, groups, key);
        return Some(parts[key].body);
      }
      loaded := loaded + {key};
      var keys := tx.Find(owner, key);
      r := DecodePart(Select(tx.rows, keys));
      if key in groups {
        LoadedOk(tx.rows, tx.nextId, tx.maxBytes, owner, stored, parts, groups, key);
        StoredDecodes(tx.rows, owner, key, groups[key], tx.maxBytes, keys);
      } else {
        assert keys != [] ==> keys[0] in keys;
        UnseenHasNoRows(tx.rows, tx.nextId, tx.maxBytes, owner, stored, parts, groups, key);
        NoRows(Select(tx.rows, keys));
      }
      if r.Some? {
        parts := parts[key := Part(r.value, false)];
      }
    }

    /** Puts the body of a referenced block inline; other entries stay as they are. */
    method Materialize(id: string) returns (r: Option<Error>)
      requires Valid() && Sound(groups, tx.maxBytes)
      requires id in positions ==> positions[id] < |entries| && entries[positions[id]].Id() == id
      modifies this`parts, this`loaded, this`entries
      ensures Valid()
      ensures |entries| == |old(entries)|
      ensures forall k :: 0 <= k < |entries| && !(id in positions && k == positions[id]) ==> entries[k] == old(entries)[k]
      ensures r.Some? ==> entries == old(entries)
      ensures r.None? && id in positions ==>
                var was, now := old(entries)[positions[id]], entries[positions[id]];
                now.Inline? && if was.Inline? then now == was else Is(groups, was.group, now.block) && now.block.id == id
      ensures r.Some? <==> id in positions && old(entries)[positions[id]].Ref? && !Has(groups, old(entries)[positions[id]].group, id)
      ensures loaded <= old(loaded) + (if id in positions && old(entries)[positions[id]].Ref? then {old(entries)[positions[id]].group} else {})
    {
      hide ContentOk, Sound, Has;
      if id !in positions {
        return None;
      }
      var index := positions[id];
      if entries[index].Inline? {
        return None;
      }
      var key := entries[index].group;
      var body := LoadPart(key);
      if body.None? {
        NotIn(groups, key, id);
        return Some(Corrupt);
      }
      FoundIn(groups, key, id, tx.maxBytes);
      var k := IndexOf(body.value, id);
      if k < |body.value| {
        entries := entries[index := Inline(body.value[k])];
        return None;
      }
      r := Some(Corrupt);
    }

    method SetBody(key: GroupId, body: seq<Block>)
      requires Valid() && key in parts && Plain(body)
      modifies this`parts, this`groups
      ensures Valid() && parts == old(parts)[key := Part(body, true)] && groups == old(groups)[key := body]
    {
      hide ContentOk, Plain;
      ChangedOk(tx.rows, tx.nextId, tx.maxBytes, owner, stored, parts, groups, key, body);
      parts := parts[key := Part(body, true)];
      groups := groups[key := body];
    }

    /** Starts a new group holding one block; it becomes the tail. */
    method NewPart(b: Block) returns (g: GroupId)
      requires Valid() && b.kind != FRAME_TYPE
      modifies this`parts, this`tail, this`groups, tx`nextId
      ensures Valid() && g == old(tx.nextId) && tx.nextId == g + 1
      ensures g !in old(groups) && groups == old(groups)[g := [b]]
      ensures parts == old(parts)[g := Part([b], true)] && tail == Some(g)
    {
      hide ContentOk;
      AddedOk(tx.rows, tx.nextId, tx.maxBytes, owner, stored, parts, groups, b);
      g := tx.nextId;
      tx.nextId := tx.nextId + 1;
      parts := parts[g := Part([b], true)];
      groups := groups[g := [b]];
      tail := Some(g);
    }

    /**
     * Decides where the body of an external block lives: in its own group while that
     * fits, in the tail part, or in a new part.
     */
    method Place(b: Block) returns (r: Result<GroupId, Error>)
      requires Valid() && Sound(groups, tx.maxBytes) && b.kind != FRAME_TYPE && Free(groups, originalRefs, b.id)
      modifies this`parts, this`tail, this`loaded, this`groups, tx`nextId
      ensures Valid() && tx.nextId >= old(tx.nextId)
      ensures r.Ok? <==> if b.id in originalRefs then Has(old(groups), originalRefs[b.id], b.id)
                         else old(tail).None? || old(tail).value in old(groups)
      ensures r.Ok? ==> Placed(old(groups), groups, b, r.value) && Sound(groups, tx.maxBytes)
      ensures r.Ok? ==> forall g :: g in old(groups) ==> g in groups
      ensures r.Err? ==> groups == old(groups)
      ensures tail == old(tail) || (tail.Some? && tail.value in groups && tail.value in parts)
      ensures forall g :: g in old(parts) ==> g in parts
      ensures loaded <= old(loaded) + (if b.id in originalRefs then {originalRefs[b.id]}
                                       else if old(tail).Some? && old(tail).value !in old(parts) then {old(tail).value} else {})
      ensures b.id in originalRefs && originalRefs[b.id] in old(parts) ==> loaded == old(loaded)
    {
      hide ContentOk, Sound, Free, Placed, Has, Plain;
      if b.id in originalRefs {
        r := PlaceAgain(b, originalRefs[b.id]);
        return;
      }
      if tail.Some? {
        var body := LoadPart(tail.value);
        if body.None? {
          return Err(Corrupt);
        }
        if PartBytes(body.value + [b]) <= tx.maxBytes {
          PlaceAppended(groups, originalRefs, tail.value, b, tx.maxBytes);
          PlainAt(groups[tail.value := body.value + [b]], tail.value, tx.maxBytes);
          SetBody(tail.value, body.value + [b]);
          return Ok(tail.value);
        }
      }
      ghost var was := groups;
      var g := NewPart(b);
      PlaceAppended(was, originalRefs, g, b, tx.maxBytes);
      r := Ok(g);
    }

    /** A block stored before: updated in its group, or moved out of it when it no longer fits there. */
    method PlaceAgain(b: Block, key: GroupId) returns (r: Result<GroupId, Error>)
      requires Valid() && Sound(groups, tx.maxBytes) && b.kind != FRAME_TYPE && Free(groups, originalRefs, b.id)
      requires b.id in originalRefs && originalRefs[b.id] == key
      modifies this`parts, this`tail, this`loaded, this`groups, tx`nextId
      ensures Valid() && tx.nextId >= old(tx.nextId)
      ensures r.Ok? <==> Has(old(groups), key, b.id)
      ensures r.Ok? ==> Placed(old(groups), groups, b, r.value) && Sound(groups, tx.maxBytes)
      ensures r.Ok? ==> forall g :: g in old(groups) ==> g in groups
      ensures r.Err? ==> groups == old(groups)
      ensures tail == old(tail) || (tail.Some? && tail.value in groups && tail.value in parts)
      ensures forall g :: g in old(parts) ==> g in parts
      ensures loaded == old(loaded) + (if key in old(parts) then {} else {key})
    {
      hide ContentOk, Sound, Free, Placed, Has, Plain;
      var body := LoadPart(key);
      if body.None? {
        NotIn(groups, key, b.id);
        return Err(Corrupt);
      }
      FoundIn(groups, key, b.id, tx.maxBytes);
      var i := IndexOf(body.value, b.id);
      if i == |body.value| {
        return Err(Corrupt);
      }
      ghost var was := groups;
      PlaceInGroup(groups, originalRefs, key, i, b, tx.maxBytes);
      var next := body.value[i := b];
      if PartBytes(next) <= tx.maxBytes || |next| == 1 {
        SetBody(key, next);
        SoundWith(was, key, next, tx.maxBytes);
        return Ok(key);
      }
      PlaceMoved(groups, originalRefs, key, i, b, tx.nextId, tx.maxBytes) by {
        AddedOk(tx.rows, tx.nextId, tx.maxBytes, owner, stored, parts, groups, b);
      }
      PlainRest(body.value, i);
      SetBody(key, RemoveAt(body.value, i));
      var g := NewPart(b);
      r := Ok(g);
    }

    /** Writes every changed part; a block that no frame size can hold is too large. */
    method Persist() returns (r: Result<(), Error>)
      requires Valid()
      modifies this`parts, this`stored, tx
      ensures r.Ok? <==> forall g :: g in old(parts) && old(parts)[g].dirty ==> Payloads(old(parts)[g].body, tx.maxBytes).Some?
      ensures r.Ok? ==> Valid() && stored == groups && OthersSame(old(tx.rows), tx.rows, owner)
      ensures r.Err? ==> r.error == TooLarge
      ensures tx.nextId >= old(tx.nextId)
    {
      hide ContentOk, RowsOk, Represents, Payloads, Stores;
      ghost var before := parts;
      var todo := parts.Keys;
      while todo != {}
        invariant todo <= parts.Keys == before.Keys && Valid() && OthersSame(old(tx.rows), tx.rows, owner)
        invariant forall g :: g in todo ==> parts[g] == before[g]
        invariant forall g :: g in parts && g !in todo ==>
                    !parts[g].dirty && (before[g].dirty ==> Payloads(before[g].body, tx.maxBytes).Some?)
        invariant tx.nextId >= old(tx.nextId)
        decreases |todo|
      {
        var g :| g in todo;
        todo := todo - {g};
        if parts[g].dirty {
          ghost var rows, nextId := tx.rows, tx.nextId;
          WritableHead(tx.rows, tx.nextId, tx.maxBytes, owner, stored, parts, groups, g);
          var ok := tx.Replace(owner, g, parts[g].body);
          if !ok {
            return Err(TooLarge);
          }
          WrittenOk(rows, nextId, tx.maxBytes, owner, stored, parts, groups, g, tx.rows, tx.nextId);
          OthersTransitive(old(tx.rows), rows, tx.rows, owner);
          stored := stored[g := parts[g].body];
          parts := parts[g := parts[g].(dirty := false)];
        }
      }
      CleanIsStored(tx.rows, tx.nextId, tx.maxBytes, owner, stored, parts, groups);
      r := Ok(());
    }

    /** Drops from one group the bodies its root no longer refers to. */
    method Trim(g: GroupId)
      requires Valid() && g in groups && Sound(groups, tx.maxBytes)
      modifies this`parts, this`loaded, this`groups
      ensures Valid() && groups == old(groups)[g := Filter(old(groups)[g], Kept(entries, g))]
    {
      hide ContentOk, Sound, Plain, Kept;
      PlainAt(groups, g, tx.maxBytes);
      var part := LoadPart(g);
      var body := part.value;
      var filtered := Filter(body, Kept(entries, g));
      FilterAre(body, Kept(entries, g));
      FilterPlain(body, Kept(entries, g));
      if |filtered| != |body| {
        SetBody(g, filtered);
      }
      assert groups == old(groups)[g := filtered];
    }

    /** Everything read from the table stays within the allowed groups. */
    ghost predicate Within(allowed: set<GroupId>)
      reads `loaded, `tail, `parts, `originalRefs, `entries
    {
      && loaded <= allowed
      && (tail.Some? ==> tail.value in allowed || tail.value in parts)
      && (forall id :: id in originalRefs && originalRefs[id] !in allowed ==>
            forall k :: 0 <= k < |entries| && entries[k].Inline? ==> entries[k].block.id != id)
    }

    /** Replaces one inline block of the root by a reference to where its body was placed. */
    method Externalize(i: nat, ghost goal: seq<Block>, ghost allowed: set<GroupId>)
      requires Valid() && Packing(entries, groups, originalRefs, goal, tx.maxBytes)
      requires tail.Some? ==> tail.value in groups
      requires i < |entries| && entries[i].Inline? && Within(allowed)
      modifies this`parts, this`tail, this`loaded, this`groups, this`entries, tx`nextId
      ensures Valid() && Packing(entries, groups, originalRefs, goal, tx.maxBytes)
      ensures tail.Some? ==> tail.value in groups
      ensures entries == old(entries)[i := entries[i]] && entries[i].Ref? && entries[i].ref == old(entries)[i].block.id
      ensures Within(allowed) && tx.nextId >= old(tx.nextId)
    {
      hide ContentOk, Packing, Placed, Free, Has, Sound;
      var b := entries[i].block;
      PackingReady(entries, groups, originalRefs, goal, tx.maxBytes, i);
      ghost var was := groups;
      var ref := Place(b);
      assert ref.Ok?;
      PackingStep(entries, was, originalRefs, goal, tx.maxBytes, i, groups, ref.value);
      entries := entries[i := Ref(b.id, ref.value)];
    }

    /**
     * packContent: keeps a bounded inline prefix, places everything after it in parts, and
     * externalizes from the end while the encoded root is over the limit.
     */
    method PackContent(ghost goal: seq<Block>, ghost allowed: set<GroupId>) returns (r: Result<(), Error>)
      requires Valid() && Packing(entries, groups, originalRefs, goal, tx.maxBytes)
      requires tail.Some? ==> tail.value in groups
      requires Within(allowed)
      modifies this`parts, this`tail, this`loaded, this`groups, this`entries, this`version, tx`nextId
      ensures Valid() && tx.nextId >= old(tx.nextId) && Within(allowed)
      ensures |entries| == |old(entries)| && Packed(entries, groups, originalRefs, goal, tx.maxBytes)
      ensures r.Ok? ==> RootBytes(meta, version, entries) <= tx.maxBytes
      ensures r.Err? ==> r.error == TooLarge && RootBytes(meta, version, entries) > tx.maxBytes
                         && forall k :: 0 <= k < |entries| ==> entries[k].Ref?
      ensures r.Err? ==> version == if entries == [] then old(version) else PROTOCOL_VERSION
      ensures forall k :: 0 <= k < |entries| ==> entries[k].Id() == old(entries)[k].Id()
      ensures forall k :: 0 <= k < |entries| && old(entries)[k].Ref? ==> entries[k] == old(entries)[k]
    {
      hide ContentOk, Packing, Within, RootBytes;
      var external := PackPrefix(goal, allowed);
      if external {
        version := PROTOCOL_VERSION;
      }
      ghost var packed := entries;
      r := ShrinkRoot(goal, allowed);
      assert entries != [] && r.Err? ==> entries[0].Ref? && (external || packed[0].Inline?);
    }

    /** The first pass of packContent: the inline prefix ends at its count or byte budget, or at a reference. */
    method PackPrefix(ghost goal: seq<Block>, ghost allowed: set<GroupId>) returns (external: bool)
      requires Valid() && Packing(entries, groups, originalRefs, goal, tx.maxBytes)
      requires tail.Some? ==> tail.value in groups
      requires Within(allowed)
      modifies this`parts, this`tail, this`loaded, this`groups, this`entries, tx`nextId
      ensures Valid() && tx.nextId >= old(tx.nextId) && Within(allowed)
      ensures tail.Some? ==> tail.value in groups
      ensures |entries| == |old(entries)| && Packed(entries, groups, originalRefs, goal, tx.maxBytes)
      ensures !external ==> forall k :: 0 <= k < |entries| ==> entries[k].Inline?
      ensures entries == [] ==> !external
      ensures forall k :: 0 <= k < |entries| ==> entries[k].Id() == old(entries)[k].Id()
      ensures forall k :: 0 <= k < |entries| && old(entries)[k].Ref? ==> entries[k] == old(entries)[k]
    {
      hide ContentOk, Packing, Within, Encode;
      external := false;
      var count, bytes, i := 0, 0, 0;
      while i < |entries|
        invariant 0 <= i <= |entries| == |old(entries)| && tx.nextId >= old(tx.nextId)
        invariant Valid() && Packing(entries, groups, originalRefs, goal, tx.maxBytes) && Within(allowed)
        invariant tail.Some? ==> tail.value in groups
        invariant forall k :: i <= k < |entries| ==> entries[k] == old(entries)[k]
        invariant forall k :: 0 <= k < i ==> entries[k].Id() == old(entries)[k].Id()
        invariant forall k :: 0 <= k < i && old(entries)[k].Ref? ==> entries[k] == old(entries)[k]
        invariant forall k :: 0 <= k < i && entries[k].Inline? ==> entries[k].block.id !in originalRefs
        invariant forall j, k :: 0 <= j < k < i && entries[j].Ref? ==> entries[k].Ref?
        invariant !external ==> forall k :: 0 <= k < i ==> entries[k].Inline?
        invariant i == 0 ==> !external
      {
        var e := entries[i];
        if e.Ref? {
          external := true;
        } else {
          var size := |Encode(e.block)|;
          if !external && e.block.id !in originalRefs && count < inlineBlocks && bytes + size <= tx.maxBytes {
            count := count + 1;
            bytes := bytes + size;
          } else {
            external := true;
            Externalize(i, goal, allowed);
          }
        }
        i := i + 1;
      }
    }

    /** The second pass: the whole root is bounded, so inline blocks leave from the end while it is too large. */
    method ShrinkRoot(ghost goal: seq<Block>, ghost allowed: set<GroupId>) returns (r: Result<(), Error>)
      requires Valid() && Packed(entries, groups, originalRefs, goal, tx.maxBytes)
      requires tail.Some? ==> tail.value in groups
      requires Within(allowed)
      modifies this`parts, this`tail, this`loaded, this`groups, this`entries, this`version, tx`nextId
      ensures Valid() && tx.nextId >= old(tx.nextId) && Within(allowed)
      ensures |entries| == |old(entries)| && Packed(entries, groups, originalRefs, goal, tx.maxBytes)
      ensures r.Ok? ==> RootBytes(meta, version, entries) <= tx.maxBytes
      ensures r.Err? ==> r.error == TooLarge && RootBytes(meta, version, entries) > tx.maxBytes
                         && forall k :: 0 <= k < |entries| ==> entries[k].Ref?
      ensures if entries == [] then version == old(version) else version == PROTOCOL_VERSION || (version == old(version) && entries == old(entries))
      ensures forall k :: 0 <= k < |entries| ==> entries[k].Id() == old(entries)[k].Id()
      ensures forall k :: 0 <= k < |entries| && old(entries)[k].Ref? ==> entries[k] == old(entries)[k]
    {
      hide ContentOk, Packing, Within, RootBytes;
      var size := RootBytes(meta, version, entries);
      var j := |entries| - 1;
      while size > tx.maxBytes && j >= 0
        invariant -1 <= j < |entries| == |old(entries)| && tx.nextId >= old(tx.nextId)
        invariant Valid() && Packed(entries, groups, originalRefs, goal, tx.maxBytes) && Within(allowed)
        invariant tail.Some? ==> tail.value in groups
        invariant forall k :: 0 <= k < |entries| ==> entries[k].Id() == old(entries)[k].Id()
        invariant forall k :: 0 <= k < |entries| && old(entries)[k].Ref? ==> entries[k] == old(entries)[k]
        invariant size == RootBytes(meta, version, entries)
        invariant if entries == [] then version == old(version) else version == PROTOCOL_VERSION || (version == old(version) && entries == old(entries))
        invariant forall k :: j < k < |entries| ==> entries[k].Ref?
        decreases j
      {
        if entries[j].Inline? {
          Externalize(j, goal, allowed);
          version := PROTOCOL_VERSION;
          size := RootBytes(meta, version, entries);
        }
        j := j - 1;
      }
      r := if size > tx.maxBytes then Err(TooLarge) else Ok(());
    }
  }

  lemma PackingReady(entries: seq<Entry>, groups: Groups, original: map<string, GroupId>, goal: seq<Block>, maxBytes: int, i: nat)
    requires Packing(entries, groups, original, goal, maxBytes)
    requires i < |entries| && entries[i].Inline?
    ensures Free(groups, original, entries[i].block.id) && Sound(groups, maxBytes)
    ensures entries[i].block.id in original ==> Has(groups, original[entries[i].block.id], entries[i].block.id)
    ensures entries[i].block.kind != FRAME_TYPE
  {
    hide Sound;
    PackingFree(entries, groups, original, goal, maxBytes, i);
    assert Resolves(entries[i], goal[i], groups);
  }

  lemma NoRows(rows: seq<Row>)
    requires rows == []
    ensures DecodeGroup(rows) == None
  {
  }

  lemma NotIn(groups: Groups, key: GroupId, id: string)
    requires key !in groups
    ensures !Has(groups, key, id)
  {
  }

  lemma PlainAt(groups: Groups, key: GroupId, maxBytes: int)
    requires Sound(groups, maxBytes) && key in groups
    ensures Plain(groups[key])
  {
  }

  lemma SoundWith(groups: Groups, key: GroupId, body: seq<Block>, maxBytes: int)
    requires Sound(groups, maxBytes) && Plain(body) && Fits(body, maxBytes)
    ensures Sound(groups[key := body], maxBytes)
  {
    hide Plain, Fits;
  }

  lemma PlainRest(blocks: seq<Block>, i: nat)
    requires Plain(blocks) && i < |blocks|
    ensures Plain(RemoveAt(blocks, i))
  {
    RemovedAre(blocks, i);
    var rest := RemoveAt(blocks, i);
    forall k | 0 <= k < |rest| ensures rest[k].kind != FRAME_TYPE {
      assert rest[k] in blocks;
    }
  }
}
