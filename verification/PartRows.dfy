/** The parts table: one row per part, frames of one block sharing a group, rows of many messages side by side. */
module PartRows {
  import opened Wrappers
  import opened Agentue
  import opened Framing
  import opened Layout

  /** A row's group is named after its first row, which has the same owner. */
  ghost predicate HasHead(rows: map<nat, Row>, r: nat)
    requires r in rows
  {
    var g := rows[r].group;
    g in rows && rows[g].group == g && rows[g].owner == rows[r].owner
  }

  /** Ids were allocated before, every row is bounded and belongs to a headed group. */
  ghost predicate RowsOk(rows: map<nat, Row>, nextId: nat, maxBytes: int) {
    forall r :: r in rows ==> r < nextId && RowBytes(rows[r].items) <= maxBytes && HasHead(rows, r)
  }

  /** The rows of one message are exactly the given groups. */
  ghost predicate Represents(rows: map<nat, Row>, owner: string, groups: Groups, maxBytes: int) {
    && (forall g :: g in groups ==> Stores(rows, owner, g, groups[g], maxBytes))
    && (forall r :: r in rows && rows[r].owner == owner ==> rows[r].group in groups)
  }

  ghost predicate SameOutside(before: map<nat, Row>, after: map<nat, Row>, owner: string, g: GroupId) {
    && (forall r :: r in before && !InGroup(before, r, owner, g) ==> r in after && after[r] == before[r])
    && (forall r :: r in after && !InGroup(after, r, owner, g) ==> r in before && before[r] == after[r])
  }

  /** The rows of every other message are untouched. */
  ghost predicate OthersSame(before: map<nat, Row>, after: map<nat, Row>, owner: string) {
    && (forall r :: r in before && before[r].owner != owner ==> r in after && after[r] == before[r])
    && (forall r :: r in after && after[r].owner != owner ==> r in before && before[r] == after[r])
  }

  /** A group whose rows are the same in both tables is stored in both. */
  lemma StoresSame(before: map<nat, Row>, after: map<nat, Row>, owner: string, g: GroupId, blocks: seq<Block>, maxBytes: int)
    requires forall r :: InGroup(before, r, owner, g) <==> InGroup(after, r, owner, g)
    requires forall r :: InGroup(before, r, owner, g) ==> r in after && after[r] == before[r]
    requires Stores(before, owner, g, blocks, maxBytes)
    ensures Stores(after, owner, g, blocks, maxBytes)
  {
    var payloads := Payloads(blocks, maxBytes).value;
    var ids :| StoresAt(before, owner, g, payloads, ids);
    forall i | 0 <= i < |ids| ensures ids[i] in after && after[ids[i]].items == payloads[i] {
      assert ids[i] in ids && InGroup(before, ids[i], owner, g);
    }
    assert StoresAt(after, owner, g, payloads, ids);
  }

  /** A stored group has rows, so its id is in the table. */
  lemma StoredInRows(rows: map<nat, Row>, nextId: nat, owner: string, g: GroupId, blocks: seq<Block>, maxBytes: int)
    requires RowsOk(rows, nextId, maxBytes) && Stores(rows, owner, g, blocks, maxBytes)
    ensures InGroup(rows, g, owner, g) && g < nextId
  {
    var ids :| StoresAt(rows, owner, g, Payloads(blocks, maxBytes).value, ids);
    assert ids[0] in ids;
  }

  ghost predicate NewGroup(rows: map<nat, Row>, g: GroupId) {
    g !in rows && forall r :: r in rows ==> rows[r].group != g
  }

  lemma AllocatedIsNew(rows: map<nat, Row>, nextId: nat, maxBytes: int, g: GroupId)
    requires RowsOk(rows, nextId, maxBytes) && g >= nextId
    ensures NewGroup(rows, g) && RowsOk(rows, g + 1, maxBytes)
  {
    forall r | r in rows ensures rows[r].group != g {
      assert HasHead(rows, r);
    }
  }

  lemma RepresentedGroup(rows: map<nat, Row>, nextId: nat, owner: string, groups: Groups, maxBytes: int, g: GroupId)
    requires RowsOk(rows, nextId, maxBytes) && Represents(rows, owner, groups, maxBytes) && g in groups
    ensures Stores(rows, owner, g, groups[g], maxBytes) && InGroup(rows, g, owner, g) && g < nextId
  {
    StoredInRows(rows, nextId, owner, g, groups[g], maxBytes);
  }

  /** The table after one replacement still represents the message, with that group replaced. */
  lemma ReplacedRepresents(before: map<nat, Row>, after: map<nat, Row>, owner: string, groups: Groups, g: GroupId, blocks: seq<Block>, maxBytes: int)
    requires Represents(before, owner, groups, maxBytes)
    requires SameOutside(before, after, owner, g) && Stores(after, owner, g, blocks, maxBytes)
    ensures Represents(after, owner, groups[g := blocks], maxBytes)
    ensures OthersSame(before, after, owner)
  {
    forall h | h in groups && h != g ensures Stores(after, owner, h, groups[h], maxBytes) {
      StoresSame(before, after, owner, h, groups[h], maxBytes);
    }
  }

  lemma OthersTransitive(a: map<nat, Row>, b: map<nat, Row>, c: map<nat, Row>, owner: string)
    requires OthersSame(a, b, owner) && OthersSame(b, c, owner)
    ensures OthersSame(a, c, owner)
  {
  }

  /** A message whose rows are left alone is represented as before. */
  lemma RepresentsKept(before: map<nat, Row>, after: map<nat, Row>, owner: string, other: string, groups: Groups, maxBytes: int)
    requires OthersSame(before, after, owner) && other != owner
    requires Represents(before, other, groups, maxBytes)
    ensures Represents(after, other, groups, maxBytes)
  {
    forall g | g in groups ensures Stores(after, other, g, groups[g], maxBytes) {
      StoresSame(before, after, other, g, groups[g], maxBytes);
    }
  }

  /** The parts table with the id source it allocates rows from. */
  class PartTable {
    const maxBytes: int
    var rows: map<nat, Row>
    var nextId: nat

    constructor (maxBytes: int)
      ensures this.maxBytes == maxBytes && rows == map[] && RowsOk(rows, nextId, maxBytes)
    {
      this.maxBytes := maxBytes;
      rows := map[];
      nextId := 0;
    }

    /** Lists the rows of one group; the database promises no order. */
    method Find(owner: string, g: GroupId) returns (keys: seq<nat>)
      ensures Enumerates(keys, rows, owner, g)
    {
      var todo := set r | r in rows && rows[r].owner == owner && rows[r].group == g;
      keys := [];
      while todo != {}
        invariant forall i, j :: 0 <= i < j < |keys| ==> keys[i] != keys[j]
        invariant forall r :: r in keys ==> r !in todo
        invariant forall r :: InGroup(rows, r, owner, g) <==> r in keys || r in todo
        decreases |todo|
      {
        var r :| r in todo;
        keys := keys + [r];
        todo := todo - {r};
      }
    }

    /** Inserts the payloads of a group: the first row carries the group id, the rest get ids of their own. */
    method Insert(owner: string, g: GroupId, payloads: seq<seq<Item>>)
      requires |payloads| >= 1 && g < nextId && g !in rows && forall r :: r in rows ==> r < nextId
      modifies this
      ensures Inserted(old(rows), rows, old(nextId), nextId, owner, g, payloads)
    {
      ghost var kept, base := rows, nextId;
      rows := rows[g := Row(owner, g, payloads[0])];
      var i := 1;
      while i < |payloads|
        invariant 1 <= i <= |payloads| && nextId == base + i - 1
        invariant forall r :: r in rows <==> r in kept || r == g || base <= r < nextId
        invariant forall r :: r in kept ==> rows[r] == kept[r]
        invariant rows[g] == Row(owner, g, payloads[0])
        invariant forall r :: base <= r < nextId ==> rows[r] == Row(owner, g, payloads[r - base + 1])
      {
        rows := rows[nextId := Row(owner, g, payloads[i])];
        nextId := nextId + 1;
        i := i + 1;
      }
    }

    /** Replaces the complete group, so frames of two versions never mix. */
    method Replace(owner: string, g: GroupId, blocks: seq<Block>) returns (ok: bool)
      requires RowsOk(rows, nextId, maxBytes) && g < nextId
      requires g in rows ==> rows[g].group == g && rows[g].owner == owner
      modifies this
      ensures ok <==> Payloads(blocks, maxBytes).Some?
      ensures !ok ==> rows == old(rows) && nextId == old(nextId)
      ensures ok ==> RowsOk(rows, nextId, maxBytes) && nextId >= old(nextId)
      ensures ok ==> Stores(rows, owner, g, blocks, maxBytes) && SameOutside(old(rows), rows, owner, g)
      ensures forall r :: r in rows && r !in old(rows) ==> r == g || r >= old(nextId)
    {
      var payloads := Payloads(blocks, maxBytes);
      if payloads.None? {
        return false;
      }
      forall j | 0 <= j < |payloads.value| ensures RowBytes(payloads.value[j]) <= maxBytes {
        PayloadsBounded(blocks, maxBytes, j);
      }
      Rewrite(owner, g, payloads.value);
      assert StoresAt(rows, owner, g, payloads.value, InsertedIds(g, old(nextId), |payloads.value|));
      ok := true;
    }

    method Rewrite(owner: string, g: GroupId, payloads: seq<seq<Item>>)
      requires RowsOk(rows, nextId, maxBytes) && g < nextId && |payloads| >= 1
      requires forall i :: 0 <= i < |payloads| ==> RowBytes(payloads[i]) <= maxBytes
      requires g in rows ==> rows[g].group == g && rows[g].owner == owner
      modifies this
      ensures RowsOk(rows, nextId, maxBytes) && nextId >= old(nextId) && SameOutside(old(rows), rows, owner, g)
      ensures StoresAt(rows, owner, g, payloads, InsertedIds(g, old(nextId), |payloads|))
      ensures forall r :: r in rows && r !in old(rows) ==> r == g || r >= old(nextId)
    {
      rows := map r | r in rows && !(rows[r].owner == owner && rows[r].group == g) :: rows[r];
      ghost var kept := rows;
      assert forall r :: r in kept <==> r in old(rows) && !InGroup(old(rows), r, owner, g);
      Insert(owner, g, payloads);
      ReplacedRowsOk(old(rows), kept, rows, old(nextId), nextId, owner, g, payloads, maxBytes);
      ReplacedStores(kept, rows, old(nextId), nextId, owner, g, payloads);
    }

    /** Deletes the groups of one message that its root no longer names. */
    method Retain(owner: string, keep: set<GroupId>)
      requires RowsOk(rows, nextId, maxBytes)
      modifies this`rows
      ensures RowsOk(rows, nextId, maxBytes)
      ensures rows == map r | r in old(rows) && (old(rows)[r].owner != owner || old(rows)[r].group in keep) :: old(rows)[r]
    {
      rows := map r | r in rows && (rows[r].owner != owner || rows[r].group in keep) :: rows[r];
    }
  }

  /** The table after inserting the payloads of one group beside the kept rows. */
  ghost predicate Inserted(kept: map<nat, Row>, after: map<nat, Row>, base: nat, nextId: nat, owner: string, g: GroupId, payloads: seq<seq<Item>>) {
    && |payloads| >= 1 && nextId == base + |payloads| - 1
    && (forall r :: r in after <==> r in kept || r == g || base <= r < nextId)
    && (forall r :: r in kept ==> after[r] == kept[r])
    && after[g] == Row(owner, g, payloads[0])
    && (forall r :: base <= r < nextId ==> after[r] == Row(owner, g, payloads[r - base + 1]))
  }

  lemma ReplacedRowsOk(before: map<nat, Row>, kept: map<nat, Row>, after: map<nat, Row>, base: nat, nextId: nat,
                       owner: string, g: GroupId, payloads: seq<seq<Item>>, maxBytes: int)
    requires RowsOk(before, base, maxBytes) && g < base
    requires forall i :: 0 <= i < |payloads| ==> RowBytes(payloads[i]) <= maxBytes
    requires g in before ==> before[g].group == g && before[g].owner == owner
    requires forall r :: r in kept <==> r in before && !InGroup(before, r, owner, g)
    requires forall r :: r in kept ==> kept[r] == before[r]
    requires Inserted(kept, after, base, nextId, owner, g, payloads)
    ensures RowsOk(after, nextId, maxBytes) && SameOutside(before, after, owner, g)
  {
    forall r | r in after ensures r < nextId && RowBytes(after[r].items) <= maxBytes && HasHead(after, r) {
      if r in kept {
        assert HasHead(before, r) && !InGroup(before, r, owner, g);
        var h := before[r].group;
        assert h != g && HasHead(before, h) && h in kept;
      } else {
        assert r == g || base <= r < nextId;
      }
    }
    assert forall r :: r in after && r !in kept ==> InGroup(after, r, owner, g);
  }

  function InsertedIds(g: GroupId, base: nat, n: nat): (r: seq<nat>)
    ensures |r| == n
  {
    seq(n, j requires 0 <= j < n => if j == 0 then g else base + j - 1)
  }

  lemma ReplacedStores(kept: map<nat, Row>, after: map<nat, Row>, base: nat, nextId: nat,
                       owner: string, g: GroupId, payloads: seq<seq<Item>>)
    requires g < base
    requires forall r :: r in kept ==> r < base && r != g && !InGroup(kept, r, owner, g)
    requires Inserted(kept, after, base, nextId, owner, g, payloads)
    ensures StoresAt(after, owner, g, payloads, InsertedIds(g, base, |payloads|))
  {
    var ids := InsertedIds(g, base, |payloads|);
    forall r | r in ids ensures InGroup(after, r, owner, g) {
      var j :| 0 <= j < |ids| && ids[j] == r;
      assert r == g || base <= r < nextId;
    }
    forall r: nat | InGroup(after, r, owner, g) ensures r in ids {
      assert r in kept ==> InGroup(kept, r, owner, g);
      var j := if r == g then 0 else r - base + 1;
      assert 0 <= j < |ids| && ids[j] == r;
    }
  }

  /** Deleting unnamed groups keeps the named ones and every other message. */
  lemma RetainedRepresents(before: map<nat, Row>, after: map<nat, Row>, owner: string, groups: Groups, keep: set<GroupId>, maxBytes: int)
    requires Represents(before, owner, groups, maxBytes) && keep <= groups.Keys
    requires after == map r | r in before && (before[r].owner != owner || before[r].group in keep) :: before[r]
    ensures Represents(after, owner, Restricted(groups, keep), maxBytes)
    ensures OthersSame(before, after, owner)
  {
    forall g | g in keep ensures Stores(after, owner, g, groups[g], maxBytes) {
      assert Stores(before, owner, g, groups[g], maxBytes);
      RetainedStores(before, after, owner, g, groups[g], keep, maxBytes);
    }
    hide Stores;
  }

  lemma RetainedStores(before: map<nat, Row>, after: map<nat, Row>, owner: string, g: GroupId, blocks: seq<Block>, keep: set<GroupId>, maxBytes: int)
    requires Stores(before, owner, g, blocks, maxBytes) && g in keep
    requires after == map r | r in before && (before[r].owner != owner || before[r].group in keep) :: before[r]
    ensures Stores(after, owner, g, blocks, maxBytes)
  {
    hide Payloads;
    var payloads := Payloads(blocks, maxBytes).value;
    var ids :| StoresAt(before, owner, g, payloads, ids);
    assert forall i :: 0 <= i < |ids| ==> ids[i] in ids;
    assert StoresAt(after, owner, g, payloads, ids);
  }
}
