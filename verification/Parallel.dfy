/** Laying out messages side by side: one sweep over start times finds the overlapping groups. */
module Parallel {
  import opened Wrappers

  /** The sender of a message; columns belong to senders. */
  datatype Actor = Actor(kind: string, key: string)

  /** A message with the times that could be read from it. */
  datatype Card = Card(id: nat, actor: Actor, created: Option<int>, updated: Option<int>)

  type Column = seq<Card>
  type Group = seq<Column>

  function Max(a: int, b: int): int {
    if a < b then b else a
  }

  function Start(c: Card): int {
    c.created.GetOr(0)
  }

  /** The interval never ends before it starts. */
  function End(c: Card): int {
    Max(Start(c), c.updated.GetOr(Start(c)))
  }

  /** The order of the sweep: by start time, unknown starts last, then by id. */
  predicate Before(a: Card, b: Card) {
    if a.created.Some? && b.created.Some? then Start(a) < Start(b) || (Start(a) == Start(b) && a.id <= b.id)
    else if a.created.None? && b.created.None? then a.id <= b.id
    else a.created.Some?
  }

  function Insert(c: Card, sorted: seq<Card>): seq<Card> {
    if sorted == [] || Before(c, sorted[0]) then [c] + sorted else [sorted[0]] + Insert(c, sorted[1..])
  }

  function Sorted(messages: seq<Card>): seq<Card> {
    if messages == [] then [] else Insert(messages[0], Sorted(messages[1..]))
  }

  /** The variables of the sweep. */
  datatype Sweep = Sweep(groups: seq<Group>, end: Option<int>, actors: map<Actor, nat>)

  function Place(w: Sweep, c: Card): Sweep {
    if c.created.None? then w.(groups := w.groups + [[[c]]])
    else
      var opens := w.groups == [] || w.end.None? || Start(c) > w.end.value;
      var group := if opens then [] else w.groups[|w.groups| - 1];
      var actors := if opens then map[] else w.actors;
      var rest := if opens then w.groups else w.groups[..|w.groups| - 1];
      var known := c.actor in actors && actors[c.actor] < |group|;
      Sweep(rest + [if known then group[actors[c.actor] := group[actors[c.actor]] + [c]] else group + [[c]]],
            Some(if w.end.None? then End(c) else Max(w.end.value, End(c))),
            if known then actors else actors[c.actor := |actors|])
  }

  function Swept(s: seq<Card>): Sweep {
    if s == [] then Sweep([], None, map[]) else Place(Swept(s[..|s| - 1]), s[|s| - 1])
  }

  // ---------- the order ----------

  ghost predicate InOrder(s: seq<Card>) {
    forall i, j :: 0 <= i < j < |s| ==> Before(s[i], s[j])
  }

  lemma {:induction false} InsertKeeps(c: Card, sorted: seq<Card>)
    ensures multiset(Insert(c, sorted)) == multiset(sorted) + multiset{c}
  {
    if sorted != [] && !Before(c, sorted[0]) {
      hide Before;
      InsertKeeps(c, sorted[1..]);
      FirstCard(sorted);
    }
  }

  lemma FirstCard(s: seq<Card>)
    requires s != []
    ensures multiset(s) == multiset{s[0]} + multiset(s[1..])
  {
    assert s == [s[0]] + s[1..];
  }

  lemma {:induction false} InsertOrders(c: Card, sorted: seq<Card>)
    requires InOrder(sorted)
    ensures InOrder(Insert(c, sorted))
  {
    if sorted != [] && !Before(c, sorted[0]) {
      var rest := Insert(c, sorted[1..]);
      InsertOrders(c, sorted[1..]);
      InsertKeeps(c, sorted[1..]);
      forall k | 0 <= k < |rest| ensures Before(sorted[0], rest[k]) {
        assert rest[k] in multiset(rest);
        if rest[k] != c {
          assert rest[k] in sorted[1..];
        }
      }
    }
  }

  lemma {:induction false} SortedOrders(messages: seq<Card>)
    ensures InOrder(Sorted(messages)) && multiset(Sorted(messages)) == multiset(messages)
  {
    if messages != [] {
      SortedOrders(messages[1..]);
      hide InOrder;
      InsertOrders(messages[0], Sorted(messages[1..]));
      InsertKeeps(messages[0], Sorted(messages[1..]));
      FirstCard(messages);
    }
  }

  lemma OrderedPrefix(s: seq<Card>)
    requires InOrder(s) && s != []
    ensures InOrder(s[..|s| - 1])
  {
  }

  // ---------- columns ----------

  function ActorOf(column: Column): Actor {
    if column == [] then Actor("", "") else column[0].actor
  }

  predicate OneActor(column: Column) {
    column != [] && forall r :: 0 <= r < |column| ==> column[r].actor == ActorOf(column)
  }

  /** One actor per column and one column per actor. */
  ghost predicate ColumnsOk(g: Group) {
    && (forall k :: 0 <= k < |g| ==> OneActor(g[k]))
    && (forall j, k :: 0 <= j < k < |g| ==> ActorOf(g[j]) != ActorOf(g[k]))
  }

  ghost predicate ActorsOk(actors: map<Actor, nat>, g: Group) {
    && ColumnsOk(g) && |actors| == |g|
    && (forall a :: a in actors ==> actors[a] < |g| && ActorOf(g[actors[a]]) == a)
    && (forall k :: 0 <= k < |g| ==> ActorOf(g[k]) in actors && actors[ActorOf(g[k])] == k)
  }

  predicate AllDated(s: seq<Card>) {
    forall i :: 0 <= i < |s| ==> s[i].created.Some?
  }

  lemma JoinsColumn(actors: map<Actor, nat>, g: Group, c: Card)
    requires ActorsOk(actors, g) && c.actor in actors
    ensures ActorsOk(actors, g[actors[c.actor] := g[actors[c.actor]] + [c]])
  {
    var column := g[actors[c.actor]];
    assert OneActor(column);
    assert OneActor(column + [c]) && ActorOf(column + [c]) == ActorOf(column);
    hide OneActor, ActorOf;
  }

  lemma ColumnsPlus(g: Group, column: Column)
    requires ColumnsOk(g) && OneActor(column) && forall k :: 0 <= k < |g| ==> ActorOf(g[k]) != ActorOf(column)
    ensures ColumnsOk(g + [column])
  {
    hide OneActor, ActorOf;
  }

  lemma OpensColumn(actors: map<Actor, nat>, g: Group, c: Card)
    requires ActorsOk(actors, g) && c.actor !in actors
    ensures ActorsOk(actors[c.actor := |actors|], g + [[c]])
  {
    assert OneActor([c]) && ActorOf([c]) == c.actor;
    hide OneActor, ActorOf;
    ColumnsPlus(g, [c]);
    OpensTable(actors, g, [c]);
  }

  lemma OpensTable(actors: map<Actor, nat>, g: Group, column: Column)
    requires ActorsOk(actors, g) && ActorOf(column) !in actors && ColumnsOk(g + [column])
    ensures ActorsOk(actors[ActorOf(column) := |actors|], g + [column])
  {
    hide ColumnsOk, ActorOf;
    var n, next, actor := |g|, g + [column], ActorOf(column);
    var table := actors[actor := n];
    assert table.Keys == actors.Keys + {actor};
    forall a | a in table ensures table[a] < |next| && ActorOf(next[table[a]]) == a {
      if a == actor {
        assert table[a] == n && next[n] == column;
      } else {
        assert table[a] == actors[a] && next[actors[a]] == g[actors[a]];
      }
    }
    forall k | 0 <= k < |next| ensures ActorOf(next[k]) in table && table[ActorOf(next[k])] == k {
      if k < n {
        assert next[k] == g[k] && actors[ActorOf(g[k])] == k;
      } else {
        assert next[k] == column;
      }
    }
  }

  ghost predicate AllColumnsOk(groups: seq<Group>) {
    forall g :: 0 <= g < |groups| ==> ColumnsOk(groups[g])
  }

  /** The actor table is that of the last group. */
  ghost predicate TableOk(w: Sweep) {
    w.groups != [] && w.end.Some? && ActorsOk(w.actors, w.groups[|w.groups| - 1])
  }

  lemma PlaceColumns(w: Sweep, c: Card)
    requires AllColumnsOk(w.groups) && (c.created.Some? ==> w.groups == [] || TableOk(w))
    ensures AllColumnsOk(Place(w, c).groups) && (c.created.Some? ==> TableOk(Place(w, c)))
  {
    hide ColumnsOk, ActorsOk, AllColumnsOk, ActorOf;
    if c.created.None? {
      SingleColumn(c);
      LastColumns(w.groups, [[c]]);
    } else {
      EmptyActors();
      var opens := w.groups == [] || w.end.None? || Start(c) > w.end.value;
      var actors, group := if opens then map[] else w.actors, if opens then [] else w.groups[|w.groups| - 1];
      var rest := if opens then w.groups else w.groups[..|w.groups| - 1];
      RestColumns(w.groups);
      ActorsFacts(actors, group);
      var after := Place(w, c);
      assert after.groups == rest + [after.groups[|after.groups| - 1]];
      if c.actor in actors {
        JoinsColumn(actors, group, c);
      } else {
        OpensColumn(actors, group, c);
      }
      ActorsFacts(after.actors, after.groups[|after.groups| - 1]);
      LastColumns(rest, after.groups[|after.groups| - 1]);
    }
  }

  lemma ActorsFacts(actors: map<Actor, nat>, g: Group)
    requires ActorsOk(actors, g)
    ensures ColumnsOk(g) && |actors| == |g| && forall a :: a in actors ==> actors[a] < |g|
  {
  }

  lemma LastColumns(rest: seq<Group>, g: Group)
    requires AllColumnsOk(rest) && ColumnsOk(g)
    ensures AllColumnsOk(rest + [g])
  {
    hide ColumnsOk;
  }

  lemma RestColumns(groups: seq<Group>)
    requires AllColumnsOk(groups)
    ensures groups != [] ==> AllColumnsOk(groups[..|groups| - 1])
  {
    hide ColumnsOk;
  }

  /** While every card has a date, the actor table describes the last group. */
  lemma {:induction false} SweptColumns(s: seq<Card>)
    requires InOrder(s)
    ensures AllColumnsOk(Swept(s).groups) && (s != [] && AllDated(s) ==> TableOk(Swept(s)))
  {
    hide AllColumnsOk, TableOk, Place;
    if s != [] {
      var n := |s| - 1;
      OrderedPrefix(s);
      SweptColumns(s[..n]);
      if s[n].created.Some? {
        DatedBefore(s);
      }
      PlaceColumns(Swept(s[..n]), s[n]);
    } else {
      NoColumns();
    }
  }

  lemma NoColumns()
    ensures AllColumnsOk([])
  {
  }

  /** Before a dated card, the sweep's variables describe its last group. */
  lemma SweepReady(s: seq<Card>, i: nat)
    requires InOrder(s) && i < |s|
    ensures
      var w := Swept(s[..i]);
      if s[i].created.Some? && i > 0 then w.groups != [] && w.end.Some? && ActorsOk(w.actors, w.groups[|w.groups| - 1])
      else i > 0 || w.groups == []
  {
    SweptColumns(s[..i]);
    forall k | 0 <= k < i && s[i].created.Some? ensures s[k].created.Some? {
      assert Before(s[k], s[i]);
    }
  }

  lemma SingleColumn(c: Card)
    ensures ColumnsOk([[c]])
  {
  }

  lemma EmptyActors()
    ensures ActorsOk(map[], [])
  {
  }

  lemma DatedBefore(s: seq<Card>)
    requires InOrder(s) && s != [] && s[|s| - 1].created.Some?
    ensures AllDated(s) && AllDated(s[..|s| - 1])
  {
    forall i | 0 <= i < |s| - 1 ensures s[i].created.Some? {
      assert Before(s[i], s[|s| - 1]);
    }
  }

  /** Adds a card to its actor's column, which may be a new one. */
  method Put(group: Group, actors: map<Actor, nat>, c: Card) returns (group': Group, actors': map<Actor, nat>)
    requires ActorsOk(actors, group)
    ensures c.actor in actors ==> group' == group[actors[c.actor] := group[actors[c.actor]] + [c]] && actors' == actors
    ensures c.actor !in actors ==> group' == group + [[c]] && actors' == actors[c.actor := |actors|]
  {
    group', actors' := group, actors;
    if c.actor !in actors {
      actors' := actors[c.actor := |actors|];
      group' := group + [[]];
      assert group'[|group|] == [];
    }
    var column := actors'[c.actor];
    group' := group'[column := group'[column] + [c]];
    if c.actor !in actors {
      assert column == |group| && group'[column] == [c];
      assert group' == group + [[c]];
    }
  }

  /** One turn of the sweep. */
  method Turn(groups: seq<Group>, end: Option<int>, actors: map<Actor, nat>, c: Card)
    returns (groups': seq<Group>, end': Option<int>, actors': map<Actor, nat>)
    requires c.created.Some? && groups != [] ==> end.Some? && ActorsOk(actors, groups[|groups| - 1])
    ensures Sweep(groups', end', actors') == Place(Sweep(groups, end, actors), c)
  {
    groups', end', actors' := groups, end, actors;
    if c.created.None? {
      groups' := groups + [[[c]]];
      return;
    }
    if |groups| == 0 || end.None? || Start(c) > end.value {
      groups' := groups + [[]];
      actors' := map[];
      EmptyActors();
    }
    var last := |groups'| - 1;
    ActorsFacts(actors', groups'[last]);
    hide ColumnsOk, ActorsOk;
    var rest, group := groups'[..last], groups'[last];
    group, actors' := Put(group, actors', c);
    groups' := groups'[last := group];
    assert groups' == rest + [group];
    end' := Some(if end.None? then End(c) else Max(end.value, End(c)));
  }

  /** groupParallelMessages: one pass over the messages in start order. */
  method GroupParallelMessages(messages: seq<Card>) returns (groups: seq<Group>)
    ensures groups == Swept(Sorted(messages)).groups
    ensures Everything(groups) == multiset(messages)
    ensures DistinctCards(messages) ==>
              forall a, b :: a in messages && b in messages && a.created.Some? && b.created.Some? ==>
                (Together(groups, a, b) <==> Connected(messages, a, b))
  {
    hide Place, ActorsOk, Connected, Together, DistinctCards, Everything;
    var intervals := Sorted(messages);
    SortedOrders(messages);
    groups := [];
    var end: Option<int>, actors: map<Actor, nat> := None, map[];
    var i := 0;
    while i < |intervals|
      invariant 0 <= i <= |intervals|
      invariant Sweep(groups, end, actors) == Swept(intervals[..i])
    {
      assert intervals[..i + 1][..i] == intervals[..i];
      SweepReady(intervals, i);
      groups, end, actors := Turn(groups, end, actors, intervals[i]);
      i := i + 1;
    }
    assert intervals[..|intervals|] == intervals;
    LayoutIsComplete(messages);
    forall a, b | DistinctCards(messages) && a in messages && b in messages && a.created.Some? && b.created.Some?
      ensures Together(groups, a, b) <==> Connected(messages, a, b)
    {
      GroupsAreComponents(messages, a, b);
    }
  }

  // ---------- what is where ----------

  function InGroup(g: Group): multiset<Card> {
    if g == [] then multiset{} else multiset(g[0]) + InGroup(g[1..])
  }

  function Everything(groups: seq<Group>): multiset<Card> {
    if groups == [] then multiset{} else Everything(groups[..|groups| - 1]) + InGroup(groups[|groups| - 1])
  }

  lemma {:induction false} GroupAppend(g: Group, column: Column)
    ensures InGroup(g + [column]) == InGroup(g) + multiset(column)
  {
    if g == [] {
      assert [column][1..] == [];
      assert g + [column] == [column];
    } else {
      assert (g + [column])[1..] == g[1..] + [column];
      GroupAppend(g[1..], column);
    }
  }

  lemma {:induction false} GroupUpdate(g: Group, k: nat, c: Card)
    requires k < |g|
    ensures InGroup(g[k := g[k] + [c]]) == InGroup(g) + multiset{c}
  {
    var next := g[k := g[k] + [c]];
    if k == 0 {
      assert next[1..] == g[1..];
    } else {
      assert next[1..] == g[1..][k - 1 := g[1..][k - 1] + [c]];
      GroupUpdate(g[1..], k - 1, c);
    }
  }

  lemma EverythingLast(rest: seq<Group>, g: Group)
    ensures Everything(rest + [g]) == Everything(rest) + InGroup(g)
  {
    assert (rest + [g])[..|rest|] == rest;
  }

  /** Placing a card adds it to the last group and changes nothing else. */
  lemma PlaceAdds(w: Sweep, c: Card)
    ensures Adds(w.groups, Place(w, c).groups, c)
  {
    hide InGroup, Everything, Adds;
    var next := Place(w, c).groups;
    if c.created.None? {
      OpensGroup(w.groups, [[c]], c);
    } else {
      var opens := w.groups == [] || w.end.None? || Start(c) > w.end.value;
      var group := if opens then [] else w.groups[|w.groups| - 1];
      var actors := if opens then map[] else w.actors;
      var known := c.actor in actors && actors[c.actor] < |group|;
      var after := if known then group[actors[c.actor] := group[actors[c.actor]] + [c]] else group + [[c]];
      if known {
        GroupUpdate(group, actors[c.actor], c);
      } else {
        GroupAppend(group, [c]);
      }
      if opens {
        assert after == [[c]];
        OpensGroup(w.groups, after, c);
      } else {
        JoinsGroup(w.groups, after, c);
      }
    }
  }

  /** The groups after a card was placed: one more group of it alone, or the last group with it. */
  ghost predicate Adds(was: seq<Group>, now: seq<Group>, c: Card) {
    && now != [] && Everything(now) == Everything(was) + multiset{c}
    && if |now| == |was| + 1 then now[..|was|] == was && InGroup(now[|was|]) == multiset{c}
       else |now| == |was| && now[..|now| - 1] == was[..|now| - 1] && InGroup(now[|now| - 1]) == InGroup(was[|now| - 1]) + multiset{c}
  }

  lemma OpensGroup(was: seq<Group>, g: Group, c: Card)
    requires g == [[c]]
    ensures Adds(was, was + [g], c)
  {
    GroupAppend([], [c]);
    assert [] + [[c]] == [[c]];
    EverythingLast(was, g);
  }

  lemma JoinsGroup(was: seq<Group>, g: Group, c: Card)
    requires was != [] && InGroup(g) == InGroup(was[|was| - 1]) + multiset{c}
    ensures Adds(was, was[..|was| - 1] + [g], c)
  {
    hide InGroup, Everything;
    var rest := was[..|was| - 1];
    EverythingLast(rest, g);
    EverythingLast(rest, was[|was| - 1]);
    assert was == rest + [was[|was| - 1]];
  }

  /** Every message appears exactly once. */
  lemma {:induction false} SweptHasAll(s: seq<Card>)
    ensures Everything(Swept(s).groups) == multiset(s)
  {
    if s != [] {
      hide *;
      SweptHasAll(s[..|s| - 1]);
      SweptAddsLast(s);
      LastCard(s);
    } else {
      hide Place;
      assert Swept(s).groups == [];
    }
  }

  lemma SweptAddsLast(s: seq<Card>)
    requires s != []
    ensures Everything(Swept(s).groups) == Everything(Swept(s[..|s| - 1]).groups) + multiset{s[|s| - 1]}
  {
    hide Everything, Place;
    PlaceAdds(Swept(s[..|s| - 1]), s[|s| - 1]);
  }

  lemma LastCard(s: seq<Card>)
    requires s != []
    ensures multiset(s) == multiset(s[..|s| - 1]) + multiset{s[|s| - 1]}
  {
    assert s == s[..|s| - 1] + [s[|s| - 1]];
  }

  /** The group of each card of the sweep. */
  function Owners(s: seq<Card>): (r: seq<nat>)
    ensures |r| == |s|
  {
    if s == [] then []
    else
      var groups := Swept(s).groups;
      Owners(s[..|s| - 1]) + [if groups == [] then 0 else |groups| - 1]
  }

  lemma {:induction false} OwnersPrefix(s: seq<Card>, n: nat)
    requires n <= |s|
    ensures Owners(s[..n]) == Owners(s)[..n]
  {
    if n < |s| {
      OwnersPrefix(s[..|s| - 1], n);
      assert s[..|s| - 1][..n] == s[..n];
    } else {
      assert s[..n] == s;
    }
  }

  ghost predicate OwnedBy(s: seq<Card>, owners: seq<nat>, g: nat, c: Card)
    requires |owners| == |s|
  {
    exists k :: 0 <= k < |s| && owners[k] == g && s[k] == c
  }

  /** Which cards are in which group. */
  ghost predicate Holds(groups: seq<Group>, s: seq<Card>, owners: seq<nat>) {
    && |owners| == |s|
    && (forall k :: 0 <= k < |s| ==> owners[k] < |groups| && s[k] in InGroup(groups[owners[k]]))
    && (forall g, c :: 0 <= g < |groups| && c in InGroup(groups[g]) ==> OwnedBy(s, owners, g, c))
  }

  lemma AddsIn(was: seq<Group>, now: seq<Group>, c: Card, g: nat, x: Card)
    requires Adds(was, now, c) && g < |now|
    ensures x in InGroup(now[g]) <==> (g < |was| && x in InGroup(was[g])) || (g == |now| - 1 && x == c)
  {
    hide Everything, InGroup;
    if g < |now| - 1 {
      assert now[g] == now[..|now| - 1][g];
      assert |now| == |was| + 1 ==> now[g] == now[..|was|][g];
    }
  }

  lemma HoldsStep(was: seq<Group>, now: seq<Group>, s: seq<Card>, owners: seq<nat>, c: Card)
    requires Holds(was, s, owners) && Adds(was, now, c)
    ensures Holds(now, s + [c], owners + [|now| - 1])
  {
    AddsSome(was, now, c);
    var all, next := s + [c], owners + [|now| - 1];
    forall k | 0 <= k < |all| ensures next[k] < |now| && all[k] in InGroup(now[next[k]]) {
      HeldStep(was, now, s, owners, c, k);
    }
    forall g, x | 0 <= g < |now| && x in InGroup(now[g]) ensures OwnedBy(all, next, g, x) {
      OwnedStep(was, now, s, owners, c, g, x);
    }
    hide Adds, InGroup, OwnedBy;
  }

  lemma HeldStep(was: seq<Group>, now: seq<Group>, s: seq<Card>, owners: seq<nat>, c: Card, k: nat)
    requires Holds(was, s, owners) && Adds(was, now, c) && k <= |s| && now != []
    ensures
      var all, next := s + [c], owners + [|now| - 1];
      next[k] < |now| && all[k] in InGroup(now[next[k]])
  {
    AddsSome(was, now, c);
    hide Adds, InGroup, OwnedBy;
    AddsIn(was, now, c, if k < |s| then owners[k] else |now| - 1, if k < |s| then s[k] else c);
  }

  lemma OwnedStep(was: seq<Group>, now: seq<Group>, s: seq<Card>, owners: seq<nat>, c: Card, g: nat, x: Card)
    requires Holds(was, s, owners) && Adds(was, now, c) && g < |now| && x in InGroup(now[g])
    ensures OwnedBy(s + [c], owners + [|now| - 1], g, x)
  {
    AddsIn(was, now, c, g, x);
    hide Adds, InGroup, OwnedBy;
    if g < |was| && x in InGroup(was[g]) {
      OwnedStill(s, owners, g, x, c, |now| - 1);
    } else {
      OwnedNow(s, owners, x, g);
    }
  }

  lemma OwnedNow(s: seq<Card>, owners: seq<nat>, c: Card, last: nat)
    requires |owners| == |s|
    ensures OwnedBy(s + [c], owners + [last], last, c)
  {
    assert (owners + [last])[|s|] == last && (s + [c])[|s|] == c;
  }

  lemma OwnedStill(s: seq<Card>, owners: seq<nat>, g: nat, x: Card, c: Card, last: nat)
    requires |owners| == |s| && OwnedBy(s, owners, g, x)
    ensures OwnedBy(s + [c], owners + [last], g, x)
  {
    var k :| 0 <= k < |s| && owners[k] == g && s[k] == x;
    assert (owners + [last])[k] == g && (s + [c])[k] == x;
  }

  lemma {:induction false} SweptHolds(s: seq<Card>)
    ensures Holds(Swept(s).groups, s, Owners(s))
  {
    hide Place, Holds, Adds;
    if s != [] {
      var n := |s| - 1;
      SweptHolds(s[..n]);
      PlaceAdds(Swept(s[..n]), s[n]);
      AddsSome(Swept(s[..n]).groups, Swept(s).groups, s[n]);
      HoldsStep(Swept(s[..n]).groups, Swept(s).groups, s[..n], Owners(s[..n]), s[n]);
      assert s == s[..n] + [s[n]];
    } else {
      NothingHeld();
    }
  }

  lemma AddsSome(was: seq<Group>, now: seq<Group>, c: Card)
    requires Adds(was, now, c)
    ensures now != [] && |was| <= |now| <= |was| + 1
  {
  }

  lemma NothingHeld()
    ensures Holds([], [], [])
  {
  }

  // ---------- groups are the connected components of overlap ----------

  /** Two dated messages whose closed intervals intersect. */
  predicate Touch(a: Card, b: Card) {
    a.created.Some? && b.created.Some? && Start(a) <= End(b) && Start(b) <= End(a)
  }

  ghost predicate Chain(cards: seq<Card>, p: seq<Card>) {
    && p != [] && (forall k :: 0 <= k < |p| ==> p[k] in cards)
    && (forall k :: 0 <= k < |p| - 1 ==> Touch(p[k], p[k + 1]))
  }

  /** A chain of intersecting intervals links the two. */
  ghost predicate Connected(cards: seq<Card>, a: Card, b: Card) {
    exists p :: Chain(cards, p) && p[0] == a && p[|p| - 1] == b
  }

  ghost predicate Together(groups: seq<Group>, a: Card, b: Card) {
    exists g :: 0 <= g < |groups| && a in InGroup(groups[g]) && b in InGroup(groups[g])
  }

  lemma DatedUpTo(s: seq<Card>, k: nat)
    requires InOrder(s) && k < |s| && s[k].created.Some?
    ensures AllDated(s[..k + 1]) && InOrder(s[..k + 1]) && AllDated(s[..k]) && InOrder(s[..k])
  {
    forall i | 0 <= i < k ensures s[i].created.Some? {
      assert Before(s[i], s[k]);
    }
  }

  /** The end of the sweep is the latest end so far. */
  lemma {:induction false} EndIsLatest(s: seq<Card>)
    requires AllDated(s) && s != []
    ensures Swept(s).end.Some?
    ensures forall i :: 0 <= i < |s| ==> End(s[i]) <= Swept(s).end.value
    ensures exists i :: 0 <= i < |s| && End(s[i]) == Swept(s).end.value
  {
    hide Place;
    var n := |s| - 1;
    PlaceEnds(Swept(s[..n]), s[n]);
    if n > 0 {
      EndIsLatest(s[..n]);
      var i :| 0 <= i < n && End(s[..n][i]) == Swept(s[..n]).end.value;
      assert s[..n][i] == s[i];
      assert End(s[i]) == Swept(s).end.value || End(s[n]) == Swept(s).end.value;
      forall k | 0 <= k < n ensures End(s[k]) <= Swept(s).end.value {
        assert s[..n][k] == s[k];
      }
    } else {
      assert s[..n] == [];
      assert End(s[0]) == Swept(s).end.value;
    }
  }

  lemma PlaceEnds(w: Sweep, c: Card)
    requires c.created.Some?
    ensures Place(w, c).end == Some(if w.end.None? then End(c) else Max(w.end.value, End(c)))
  {
  }

  /** A card joins the group before it exactly when it starts by the latest end so far. */
  lemma OwnerStep(s: seq<Card>, k: nat)
    requires InOrder(s) && 0 < k < |s|
    ensures
      var (before, now, w) := (Owners(s)[k - 1], Owners(s)[k], Swept(s[..k]));
      && (s[k].created.None? ==> now == before + 1)
      && (s[k].created.Some? ==> w.end.Some? && now == if Start(s[k]) <= w.end.value then before else before + 1)
  {
    hide Owners, Swept, Place, InOrder, AllDated;
    OwnerLast(s, k - 1);
    OwnerLast(s, k);
    PlaceCounts(Swept(s[..k]), s[k]);
    if s[k].created.Some? {
      DatedUpTo(s, k);
      EndIsLatest(s[..k]);
    }
  }

  /** The group of a card is the last one after the turn that placed it. */
  lemma OwnerLast(s: seq<Card>, k: nat)
    requires k < |s|
    ensures Swept(s[..k + 1]) == Place(Swept(s[..k]), s[k])
    ensures Swept(s[..k + 1]).groups != [] && Owners(s)[k] == |Swept(s[..k + 1]).groups| - 1
  {
    hide Place;
    OwnersPrefix(s, k + 1);
    assert s[..k + 1][..k] == s[..k];
    PlaceCounts(Swept(s[..k]), s[k]);
  }

  lemma PlaceCounts(w: Sweep, c: Card)
    ensures
      var opens := c.created.None? || w.groups == [] || w.end.None? || Start(c) > w.end.value;
      |Place(w, c).groups| == |w.groups| + if opens then 1 else 0
  {
  }

  lemma {:induction false} OwnersGrow(s: seq<Card>, i: nat, j: nat)
    requires InOrder(s) && i <= j < |s|
    ensures Owners(s)[i] <= Owners(s)[j]
  {
    if i < j {
      OwnersGrow(s, i, j - 1);
      OwnerStep(s, j);
    }
  }

  /** Everything up to the later of two intersecting messages stays in the group of the earlier one. */
  lemma {:induction false} TouchShares(s: seq<Card>, i: nat, j: nat, k: nat)
    requires InOrder(s) && i <= k <= j < |s| && Touch(s[i], s[j])
    ensures Owners(s)[k] == Owners(s)[i]
  {
    if i < k {
      hide Owners, Swept, AllDated;
      assert k < j ==> Before(s[k], s[j]);
      hide InOrder;
      TouchShares(s, i, j, k - 1);
      OwnerStep(s, k);
      DatedUpTo(s, k);
      EndIsLatest(s[..k]);
      assert s[..k][i] == s[i];
    }
  }

  ghost predicate DistinctCards(s: seq<Card>) {
    forall i, j :: 0 <= i < j < |s| ==> s[i] != s[j]
  }

  lemma {:induction false} ChainShares(s: seq<Card>, p: seq<Card>, i: nat, j: nat)
    requires InOrder(s) && DistinctCards(s) && Chain(s, p) && i < |s| && j < |s| && s[i] == p[0] && s[j] == p[|p| - 1]
    ensures Owners(s)[i] == Owners(s)[j]
  {
    if |p| > 1 {
      var rest := p[..|p| - 1];
      assert p[|p| - 2] in s;
      var k :| 0 <= k < |s| && s[k] == p[|p| - 2];
      ChainShares(s, rest, i, k);
      assert Touch(p[|p| - 2], p[|p| - 1]);
      if k <= j {
        TouchShares(s, k, j, j);
      } else {
        TouchShares(s, j, k, k);
      }
    }
  }

  lemma ConnectedSelf(s: seq<Card>, a: Card)
    requires a in s
    ensures Connected(s, a, a)
  {
    assert Chain(s, [a]) && [a][0] == a && [a][|[a]| - 1] == a;
  }

  lemma ConnectedTouch(s: seq<Card>, a: Card, b: Card, c: Card)
    requires Connected(s, a, b) && c in s && Touch(b, c)
    ensures Connected(s, a, c)
  {
    var p :| Chain(s, p) && p[0] == a && p[|p| - 1] == b;
    var q := p + [c];
    assert Chain(s, q) && q[0] == a && q[|q| - 1] == c;
  }

  function Reversed(p: seq<Card>): (r: seq<Card>)
    ensures |r| == |p| && forall k :: 0 <= k < |p| ==> r[k] == p[|p| - 1 - k]
  {
    seq(|p|, k requires 0 <= k < |p| => p[|p| - 1 - k])
  }

  lemma ConnectedBack(s: seq<Card>, a: Card, b: Card)
    requires Connected(s, a, b)
    ensures Connected(s, b, a)
  {
    var p :| Chain(s, p) && p[0] == a && p[|p| - 1] == b;
    var q := Reversed(p);
    forall k | 0 <= k < |q| - 1 ensures Touch(q[k], q[k + 1]) {
      assert Touch(p[|p| - 2 - k], p[|p| - 1 - k]);
    }
    assert Chain(s, q) && q[0] == b && q[|q| - 1] == a;
  }

  /** Some earlier message of the same group reaches a card that did not open it. */
  lemma Reaches(s: seq<Card>, i: nat, j: nat) returns (q: nat)
    requires InOrder(s) && i < j < |s| && s[j].created.Some? && Owners(s)[i] == Owners(s)[j]
    ensures q < j && Owners(s)[q] == Owners(s)[j] && Touch(s[q], s[j])
  {
    OwnersGrow(s, i, j - 1);
    OwnersGrow(s, j - 1, j);
    OwnerStep(s, j);
    DatedUpTo(s, j);
    EndIsLatest(s[..j]);
    q :| 0 <= q < j && End(s[..j][q]) == Swept(s[..j]).end.value;
    assert s[..j][q] == s[q] && s[..j + 1][q] == s[q];
    assert Before(s[q], s[j]);
    OwnersGrow(s, q, j);
    assert s[..j + 1][i] == s[i];
    if Owners(s)[q] < Owners(s)[i] {
      StartsAfter(s, q, i, j);
    }
  }

  lemma StartsLater(s: seq<Card>, f: nat, j: nat)
    requires InOrder(s) && f <= j < |s| && s[f].created.Some? && s[j].created.Some?
    ensures Start(s[f]) <= Start(s[j])
  {
    if f < j {
      assert Before(s[f], s[j]);
    }
  }

  lemma EndsBefore(s: seq<Card>, q: nat, f: nat)
    requires InOrder(s) && q < f < |s| && s[f].created.Some?
    ensures Swept(s[..f]).end.Some? && End(s[q]) <= Swept(s[..f]).end.value
  {
    hide Swept, End;
    DatedUpTo(s, f);
    EndIsLatest(s[..f]);
    assert s[..f][q] == s[q];
  }

  /** Whatever follows the start of a later group starts after every message of an earlier one has ended. */
  lemma StartsAfter(s: seq<Card>, q: nat, i: nat, j: nat)
    requires InOrder(s) && q < |s| && i <= j < |s| && s[i].created.Some? && s[j].created.Some? && Owners(s)[q] < Owners(s)[i]
    ensures Start(s[j]) > End(s[q])
  {
    var f := Opener(s, q, i);
    hide *;
    StartsLater(s, f, j);
    EndsBefore(s, q, f);
  }

  /** Between a card and one of a later group, some card opens a group after the first one's end. */
  lemma {:induction false} Opener(s: seq<Card>, q: nat, i: nat) returns (f: nat)
    requires InOrder(s) && q < |s| && i < |s| && s[i].created.Some? && Owners(s)[q] < Owners(s)[i]
    ensures q < f <= i && Swept(s[..f]).end.Some? && s[f].created.Some? && Start(s[f]) > Swept(s[..f]).end.value
  {
    if i <= q {
      OwnersGrow(s, i, q);
    }
    OwnerStep(s, i);
    if Owners(s)[i] != Owners(s)[i - 1] {
      f := i;
    } else {
      assert Before(s[i - 1], s[i]);
      f := Opener(s, q, i - 1);
    }
  }

  /** Dated messages of one group are connected. */
  lemma {:induction false} SharesConnected(s: seq<Card>, i: nat, j: nat)
    requires InOrder(s) && i <= j < |s| && s[j].created.Some? && Owners(s)[i] == Owners(s)[j]
    ensures Connected(s, s[i], s[j])
    decreases j, i
  {
    if i == j {
      ConnectedSelf(s, s[i]);
    } else {
      var q := Reaches(s, i, j);
      if i <= q {
        SharesConnected(s, i, q);
      } else {
        DatedUpTo(s, j);
        assert s[..j + 1][i] == s[i];
        SharesConnected(s, q, i);
        ConnectedBack(s, s[q], s[i]);
      }
      ConnectedTouch(s, s[i], s[q], s[j]);
    }
  }

  /** The same cards, in any order, have the same chains. */
  lemma SameChains(a: seq<Card>, b: seq<Card>, x: Card, y: Card)
    requires multiset(a) == multiset(b) && Connected(a, x, y)
    ensures Connected(b, x, y)
  {
    var p :| Chain(a, p) && p[0] == x && p[|p| - 1] == y;
    forall k | 0 <= k < |p| ensures p[k] in b {
      assert p[k] in multiset(a);
    }
    assert Chain(b, p);
  }

  lemma {:induction false} DistinctBag(s: seq<Card>, n: nat)
    requires n <= |s| && forall c :: c in s ==> multiset(s)[c] == 1
    ensures forall i, j :: 0 <= i < j < n ==> s[i] != s[j]
  {
    if n > 0 {
      DistinctBag(s, n - 1);
      forall i | 0 <= i < n - 1 ensures s[i] != s[n - 1] {
        var c := s[n - 1];
        assert s == s[..n - 1] + [c] + s[n..];
        assert multiset(s) == multiset(s[..n - 1]) + multiset{c} + multiset(s[n..]);
        assert c in s;
        assert c !in multiset(s[..n - 1]);
        assert s[..n - 1][i] in multiset(s[..n - 1]);
      }
    }
  }

  lemma {:induction false} BagDistinct(s: seq<Card>)
    requires forall i, j :: 0 <= i < j < |s| ==> s[i] != s[j]
    ensures forall c :: c in s ==> multiset(s)[c] == 1
  {
    if s != [] {
      var n := |s| - 1;
      BagDistinct(s[..n]);
      assert s == s[..n] + [s[n]];
      forall c | c in s ensures multiset(s)[c] == 1 {
        if c == s[n] {
          assert c !in s[..n];
        } else {
          assert c in s[..n];
        }
      }
    }
  }

  lemma SortedDistinct(messages: seq<Card>)
    requires DistinctCards(messages)
    ensures DistinctCards(Sorted(messages))
  {
    SortedOrders(messages);
    BagDistinct(messages);
    var s := Sorted(messages);
    forall c | c in s ensures multiset(s)[c] == 1 {
      assert c in multiset(s);
      assert c in messages;
    }
    DistinctBag(s, |s|);
  }

  lemma IndexIn(messages: seq<Card>, s: seq<Card>, a: Card) returns (i: nat)
    requires multiset(s) == multiset(messages) && a in messages
    ensures i < |s| && s[i] == a
  {
    assert a in multiset(s);
    i :| 0 <= i < |s| && s[i] == a;
  }

  /** After a sweep in start order, two dated messages share a group exactly when a chain of intersecting intervals links them. */
  lemma {:induction false} SweepFindsComponents(s: seq<Card>, a: Card, b: Card)
    requires InOrder(s) && DistinctCards(s) && a in s && b in s && a.created.Some? && b.created.Some?
    ensures Together(Swept(s).groups, a, b) <==> Connected(s, a, b)
  {
    var groups := Swept(s).groups;
    SweptHolds(s);
    hide Connected, InGroup, InOrder, Owners, Swept, Holds, DistinctCards, Together;
    var i := IndexIn(s, s, a);
    var j := IndexIn(s, s, b);
    if Together(groups, a, b) {
      TogetherShares(groups, s, i, j);
      if i <= j {
        SharesConnected(s, i, j);
      } else {
        SharesConnected(s, j, i);
        ConnectedBack(s, b, a);
      }
    }
    if Connected(s, a, b) {
      ConnectedShares(s, i, j);
      SharesTogether(groups, s, i, j);
    }
  }

  /** The same for the messages in any order: the groups shown are the connected components of overlap. */
  lemma {:induction false} GroupsAreComponents(messages: seq<Card>, a: Card, b: Card)
    requires DistinctCards(messages) && a in messages && b in messages && a.created.Some? && b.created.Some?
    ensures Together(Swept(Sorted(messages)).groups, a, b) <==> Connected(messages, a, b)
  {
    hide Connected, InOrder, Swept, Sorted, DistinctCards, Together;
    var s := Sorted(messages);
    SortedOrders(messages);
    SortedDistinct(messages);
    var i := IndexIn(messages, s, a);
    var j := IndexIn(messages, s, b);
    SweepFindsComponents(s, a, b);
    if Connected(s, a, b) {
      SameChains(s, messages, a, b);
    }
    if Connected(messages, a, b) {
      SameChains(messages, s, a, b);
    }
  }

  lemma SharesTogether(groups: seq<Group>, s: seq<Card>, i: nat, j: nat)
    requires Holds(groups, s, Owners(s)) && i < |s| && j < |s| && Owners(s)[i] == Owners(s)[j]
    ensures Together(groups, s[i], s[j])
  {
    hide InGroup, Owners;
    assert s[j] in InGroup(groups[Owners(s)[j]]);
  }

  lemma OwnerIs(groups: seq<Group>, s: seq<Card>, owners: seq<nat>, g: nat, i: nat)
    requires Holds(groups, s, owners) && DistinctCards(s) && i < |s| && g < |groups| && s[i] in InGroup(groups[g])
    ensures owners[i] == g
  {
    hide InGroup;
    assert OwnedBy(s, owners, g, s[i]);
    hide Holds;
    var k :| 0 <= k < |s| && owners[k] == g && s[k] == s[i];
    assert k == i;
  }

  lemma TogetherShares(groups: seq<Group>, s: seq<Card>, i: nat, j: nat)
    requires Holds(groups, s, Owners(s)) && DistinctCards(s) && i < |s| && j < |s| && Together(groups, s[i], s[j])
    ensures Owners(s)[i] == Owners(s)[j]
  {
    hide InGroup, Holds, DistinctCards, Owners, Swept;
    var g :| 0 <= g < |groups| && s[i] in InGroup(groups[g]) && s[j] in InGroup(groups[g]);
    OwnerIs(groups, s, Owners(s), g, i);
    OwnerIs(groups, s, Owners(s), g, j);
  }

  lemma ConnectedShares(s: seq<Card>, i: nat, j: nat)
    requires InOrder(s) && DistinctCards(s) && i < |s| && j < |s| && Connected(s, s[i], s[j])
    ensures Owners(s)[i] == Owners(s)[j]
  {
    var p :| Chain(s, p) && p[0] == s[i] && p[|p| - 1] == s[j];
    ChainShares(s, p, i, j);
  }

  /** Every message is shown exactly once, and in every group columns are actors. */
  lemma LayoutIsComplete(messages: seq<Card>)
    ensures
      var groups := Swept(Sorted(messages)).groups;
      && Everything(groups) == multiset(messages)
      && (forall g :: 0 <= g < |groups| ==> ColumnsOk(groups[g]))
  {
    SortedOrders(messages);
    SweptHasAll(Sorted(messages));
    SweptColumns(Sorted(messages));
  }

  /** A message without a readable start time is alone in its group. */
  lemma UndatedAlone(messages: seq<Card>, a: Card, b: Card)
    requires DistinctCards(messages) && a in messages && b in messages && a.created.None? && a != b
    ensures !Together(Swept(Sorted(messages)).groups, a, b)
  {
    hide InGroup, Holds, Owners, Swept, Sorted, InOrder, DistinctCards, Together;
    var s := Sorted(messages);
    SortedOrders(messages);
    SortedDistinct(messages);
    SweptHolds(s);
    var i := IndexIn(messages, s, a);
    var j := IndexIn(messages, s, b);
    UndatedOwners(s, i, j);
    if Together(Swept(s).groups, a, b) {
      TogetherShares(Swept(s).groups, s, i, j);
    }
  }

  /** The card of an undated message is in no other card's group. */
  lemma UndatedOwners(s: seq<Card>, i: nat, j: nat)
    requires InOrder(s) && i < |s| && j < |s| && i != j && s[i].created.None?
    ensures Owners(s)[i] != Owners(s)[j]
  {
    hide Owners, InOrder;
    if i < j {
      UndatedAfter(s, i, i + 1);
      OwnersGrow(s, i + 1, j);
    } else {
      UndatedAfter(s, i, i);
      OwnersGrow(s, j, i - 1);
    }
  }

  /** From the first undated message on, every card opens its own group. */
  lemma UndatedAfter(s: seq<Card>, i: nat, k: nat)
    requires InOrder(s) && i <= k < |s| && 0 < k && s[i].created.None?
    ensures Owners(s)[k] == Owners(s)[k - 1] + 1
  {
    OwnerStep(s, k);
    assert i < k ==> Before(s[i], s[k]);
  }
}
