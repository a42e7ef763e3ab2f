/**
 * Per-server admission: new submissions and recovered runs share one set of slots.
 * `HarnessRunner` has the mutex-guarded operations; `Pool` interleaves the goroutines
 * that use them.
 */
module Admission {
  import opened Wrappers
  import opened Agentue
  import MessageStore
  import opened HarnessStores

  /** Slots by run id; true means committed and waiting to be launched. */
  type Slots = map<string, bool>

  function Reserved(active: Slots, limit: nat, id: string): (r: (Slots, bool))
    ensures !r.1 ==> r.0 == active
    ensures r.1 ==> id !in active && r.0 == active[id := false] && |r.0| == |active| + 1 <= limit
  {
    if id in active || |active| >= limit then (active, false) else (active[id := false], true)
  }

  predicate IsReady(active: Slots, id: string) {
    id in active && active[id]
  }

  /** A reservation that is given back, or marked ready. */
  lemma SlotMoves(active: Slots, id: string)
    requires id !in active
    ensures active[id := false] - {id} == active
    ensures active[id := false][id := true] == active[id := true] && |active[id := true]| == |active[id := false]|
  {
    assert active[id := false][id := true] == active[id := true];
    assert active[id := true].Keys == active.Keys + {id} == active[id := false].Keys;
  }

  class HarnessRunner {
    const concurrency: nat
    var active: Slots

    constructor (concurrency: nat)
      ensures this.concurrency == concurrency && active == map[]
    {
      this.concurrency := concurrency;
      active := map[];
    }

    method Reserve(id: string) returns (ok: bool)
      modifies `active
      ensures (active, ok) == Reserved(old(active), concurrency, id)
    {
      if id in active || |active| >= concurrency {
        return false;
      }
      active := active[id := false];
      ok := true;
    }

    method Release(id: string)
      modifies `active
      ensures active == old(active) - {id}
    {
      active := active - {id};
    }

    method Available() returns (n: int)
      ensures n == concurrency - |active|
    {
      n := concurrency - |active|;
    }

    /** Takes the ids that wait for a launch, each once; their slots stay reserved. */
    method Ready() returns (ids: seq<string>)
      modifies `active
      ensures active.Keys == old(active.Keys) && forall id :: id in active ==> !active[id]
      ensures forall id :: id in ids <==> IsReady(old(active), id)
      ensures forall i, j :: 0 <= i < j < |ids| ==> ids[i] != ids[j]
    {
      ids := [];
      var todo := active.Keys;
      while todo != {}
        invariant todo <= active.Keys == old(active.Keys)
        invariant forall id :: id in todo ==> active[id] == old(active)[id]
        invariant forall id :: id in active && id !in todo ==> !active[id]
        invariant forall id :: id in ids <==> IsReady(old(active), id) && id !in todo
        invariant forall i, j :: 0 <= i < j < |ids| ==> ids[i] != ids[j]
        decreases |todo|
      {
        var id :| id in todo;
        todo := todo - {id};
        if active[id] {
          ids := ids + [id];
          active := active[id := false];
        }
      }
    }

    /**
     * Submit: a repeated submission never asks for a slot; a new one reserves inside the
     * creation transaction and hands the slot over only when that is known to have committed.
     * `heard` is whether the caller learns how the transaction went; when it does not, the
     * slot is given back although the run may exist, and a repetition or a scan finds that.
     */
    method Submit(store: HarnessStore, key: string, fingerprint: string, meta: Meta, deadline: int, id: string, message: string, heard: bool)
      returns (r: Result<string, Error>)
      requires store.Valid() && id !in store.runs && message !in store.messages.roots && id !in active
      modifies `active, store, store.messages, store.messages.table
      ensures store.Valid()
      ensures key in old(store.submissions) || r.Err? ==> active == old(active)
      ensures key in old(store.submissions) || (r.Err? && heard) ==> store.runs == old(store.runs) && store.submissions == old(store.submissions)
      ensures r.Err? && store.runs != old(store.runs) ==>
                !heard && id in store.runs && store.runs == old(store.runs)[id := store.runs[id]]
                && store.submissions == old(store.submissions)[key := Submission(id, fingerprint)]
      ensures heard && key in old(store.submissions) && old(store.submissions)[key].fingerprint == fingerprint ==>
                r == Ok(old(store.submissions)[key].run)
      ensures key !in old(store.submissions) && r.Ok? ==>
                r == Ok(id) && active == old(active)[id := true] && |active| <= concurrency && id in store.runs
      ensures key !in old(store.submissions) && |old(active)| >= concurrency ==> r.Err? && (heard ==> r.error == Capacity) && store.runs == old(store.runs)
    {
      hide MessageStore.StoreOk, RunsOk;
      SlotMoves(active, id);
      var admitted := false;
      if key !in store.submissions {
        admitted := Reserve(id);
      }
      var created := store.CreateHarnessRun(key, fingerprint, meta, deadline, id, message, admitted);
      r := if heard then created else Err(CallerCancelled);
      if admitted {
        if r.Err? {
          Release(id);
        } else {
          active := active[id := true];
        }
      }
    }
  }

  // ---------- the goroutines of one server ----------

  /** The scheduling loop between its steps: ids taken from the ready set, or one reserved after a scan. */
  datatype Loop = Idle | Launching(ids: multiset<string>) | Holding(id: string)

  /**
   * `submits` are the open submissions by the fresh id each reserved, true once committed;
   * one that has committed fails all the same when its caller never learns so.  `drivers`
   * are the running goroutines by the run they drive, `handed` counts the launches made
   * from the ready set, and `accepted` are the submissions that were acknowledged.
   */
  datatype Pool = Pool(limit: nat, active: Slots, submits: map<string, bool>, loop: Loop, drivers: multiset<string>,
                       used: set<string>, handed: multiset<string>, accepted: set<string>)

  datatype Step =
    | Admit(id: string)
    | Commit(id: string)
    | Fail(id: string)
    | Mark(id: string)
    | TakeReady
    | LaunchReady(id: string)
    | Scan(id: string)
    | LaunchScanned
    | Finish(id: string)

  function ReadyIds(active: Slots): set<string> {
    set id | id in active && active[id]
  }

  function Cleared(active: Slots): Slots {
    map id | id in active :: false
  }

  /** A step that is not enabled leaves the pool as it is; `Scan` may find any run. */
  function Next(p: Pool, step: Step): Pool {
    match step
    case Admit(id) =>
      if id in p.used then p
      else
        var (active, ok) := Reserved(p.active, p.limit, id);
        p.(active := active, submits := if ok then p.submits[id := false] else p.submits, used := p.used + {id})
    case Commit(id) => if id in p.submits then p.(submits := p.submits[id := true]) else p
    case Fail(id) =>
      if id in p.submits then p.(active := p.active - {id}, submits := p.submits - {id}) else p
    case Mark(id) =>
      if id in p.submits && p.submits[id] then
        p.(active := p.active[id := true], submits := p.submits - {id}, accepted := p.accepted + {id})
      else p
    case TakeReady =>
      if p.loop.Idle? then p.(active := Cleared(p.active), loop := Launching(multiset(ReadyIds(p.active)))) else p
    case LaunchReady(id) =>
      if !p.loop.Launching? then p
      else if p.loop.ids == multiset{} then p.(loop := Idle)
      else if id !in p.loop.ids then p
      else p.(loop := Launching(p.loop.ids - multiset{id}), drivers := p.drivers + multiset{id}, handed := p.handed + multiset{id})
    case Scan(id) =>
      if !p.loop.Idle? then p
      else
        var (active, ok) := Reserved(p.active, p.limit, id);
        p.(active := active, loop := if ok then Holding(id) else Idle, used := p.used + {id})
    case LaunchScanned =>
      if p.loop.Holding? then p.(loop := Idle, drivers := p.drivers + multiset{p.loop.id}) else p
    case Finish(id) =>
      if id in p.drivers then p.(active := p.active - {id}, drivers := p.drivers - multiset{id}) else p
  }

  function Empty(limit: nat): Pool {
    Pool(limit, map[], map[], Idle, multiset{}, {}, multiset{}, {})
  }

  function One(b: bool): nat {
    if b then 1 else 0
  }

  /** How often the loop is about to launch a run taken from the ready set. */
  function Listed(loop: Loop, id: string): nat {
    if loop.Launching? then loop.ids[id] else 0
  }

  /** How many goroutines believe that a slot is theirs. */
  function Owners(p: Pool, id: string): nat {
    One(id in p.submits) + One(IsReady(p.active, id)) + Listed(p.loop, id) + One(p.loop == Holding(id)) + p.drivers[id]
  }

  /** A slot in use has exactly one owner, and nobody owns a slot that is not in use. */
  predicate OwnedAt(p: Pool, id: string) {
    Owners(p, id) == One(id in p.active)
  }

  /** An acknowledged submission waits, is about to be launched, or was launched: exactly one of these, once. */
  predicate HandedAt(p: Pool, id: string) {
    && One(id in p.accepted) == One(IsReady(p.active, id)) + Listed(p.loop, id) + p.handed[id]
    && (id in p.accepted || id in p.submits ==> id in p.used)
    && (id in p.submits ==> id !in p.accepted)
  }

  ghost predicate Inv(p: Pool) {
    |p.active| <= p.limit && forall id :: OwnedAt(p, id) && HandedAt(p, id)
  }

  lemma SmallerSlots(active: Slots, id: string)
    ensures |active - {id}| <= |active|
  {
    assert (active - {id}).Keys == active.Keys - {id};
    if id in active {
      assert active.Keys == (active - {id}).Keys + {id};
    }
  }

  lemma SameSlots(active: Slots, id: string)
    requires id in active
    ensures |active[id := true]| == |active|
  {
    assert active[id := true].Keys == active.Keys;
  }

  lemma ClearedSlots(active: Slots)
    ensures |Cleared(active)| == |active|
  {
    assert Cleared(active).Keys == active.Keys;
  }

  /** The run a step is about. */
  function About(p: Pool, step: Step): string {
    match step
    case TakeReady => ""
    case LaunchScanned => if p.loop.Holding? then p.loop.id else ""
    case _ => step.id
  }

  lemma InvAt(p: Pool, id: string)
    requires Inv(p)
    ensures OwnedAt(p, id) && HandedAt(p, id) && |p.active| <= p.limit
  {
  }

  lemma SubmitHasSlot(p: Pool, id: string)
    requires OwnedAt(p, id)
    ensures id in p.submits ==> id in p.active
  {
  }

  lemma LimitedStep(p: Pool, step: Step)
    requires |p.active| <= p.limit && OwnedAt(p, About(p, step))
    ensures |Next(p, step).active| <= p.limit == Next(p, step).limit
  {
    if step.Admit? || step.Commit? || step.Fail? || step.Mark? {
      SubmitHasSlot(p, About(p, step));
      LimitedSubmit(p, step);
    } else {
      LimitedLaunch(p, step);
    }
  }

  lemma LimitedSubmit(p: Pool, step: Step)
    requires |p.active| <= p.limit && (step.Admit? || step.Commit? || step.Fail? || step.Mark?)
    requires step.Mark? && step.id in p.submits ==> step.id in p.active
    ensures |Next(p, step).active| <= p.limit == Next(p, step).limit
  {
    if step.Fail? {
      SmallerSlots(p.active, step.id);
    } else if step.Mark? && step.id in p.submits {
      SameSlots(p.active, step.id);
    }
  }

  lemma LimitedLaunch(p: Pool, step: Step)
    requires |p.active| <= p.limit && !(step.Admit? || step.Commit? || step.Fail? || step.Mark?)
    ensures |Next(p, step).active| <= p.limit == Next(p, step).limit
  {
    if step.Finish? {
      SmallerSlots(p.active, step.id);
    } else if step.TakeReady? {
      ClearedSlots(p.active);
    }
  }

  lemma OwnedStep(p: Pool, step: Step, id: string)
    requires OwnedAt(p, About(p, step)) && OwnedAt(p, id)
    ensures OwnedAt(Next(p, step), id)
  {
    if step.Admit? || step.Commit? || step.Fail? || step.Mark? {
      OwnedSubmit(p, step, id);
    } else {
      OwnedLaunch(p, step, id);
    }
  }

  lemma OwnedSubmit(p: Pool, step: Step, id: string)
    requires OwnedAt(p, About(p, step)) && OwnedAt(p, id) && (step.Admit? || step.Commit? || step.Fail? || step.Mark?)
    ensures OwnedAt(Next(p, step), id)
  {
  }

  lemma OwnedLaunch(p: Pool, step: Step, id: string)
    requires OwnedAt(p, About(p, step)) && OwnedAt(p, id) && !(step.Admit? || step.Commit? || step.Fail? || step.Mark?)
    ensures OwnedAt(Next(p, step), id)
  {
    match step
    case TakeReady =>
    case LaunchReady(_) =>
    case Scan(_) =>
    case LaunchScanned =>
    case Finish(_) =>
  }

  lemma HandedStep(p: Pool, step: Step, id: string)
    requires OwnedAt(p, id) && HandedAt(p, id)
    ensures HandedAt(Next(p, step), id)
  {
    if step.Admit? || step.Commit? || step.Fail? || step.Mark? {
      HandedSubmit(p, step, id);
    } else {
      HandedLaunch(p, step, id);
    }
  }

  lemma HandedSubmit(p: Pool, step: Step, id: string)
    requires OwnedAt(p, id) && HandedAt(p, id) && (step.Admit? || step.Commit? || step.Fail? || step.Mark?)
    ensures HandedAt(Next(p, step), id)
  {
  }

  lemma HandedLaunch(p: Pool, step: Step, id: string)
    requires OwnedAt(p, id) && HandedAt(p, id) && !(step.Admit? || step.Commit? || step.Fail? || step.Mark?)
    ensures HandedAt(Next(p, step), id)
  {
    match step
    case TakeReady =>
    case LaunchReady(_) =>
    case Scan(_) =>
    case LaunchScanned =>
    case Finish(_) =>
  }

  lemma NextKeeps(p: Pool, step: Step)
    requires Inv(p)
    ensures Inv(Next(p, step))
  {
    hide Inv, Next, OwnedAt, HandedAt, About;
    InvAt(p, About(p, step));
    LimitedStep(p, step);
    forall id ensures OwnedAt(Next(p, step), id) && HandedAt(Next(p, step), id) {
      InvAt(p, id);
      OwnedStep(p, step, id);
      HandedStep(p, step, id);
    }
    InvIs(Next(p, step));
  }

  lemma InvIs(p: Pool)
    requires |p.active| <= p.limit && forall id :: OwnedAt(p, id) && HandedAt(p, id)
    ensures Inv(p)
  {
  }

  /** A run of the pool: its states in order, each the next of the one before. */
  ghost predicate IsRun(limit: nat, run: seq<Pool>, steps: seq<Step>) {
    && |run| == |steps| + 1 && run[0] == Empty(limit)
    && forall i {:trigger steps[i]} :: 0 <= i < |steps| ==> run[i + 1] == Next(run[i], steps[i])
  }

  lemma {:induction false} Reachable(limit: nat, run: seq<Pool>, steps: seq<Step>, k: nat)
    requires IsRun(limit, run, steps) && k < |run|
    ensures Inv(run[k]) && run[k].limit == limit
  {
    if k > 0 {
      hide Next, Inv;
      Reachable(limit, run, steps, k - 1);
      var before, last := run[k - 1], steps[k - 1];
      NextKeeps(before, last);
      LimitedStep(before, last) by { InvAt(before, About(before, last)); }
    }
  }

  /**
   * In every interleaving: the slots in use never exceed the limit, a run has at most one
   * local driver, and the slot of an acknowledged submission is handed to exactly one launch.
   */
  lemma {:induction false} AdmissionIsSafe(limit: nat, run: seq<Pool>, steps: seq<Step>, k: nat)
    requires IsRun(limit, run, steps) && k < |run|
    ensures
      var p := run[k];
      && |p.active| <= limit
      && (forall id :: p.drivers[id] <= 1 && (id in p.drivers ==> id in p.active))
      && (forall id :: p.handed[id] <= 1 && (id in p.handed ==> id in p.accepted))
      && (forall id :: id in p.accepted ==> id in p.handed || id in p.active)
  {
    Reachable(limit, run, steps, k);
    SlotsOf(run[k]);
    hide OwnedAt, HandedAt;
  }

  lemma SlotsOf(p: Pool)
    requires Inv(p)
    ensures forall id :: p.drivers[id] <= 1 && (id in p.drivers ==> id in p.active)
    ensures forall id :: p.handed[id] <= 1 && (id in p.handed ==> id in p.accepted)
    ensures forall id :: id in p.accepted ==> id in p.handed || id in p.active
  {
    forall id
      ensures p.drivers[id] <= 1 && (id in p.drivers ==> id in p.active) && (id in p.accepted ==> id in p.handed || id in p.active)
      ensures p.handed[id] <= 1 && (id in p.handed ==> id in p.accepted)
    {
      InvAt(p, id);
    }
  }

  /** A submission that ends with an error, whether or not its transaction committed, leaves no slot behind, and touches no other. */
  lemma FailedLeavesNothing(p: Pool, id: string)
    requires Inv(p) && id in p.submits
    ensures Owners(Next(p, Fail(id)), id) == 0 && id !in Next(p, Fail(id)).active
    ensures forall other :: other != id ==> Owners(Next(p, Fail(id)), other) == Owners(p, other)
  {
    InvAt(p, id);
  }
}
