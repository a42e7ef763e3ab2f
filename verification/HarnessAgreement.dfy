/**
 * Runs and their messages in the tables: whatever ordinary writers, expiry, deletion and
 * harness transactions do, in any order, every run agrees with the message it owns.
 */
module HarnessAgreement {
  import opened Wrappers
  import opened Agentue
  import opened Layout
  import opened MessageStore
  import opened HarnessRuns
  import opened HarnessStores

  /** The message is what the run row says, for the metadata it was created with. */
  ghost predicate Agrees(lib: Library, run: Run, m: Message) {
    exists meta :: Agree(lib, Model(meta, []), run, m)
  }

  ghost predicate RunAgrees(lib: Library, runs: map<string, Run>, outputs: map<string, string>,
                            roots: map<string, Root>, contents: map<string, Model>, id: string)
    requires id in runs
  {
    && id in outputs && outputs[id] in roots && outputs[id] in contents
    && Agrees(lib, runs[id], Message(roots[outputs[id]].status, roots[outputs[id]].revision, contents[outputs[id]]))
  }

  /** Every run agrees with the message it owns. */
  ghost predicate AllAgree(lib: Library, runs: map<string, Run>, outputs: map<string, string>, roots: map<string, Root>, contents: map<string, Model>) {
    forall id :: id in runs ==> RunAgrees(lib, runs, outputs, roots, contents, id)
  }

  ghost predicate Agreement(store: HarnessStore)
    reads store, store.messages
  {
    AllAgree(store.messages.lib, store.runs, store.outputs, store.messages.roots, store.messages.contents)
  }

  /** What can be asked of the tables, by anyone. */
  datatype Call =
    | Emit(message: string, event: Event, statuses: seq<Status>)
    | Replace(message: string, meta: Meta, version: string, entries: seq<Entry>)
    | Remove(message: string)
    | Expire(candidates: seq<(string, nat)>, idle: set<string>)
    | Acquire(resource: string, t: nat, now: int, ttl: nat)
    | Keep(token: Token, now: int, ttl: nat)
    | Release(token: Token)
    | Create(key: string, fingerprint: string, meta: Meta, deadline: int, id: string, message: string, admitted: bool)
    | Start(token: Token, id: string, now: int)
    | Bind(token: Token, id: string, now: int, ref: string)
    | Retry(token: Token, id: string, now: int, detail: string)
    | Cancel(id: string)
    | AppendOutput(token: Token, id: string, now: int, index: nat, hash: seq<string>, event: Event)
    | Finish(token: Token, id: string, now: int, clock: int, phase: Phase, result: Option<string>, detail: string)

  /**
   * What callers keep to: new ids are new, and the holder of a run's lease appends the event
   * that its replay hash ends with, after exactly what has been saved.
   */
  predicate Proper(store: HarnessStore, call: Call)
    reads store, store.messages
  {
    match call
    case Create(_, _, _, _, id, message, _) => id !in store.runs && message !in store.messages.roots
    case AppendOutput(token, id, _, index, hash, event) =>
      id in store.runs && Holds(store.LeaseOf(id), token.locker) && index == store.runs[id].checkpoint + 1 ==>
        |hash| == index && hash[..index - 1] == store.runs[id].hash && store.messages.lib.parse(hash[index - 1]) == Some(event)
    case _ => true
  }

  // ---------- what one change does to agreement ----------

  /** A transaction on one run and its message concerns no other run. */
  lemma OneChanged(lib: Library, runs: map<string, Run>, outputs: map<string, string>, roots: map<string, Root>, contents: map<string, Model>,
                   runs': map<string, Run>, roots': map<string, Root>, contents': map<string, Model>, id: string)
    requires AllAgree(lib, runs, outputs, roots, contents) && id in runs && Touches(runs, runs', id)
    requires forall a, b :: a in outputs && b in outputs && outputs[a] == outputs[b] ==> a == b
    requires id in outputs && Touches(roots, roots', outputs[id]) && Touches(contents, contents', outputs[id])
    requires id in runs' && RunAgrees(lib, runs', outputs, roots', contents', id)
    ensures AllAgree(lib, runs', outputs, roots', contents')
  {
    hide Agrees;
    forall a | a in runs' ensures RunAgrees(lib, runs', outputs, roots', contents', a) {
      assert a in runs && RunAgrees(lib, runs, outputs, roots, contents, a);
    }
  }

  /** Writers that leave owned messages alone leave agreement alone. */
  lemma OwnedSame(lib: Library, runs: map<string, Run>, outputs: map<string, string>, roots: map<string, Root>, contents: map<string, Model>,
                  roots': map<string, Root>, contents': map<string, Model>)
    requires AllAgree(lib, runs, outputs, roots, contents)
    requires forall id :: id in outputs && outputs[id] in roots && outputs[id] in contents ==>
               && outputs[id] in roots' && outputs[id] in contents'
               && roots'[outputs[id]] == roots[outputs[id]] && contents'[outputs[id]] == contents[outputs[id]]
    ensures AllAgree(lib, runs, outputs, roots', contents')
  {
    hide Agrees;
    forall a | a in runs ensures RunAgrees(lib, runs, outputs, roots', contents', a) {
      assert RunAgrees(lib, runs, outputs, roots, contents, a);
    }
  }

  lemma NewAgrees(lib: Library, meta: Meta, deadline: int)
    ensures Agrees(lib, Run(Pending, 0, [], false, deadline, "", ""), Message(Streaming, 1, Model(meta, [])))
  {
    Created(lib, meta, deadline);
  }

  /** A fenced transaction on the rows of one run. */
  datatype Tx =
    | StartIt(now: int)
    | BindIt(now: int, ref: string)
    | RetryIt(now: int, detail: string)
    | CancelIt
    | AppendIt(now: int, index: nat, hash: seq<string>, event: Event, fits: bool)
    | FinishIt(now: int, clock: int, phase: Phase, result: Option<string>, detail: string, fits: bool)

  function After(lib: Library, db: Db, t: nat, tx: Tx): Db {
    match tx
    case StartIt(now) => StartTx(db, t, now).0
    case BindIt(now, ref) => BindTx(db, t, now, ref).0
    case RetryIt(now, detail) => RetryTx(db, t, now, detail).0
    case CancelIt => CancelTx(db)
    case AppendIt(now, index, hash, e, fits) => AppendTx(lib, db, t, now, index, hash, e, fits).0
    case FinishIt(now, clock, phase, result, detail, fits) => FinishTx(lib, db, t, now, clock, phase, result, detail, fits).0
  }

  /** Every transaction takes agreeing rows to agreeing rows. */
  lemma AfterAgrees(lib: Library, db: Db, t: nat, tx: Tx)
    requires Agrees(lib, db.run, db.message)
    requires tx.AppendIt? && Holds(db.lease, t) && tx.index == db.run.checkpoint + 1 ==>
               |tx.hash| == tx.index && tx.hash[..tx.index - 1] == db.run.hash && lib.parse(tx.hash[tx.index - 1]) == Some(tx.event)
    ensures Agrees(lib, After(lib, db, t, tx).run, After(lib, db, t, tx).message)
  {
    var meta :| Agree(lib, Model(meta, []), db.run, db.message);
    hide Agree, StartTx, BindTx, RetryTx, CancelTx, AppendTx, FinishTx;
    var start := Model(meta, []);
    match tx
    case StartIt(now) => StartAgrees(lib, start, db, t, now);
    case BindIt(now, ref) => BindAgrees(lib, start, db, t, now, ref);
    case RetryIt(now, detail) => RetryAgrees(lib, start, db, t, now, detail);
    case CancelIt => CancelAgrees(lib, start, db);
    case AppendIt(now, index, hash, e, fits) => AppendAgrees(lib, start, db, t, now, index, hash, e, fits);
    case FinishIt(now, clock, phase, result, detail, fits) => FinishAgrees(lib, start, db, t, now, clock, phase, result, detail, fits);
  }

  lemma Injective(store: HarnessStore)
    requires store.Valid()
    ensures forall a, b :: a in store.outputs && b in store.outputs && store.outputs[a] == store.outputs[b] ==> a == b
    ensures forall id :: id in store.outputs ==> store.outputs[id] in store.messages.runOwned && store.outputs[id] in store.messages.roots
    ensures store.runs.Keys == store.outputs.Keys
  {
    hide StoreOk;
  }

  // ---------- the operations ----------

  /** Writes by anyone but a run: none of them touches a message that a run owns. */
  method Write(store: HarnessStore, call: Call)
    requires store.Valid() && Agreement(store) && (call.Emit? || call.Replace? || call.Remove? || call.Expire?)
    modifies store.messages, store.messages.table
    ensures store.Valid() && Agreement(store)
    ensures store.messages.runOwned == old(store.messages.runOwned)
    ensures forall m :: m in store.messages.runOwned && m in old(store.messages.roots) && m in old(store.messages.contents) ==>
              && m in store.messages.roots && store.messages.roots[m] == old(store.messages.roots)[m]
              && m in store.messages.contents && store.messages.contents[m] == old(store.messages.contents)[m]
  {
    hide StoreOk, AllAgree, RunsOk, Project, Store.Complete;
    Injective(store);
    ghost var runs, outputs, roots, contents := store.runs, store.outputs, store.messages.roots, store.messages.contents;
    StoredBoth(store.messages);
    match call {
      case Emit(message, event, statuses) =>
        var r := store.messages.ProjectOutput(message, event, statuses);
      case Replace(message, meta, version, entries) =>
        var r := store.messages.UpdateMessageContent(message, meta, version, entries);
      case Remove(message) =>
        var r := store.messages.DeleteMessage(message);
      case Expire(candidates, idle) =>
        var r := store.messages.ExpireMessages(candidates, idle);
    }
    StoredBoth(store.messages);
    OwnedSame(store.messages.lib, runs, outputs, roots, contents, store.messages.roots, store.messages.contents);
    OwnedStays(store, roots.Keys);
  }

  lemma OwnedStays(store: HarnessStore, stored: set<string>)
    requires store.messages.Valid() && RunsOk(store.runs, store.outputs, store.messages.runOwned, stored, store.submissions)
    requires forall m :: m in store.messages.runOwned && m in stored ==> m in store.messages.roots
    ensures store.Valid()
  {
    hide StoreOk;
  }

  /** A transaction that committed on the rows of one run, or left them alone. */
  lemma Committed(store: HarnessStore, t: nat, tx: Tx, id: string, runs: map<string, Run>, outputs: map<string, string>,
                  roots: map<string, Root>, contents: map<string, Model>, db: Db)
    requires store.Valid() && store.outputs == outputs && id in runs && id in outputs && outputs[id] in roots && outputs[id] in contents
    requires AllAgree(store.messages.lib, runs, outputs, roots, contents)
    requires db.run == runs[id] && db.message == Message(roots[outputs[id]].status, roots[outputs[id]].revision, contents[outputs[id]])
    requires tx.AppendIt? && Holds(db.lease, t) && tx.index == db.run.checkpoint + 1 ==>
               |tx.hash| == tx.index && tx.hash[..tx.index - 1] == db.run.hash && store.messages.lib.parse(tx.hash[tx.index - 1]) == Some(tx.event)
    requires Touches(runs, store.runs, id) && Touches(roots, store.messages.roots, outputs[id]) && Touches(contents, store.messages.contents, outputs[id])
    requires id in store.runs && outputs[id] in store.messages.roots && outputs[id] in store.messages.contents
    requires store.Row(id).run == After(store.messages.lib, db, t, tx).run && store.Row(id).message == After(store.messages.lib, db, t, tx).message
    ensures Agreement(store)
  {
    hide After, Agrees, StoreOk;
    Injective(store);
    assert RunAgrees(store.messages.lib, runs, outputs, roots, contents, id);
    AfterAgrees(store.messages.lib, db, t, tx);
    hide RunsOk;
    OneChanged(store.messages.lib, runs, outputs, roots, contents, store.runs, store.messages.roots, store.messages.contents, id);
  }

  method StartRun(store: HarnessStore, token: Token, id: string, now: int)
    requires store.Valid() && Agreement(store)
    modifies store`runs
    ensures store.Valid() && Agreement(store)
  {
    hide StoreOk, RunsOk, AllAgree, StartTx, BindTx, RetryTx, CancelTx, AppendTx, FinishTx;
    ghost var runs, outputs, roots, contents := store.runs, store.outputs, store.messages.roots, store.messages.contents;
    StoredBoth(store.messages);
    Injective(store);
    ghost var db: Db;
    if id in runs {
      db := store.Row(id);
      assert db.run == runs[id] && db.message == Message(roots[outputs[id]].status, roots[outputs[id]].revision, contents[outputs[id]]);
    }
    assert AllAgree(store.messages.lib, runs, outputs, roots, contents);
    hide HarnessStore.Row, Agreement;
    var r := store.StartHarnessRun(token, id, now);
    if id in runs && token.resource == HarnessResource(id) {
      SameTouches(roots, outputs[id]);
      SameTouches(contents, outputs[id]);
      Committed(store, token.locker, StartIt(now), id, runs, outputs, roots, contents, db);
    }
  }

  method BindRun(store: HarnessStore, token: Token, id: string, now: int, ref: string)
    requires store.Valid() && Agreement(store)
    modifies store`runs
    ensures store.Valid() && Agreement(store)
  {
    hide StoreOk, RunsOk, AllAgree, StartTx, BindTx, RetryTx, CancelTx, AppendTx, FinishTx;
    ghost var runs, outputs, roots, contents := store.runs, store.outputs, store.messages.roots, store.messages.contents;
    StoredBoth(store.messages);
    Injective(store);
    ghost var db: Db;
    if id in runs {
      db := store.Row(id);
      assert db.run == runs[id] && db.message == Message(roots[outputs[id]].status, roots[outputs[id]].revision, contents[outputs[id]]);
    }
    assert AllAgree(store.messages.lib, runs, outputs, roots, contents);
    hide HarnessStore.Row, Agreement;
    var r := store.BindHarnessExecution(token, id, now, ref);
    if id in runs && token.resource == HarnessResource(id) {
      SameTouches(roots, outputs[id]);
      SameTouches(contents, outputs[id]);
      Committed(store, token.locker, BindIt(now, ref), id, runs, outputs, roots, contents, db);
    }
  }

  method RetryRun(store: HarnessStore, token: Token, id: string, now: int, detail: string)
    requires store.Valid() && Agreement(store)
    modifies store`runs
    ensures store.Valid() && Agreement(store)
  {
    hide StoreOk, RunsOk, AllAgree, StartTx, BindTx, RetryTx, CancelTx, AppendTx, FinishTx;
    ghost var runs, outputs, roots, contents := store.runs, store.outputs, store.messages.roots, store.messages.contents;
    StoredBoth(store.messages);
    Injective(store);
    ghost var db: Db;
    if id in runs {
      db := store.Row(id);
      assert db.run == runs[id] && db.message == Message(roots[outputs[id]].status, roots[outputs[id]].revision, contents[outputs[id]]);
    }
    assert AllAgree(store.messages.lib, runs, outputs, roots, contents);
    hide HarnessStore.Row, Agreement;
    var r := store.RetryHarnessRun(token, id, now, detail);
    if id in runs && token.resource == HarnessResource(id) {
      SameTouches(roots, outputs[id]);
      SameTouches(contents, outputs[id]);
      Committed(store, token.locker, RetryIt(now, detail), id, runs, outputs, roots, contents, db);
    }
  }

  method CancelRun(store: HarnessStore, id: string)
    requires store.Valid() && Agreement(store)
    modifies store`runs
    ensures store.Valid() && Agreement(store)
  {
    hide StoreOk, RunsOk, AllAgree, StartTx, BindTx, RetryTx, CancelTx, AppendTx, FinishTx;
    ghost var runs, outputs, roots, contents := store.runs, store.outputs, store.messages.roots, store.messages.contents;
    StoredBoth(store.messages);
    Injective(store);
    ghost var db: Db;
    if id in runs {
      db := store.Row(id);
      assert db.run == runs[id] && db.message == Message(roots[outputs[id]].status, roots[outputs[id]].revision, contents[outputs[id]]);
    }
    assert AllAgree(store.messages.lib, runs, outputs, roots, contents);
    hide HarnessStore.Row, Agreement;
    var r := store.CancelHarnessRun(id);
    if id in runs {
      SameTouches(roots, outputs[id]);
      SameTouches(contents, outputs[id]);
      Committed(store, 0, CancelIt, id, runs, outputs, roots, contents, db);
    }
  }

  method AppendRun(store: HarnessStore, token: Token, id: string, now: int, index: nat, hash: seq<string>, e: Event)
    requires store.Valid() && Agreement(store) && Proper(store, AppendOutput(token, id, now, index, hash, e))
    modifies store`runs, store.messages.table, store.messages`roots, store.messages`layout, store.messages`contents
    ensures store.Valid() && Agreement(store)
  {
    hide StoreOk, RunsOk, AllAgree, StartTx, BindTx, RetryTx, CancelTx, AppendTx, FinishTx;
    ghost var runs, outputs, roots, contents := store.runs, store.outputs, store.messages.roots, store.messages.contents;
    StoredBoth(store.messages);
    Injective(store);
    ghost var db: Db;
    if id in runs {
      db := store.Row(id);
      assert db.run == runs[id] && db.message == Message(roots[outputs[id]].status, roots[outputs[id]].revision, contents[outputs[id]]);
    }
    assert AllAgree(store.messages.lib, runs, outputs, roots, contents);
    hide HarnessStore.Row, Agreement;
    var r, fits := store.AppendHarnessOutput(token, id, now, index, hash, e);
    if id in runs && token.resource == HarnessResource(id) {
      Committed(store, token.locker, AppendIt(now, index, hash, e, fits), id, runs, outputs, roots, contents, db);
    }
  }

  method FinishRun(store: HarnessStore, token: Token, id: string, now: int, clock: int, phase: Phase, result: Option<string>, detail: string)
    requires store.Valid() && Agreement(store)
    modifies store`runs, store.messages.table, store.messages`roots, store.messages`layout, store.messages`contents
    ensures store.Valid() && Agreement(store)
  {
    hide StoreOk, RunsOk, AllAgree, StartTx, BindTx, RetryTx, CancelTx, AppendTx, FinishTx;
    ghost var runs, outputs, roots, contents := store.runs, store.outputs, store.messages.roots, store.messages.contents;
    StoredBoth(store.messages);
    Injective(store);
    ghost var db: Db;
    if id in runs {
      db := store.Row(id);
      assert db.run == runs[id] && db.message == Message(roots[outputs[id]].status, roots[outputs[id]].revision, contents[outputs[id]]);
    }
    assert AllAgree(store.messages.lib, runs, outputs, roots, contents);
    hide HarnessStore.Row, Agreement;
    var r, fits := store.FinishHarnessRun(token, id, now, clock, phase, result, detail);
    if id in runs && token.resource == HarnessResource(id) {
      Committed(store, token.locker, FinishIt(now, clock, phase, result, detail, fits), id, runs, outputs, roots, contents, db);
    }
  }

  method CreateRun(store: HarnessStore, key: string, fingerprint: string, meta: Meta, deadline: int, id: string, message: string, admitted: bool)
    requires store.Valid() && Agreement(store) && id !in store.runs && message !in store.messages.roots
    modifies store, store.messages, store.messages.table
    ensures store.Valid() && Agreement(store)
  {
    hide StoreOk, RunsOk, Agrees;
    ghost var runs, outputs, roots, contents := store.runs, store.outputs, store.messages.roots, store.messages.contents;
    StoredBoth(store.messages);
    Injective(store);
    var r := store.CreateHarnessRun(key, fingerprint, meta, deadline, id, message, admitted);
    NewAgrees(store.messages.lib, meta, deadline);
    forall a | a in store.runs ensures RunAgrees(store.messages.lib, store.runs, store.outputs, store.messages.roots, store.messages.contents, a) {
      if a in runs {
        assert RunAgrees(store.messages.lib, runs, outputs, roots, contents, a);
      }
    }
  }

  /** One call, by whomever: every run still agrees with its message. */
  method Perform(store: HarnessStore, call: Call)
    requires store.Valid() && Agreement(store) && Proper(store, call)
    modifies store, store.messages, store.messages.table
    ensures store.Valid() && Agreement(store)
  {
    hide StoreOk, RunsOk, AllAgree;
    match call {
      case Emit(_, _, _) => Write(store, call);
      case Replace(_, _, _, _) => Write(store, call);
      case Remove(_) => Write(store, call);
      case Expire(_, _) => Write(store, call);
      case Acquire(resource, t, now, ttl) => var r := store.Lock(resource, t, now, ttl);
      case Keep(token, now, ttl) => var r := store.Renew(token, now, ttl);
      case Release(token) => store.Unlock(token);
      case Create(key, fingerprint, meta, deadline, id, message, admitted) =>
        CreateRun(store, key, fingerprint, meta, deadline, id, message, admitted);
      case Start(token, id, now) => StartRun(store, token, id, now);
      case Bind(token, id, now, ref) => BindRun(store, token, id, now, ref);
      case Retry(token, id, now, detail) => RetryRun(store, token, id, now, detail);
      case Cancel(id) => CancelRun(store, id);
      case AppendOutput(token, id, now, index, hash, event) => AppendRun(store, token, id, now, index, hash, event);
      case Finish(token, id, now, clock, phase, result, detail) => FinishRun(store, token, id, now, clock, phase, result, detail);
    }
  }

  /** Any history of proper calls on new tables. */
  method History(messages: Store, calls: seq<Call>) returns (store: HarnessStore)
    requires messages.Valid() && messages.runOwned == {}
    modifies messages, messages.table
    ensures store.Valid() && Agreement(store) && store.messages == messages
  {
    hide StoreOk, RunsOk;
    store := new HarnessStore(messages);
    for i := 0 to |calls|
      invariant store.Valid() && Agreement(store) && store.messages == messages && fresh(store)
    {
      if Proper(store, calls[i]) {
        Perform(store, calls[i]);
      }
    }
  }

  /** What agreement means for one run and its message. */
  lemma AgreementMeans(store: HarnessStore, id: string)
    requires Agreement(store) && id in store.runs
    ensures id in store.outputs && store.outputs[id] in store.messages.roots && store.outputs[id] in store.messages.contents
    ensures
      var (run, m) := (store.runs[id], store.messages.Logical(store.outputs[id]));
      && (run.phase.Terminal() <==> Terminal(m.status)) && (run.phase == Succeeded <==> m.status == Completed)
      && (run.phase == Succeeded <==> exists i :: 0 <= i < |m.content.blocks| && IsResult(m.content.blocks[i]))
      && (forall i, j :: 0 <= i < j < |m.content.blocks| && IsResult(m.content.blocks[i]) ==> !IsResult(m.content.blocks[j]))
      && (run.cancel && run.phase.Terminal() ==> m.status == Status.Cancelled && NoResult(m.content.blocks))
  {
    assert RunAgrees(store.messages.lib, store.runs, store.outputs, store.messages.roots, store.messages.contents, id);
    var (run, m) := (store.runs[id], store.messages.Logical(store.outputs[id]));
    var meta :| Agree(store.messages.lib, Model(meta, []), run, m);
    hide Agree;
    TerminalTogether(store.messages.lib, Model(meta, []), run, m);
  }
}
