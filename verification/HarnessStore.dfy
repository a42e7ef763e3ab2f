/** The tables behind harness runs: leases, runs and the messages they own, changed in one transaction each. */
module HarnessStores {
  import opened Wrappers
  import opened Agentue
  import opened Framing
  import opened Layout
  import opened PartRows
  import opened MessageContents
  import opened MessageStore
  import opened HarnessRuns

  datatype Token = Token(resource: string, locker: nat)

  /** A submission that was accepted: the run it created and what was asked. */
  datatype Submission = Submission(run: string, fingerprint: string)

  function HarnessResource(id: string): string {
    "harness-run/" + id
  }

  /** Every run owns one message, no two the same one, and nothing else is owned. */
  ghost predicate RunsOk(runs: map<string, Run>, outputs: map<string, string>, owned: set<string>, stored: set<string>,
                         submissions: map<string, Submission>) {
    && runs.Keys == outputs.Keys
    && (forall id :: id in outputs ==> outputs[id] in owned && outputs[id] in stored)
    && (forall a, b :: a in outputs && b in outputs && outputs[a] == outputs[b] ==> a == b)
    && (forall m :: m in owned ==> exists id :: id in outputs && outputs[id] == m)
    && (forall k :: k in submissions ==> submissions[k].run in runs)
  }

  lemma RunHasMessage(runs: map<string, Run>, outputs: map<string, string>, owned: set<string>, stored: set<string>,
                      submissions: map<string, Submission>, id: string)
    requires RunsOk(runs, outputs, owned, stored, submissions) && id in runs
    ensures id in outputs && outputs[id] in owned && outputs[id] in stored
  {
  }

  /** At most the entry of one key differs. */
  ghost predicate Touches<T(!new)>(before: map<string, T>, after: map<string, T>, id: string) {
    if id in before then id in after && after == before[id := after[id]] else after == before
  }

  lemma SameTouches<T(!new)>(m: map<string, T>, id: string)
    ensures Touches(m, m, id)
  {
    assert id in m ==> m == m[id := m[id]];
  }

  lemma UpdateTouches<T(!new)>(before: map<string, T>, after: map<string, T>, id: string)
    requires id in before && id in after
    requires forall k :: k in after <==> k in before
    requires forall k :: k in before && k != id ==> after[k] == before[k]
    ensures Touches(before, after, id)
  {
    assert after == before[id := after[id]];
  }

  lemma RunUpdated(runs: map<string, Run>, outputs: map<string, string>, owned: set<string>, stored: set<string>,
                   submissions: map<string, Submission>, id: string, run: Run)
    requires RunsOk(runs, outputs, owned, stored, submissions) && id in runs
    ensures RunsOk(runs[id := run], outputs, owned, stored, submissions)
  {
  }

  lemma StoredBoth(messages: Store)
    requires messages.Valid()
    ensures messages.roots.Keys == messages.contents.Keys
  {
    hide RowsOk, MessageOk;
  }

  class HarnessStore {
    const messages: Store
    var locks: map<string, Lease>
    var runs: map<string, Run>
    /** The message of each run. */
    var outputs: map<string, string>
    var submissions: map<string, Submission>

    ghost predicate Valid()
      reads this, messages, messages.table
    {
      messages.Valid() && RunsOk(runs, outputs, messages.runOwned, messages.roots.Keys, submissions)
    }

    /** The rows a transaction on one run reads and writes. */
    ghost function Row(id: string): Db
      requires id in runs && id in outputs && outputs[id] in messages.roots && outputs[id] in messages.contents
      reads this, messages
    {
      Db(LeaseOf(id), runs[id], messages.Logical(outputs[id]))
    }

    function LeaseOf(id: string): Option<Lease>
      reads `locks
    {
      if HarnessResource(id) in locks then Some(locks[HarnessResource(id)]) else None
    }

    constructor (messages: Store)
      requires messages.Valid() && messages.runOwned == {}
      ensures Valid() && this.messages == messages && runs == map[] && locks == map[] && submissions == map[]
    {
      this.messages := messages;
      locks, runs, outputs, submissions := map[], map[], map[], map[];
    }

    // ---------- leases ----------

    /** Lock's three statements in sequence; between them other servers may act. */
    method Lock(resource: string, t: nat, now: int, ttl: nat) returns (r: Result<Token, Error>)
      modifies `locks
      ensures var before := if resource in old(locks) then Some(old(locks)[resource]) else None;
              var first := TakeExpired(before, t, now, ttl);
              var after := if first.1 then first.0 else InsertLease(first.0, t, now, ttl);
              && resource in locks && locks == old(locks)[resource := locks[resource]] && after == Some(locks[resource])
              && (r == if first.1 || Holds(after, t) then Ok(Token(resource, t)) else Err(Conflict))
    {
      if resource in locks && locks[resource].expires <= now {
        locks := locks[resource := Lease(t, now + ttl)];
        return Ok(Token(resource, t));
      }
      if resource !in locks {
        locks := locks[resource := Lease(t, now + ttl)];
      }
      assert locks == old(locks)[resource := locks[resource]];
      r := if locks[resource].locker == t then Ok(Token(resource, t)) else Err(Conflict);
    }

    method Renew(token: Token, now: int, ttl: nat) returns (r: Option<Error>)
      modifies `locks
      ensures var before := if token.resource in old(locks) then Some(old(locks)[token.resource]) else None;
              match Renewed(before, token.locker, now, ttl)
              case Ok(after) => r.None? && after.Some? && locks == old(locks)[token.resource := after.value]
              case Err(error) => r == Some(error) && locks == old(locks)
    {
      if token.resource in locks && locks[token.resource].locker == token.locker && locks[token.resource].expires > now {
        locks := locks[token.resource := Lease(token.locker, now + ttl)];
        return None;
      }
      r := Some(Lost);
    }

    method Unlock(token: Token)
      modifies `locks
      ensures forall other :: other != token.resource ==> (other in locks <==> other in old(locks)) && (other in locks ==> locks[other] == old(locks)[other])
      ensures var before := if token.resource in old(locks) then Some(old(locks)[token.resource]) else None;
              Unlocked(before, token.locker) == if token.resource in locks then Some(locks[token.resource]) else None
    {
      if token.resource in locks && locks[token.resource].locker == token.locker {
        locks := locks - {token.resource};
      }
    }

    // ---------- runs ----------

    /** harnessTransaction's checks: the lease, the run, and that it is not over. */
    method Begin(token: Token, id: string, now: int) returns (r: Option<Error>)
      requires Valid()
      ensures id in runs ==> id in outputs && outputs[id] in messages.runOwned && outputs[id] in messages.roots && outputs[id] in messages.contents
      ensures token.resource != HarnessResource(id) ==> r == Some(Lost)
      ensures token.resource == HarnessResource(id) && id in runs ==> r == Admit(Row(id), token.locker, now)
      ensures r.None? ==> id in runs && token.resource == HarnessResource(id)
    {
      hide StoreOk, RunsOk;
      StoredBoth(messages);
      if id in runs {
        RunHasMessage(runs, outputs, messages.runOwned, messages.roots.Keys, submissions, id);
      }
      if token.resource != HarnessResource(id) {
        return Some(Lost);
      }
      if token.resource !in locks || locks[token.resource].locker != token.locker || locks[token.resource].expires <= now {
        return Some(Lost);
      }
      if id !in runs {
        return Some(NotFound);
      }
      if runs[id].phase.Terminal() {
        return Some(Conflict);
      }
      r := None;
    }

    /** StartHarnessRun: the run as it was, now starting. */
    method StartHarnessRun(token: Token, id: string, now: int) returns (r: Result<Run, Error>)
      requires Valid()
      modifies `runs
      ensures Valid() && Touches(old(runs), runs, id)
      ensures token.resource == HarnessResource(id) && id in old(runs) ==> (Row(id), r) == StartTx(old(Row(id)), token.locker, now)
      ensures token.resource != HarnessResource(id) || id !in old(runs) ==> r.Err? && runs == old(runs)
    {
      hide StoreOk, RunsOk;
      var refusal := Begin(token, id, now);
      if refusal.Some? {
        return Err(refusal.value);
      }
      r := Ok(runs[id]);
      RunUpdated(runs, outputs, messages.runOwned, messages.roots.Keys, submissions, id, runs[id].(phase := Starting));
      runs := runs[id := runs[id].(phase := Starting)];
    }

    /** BindHarnessExecution: the execution reference is set once and never changed. */
    method BindHarnessExecution(token: Token, id: string, now: int, ref: string) returns (r: Option<Error>)
      requires Valid()
      modifies `runs
      ensures Valid() && Touches(old(runs), runs, id)
      ensures token.resource == HarnessResource(id) && id in old(runs) ==> (Row(id), r) == BindTx(old(Row(id)), token.locker, now, ref)
      ensures token.resource != HarnessResource(id) || id !in old(runs) ==> r.Some? && runs == old(runs)
    {
      hide StoreOk, RunsOk;
      r := Begin(token, id, now);
      if r.Some? {
        return;
      }
      var run := runs[id];
      if run.ref != "" && run.ref != ref {
        return Some(Conflict);
      }
      RunUpdated(runs, outputs, messages.runOwned, messages.roots.Keys, submissions, id, run.(ref := ref, phase := Running, error := ""));
      runs := runs[id := run.(ref := ref, phase := Running, error := "")];
    }

    method RetryHarnessRun(token: Token, id: string, now: int, detail: string) returns (r: Option<Error>)
      requires Valid()
      modifies `runs
      ensures Valid() && Touches(old(runs), runs, id)
      ensures token.resource == HarnessResource(id) && id in old(runs) ==> (Row(id), r) == RetryTx(old(Row(id)), token.locker, now, detail)
      ensures token.resource != HarnessResource(id) || id !in old(runs) ==> r.Some? && runs == old(runs)
    {
      hide StoreOk, RunsOk;
      r := Begin(token, id, now);
      if r.Some? {
        return;
      }
      RunUpdated(runs, outputs, messages.runOwned, messages.roots.Keys, submissions, id, runs[id].(error := detail));
      runs := runs[id := runs[id].(error := detail)];
    }

    method CancelHarnessRun(id: string) returns (r: Option<Error>)
      requires Valid()
      modifies `runs
      ensures Valid() && Touches(old(runs), runs, id)
      ensures id in old(runs) ==> r.None? && Row(id) == CancelTx(old(Row(id)))
      ensures id !in old(runs) ==> r == Some(NotFound)
    {
      hide StoreOk, RunsOk;
      if id !in runs {
        return Some(NotFound);
      }
      StoredBoth(messages);
      RunHasMessage(runs, outputs, messages.runOwned, messages.roots.Keys, submissions, id);
      if !runs[id].phase.Terminal() {
        RunUpdated(runs, outputs, messages.runOwned, messages.roots.Keys, submissions, id, runs[id].(cancel := true));
        runs := runs[id := runs[id].(cancel := true)];
      }
      r := None;
    }

    /**
     * AppendHarnessOutput: the event and the checkpoint commit together.  `fits` tells
     * whether the message store had room.
     */
    method AppendHarnessOutput(token: Token, id: string, now: int, index: nat, hash: seq<string>, e: Event)
      returns (r: Option<Error>, ghost fits: bool)
      requires Valid()
      modifies `runs, messages.table, messages`roots, messages`layout, messages`contents
      ensures Valid() && Touches(old(runs), runs, id)
      ensures id in outputs ==> Touches(old(messages.roots), messages.roots, outputs[id]) && Touches(old(messages.contents), messages.contents, outputs[id])
      ensures id !in outputs ==> messages.roots == old(messages.roots) && messages.contents == old(messages.contents)
      ensures token.resource == HarnessResource(id) && id in old(runs) ==>
                (Row(id), r) == AppendTx(messages.lib, old(Row(id)), token.locker, now, index, hash, e, fits)
      ensures token.resource != HarnessResource(id) || id !in old(runs) ==> r.Some? && runs == old(runs)
      ensures token.resource != HarnessResource(id) || id !in old(runs) ==> messages.roots == old(messages.roots) && messages.contents == old(messages.contents)
    {
      hide StoreOk, RunsOk, CannotFit, MayLoad, StaysExternal, Project, Reserved;
      fits := true;
      r := Begin(token, id, now);
      if r.Some? {
        return;
      }
      var run := runs[id];
      if run.cancel {
        return Some(CallerCancelled), fits;
      }
      if index <= run.checkpoint {
        if index == run.checkpoint && hash != run.hash {
          return Some(Conflict), fits;
        }
        return None, fits;
      }
      if index != run.checkpoint + 1 {
        return Some(Conflict), fits;
      }
      if e.op != Set && e.op != Append {
        return Some(InvalidContent), fits;
      }
      if Reserved(e) {
        return Some(InvalidContent), fits;
      }
      var message := outputs[id];
      ghost var loaded;
      r, loaded := messages.WriteOutput(message, e.(seqno := messages.roots[message].revision + 1), None, true);
      StoredBoth(messages);
      if r.Some? {
        fits := r != Some(TooLarge);
        return;
      }
      RunUpdated(runs, outputs, messages.runOwned, messages.roots.Keys, submissions, id, run.(checkpoint := index, hash := hash));
      runs := runs[id := run.(checkpoint := index, hash := hash)];
    }

    /** The two closing writes of a run's message; if either fails the transaction rolls both back. */
    method Close(message: string, last: Event, status: Status) returns (r: Option<Error>, ghost fits: bool)
      requires messages.Valid() && message in messages.roots && message in messages.contents
      modifies messages.table, messages`roots, messages`layout, messages`contents
      ensures messages.Valid() && messages.roots.Keys == old(messages.roots.Keys)
      ensures message in messages.contents
      ensures
        match Closed(messages.lib, old(messages.Logical(message)), last, status, fits)
        case Err(error) => r == Some(error)
        case Ok(ended) => r.None? && messages.Logical(message) == ended
      ensures r.Some? ==> messages.roots == old(messages.roots) && messages.contents == old(messages.contents)
      ensures Touches(old(messages.roots), messages.roots, message) && Touches(old(messages.contents), messages.contents, message)
    {
      hide StoreOk, CannotFit, MayLoad, StaysExternal, Project, Touches;
      SameTouches(messages.roots, message);
      SameTouches(messages.contents, message);
      var rows, roots := messages.table.rows, messages.roots;
      ghost var nextId, layout, contents := messages.table.nextId, messages.layout, messages.contents;
      ghost var loaded;
      fits := true;
      r, loaded := messages.WriteOutput(message, last, None, true);
      StoredBoth(messages);
      if r.Some? {
        fits := r != Some(TooLarge);
        return;
      }
      r, loaded := messages.WriteOutput(message, EndEvent(last.seqno), Some(status), true);
      StoredBoth(messages);
      if r.None? {
        UpdateTouches(old(messages.roots), messages.roots, message);
        UpdateTouches(old(messages.contents), messages.contents, message);
      } else {
        fits := r != Some(TooLarge);
        messages.table.rows, messages.roots, messages.layout, messages.contents := rows, roots, layout, contents;
        LaterIds(rows, nextId, messages.table.nextId, messages.table.maxBytes, roots, layout, contents);
      }
    }

    /** Writes the decided outcome of an admitted run. */
    method Settle(id: string, phase: Phase, result: Option<string>, detail: string) returns (r: Result<seq<Event>, Error>, ghost fits: bool)
      requires Valid() && id in runs && id in outputs && outputs[id] in messages.roots && outputs[id] in messages.contents
      modifies `runs, messages.table, messages`roots, messages`layout, messages`contents
      ensures Valid() && Touches(old(runs), runs, id)
      ensures outputs[id] in messages.roots && outputs[id] in messages.contents && id in runs
      ensures Touches(old(messages.roots), messages.roots, outputs[id]) && Touches(old(messages.contents), messages.contents, outputs[id])
      ensures (Row(id), r) == Finished(messages.lib, old(Row(id)), phase, result, detail, fits)
    {
      hide StoreOk, RunsOk, Closed, StatusOf;
      fits := true;
      if phase == Succeeded && result.None? {
        return Err(InvalidContent), fits;
      }
      var run, message := runs[id], outputs[id];
      var revision := messages.roots[message].revision;
      var last := if phase == Succeeded then ResultEvent(revision, result.value) else ErrorEvent(revision, phase, detail);
      var error;
      error, fits := Close(message, last, StatusOf(phase));
      if error.Some? {
        return Err(error.value), fits;
      }
      RunUpdated(runs, outputs, messages.runOwned, messages.roots.Keys, submissions, id, run.(phase := phase, error := detail));
      runs := runs[id := run.(phase := phase, error := detail)];
      r := Ok([last, EndEvent(revision + 1)]);
    }

    /** FinishHarnessRun: the result or the error, the end of the message and the terminal phase commit together. */
    method FinishHarnessRun(token: Token, id: string, now: int, clock: int, phase: Phase, result: Option<string>, detail: string)
      returns (r: Result<seq<Event>, Error>, ghost fits: bool)
      requires Valid()
      modifies `runs, messages.table, messages`roots, messages`layout, messages`contents
      ensures Valid() && Touches(old(runs), runs, id)
      ensures id in outputs ==> Touches(old(messages.roots), messages.roots, outputs[id]) && Touches(old(messages.contents), messages.contents, outputs[id])
      ensures id !in outputs ==> messages.roots == old(messages.roots) && messages.contents == old(messages.contents)
      ensures token.resource == HarnessResource(id) && id in old(runs) ==>
                (Row(id), r) == FinishTx(messages.lib, old(Row(id)), token.locker, now, clock, phase, result, detail, fits)
      ensures token.resource != HarnessResource(id) || id !in old(runs) ==> r.Err? && runs == old(runs)
      ensures token.resource != HarnessResource(id) || id !in old(runs) ==> messages.roots == old(messages.roots) && messages.contents == old(messages.contents)
    {
      hide StoreOk, RunsOk, Finished, Outcome;
      fits := true;
      var refusal := Begin(token, id, now);
      if !phase.Terminal() {
        return Err(Conflict), fits;
      }
      if refusal.Some? {
        return Err(refusal.value), fits;
      }
      var (phase, result, detail) := Outcome(runs[id], clock, phase, result, detail);
      r, fits := Settle(id, phase, result, detail);
    }

    /**
     * CreateHarnessRun: a repeated submission finds its run without asking for capacity;
     * a new one creates the run and its message together.  `id` and `message` are new ids.
     */
    method CreateHarnessRun(key: string, fingerprint: string, meta: Meta, deadline: int, id: string, message: string, admitted: bool)
      returns (r: Result<string, Error>)
      requires Valid() && id !in runs && message !in messages.roots
      modifies this, messages.table, messages`roots, messages`layout, messages`contents, messages`runOwned
      ensures Valid() && locks == old(locks)
      ensures key in old(submissions) ==>
                r == if old(submissions)[key].fingerprint == fingerprint then Ok(old(submissions)[key].run) else Err(Conflict)
      ensures key !in old(submissions) && !admitted ==> r == Err(Capacity)
      ensures key in old(submissions) || r.Err? ==>
                runs == old(runs) && outputs == old(outputs) && submissions == old(submissions)
                && messages.roots == old(messages.roots) && messages.contents == old(messages.contents) && messages.runOwned == old(messages.runOwned)
      ensures key !in old(submissions) && r.Ok? ==>
                && r == Ok(id) && submissions == old(submissions)[key := Submission(id, fingerprint)]
                && id in runs && runs == old(runs)[id := runs[id]] && outputs == old(outputs)[id := message]
                && messages.runOwned == old(messages.runOwned) + {message}
                && message in messages.roots && message in messages.contents && messages.roots == old(messages.roots)[message := messages.roots[message]]
                && messages.contents == old(messages.contents)[message := Model(meta, [])]
                && runs[id] == Run(Pending, 0, [], false, deadline, "", "") && messages.Logical(message) == Message(Streaming, 1, Model(meta, []))
    {
      hide StoreOk, RunsOk, CannotFit;
      if key in submissions {
        if submissions[key].fingerprint != fingerprint {
          return Err(Conflict);
        }
        return Ok(submissions[key].run);
      }
      if !admitted {
        return Err(Capacity);
      }
      assert Bodies([]) == [];
      var error := messages.Save(message, Root(Streaming, 1, meta, PROTOCOL_VERSION, []), true);
      if error.Some? {
        return Err(error.value);
      }
      RunAdded(runs, outputs, messages.runOwned, old(messages.roots.Keys), submissions, key, fingerprint, id, message, deadline);
      assert messages.roots.Keys == old(messages.roots.Keys) + {message};
      runs := runs[id := Run(Pending, 0, [], false, deadline, "", "")];
      outputs := outputs[id := message];
      submissions := submissions[key := Submission(id, fingerprint)];
      messages.runOwned := messages.runOwned + {message};
      StoredBoth(messages);
      r := Ok(id);
    }
  }

  lemma RunAdded(runs: map<string, Run>, outputs: map<string, string>, owned: set<string>, stored: set<string>,
                 submissions: map<string, Submission>, key: string, fingerprint: string, id: string, message: string, deadline: int)
    requires RunsOk(runs, outputs, owned, stored, submissions) && id !in runs && message !in stored
    ensures RunsOk(runs[id := Run(Pending, 0, [], false, deadline, "", "")], outputs[id := message], owned + {message}, stored + {message},
                   submissions[key := Submission(id, fingerprint)])
  {
    var after := outputs[id := message];
    forall m | m in owned + {message} ensures exists x :: x in after && after[x] == m {
      if m == message {
        assert after[id] == m;
      } else {
        var x :| x in outputs && outputs[x] == m;
        assert after[x] == m;
      }
    }
  }
}
