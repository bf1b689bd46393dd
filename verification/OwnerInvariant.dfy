/**
 Every workspace has an active owner: the upgrade check, the two deferred constraint triggers, and
 transactions that are checked only on the rows they touched. Transactions are serial.
 */
module OwnerInvariant {
  import opened Wrappers

  datatype Membership = Membership(workspaceId: Option<string>, role: string, status: string)

  datatype Tables = Tables(workspaces: set<string>, memberships: map<string, Membership>)

  /** The effect of a statement on one row; an update may change the key of the row. */
  datatype Statement =
    | InsertWorkspace(id: string)
    | UpdateWorkspace(id: string, newId: string)
    | DeleteWorkspace(id: string)
    | InsertMembership(id: string, row: Membership)
    | UpdateMembership(id: string, newId: string, row: Membership)
    | DeleteMembership(id: string)

  predicate IsActiveOwner(m: Membership, ws: string) {
    m.workspaceId == Some(ws) && m.role == "owner" && m.status == "active"
  }

  predicate HasActiveOwner(t: Tables, ws: string) {
    exists id | id in t.memberships :: IsActiveOwner(t.memberships[id], ws)
  }

  /** The invariant the migration is for. */
  predicate EveryWorkspaceOwned(t: Tables) {
    forall ws | ws in t.workspaces :: HasActiveOwner(t, ws)
  }

  /** `dataservice_assert_workspace_active_owner`: true when it does not raise. */
  predicate AssertPasses(t: Tables, ws: Option<string>) {
    ws.None? || ws.value !in t.workspaces || HasActiveOwner(t, ws.value)
  }

  /** A statement that breaks a primary key fails. */
  predicate KeyFree(t: Tables, s: Statement) {
    match s
    case InsertWorkspace(id) => id !in t.workspaces
    case UpdateWorkspace(id, newId) => id in t.workspaces && newId != id ==> newId !in t.workspaces
    case InsertMembership(id, _) => id !in t.memberships
    case UpdateMembership(id, newId, _) => id in t.memberships && newId != id ==> newId !in t.memberships
    case _ => true
  }

  function Effect(t: Tables, s: Statement): Tables {
    match s
    case InsertWorkspace(id) => t.(workspaces := t.workspaces + {id})
    case UpdateWorkspace(id, newId) =>
      if id in t.workspaces then t.(workspaces := t.workspaces - {id} + {newId}) else t
    case DeleteWorkspace(id) => t.(workspaces := t.workspaces - {id})
    case InsertMembership(id, row) => t.(memberships := t.memberships[id := row])
    case UpdateMembership(id, newId, row) =>
      if id in t.memberships then t.(memberships := (t.memberships - {id})[newId := row]) else t
    case DeleteMembership(id) => t.(memberships := t.memberships - {id})
  }

  /** The workspace ids the fired trigger will check at commit; a deleted workspace fires nothing. */
  function Fired(t: Tables, s: Statement): seq<Option<string>> {
    match s
    case InsertWorkspace(id) => [Some(id)]
    case UpdateWorkspace(id, newId) => if id in t.workspaces then [Some(newId)] else []
    case DeleteWorkspace(_) => []
    case InsertMembership(_, row) => [row.workspaceId]
    case UpdateMembership(id, _, row) => if id in t.memberships then [t.memberships[id].workspaceId, row.workspaceId] else []
    case DeleteMembership(id) => if id in t.memberships then [t.memberships[id].workspaceId] else []
  }

  /** The tables and the deferred checks after some statements; None when one of them failed. */
  datatype Pending = Pending(tables: Tables, queue: seq<Option<string>>)

  function Execute(p: Pending, statements: seq<Statement>): Option<Pending>
    decreases |statements|
  {
    if statements == [] then Some(p)
    else if !KeyFree(p.tables, statements[0]) then None
    else Execute(Pending(Effect(p.tables, statements[0]), p.queue + Fired(p.tables, statements[0])), statements[1..])
  }

  predicate ChecksPass(p: Pending) {
    forall ws | ws in p.queue :: AssertPasses(p.tables, ws)
  }

  function Transact(t: Tables, statements: seq<Statement>): Tables {
    var end := Execute(Pending(t, []), statements);
    if end.Some? && ChecksPass(end.value) then end.value.tables else t
  }

  function TransactAll(t: Tables, transactions: seq<seq<Statement>>): Tables
    decreases |transactions|
  {
    if transactions == [] then t else TransactAll(Transact(t, transactions[0]), transactions[1..])
  }

  // ---------- Checking the touched rows is enough ----------

  /** Every workspace without an owner is among those to be checked. */
  predicate OrphansQueued(p: Pending) {
    forall ws | ws in p.tables.workspaces && !HasActiveOwner(p.tables, ws) :: Some(ws) in p.queue
  }

  lemma StatementQueuesOrphans(p: Pending, s: Statement)
    requires OrphansQueued(p) && KeyFree(p.tables, s)
    ensures OrphansQueued(Pending(Effect(p.tables, s), p.queue + Fired(p.tables, s)))
  {
    var t, u := p.tables, Effect(p.tables, s);
    forall ws | ws in u.workspaces && !HasActiveOwner(u, ws)
      ensures Some(ws) in p.queue + Fired(t, s)
    {
      if ws in t.workspaces && HasActiveOwner(t, ws) {
        // The owner it had is the row that was deleted or changed.
        var id :| id in t.memberships && IsActiveOwner(t.memberships[id], ws);
        assert id !in u.memberships || u.memberships[id] != t.memberships[id];
        assert Some(ws) == Fired(t, s)[0];
      }
    }
  }

  lemma {:induction false} StatementsQueueOrphans(p: Pending, statements: seq<Statement>)
    requires OrphansQueued(p)
    ensures Execute(p, statements).Some? ==> OrphansQueued(Execute(p, statements).value)
    decreases |statements|
  {
    if statements != [] && KeyFree(p.tables, statements[0]) {
      StatementQueuesOrphans(p, statements[0]);
      StatementsQueueOrphans(Pending(Effect(p.tables, statements[0]), p.queue + Fired(p.tables, statements[0])), statements[1..]);
    }
  }

  /**
   From tables where every workspace is owned, the deferred checks let a transaction commit exactly when
   it leaves every workspace owned, however the invariant was broken on the way.
   */
  lemma ChecksDecideTheInvariant(t: Tables, statements: seq<Statement>)
    requires EveryWorkspaceOwned(t) && Execute(Pending(t, []), statements).Some?
    ensures var end := Execute(Pending(t, []), statements).value;
            ChecksPass(end) <==> EveryWorkspaceOwned(end.tables)
  {
    StatementsQueueOrphans(Pending(t, []), statements);
    var end := Execute(Pending(t, []), statements).value;
    if ChecksPass(end) {
      forall ws | ws in end.tables.workspaces
        ensures HasActiveOwner(end.tables, ws)
      {
        assert HasActiveOwner(end.tables, ws) || Some(ws) in end.queue;
      }
    }
  }

  /** After any run of transactions, committed or rolled back, every existing workspace has an active owner. */
  lemma {:induction false} EveryRunKeepsOwners(t: Tables, transactions: seq<seq<Statement>>)
    requires EveryWorkspaceOwned(t)
    ensures EveryWorkspaceOwned(TransactAll(t, transactions))
    decreases |transactions|
  {
    if transactions != [] {
      if Execute(Pending(t, []), transactions[0]).Some? {
        ChecksDecideTheInvariant(t, transactions[0]);
      }
      EveryRunKeepsOwners(Transact(t, transactions[0]), transactions[1..]);
    }
  }

  // ---------- What is checked, refused and changed ----------

  predicate IsOwned(t: Tables, ws: string) {
    exists id | id in t.memberships ::
      var m := t.memberships[id]; m.workspaceId == Some(ws) && m.role == "owner" && m.status == "active"
  }

  function OneOf(ws: Option<string>): set<string> {
    if ws.Some? then {ws.value} else {}
  }

  /** The workspace on either side of a membership change, and one that is inserted or renamed. */
  function Touched(t: Tables, s: Statement): set<string> {
    match s
    case InsertWorkspace(id) => {id}
    case UpdateWorkspace(id, newId) => if id in t.workspaces then {newId} else {}
    case DeleteWorkspace(_) => {}
    case InsertMembership(_, row) => OneOf(row.workspaceId)
    case UpdateMembership(id, _, row) =>
      if id in t.memberships then OneOf(t.memberships[id].workspaceId) + OneOf(row.workspaceId) else {}
    case DeleteMembership(id) => if id in t.memberships then OneOf(t.memberships[id].workspaceId) else {}
  }

  function TouchedBy(t: Tables, statements: seq<Statement>): set<string>
    decreases |statements|
  {
    if statements == [] then {} else Touched(t, statements[0]) + TouchedBy(Effect(t, statements[0]), statements[1..])
  }

  lemma OneStatementQueuesTouched(t: Tables, s: Statement, ws: string)
    ensures Some(ws) in Fired(t, s) <==> ws in Touched(t, s)
  {
  }

  lemma {:induction false} QueueIsTouched(p: Pending, statements: seq<Statement>, ws: string)
    requires Execute(p, statements).Some?
    ensures Some(ws) in Execute(p, statements).value.queue <==> Some(ws) in p.queue || ws in TouchedBy(p.tables, statements)
    decreases |statements|
  {
    hide Effect, Fired, Touched;
    if statements != [] {
      OneStatementQueuesTouched(p.tables, statements[0], ws);
      QueueIsTouched(Pending(Effect(p.tables, statements[0]), p.queue + Fired(p.tables, statements[0])), statements[1..], ws);
    }
  }

  /**
   From any tables, owned or not: a transaction whose statements all succeed commits exactly when every workspace it
   touched is gone or has an active owner in the end; otherwise, or if a statement fails, nothing at all changes.
   */
  lemma CommitsIffTouchedAreOwned(t: Tables, statements: seq<Statement>)
    ensures var end := Execute(Pending(t, []), statements);
            if end.Some? && forall ws | ws in TouchedBy(t, statements) :: ws in end.value.tables.workspaces ==> IsOwned(end.value.tables, ws)
            then Transact(t, statements) == end.value.tables && ChecksPass(end.value)
            else Transact(t, statements) == t && (end.Some? ==> !ChecksPass(end.value))
  {
    hide Execute, TouchedBy;
    var end := Execute(Pending(t, []), statements);
    if end.Some? {
      forall ws: string
        ensures Some(ws) in end.value.queue <==> ws in TouchedBy(t, statements)
        ensures AssertPasses(end.value.tables, Some(ws)) <==> ws !in end.value.tables.workspaces || IsOwned(end.value.tables, ws)
      {
        QueueIsTouched(Pending(t, []), statements, ws);
      }
      if forall ws | ws in TouchedBy(t, statements) :: ws in end.value.tables.workspaces ==> IsOwned(end.value.tables, ws) {
        forall x | x in end.value.queue
          ensures AssertPasses(end.value.tables, x)
        {
          if x.Some? { assert x == Some(x.value); }
        }
      }
    }
  }

  /** The only rows a statement changes are the one it names and the one it makes of it. */
  lemma OnlyNamedRowsChange(t: Tables, s: Statement)
    ensures var u := Effect(t, s);
            match s
            case InsertWorkspace(id) => id in u.workspaces && u.workspaces - {id} == t.workspaces - {id} && u.memberships == t.memberships
            case UpdateWorkspace(id, newId) =>
              && (if id in t.workspaces then newId in u.workspaces && (id != newId ==> id !in u.workspaces) else u == t)
              && u.workspaces - {id, newId} == t.workspaces - {id, newId} && u.memberships == t.memberships
            case DeleteWorkspace(id) => u.workspaces == t.workspaces - {id} && u.memberships == t.memberships
            case InsertMembership(id, row) =>
              id in u.memberships && u.memberships[id] == row && u.memberships - {id} == t.memberships - {id} && u.workspaces == t.workspaces
            case UpdateMembership(id, newId, row) =>
              && (if id in t.memberships then
                    newId in u.memberships && u.memberships[newId] == row && (id != newId ==> id !in u.memberships)
                  else u == t)
              && u.memberships - {id, newId} == t.memberships - {id, newId} && u.workspaces == t.workspaces
            case DeleteMembership(id) =>
              id !in u.memberships && u.memberships - {id} == t.memberships - {id} && u.workspaces == t.workspaces
  {
  }

  /** A statement fails exactly if it would give a key to a second row. */
  lemma FailsIffTheKeyIsTaken(t: Tables, s: Statement)
    ensures !KeyFree(t, s) <==>
              || (s.InsertWorkspace? && s.id in t.workspaces)
              || (s.InsertMembership? && s.id in t.memberships)
              || (s.UpdateWorkspace? && {s.id, s.newId} <= t.workspaces && s.id != s.newId)
              || (s.UpdateMembership? && {s.id, s.newId} <= t.memberships.Keys && s.id != s.newId)
  {
  }

  /** One failing statement undoes all of them. */
  lemma {:induction false} OneFailureFailsAll(p: Pending, first: seq<Statement>, rest: seq<Statement>)
    ensures Execute(p, first).None? ==> Execute(p, first + rest).None?
    ensures Execute(p, first).Some? ==> Execute(p, first + rest) == Execute(Execute(p, first).value, rest)
    ensures Execute(p, first).Some? && rest != [] && !KeyFree(Execute(p, first).value.tables, rest[0]) ==>
              Execute(p, first + rest).None?
    decreases |first|
  {
    hide Effect, Fired, KeyFree;
    if first == [] {
      assert first + rest == rest;
    } else {
      assert (first + rest)[1..] == first[1..] + rest;
      OneFailureFailsAll(Pending(Effect(p.tables, first[0]), p.queue + Fired(p.tables, first[0])), first[1..], rest);
    }
  }

  // ---------- The database ----------

  class Database {
    var workspaces: set<string>
    var memberships: map<string, Membership>
    /** The checks deferred to the end of the current transaction. */
    var queue: seq<Option<string>>

    function Content(): Tables
      reads this
    {
      Tables(workspaces, memberships)
    }

    constructor (workspaces: set<string>, memberships: map<string, Membership>)
      ensures Content() == Tables(workspaces, memberships) && queue == []
    {
      this.workspaces, this.memberships, this.queue := workspaces, memberships, [];
    }

    /** The upgrade's precheck: it goes on exactly when every workspace is owned. */
    method Upgrade() returns (ok: bool)
      ensures ok <==> EveryWorkspaceOwned(Content())
    {
      var missing := 0;
      var unseen := workspaces;
      while unseen != {}
        invariant unseen <= workspaces && missing >= 0
        invariant missing == 0 <==> forall ws | ws in workspaces - unseen :: HasActiveOwner(Content(), ws)
        decreases unseen
      {
        var ws :| ws in unseen;
        if !HasActiveOwner(Content(), ws) {
          missing := missing + 1;
        }
        unseen := unseen - {ws};
      }
      return missing == 0;
    }

    method Fire(ws: Option<string>)
      modifies this`queue
      ensures queue == old(queue) + [ws]
    {
      queue := queue + [ws];
    }

    /** Runs one statement on its row and lets the row trigger queue its checks. */
    method ExecuteOne(s: Statement) returns (ok: bool)
      modifies this
      ensures ok <==> KeyFree(old(Content()), s)
      ensures ok ==> Content() == Effect(old(Content()), s) && queue == old(queue) + Fired(old(Content()), s)
    {
      match s {
        case InsertWorkspace(id) =>
          if id in workspaces {
            return false;
          }
          workspaces := workspaces + {id};
          Fire(Some(id));
        case UpdateWorkspace(id, newId) =>
          if id in workspaces {
            if newId != id && newId in workspaces {
              return false;
            }
            workspaces := workspaces - {id} + {newId};
            Fire(Some(newId));
          }
        case DeleteWorkspace(id) =>
          workspaces := workspaces - {id};
        case InsertMembership(id, row) =>
          if id in memberships {
            return false;
          }
          memberships := memberships[id := row];
          Fire(row.workspaceId);
        case UpdateMembership(id, newId, row) =>
          if id in memberships {
            if newId != id && newId in memberships {
              return false;
            }
            var before := memberships[id].workspaceId;
            memberships := (memberships - {id})[newId := row];
            Fire(before);
            Fire(row.workspaceId);
          }
        case DeleteMembership(id) =>
          if id in memberships {
            var before := memberships[id].workspaceId;
            memberships := memberships - {id};
            Fire(before);
          }
      }
      return true;
    }

    /** The deferred checks, in the order they were queued. */
    method RunChecks() returns (ok: bool)
      ensures ok <==> ChecksPass(Pending(Content(), queue))
    {
      for i := 0 to |queue|
        invariant forall ws | ws in queue[..i] :: AssertPasses(Content(), ws)
      {
        if !AssertPasses(Content(), queue[i]) {
          return false;
        }
        assert queue[..i + 1] == queue[..i] + [queue[i]];
      }
      assert queue[..|queue|] == queue;
      return true;
    }

    /** One transaction: all of its statements and then the deferred checks, or nothing at all. */
    method Transaction(statements: seq<Statement>) returns (committed: bool)
      requires queue == []
      modifies this
      ensures Content() == Transact(old(Content()), statements) && queue == []
      ensures committed <==> var end := Execute(Pending(old(Content()), []), statements); end.Some? && ChecksPass(end.value)
      ensures committed ==> Execute(Pending(old(Content()), []), statements).value.tables == Content()
      ensures !committed ==> Content() == old(Content())
      ensures EveryWorkspaceOwned(old(Content())) ==>
                EveryWorkspaceOwned(Content())
                && (var end := Execute(Pending(old(Content()), []), statements);
                    end.Some? ==> (committed <==> EveryWorkspaceOwned(end.value.tables)))
    {
      var begun := Content();
      var ok := true;
      var n := 0;
      while n < |statements| && ok
        invariant n <= |statements|
        invariant if ok then Execute(Pending(begun, []), statements) == Execute(Pending(Content(), queue), statements[n..])
                  else Execute(Pending(begun, []), statements).None?
        decreases |statements| - n, ok
      {
        ok := ExecuteOne(statements[n]);
        assert statements[n..][1..] == statements[n + 1..];
        if ok {
          n := n + 1;
        }
      }
      if ok {
        ok := RunChecks();
      }
      if !ok {
        workspaces, memberships := begun.workspaces, begun.memberships;
      }
      queue := [];
      if EveryWorkspaceOwned(begun) && Execute(Pending(begun, []), statements).Some? {
        ChecksDecideTheInvariant(begun, statements);
      }
      return ok;
    }
  }
}
