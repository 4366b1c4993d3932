/**
  The global transaction and its branches (dtmsvr/types.go): the optimistic
  status transitions, the liveness touch, the dispatch on the transaction type,
  the idempotent creation of a transaction with its branches, and the loading
  of branches that a processing pass starts from.
 */
module Trans {
  import opened Wrappers
  import opened Store

  const Prepared := "prepared"
  const Committed := "committed"
  const Succeed := "succeed"
  const Failed := "failed"

  /** The panics of the source, as values. */
  datatype Error =
    | DuplicateUpdating  // a conditional update matched no row
    | NilProcessor       // the transaction type has no processor

  /** The protocol strategies; their GenBranches and ProcessOnce are not part of this model. */
  datatype Processor = SagaProcessor | TccProcessor | XaProcessor

  /** The trans_type string each processor serves. */
  function TypeName(p: Processor): string {
    match p
    case SagaProcessor => "saga"
    case TccProcessor => "tcc"
    case XaProcessor => "xa"
  }

  /** The processor for a transaction type; None (the source's nil) for every other type, "msg" included. */
  function GetProcessor(transType: string): (p: Option<Processor>)
    ensures p.Some? ==> TypeName(p.value) == transType
    ensures p.None? ==> forall q: Processor :: TypeName(q) != transType
  {
    if transType == "saga" then Some(SagaProcessor)
    else if transType == "tcc" then Some(TccProcessor)
    else if transType == "xa" then Some(XaProcessor)
    else None
  }

  lemma GetProcessorOfTypeName(p: Processor)
    ensures GetProcessor(TypeName(p)) == Some(p)
  {
  }

  /** A conditional update that matched no row is a lost race: "duplicate updating". */
  function CheckAffected(affected: nat): (r: Outcome<Error>)
    ensures r.Pass? <==> affected > 0
    ensures r.Fail? ==> r.error == DuplicateUpdating
  {
    if affected == 0 then Fail(DuplicateUpdating) else Pass
  }

  // ---------------------------------------------------------------- global status

  /** The columns a global status change writes: finish_time on success, rollback_time on failure. */
  function GlobalStatusUpdate(status: string, now: Time): (u: GlobalUpdate)
    ensures u.status == status
    ensures (u.finishTime.Some? <==> status == Succeed) && (u.rollbackTime.Some? <==> status == Failed)
    ensures (u.finishTime == None || u.finishTime == Some(now)) && (u.rollbackTime == None || u.rollbackTime == Some(now))
  {
    GlobalUpdate(status,
                 if status == Succeed then Some(now) else None,
                 if status == Failed then Some(now) else None)
  }

  /**
    The effect on the tables of TransGlobal.changeStatus by an object with primary
    key `id` and the status the caller last saw.
   */
  function ChangeGlobalStatus(t: Tables, id: nat, expected: string, status: string, now: Time): (r: (Outcome<Error>, Tables))
    ensures r.1.branches == t.branches && r.1.nextId == t.nextId && r.1.nextGlobalId == t.nextGlobalId
    ensures r.0.Fail? ==> r.0.error == DuplicateUpdating && r.1 == t
  {
    var (n, g) := UpdateGlobalByModel(t.globals, id, expected, GlobalStatusUpdate(status, now), now);
    (CheckAffected(n), t.(globals := g))
  }

  /**
    Compare-and-set through the object's key: every row the update selects gets the
    new status, no other row changes, and the call passes exactly when a row was selected.
   */
  lemma GlobalChangeStatusCas(t: Tables, id: nat, expected: string, status: string, now: Time)
    ensures var (r, t') := ChangeGlobalStatus(t, id, expected, status, now);
      && (r.Pass? <==> exists h :: h in t.globals && ModelSelects(t.globals[h], id, expected))
      && (r.Fail? ==> r.error == DuplicateUpdating && t' == t)
      && t'.globals.Keys == t.globals.Keys
      && (forall h :: h in t.globals ==>
            t'.globals[h] == if ModelSelects(t.globals[h], id, expected)
                             then ApplyGlobalUpdate(t.globals[h], GlobalStatusUpdate(status, now), now)
                             else t.globals[h])
      && t'.branches == t.branches && t'.nextId == t.nextId && t'.nextGlobalId == t.nextGlobalId
  {
  }

  /**
    For an object whose key is that of the row stored under its gid, the change is a
    compare-and-set on that one row: it succeeds exactly when the stored status is the
    caller's, and then that row alone has the new status.
   */
  lemma GlobalChangeStatusByGid(t: Tables, gid: string, id: nat, expected: string, status: string, now: Time)
    requires TablesValid(t) && gid in t.globals && t.globals[gid].id == id
    ensures var (r, t') := ChangeGlobalStatus(t, id, expected, status, now);
      && (r.Pass? <==> t.globals[gid].status == expected)
      && (r.Fail? ==> r.error == DuplicateUpdating && t' == t)
      && (r.Pass? ==>
            && t'.globals.Keys == t.globals.Keys
            && t'.globals[gid].status == status
            && (forall h :: h in t.globals && h != gid ==> t'.globals[h] == t.globals[h])
            && t'.branches == t.branches && t'.nextId == t.nextId)
  {
    GlobalChangeStatusCas(t, id, expected, status, now);
    assert forall h :: h in t.globals && h != gid ==> !ModelSelects(t.globals[h], id, expected);
  }

  /** An object whose key is still zero rewrites every row that is in the expected status. */
  lemma GlobalChangeStatusZeroId(t: Tables, expected: string, status: string, now: Time)
    ensures var (r, t') := ChangeGlobalStatus(t, 0, expected, status, now);
      && (r.Pass? <==> exists h :: h in t.globals && t.globals[h].status == expected)
      && forall h :: h in t.globals && t.globals[h].status == expected ==> t'.globals[h].status == status
  {
    GlobalChangeStatusCas(t, 0, expected, status, now);
  }

  /** Which timestamps a global status change sets on a selected row; no business column changes. */
  lemma GlobalChangeStatusTimestamps(t: Tables, gid: string, id: nat, expected: string, status: string, now: Time)
    requires gid in t.globals && ModelSelects(t.globals[gid], id, expected)
    ensures var (_, t') := ChangeGlobalStatus(t, id, expected, status, now);
      var before, after := t.globals[gid], t'.globals[gid];
      && after.finishTime == (if status == Succeed then Some(now) else before.finishTime)
      && after.rollbackTime == (if status == Failed then Some(now) else before.rollbackTime)
      && after.commitTime == before.commitTime
      && after == before.(status := status, finishTime := after.finishTime,
                          rollbackTime := after.rollbackTime, updateTime := Some(now))
  {
    GlobalChangeStatusCas(t, id, expected, status, now);
  }

  /** touch refreshes the row's update_time to now and rewrites nothing else, whatever the row holds. */
  lemma TouchKeepsRow(t: Tables, gid: string, now: Time)
    ensures var (n, g) := TouchGlobal(t.globals, gid, now);
      && (n == 1 <==> gid in t.globals)
      && g.Keys == t.globals.Keys
      && (gid in t.globals ==> g[gid].updateTime == Some(now))
      && forall h :: h in t.globals ==> g[h] == t.globals[h].(updateTime := g[h].updateTime)
  {
  }

  // ---------------------------------------------------------------- branch status

  /** The effect on the tables of TransBranch.changeStatus from the status the caller last saw. */
  function ChangeBranchStatus(t: Tables, id: nat, expected: string, status: string, now: Time): (r: (Outcome<Error>, Tables))
    ensures r.1.globals == t.globals && r.1.nextId == t.nextId && r.1.nextGlobalId == t.nextGlobalId
    ensures |r.1.branches| == |t.branches|
    ensures r.0.Fail? ==> r.0.error == DuplicateUpdating
  {
    var (n, bs) := UpdateBranchWhere(t.branches, id, expected, status, now);
    (CheckAffected(n), t.(branches := bs))
  }

  /**
    Compare-and-set through the object's key and status, row by row; status and
    finish_time are always written together. A zero key adds no key condition.
   */
  lemma BranchChangeStatusCas(t: Tables, id: nat, expected: string, status: string, now: Time)
    ensures var (r, t') := ChangeBranchStatus(t, id, expected, status, now);
      && (r.Pass? <==> exists i :: 0 <= i < |t.branches| && (id == 0 || t.branches[i].id == id) && t.branches[i].status == expected)
      && (r.Fail? ==> r.error == DuplicateUpdating && t' == t)
      && t'.globals == t.globals && t'.nextId == t.nextId && |t'.branches| == |t.branches|
      && forall i :: 0 <= i < |t.branches| ==>
           t'.branches[i] == if (id == 0 || t.branches[i].id == id) && t.branches[i].status == expected
                             then t.branches[i].(status := status, finishTime := Some(now), updateTime := Some(now))
                             else t.branches[i]
  {
    UpdateBranchWhereRows(t.branches, id, expected, status, now);
    UpdateBranchWhereAffected(t.branches, id, expected, status, now);
    var (r, t') := ChangeBranchStatus(t, id, expected, status, now);
    if r.Fail? {
      assert t'.branches == t.branches;
    }
  }

  /** Through the nonzero key of a stored row, the change is a compare-and-set on that one row. */
  lemma BranchChangeStatusByKey(t: Tables, k: nat, expected: string, status: string, now: Time)
    requires TablesValid(t) && k < |t.branches| && t.branches[k].id != 0
    ensures var (r, t') := ChangeBranchStatus(t, t.branches[k].id, expected, status, now);
      && (r.Pass? <==> t.branches[k].status == expected)
      && (r.Pass? ==> t'.branches[k].status == status && t'.branches[k].finishTime == Some(now))
      && forall i :: 0 <= i < |t.branches| && i != k ==> t'.branches[i] == t.branches[i]
  {
    BranchChangeStatusCas(t, t.branches[k].id, expected, status, now);
    assert forall i :: 0 <= i < |t.branches| && i != k ==> t.branches[i].id != t.branches[k].id;
  }

  /** An object whose key is zero rewrites every branch row that is in the expected status. */
  lemma BranchChangeStatusZeroId(t: Tables, expected: string, status: string, now: Time)
    ensures var (r, t') := ChangeBranchStatus(t, 0, expected, status, now);
      && (r.Pass? <==> exists i :: 0 <= i < |t.branches| && t.branches[i].status == expected)
      && forall i :: 0 <= i < |t.branches| && t.branches[i].status == expected ==> t'.branches[i].status == status
  {
    BranchChangeStatusCas(t, 0, expected, status, now);
  }

  // ---------------------------------------------------------------- creation

  /**
    The effect of SaveNew as one unit of work: insert the global row (nothing on a
    gid conflict); on a conflict with incoming status "committed", advance a stored
    "prepared" row instead; if neither wrote a row, stop; otherwise insert the
    generated branches (nothing on a key conflict). A missing processor panics
    inside the unit of work, which is rolled back; the global id an insert drew
    stays used, as auto-increment counters are not transactional.
   */
  function SaveNewSpec(t: Tables, trans: GlobalRow, genBranches: (Processor, GlobalRow) -> seq<BranchRow>, now: Time)
    : (r: (Outcome<Error>, Tables))
    ensures r.0.Fail? ==> r.0 == Fail(NilProcessor) && r.1.globals == t.globals && r.1.branches == t.branches
    ensures r.0.Pass? ==> r.1.globals.Keys == t.globals.Keys + {trans.gid}
    ensures |r.1.branches| >= |t.branches| && r.1.branches[..|t.branches|] == t.branches
    ensures r.1.nextId >= t.nextId && r.1.nextGlobalId >= t.nextGlobalId
  {
    var row := trans.(createTime := Some(now), updateTime := Some(now));
    var (n1, g1, next) := InsertGlobal(t.globals, row, t.nextGlobalId);
    var held := if n1 == 1 then row.(id := t.nextGlobalId) else row;
    var (n2, g2) := if n1 == 0 && row.status == Committed
                    then UpdateGlobalWhere(g1, row.gid, Prepared, GlobalUpdate(row.status, None, None), now)
                    else (n1, g1);
    if n2 == 0 then (Pass, t.(globals := g2))
    else match GetProcessor(row.transType)
      case None => (Fail(NilProcessor), t.(nextGlobalId := next))
      case Some(p) =>
        InsertBranchesPrefix(t.branches, t.nextId, genBranches(p, held), now);
        var (_, bs, id) := InsertBranches(t.branches, t.nextId, genBranches(p, held), now);
        (Pass, Tables(g2, bs, id, next))
  }

  /**
    On a gid that exists, only a "committed" submission over a "prepared" row writes
    anything: the row becomes committed and the generated branches are inserted.
   */
  lemma SaveNewExisting(t: Tables, trans: GlobalRow, genBranches: (Processor, GlobalRow) -> seq<BranchRow>, now: Time)
    requires trans.gid in t.globals
    ensures var (r, t') := SaveNewSpec(t, trans, genBranches, now);
      var stored := t.globals[trans.gid];
      var row := trans.(createTime := Some(now), updateTime := Some(now));
      && (!(trans.status == Committed && stored.status == Prepared) ==> r == Pass && t' == t)
      && (trans.status == Committed && stored.status == Prepared ==>
            && (r.Pass? <==> GetProcessor(trans.transType).Some?)
            && (r.Fail? ==> r.error == NilProcessor && t' == t)
            && (r.Pass? ==>
                  var gen := genBranches(GetProcessor(trans.transType).value, row);
                  var (_, bs, id) := InsertBranches(t.branches, t.nextId, gen, now);
                  && t' == Tables(t.globals[trans.gid := stored.(status := Committed, updateTime := Some(now))],
                                  bs, id, t.nextGlobalId)
                  && t'.branches[..|t.branches|] == t.branches
                  && forall k :: 0 <= k < |gen| ==> HasKey(t'.branches, BranchKey(gen[k]))))
  {
    var (r, t') := SaveNewSpec(t, trans, genBranches, now);
    var stored := t.globals[trans.gid];
    if trans.status == Committed && stored.status == Prepared && r.Pass? {
      var p := GetProcessor(trans.transType).value;
      var row := trans.(createTime := Some(now), updateTime := Some(now));
      InsertBranchesPrefix(t.branches, t.nextId, genBranches(p, row), now);
      InsertBranchesCovers(t.branches, t.nextId, genBranches(p, row), now);
    }
  }

  /**
    On a new gid the row is stored, with the status it was submitted with, under the
    next id, and the branches generated from the row with that key are inserted.
   */
  lemma SaveNewFresh(t: Tables, trans: GlobalRow, genBranches: (Processor, GlobalRow) -> seq<BranchRow>, now: Time)
    requires trans.gid !in t.globals
    ensures var (r, t') := SaveNewSpec(t, trans, genBranches, now);
      var row := trans.(createTime := Some(now), updateTime := Some(now));
      && (r.Pass? <==> GetProcessor(trans.transType).Some?)
      && (r.Fail? ==> r.error == NilProcessor && t' == t.(nextGlobalId := t.nextGlobalId + 1))
      && (r.Pass? ==>
            var held := row.(id := t.nextGlobalId);
            var (_, bs, id) := InsertBranches(t.branches, t.nextId, genBranches(GetProcessor(trans.transType).value, held), now);
            t' == Tables(t.globals[trans.gid := held], bs, id, t.nextGlobalId + 1))
  {
  }

  /** "msg" has no processor here, so creating a message transaction is rolled back. */
  lemma SaveNewMsgRolledBack(t: Tables, trans: GlobalRow, genBranches: (Processor, GlobalRow) -> seq<BranchRow>, now: Time)
    requires trans.transType == "msg" && trans.gid !in t.globals
    ensures SaveNewSpec(t, trans, genBranches, now) == (Fail(NilProcessor), t.(nextGlobalId := t.nextGlobalId + 1))
  {
  }

  /** SaveNew keeps the tables' constraints: in particular no branch key is ever stored twice. */
  lemma SaveNewValid(t: Tables, trans: GlobalRow, genBranches: (Processor, GlobalRow) -> seq<BranchRow>, now: Time)
    requires TablesValid(t)
    ensures var (_, t') := SaveNewSpec(t, trans, genBranches, now);
      TablesValid(t') && |t'.branches| >= |t.branches| && t'.branches[..|t.branches|] == t.branches
  {
    var (r, t') := SaveNewSpec(t, trans, genBranches, now);
    var row := trans.(createTime := Some(now), updateTime := Some(now));
    var (n1, g1, next) := InsertGlobal(t.globals, row, t.nextGlobalId);
    var held := if n1 == 1 then row.(id := t.nextGlobalId) else row;
    var (n2, g2) := if n1 == 0 && row.status == Committed
                    then UpdateGlobalWhere(g1, row.gid, Prepared, GlobalUpdate(row.status, None, None), now)
                    else (n1, g1);
    SaveNewGlobalsValid(t, row, now);
    if n2 == 0 {
      assert t' == t.(globals := g2);
    } else if GetProcessor(row.transType).None? {
      assert t' == t.(nextGlobalId := next);
    } else {
      var gen := genBranches(GetProcessor(row.transType).value, held);
      InsertBranchesValid(t.branches, t.nextId, gen, now);
      InsertBranchesPrefix(t.branches, t.nextId, gen, now);
      var (_, bs, id) := InsertBranches(t.branches, t.nextId, gen, now);
      assert t' == Tables(g2, bs, id, next);
    }
  }

  /** The global half of SaveNew: the insert and the advance keep the global table's constraints. */
  lemma SaveNewGlobalsValid(t: Tables, row: GlobalRow, now: Time)
    requires TablesValid(t)
    ensures var (n1, g1, next) := InsertGlobal(t.globals, row, t.nextGlobalId);
      var (n2, g2) := if n1 == 0 && row.status == Committed
                      then UpdateGlobalWhere(g1, row.gid, Prepared, GlobalUpdate(row.status, None, None), now)
                      else (n1, g1);
      && GlobalsKeyed(g2) && GlobalIdsValid(g2, next) && t.nextGlobalId <= next
      && GlobalIdsValid(t.globals, next)
      && (n1 == 0 ==> next == t.nextGlobalId)
  {
    InsertGlobalValid(t.globals, row, t.nextGlobalId);
    var (n1, g1, next) := InsertGlobal(t.globals, row, t.nextGlobalId);
    UpdateGlobalWhereValid(g1, next, row.gid, Prepared, GlobalUpdate(row.status, None, None), now);
  }

  /**
    A second identical SaveNew, at any later instant, reports the same outcome and
    changes no row; only a rolled-back creation of a new gid draws one more id.
   */
  lemma SaveNewIdempotent(t: Tables, trans: GlobalRow, genBranches: (Processor, GlobalRow) -> seq<BranchRow>,
                          now: Time, later: Time)
    ensures var (r, t') := SaveNewSpec(t, trans, genBranches, now);
      SaveNewSpec(t', trans, genBranches, later)
        == (r, if r.Fail? && trans.gid !in t.globals then t'.(nextGlobalId := t'.nextGlobalId + 1) else t')
  {
    var (r, t') := SaveNewSpec(t, trans, genBranches, now);
    if r.Pass? && t' != t {
      assert trans.gid in t'.globals && t'.globals[trans.gid].status == trans.status;
    }
  }

  /** What Process hands to ProcessOnce. */
  datatype ProcessCall = ProcessCall(processor: Processor, branches: seq<BranchRow>)

  // ---------------------------------------------------------------- the entities

  /**
    A global transaction as held in memory by the coordinator. `ID` is the primary
    key of the embedded ModelBase: zero until a creation stores the row and gorm
    writes the new key back. ModelBase's create and update times are not held here.
   */
  class TransGlobal {
    var ID: nat
    var Gid: string
    var TransType: string
    var Data: string
    var Status: string
    var QueryPrepared: string
    var CommitTime: Option<Time>
    var FinishTime: Option<Time>
    var RollbackTime: Option<Time>

    constructor (gid: string, transType: string, data: string, status: string, queryPrepared: string)
      ensures Row() == GlobalRow(0, gid, transType, data, status, queryPrepared, None, None, None, None, None)
    {
      ID := 0;
      Gid, TransType, Data, Status, QueryPrepared := gid, transType, data, status, queryPrepared;
      CommitTime, FinishTime, RollbackTime := None, None, None;
    }

    /** The row this object stands for, before the store stamps its timestamps. */
    function Row(): GlobalRow
      reads this
    {
      GlobalRow(ID, Gid, TransType, Data, Status, QueryPrepared, CommitTime, FinishTime, RollbackTime, None, None)
    }

    /** Marks the transaction as alive for the recovery poller; status is untouched. */
    method Touch(db: Db, now: Time) returns (affected: nat)
      requires db.Valid()
      modifies db
      ensures db.Valid()
      ensures (affected, db.globals) == TouchGlobal(old(db.globals), Gid, now)
      ensures db.branches == old(db.branches) && db.nextId == old(db.nextId) && db.nextGlobalId == old(db.nextGlobalId)
    {
      affected := db.Touch(Gid, now);
    }

    method ChangeStatus(db: Db, status: string, now: Time) returns (r: Outcome<Error>)
      requires db.Valid()
      modifies this`Status, db
      ensures db.Valid()
      ensures (r, db.Snapshot()) == ChangeGlobalStatus(old(db.Snapshot()), ID, old(Status), status, now)
      ensures r.Pass? ==> Status == status
      ensures r.Pass? && Gid in old(db.globals) && old(db.globals)[Gid].id == ID ==> db.globals[Gid].status == status
      ensures r.Fail? ==> Status == old(Status)
    {
      ghost var before := db.Snapshot();
      if Gid in before.globals && before.globals[Gid].id == ID {
        GlobalChangeStatusByGid(before, Gid, ID, Status, status, now);
      }
      var affected := db.UpdateGlobalModel(ID, Status, GlobalStatusUpdate(status, now), now);
      r := CheckAffected(affected);
      if r.Fail? {
        return;
      }
      Status := status;
    }

    /** Creation; an insert writes the new key back into `ID`, even when the unit of work is then rolled back. */
    method SaveNew(db: Db, genBranches: (Processor, GlobalRow) -> seq<BranchRow>, now: Time) returns (r: Outcome<Error>)
      requires db.Valid()
      modifies this`ID, db
      ensures db.Valid()
      ensures (r, db.Snapshot()) == SaveNewSpec(old(db.Snapshot()), old(Row()), genBranches, now)
      ensures ID == if Gid !in old(db.globals) then old(db.nextGlobalId) else old(ID)
    {
      var saved := db.Snapshot();
      var row := Row().(createTime := Some(now), updateTime := Some(now));
      var key := db.nextGlobalId;
      var affected := db.CreateGlobal(row);
      if affected == 1 {
        ID := key;
        row := row.(id := key);
      }
      if affected == 0 && Status == Committed {
        affected := db.UpdateGlobal(Gid, Prepared, GlobalUpdate(Status, None, None), now);
      }
      if affected == 0 {
        return Pass;
      }
      var p := GetProcessor(TransType);
      if p.None? {
        db.Rollback(saved);
        return Fail(NilProcessor);
      }
      var nsteps := genBranches(p.value, row);
      if |nsteps| > 0 {
        var inserted := db.CreateBranches(nsteps, now);
      }
      return Pass;
    }

    /** Loads every branch of this transaction in ascending id order for the processor's pass. */
    method Process(db: Db) returns (r: Result<ProcessCall, Error>)
      requires db.Valid()
      ensures r.Success? <==> GetProcessor(TransType).Some?
      ensures r.Failure? ==> r.error == NilProcessor
      ensures r.Success? ==>
        && r.value.processor == GetProcessor(TransType).value
        && IdsAscending(r.value.branches)
        && forall b :: b in r.value.branches <==> b in db.branches && b.gid == Gid
    {
      var branches := BranchesOf(db.branches, Gid);
      BranchesOfSelects(db.branches, Gid);
      BranchesOfAscending(db.branches, Gid);
      var p := GetProcessor(TransType);
      if p.None? {
        return Failure(NilProcessor);
      }
      return Success(ProcessCall(p.value, branches));
    }
  }

  /** A branch as held in memory by the processor that drives it. */
  class TransBranch {
    var ID: nat
    var Gid: string
    var Url: string
    var Data: string
    var Branch: string
    var BranchType: string
    var Status: string
    var FinishTime: Option<Time>
    var RollbackTime: Option<Time>

    constructor FromRow(b: BranchRow)
      ensures ID == b.id && Gid == b.gid && Url == b.url && Data == b.data && Branch == b.branch
      ensures BranchType == b.branchType && Status == b.status
      ensures FinishTime == b.finishTime && RollbackTime == b.rollbackTime
    {
      ID, Gid, Url, Data, Branch, BranchType := b.id, b.gid, b.url, b.data, b.branch, b.branchType;
      Status, FinishTime, RollbackTime := b.status, b.finishTime, b.rollbackTime;
    }

    method ChangeStatus(db: Db, status: string, now: Time) returns (r: Outcome<Error>)
      requires db.Valid()
      modifies this`Status, db
      ensures db.Valid()
      ensures (r, db.Snapshot()) == ChangeBranchStatus(old(db.Snapshot()), ID, old(Status), status, now)
      ensures Status == if r.Pass? then status else old(Status)
    {
      var affected := db.UpdateBranch(ID, Status, status, now);
      r := CheckAffected(affected);
      if r.Fail? {
        return;
      }
      Status := status;
    }
  }
}
