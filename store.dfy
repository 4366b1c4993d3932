/**
  The two tables the coordinator persists to (trans_global and trans_branch),
  as an in-memory store. Each write the coordinator issues through gorm is a
  function from the old tables to an affected-row count and the new tables;
  the class Db holds the current tables and applies those functions in place.
 */
module Store {
  import opened Wrappers

  /** An instant. The wall clock is not modelled: callers pass the instant in. */
  type Time = nat

  /**
    A row of trans_global. `id` is the auto-increment primary key of the embedded
    ModelBase; the table is also unique on gid, and the model stores it keyed by gid.
   */
  datatype GlobalRow = GlobalRow(
    id: nat,
    gid: string,
    transType: string,
    data: string,
    status: string,
    queryPrepared: string,
    commitTime: Option<Time>,
    finishTime: Option<Time>,
    rollbackTime: Option<Time>,
    createTime: Option<Time>,
    updateTime: Option<Time>)

  /** A row of trans_branch; `id` is the auto-increment primary key. */
  datatype BranchRow = BranchRow(
    id: nat,
    gid: string,
    url: string,
    data: string,
    branch: string,
    branchType: string,
    status: string,
    finishTime: Option<Time>,
    rollbackTime: Option<Time>,
    createTime: Option<Time>,
    updateTime: Option<Time>)

  /** The columns an update of trans_global writes besides update_time; None leaves the column as stored. */
  datatype GlobalUpdate = GlobalUpdate(status: string, finishTime: Option<Time>, rollbackTime: Option<Time>)

  /**
    Both tables with their auto-increment counters: `nextId` for trans_branch and
    `nextGlobalId` for trans_global.
   */
  datatype Tables = Tables(globals: map<string, GlobalRow>, branches: seq<BranchRow>, nextId: nat, nextGlobalId: nat)

  /** The unique key of trans_branch: one row per transaction, branch and role. */
  function BranchKey(b: BranchRow): (string, string, string) {
    (b.gid, b.branch, b.branchType)
  }

  predicate GlobalsKeyed(g: map<string, GlobalRow>) {
    forall gid :: gid in g ==> g[gid].gid == gid
  }

  /** Global ids are issued by the counter, from 1 on, and no two rows share one. */
  predicate GlobalIdsValid(g: map<string, GlobalRow>, next: nat) {
    && 0 < next
    && (forall h :: h in g ==> 0 < g[h].id < next)
    && (forall h, k :: h in g && k in g && h != k ==> g[h].id != g[k].id)
  }

  predicate IdsAscending(bs: seq<BranchRow>) {
    forall i, j :: 0 <= i < j < |bs| ==> bs[i].id < bs[j].id
  }

  predicate IdsBelow(bs: seq<BranchRow>, n: nat) {
    forall i :: 0 <= i < |bs| ==> bs[i].id < n
  }

  predicate KeysUnique(bs: seq<BranchRow>) {
    forall i, j :: 0 <= i < j < |bs| ==> BranchKey(bs[i]) != BranchKey(bs[j])
  }

  /** The integrity constraints of the two tables. */
  predicate TablesValid(t: Tables) {
    && GlobalsKeyed(t.globals) && GlobalIdsValid(t.globals, t.nextGlobalId)
    && IdsAscending(t.branches) && IdsBelow(t.branches, t.nextId) && KeysUnique(t.branches)
  }

  // ---------------------------------------------------------------- trans_global

  /**
    INSERT ... ON CONFLICT DO NOTHING: a new gid is stored under the next id, which
    the counter then passes; an existing gid is left alone.
   */
  function InsertGlobal(g: map<string, GlobalRow>, row: GlobalRow, next: nat): (r: (nat, map<string, GlobalRow>, nat))
    ensures (r.0 == 1 <==> row.gid !in g) && r.0 <= 1
    ensures row.gid in r.1 && r.1.Keys == g.Keys + {row.gid}
    ensures forall h :: h in g ==> r.1[h] == g[h]
    ensures r.0 == 1 ==> r.1[row.gid] == row.(id := next) && r.2 == next + 1
    ensures r.0 == 0 ==> r.1 == g && r.2 == next
  {
    if row.gid in g then (0, g, next) else (1, g[row.gid := row.(id := next)], next + 1)
  }

  /** The insert keeps the gid keying and issues an id no stored row holds. */
  lemma InsertGlobalValid(g: map<string, GlobalRow>, row: GlobalRow, next: nat)
    requires GlobalsKeyed(g) && GlobalIdsValid(g, next)
    ensures var r := InsertGlobal(g, row, next);
      GlobalsKeyed(r.1) && GlobalIdsValid(r.1, r.2) && next <= r.2
  {
    var r := InsertGlobal(g, row, next);
    forall h, k | h in r.1 && k in r.1 && h != k ensures r.1[h].id != r.1[k].id {
      if h != row.gid && k != row.gid {
        assert r.1[h] == g[h] && r.1[k] == g[k];
      } else if h == row.gid && row.gid !in g {
        assert r.1[k] == g[k];
      } else if k == row.gid && row.gid !in g {
        assert r.1[h] == g[h];
      }
    }
  }

  function ApplyGlobalUpdate(row: GlobalRow, u: GlobalUpdate, now: Time): GlobalRow {
    row.(status := u.status,
         finishTime := if u.finishTime.Some? then u.finishTime else row.finishTime,
         rollbackTime := if u.rollbackTime.Some? then u.rollbackTime else row.rollbackTime,
         updateTime := Some(now))
  }

  /** UPDATE trans_global SET ... WHERE gid = gid AND status = expected. */
  function UpdateGlobalWhere(g: map<string, GlobalRow>, gid: string, expected: string, u: GlobalUpdate, now: Time)
    : (r: (nat, map<string, GlobalRow>))
    ensures (r.0 == 1 <==> gid in g && g[gid].status == expected) && r.0 <= 1
    ensures r.1.Keys == g.Keys && forall h :: h in g && h != gid ==> r.1[h] == g[h]
    ensures r.0 == 0 ==> r.1 == g
  {
    if gid in g && g[gid].status == expected then (1, g[gid := ApplyGlobalUpdate(g[gid], u, now)]) else (0, g)
  }

  /** The conditional update rewrites neither a gid nor an id. */
  lemma UpdateGlobalWhereValid(g: map<string, GlobalRow>, next: nat, gid: string, expected: string, u: GlobalUpdate, now: Time)
    requires GlobalsKeyed(g) && GlobalIdsValid(g, next)
    ensures var r := UpdateGlobalWhere(g, gid, expected, u, now);
      GlobalsKeyed(r.1) && GlobalIdsValid(r.1, next)
  {
    var r := UpdateGlobalWhere(g, gid, expected, u, now);
    assert forall h :: h in r.1 ==> r.1[h].id == g[h].id && r.1[h].gid == g[h].gid;
  }

  /**
    The rows an update through Model(t).Where("status=?", expected) selects: the
    row with t's primary key when that key is set; every row when it is zero,
    because gorm then adds no key condition.
   */
  predicate ModelSelects(row: GlobalRow, id: nat, expected: string) {
    (id == 0 || row.id == id) && row.status == expected
  }

  /** UPDATE trans_global SET ... WHERE [id = id AND] status = expected. */
  function UpdateGlobalByModel(g: map<string, GlobalRow>, id: nat, expected: string, u: GlobalUpdate, now: Time)
    : (r: (nat, map<string, GlobalRow>))
    ensures r.1.Keys == g.Keys
    ensures r.0 > 0 <==> exists h :: h in g && ModelSelects(g[h], id, expected)
    ensures r.0 == 0 ==> r.1 == g
  {
    var selected := set h | h in g && ModelSelects(g[h], id, expected);
    var g' := map h | h in g :: if ModelSelects(g[h], id, expected) then ApplyGlobalUpdate(g[h], u, now) else g[h];
    if selected == {} then
      assert forall h :: h in g ==> !ModelSelects(g[h], id, expected) by {
        forall h | h in g ensures !ModelSelects(g[h], id, expected) {
          assert h !in selected;
        }
      }
      (0, g)
    else
      (|selected|, g')
  }

  /**
    With a nonzero key the update through the model affects at most the one row
    holding that key; ids and gids are never rewritten.
   */
  lemma UpdateGlobalByModelValid(g: map<string, GlobalRow>, next: nat, id: nat, expected: string, u: GlobalUpdate, now: Time)
    requires GlobalsKeyed(g) && GlobalIdsValid(g, next)
    ensures var r := UpdateGlobalByModel(g, id, expected, u, now);
      && GlobalsKeyed(r.1) && GlobalIdsValid(r.1, next)
      && (id != 0 ==> r.0 <= 1)
  {
    var selected := set h | h in g && ModelSelects(g[h], id, expected);
    if id != 0 && selected != {} {
      var h0 :| h0 in selected;
      assert selected == {h0};
    }
  }

  /** UPDATE trans_global SET gid = gid WHERE gid = gid: only the automatic update_time changes. */
  function TouchGlobal(g: map<string, GlobalRow>, gid: string, now: Time): (r: (nat, map<string, GlobalRow>))
    ensures r.0 <= 1 && r.1.Keys == g.Keys
  {
    if gid in g then (1, g[gid := g[gid].(updateTime := Some(now))]) else (0, g)
  }

  // ---------------------------------------------------------------- trans_branch

  function SetBranchStatus(b: BranchRow, status: string, now: Time): BranchRow {
    b.(status := status, finishTime := Some(now), updateTime := Some(now))
  }

  /** The rows an update through a branch object selects; a zero key adds no key condition. */
  predicate Matches(b: BranchRow, id: nat, expected: string) {
    (id == 0 || b.id == id) && b.status == expected
  }

  /** UPDATE trans_branch SET status, finish_time WHERE [id = id AND] status = expected. */
  function UpdateBranchWhere(bs: seq<BranchRow>, id: nat, expected: string, status: string, now: Time)
    : (r: (nat, seq<BranchRow>))
    ensures |r.1| == |bs| && r.0 <= |bs|
  {
    if bs == [] then (0, [])
    else
      var (n, rest) := UpdateBranchWhere(bs[1..], id, expected, status, now);
      if Matches(bs[0], id, expected) then (n + 1, [SetBranchStatus(bs[0], status, now)] + rest)
      else (n, [bs[0]] + rest)
  }

  /** The conditional update rewrites exactly the matching rows, and nothing else. */
  lemma {:induction false} UpdateBranchWhereRows(bs: seq<BranchRow>, id: nat, expected: string, status: string, now: Time)
    ensures var r := UpdateBranchWhere(bs, id, expected, status, now).1;
      && |r| == |bs|
      && forall i :: 0 <= i < |bs| ==>
           r[i] == if Matches(bs[i], id, expected) then SetBranchStatus(bs[i], status, now) else bs[i]
  {
    if bs != [] {
      var tail := bs[1..];
      UpdateBranchWhereRows(tail, id, expected, status, now);
      var rest := UpdateBranchWhere(tail, id, expected, status, now).1;
      var r := UpdateBranchWhere(bs, id, expected, status, now).1;
      assert r == [if Matches(bs[0], id, expected) then SetBranchStatus(bs[0], status, now) else bs[0]] + rest;
      forall i | 1 <= i < |bs|
        ensures r[i] == if Matches(bs[i], id, expected) then SetBranchStatus(bs[i], status, now) else bs[i]
      {
        assert r[i] == rest[i - 1] && bs[i] == tail[i - 1];
      }
    }
  }

  /** The update affects a row exactly when some row has the id and the expected status. */
  lemma {:induction false} UpdateBranchWhereAffected(bs: seq<BranchRow>, id: nat, expected: string, status: string, now: Time)
    ensures UpdateBranchWhere(bs, id, expected, status, now).0 > 0 <==>
            exists i :: 0 <= i < |bs| && Matches(bs[i], id, expected)
  {
    if bs != [] {
      var tail := bs[1..];
      UpdateBranchWhereAffected(tail, id, expected, status, now);
      if !Matches(bs[0], id, expected) {
        if exists i :: 0 <= i < |bs| && Matches(bs[i], id, expected) {
          var k :| 0 <= k < |bs| && Matches(bs[k], id, expected);
          assert k > 0 && tail[k - 1] == bs[k];
        }
        if exists i :: 0 <= i < |tail| && Matches(tail[i], id, expected) {
          var k :| 0 <= k < |tail| && Matches(tail[k], id, expected);
          assert bs[k + 1] == tail[k];
        }
      }
    }
  }

  /** With unique ids an update through a nonzero key affects at most one row. */
  lemma {:induction false} UpdateBranchWhereAtMostOne(bs: seq<BranchRow>, id: nat, expected: string, status: string, now: Time)
    requires IdsAscending(bs) && id != 0
    ensures UpdateBranchWhere(bs, id, expected, status, now).0 <= 1
  {
    if bs != [] {
      var tail := bs[1..];
      TailAscending(bs);
      UpdateBranchWhereAtMostOne(tail, id, expected, status, now);
      if Matches(bs[0], id, expected) {
        UpdateBranchWhereAffected(tail, id, expected, status, now);
        forall i | 0 <= i < |tail| ensures !Matches(tail[i], id, expected) {
          assert tail[i] in tail;
        }
      }
    }
  }

  predicate HasKey(bs: seq<BranchRow>, k: (string, string, string)) {
    exists i :: 0 <= i < |bs| && BranchKey(bs[i]) == k
  }

  /** A generated branch as the insert stores it: with its new id and the automatic timestamps. */
  function Stamped(r: BranchRow, id: nat, now: Time): BranchRow {
    r.(id := id, createTime := Some(now), updateTime := Some(now))
  }

  /**
    A multi-row INSERT ... ON CONFLICT DO NOTHING: rows are taken in order, a row whose
    key is already present (in the table or earlier in the same insert) is skipped,
    every other row gets the next id. Returns the affected count, the rows and the next id.
   */
  function InsertBranches(bs: seq<BranchRow>, nextId: nat, rows: seq<BranchRow>, now: Time)
    : (r: (nat, seq<BranchRow>, nat))
    ensures r.0 <= |rows| && |r.1| == |bs| + r.0 && r.2 == nextId + r.0
    decreases |rows|
  {
    if rows == [] then (0, bs, nextId)
    else if HasKey(bs, BranchKey(rows[0])) then InsertBranches(bs, nextId, rows[1..], now)
    else
      var (n, r, id) := InsertBranches(bs + [Stamped(rows[0], nextId, now)], nextId + 1, rows[1..], now);
      (n + 1, r, id)
  }

  /** Appending a row with a fresh id and a fresh key keeps the table's constraints. */
  lemma AppendBranchValid(bs: seq<BranchRow>, nextId: nat, b: BranchRow)
    requires IdsAscending(bs) && IdsBelow(bs, nextId) && KeysUnique(bs)
    requires b.id == nextId && !HasKey(bs, BranchKey(b))
    ensures IdsAscending(bs + [b]) && IdsBelow(bs + [b], nextId + 1) && KeysUnique(bs + [b])
  {
    var r := bs + [b];
    forall i, j | 0 <= i < j < |r| ensures BranchKey(r[i]) != BranchKey(r[j]) {
      if j == |bs| {
        assert r[i] == bs[i];
      }
    }
  }

  /** Existing rows are kept as they are: the branch insert only appends. */
  lemma {:induction false} InsertBranchesPrefix(bs: seq<BranchRow>, nextId: nat, rows: seq<BranchRow>, now: Time)
    ensures var (n, r, _) := InsertBranches(bs, nextId, rows, now);
      |r| == |bs| + n && r[..|bs|] == bs
    decreases |rows|
  {
    if rows != [] && !HasKey(bs, BranchKey(rows[0])) {
      var b := Stamped(rows[0], nextId, now);
      InsertBranchesPrefix(bs + [b], nextId + 1, rows[1..], now);
      var (n, r, _) := InsertBranches(bs + [b], nextId + 1, rows[1..], now);
      assert r[..|bs|] == r[..|bs| + 1][..|bs|];
    } else if rows != [] {
      InsertBranchesPrefix(bs, nextId, rows[1..], now);
    }
  }

  /** The insert keeps ids ascending and below the next id, and keys unique. */
  lemma {:induction false} InsertBranchesValid(bs: seq<BranchRow>, nextId: nat, rows: seq<BranchRow>, now: Time)
    requires IdsAscending(bs) && IdsBelow(bs, nextId) && KeysUnique(bs)
    ensures var (_, r, id) := InsertBranches(bs, nextId, rows, now);
      IdsAscending(r) && IdsBelow(r, id) && KeysUnique(r) && nextId <= id
    decreases |rows|
  {
    if rows != [] {
      if HasKey(bs, BranchKey(rows[0])) {
        InsertBranchesValid(bs, nextId, rows[1..], now);
      } else {
        var b := Stamped(rows[0], nextId, now);
        AppendBranchValid(bs, nextId, b);
        InsertBranchesValid(bs + [b], nextId + 1, rows[1..], now);
      }
    }
  }

  /** After the insert a row with every requested key is stored. */
  lemma {:induction false} InsertBranchesCovers(bs: seq<BranchRow>, nextId: nat, rows: seq<BranchRow>, now: Time)
    ensures var r := InsertBranches(bs, nextId, rows, now).1;
      forall k :: 0 <= k < |rows| ==> HasKey(r, BranchKey(rows[k]))
    decreases |rows|
  {
    if rows != [] {
      var r := InsertBranches(bs, nextId, rows, now).1;
      InsertBranchesPrefix(bs, nextId, rows, now);
      assert forall k :: 1 <= k < |rows| ==> rows[k] == rows[1..][k - 1];
      if HasKey(bs, BranchKey(rows[0])) {
        InsertBranchesCovers(bs, nextId, rows[1..], now);
        var w :| 0 <= w < |bs| && BranchKey(bs[w]) == BranchKey(rows[0]);
        assert r[w] == r[..|bs|][w] == bs[w];
      } else {
        var b := Stamped(rows[0], nextId, now);
        InsertBranchesCovers(bs + [b], nextId + 1, rows[1..], now);
        InsertBranchesPrefix(bs + [b], nextId + 1, rows[1..], now);
        assert r[|bs|] == r[..|bs| + 1][|bs|] == b;
      }
    }
  }

  /** Every row of r after the first |bs| is one of rows, stamped with its id and the instant now. */
  predicate AppendedFrom(bs: seq<BranchRow>, r: seq<BranchRow>, rows: seq<BranchRow>, now: Time) {
    forall i :: |bs| <= i < |r| ==> exists j :: 0 <= j < |rows| && r[i] == Stamped(rows[j], r[i].id, now)
  }

  /** Every appended row is one of the requested rows, stamped with its new id and the insert's instant. */
  lemma {:induction false} InsertBranchesStamped(bs: seq<BranchRow>, nextId: nat, rows: seq<BranchRow>, now: Time)
    ensures AppendedFrom(bs, InsertBranches(bs, nextId, rows, now).1, rows, now)
    decreases |rows|
  {
    if rows != [] {
      var r := InsertBranches(bs, nextId, rows, now).1;
      var tail := rows[1..];
      if HasKey(bs, BranchKey(rows[0])) {
        InsertBranchesStamped(bs, nextId, tail, now);
        assert r == InsertBranches(bs, nextId, tail, now).1;
        forall i | |bs| <= i < |r| ensures exists j :: 0 <= j < |rows| && r[i] == Stamped(rows[j], r[i].id, now) {
          var j :| 0 <= j < |tail| && r[i] == Stamped(tail[j], r[i].id, now);
          assert rows[j + 1] == tail[j];
        }
      } else {
        var b := Stamped(rows[0], nextId, now);
        InsertBranchesStamped(bs + [b], nextId + 1, tail, now);
        InsertBranchesPrefix(bs + [b], nextId + 1, tail, now);
        assert r == InsertBranches(bs + [b], nextId + 1, tail, now).1;
        forall i | |bs| <= i < |r| ensures exists j :: 0 <= j < |rows| && r[i] == Stamped(rows[j], r[i].id, now) {
          if i == |bs| {
            assert r[i] == r[..|bs| + 1][i] == b;
          } else {
            var j :| 0 <= j < |tail| && r[i] == Stamped(tail[j], r[i].id, now);
            assert rows[j + 1] == tail[j];
          }
        }
      }
    }
  }

  /** Inserting rows whose keys are all present already changes nothing. */
  lemma {:induction false} InsertBranchesPresent(bs: seq<BranchRow>, nextId: nat, rows: seq<BranchRow>, now: Time)
    requires forall k :: 0 <= k < |rows| ==> HasKey(bs, BranchKey(rows[k]))
    ensures InsertBranches(bs, nextId, rows, now) == (0, bs, nextId)
    decreases |rows|
  {
    if rows != [] {
      assert HasKey(bs, BranchKey(rows[0]));
      assert forall k :: 0 <= k < |rows| - 1 ==> rows[1..][k] == rows[k + 1];
      InsertBranchesPresent(bs, nextId, rows[1..], now);
    }
  }

  /** Do-nothing-on-conflict makes the branch insert idempotent: a second identical insert is a no-op. */
  lemma InsertBranchesIdempotent(bs: seq<BranchRow>, nextId: nat, rows: seq<BranchRow>, now: Time, later: Time)
    ensures var (_, r, id) := InsertBranches(bs, nextId, rows, now);
      InsertBranches(r, id, rows, later) == (0, r, id)
  {
    InsertBranchesCovers(bs, nextId, rows, now);
    var (_, r, id) := InsertBranches(bs, nextId, rows, now);
    InsertBranchesPresent(r, id, rows, later);
  }

  /** SELECT * FROM trans_branch WHERE gid = gid, in table order. */
  function BranchesOf(bs: seq<BranchRow>, gid: string): (r: seq<BranchRow>)
    ensures |r| <= |bs| && forall b :: b in r ==> b.gid == gid
  {
    if bs == [] then [] else (if bs[0].gid == gid then [bs[0]] else []) + BranchesOf(bs[1..], gid)
  }

  lemma {:induction false} BranchesOfSelects(bs: seq<BranchRow>, gid: string)
    ensures forall b :: b in BranchesOf(bs, gid) <==> b in bs && b.gid == gid
  {
    if bs != [] {
      BranchesOfSelects(bs[1..], gid);
      assert bs == [bs[0]] + bs[1..];
    }
  }

  lemma TailAscending(bs: seq<BranchRow>)
    requires bs != [] && IdsAscending(bs)
    ensures IdsAscending(bs[1..]) && forall b :: b in bs[1..] ==> bs[0].id < b.id
  {
    var tail := bs[1..];
    forall i, j | 0 <= i < j < |tail| ensures tail[i].id < tail[j].id {
      assert tail[i] == bs[i + 1] && tail[j] == bs[j + 1];
    }
    forall b | b in tail ensures bs[0].id < b.id {
      var q :| 0 <= q < |tail| && tail[q] == b;
      assert tail[q] == bs[q + 1];
    }
  }

  /** The select keeps the table's ascending id order. */
  lemma {:induction false} BranchesOfAscending(bs: seq<BranchRow>, gid: string)
    requires IdsAscending(bs)
    ensures IdsAscending(BranchesOf(bs, gid))
  {
    if bs != [] {
      var tail := bs[1..];
      TailAscending(bs);
      BranchesOfAscending(tail, gid);
      var rest := BranchesOf(tail, gid);
      if bs[0].gid == gid {
        BranchesOfSelects(tail, gid);
        var r := [bs[0]] + rest;
        assert BranchesOf(bs, gid) == r;
        forall i, j | 0 <= i < j < |r| ensures r[i].id < r[j].id {
          assert r[j] == rest[j - 1] && rest[j - 1] in tail;
          if i > 0 {
            assert r[i] == rest[i - 1];
          }
        }
      } else {
        assert BranchesOf(bs, gid) == rest;
      }
    }
  }

  // ---------------------------------------------------------------- batch update

  /** The columns of `src` that a batch update copies onto `row`; update_time is set to `now`. */
  function AssignColumns(row: BranchRow, src: BranchRow, cols: seq<string>, now: Time): (r: BranchRow)
    ensures r == row.(status := r.status, finishTime := r.finishTime, rollbackTime := r.rollbackTime, updateTime := r.updateTime)
    ensures r.status == (if "status" in cols then src.status else row.status)
    ensures r.finishTime == (if "finish_time" in cols then src.finishTime else row.finishTime)
    ensures r.rollbackTime == (if "rollback_time" in cols then src.rollbackTime else row.rollbackTime)
    ensures r.updateTime == (if "update_time" in cols then Some(now) else row.updateTime)
  {
    row.(status := if "status" in cols then src.status else row.status,
         finishTime := if "finish_time" in cols then src.finishTime else row.finishTime,
         rollbackTime := if "rollback_time" in cols then src.rollbackTime else row.rollbackTime,
         updateTime := if "update_time" in cols then Some(now) else row.updateTime)
  }

  function ApplyUpdate(bs: seq<BranchRow>, u: BranchRow, cols: seq<string>, now: Time): seq<BranchRow> {
    seq(|bs|, i requires 0 <= i < |bs| => if bs[i].id == u.id then AssignColumns(bs[i], u, cols, now) else bs[i])
  }

  /** A batch update by primary key: the entries are applied in order. */
  function ApplyUpdates(bs: seq<BranchRow>, us: seq<BranchRow>, cols: seq<string>, now: Time): (r: seq<BranchRow>)
    ensures |r| == |bs|
    decreases |us|
  {
    if us == [] then bs else ApplyUpdates(ApplyUpdate(bs, us[0], cols, now), us[1..], cols, now)
  }

  /** The last entry of `us` for row `id`, the one whose values a batch update leaves behind. */
  function LastFor(us: seq<BranchRow>, id: nat): (r: Option<BranchRow>)
    ensures r.Some? ==> r.value in us && r.value.id == id
    ensures r.None? ==> forall k :: 0 <= k < |us| ==> us[k].id != id
  {
    if us == [] then None
    else match LastFor(us[1..], id)
      case Some(u) => Some(u)
      case None => if us[0].id == id then Some(us[0]) else None
  }

  lemma {:induction false} ApplyUpdatesFrame(bs: seq<BranchRow>, us: seq<BranchRow>, cols: seq<string>, now: Time)
    ensures var r := ApplyUpdates(bs, us, cols, now);
      && |r| == |bs|
      && forall i :: 0 <= i < |bs| ==>
           && r[i].id == bs[i].id && r[i].gid == bs[i].gid && r[i].url == bs[i].url
           && r[i].data == bs[i].data && r[i].branch == bs[i].branch && r[i].branchType == bs[i].branchType
           && r[i].createTime == bs[i].createTime
           && ("status" !in cols ==> r[i].status == bs[i].status)
           && ("finish_time" !in cols ==> r[i].finishTime == bs[i].finishTime)
           && ("rollback_time" !in cols ==> r[i].rollbackTime == bs[i].rollbackTime)
           && ("update_time" !in cols ==> r[i].updateTime == bs[i].updateTime)
    decreases |us|
  {
    if us != [] {
      ApplyUpdatesFrame(ApplyUpdate(bs, us[0], cols, now), us[1..], cols, now);
    }
  }

  lemma {:induction false} ApplyUpdatesLastWins(bs: seq<BranchRow>, us: seq<BranchRow>, cols: seq<string>, now: Time)
    ensures var r := ApplyUpdates(bs, us, cols, now);
      && |r| == |bs|
      && forall i :: 0 <= i < |bs| ==>
           r[i] == match LastFor(us, bs[i].id)
                   case None => bs[i]
                   case Some(u) => AssignColumns(bs[i], u, cols, now)
    decreases |us|
  {
    if us != [] {
      var b1 := ApplyUpdate(bs, us[0], cols, now);
      ApplyUpdatesLastWins(b1, us[1..], cols, now);
      forall i | 0 <= i < |bs| ensures b1[i].id == bs[i].id {}
    }
  }

  /** Applying the same batch twice leaves what applying it once left. */
  lemma ApplyUpdatesIdempotent(bs: seq<BranchRow>, us: seq<BranchRow>, cols: seq<string>, now: Time)
    ensures ApplyUpdates(ApplyUpdates(bs, us, cols, now), us, cols, now) == ApplyUpdates(bs, us, cols, now)
  {
    var once := ApplyUpdates(bs, us, cols, now);
    ApplyUpdatesLastWins(bs, us, cols, now);
    ApplyUpdatesLastWins(once, us, cols, now);
    ApplyUpdatesFrame(bs, us, cols, now);
    var twice := ApplyUpdates(once, us, cols, now);
    forall i | 0 <= i < |bs| ensures twice[i] == once[i] {
      assert once[i].id == bs[i].id;
    }
  }

  lemma ApplyUpdatesValid(t: Tables, us: seq<BranchRow>, cols: seq<string>, now: Time)
    requires TablesValid(t)
    ensures TablesValid(t.(branches := ApplyUpdates(t.branches, us, cols, now)))
  {
    ApplyUpdatesFrame(t.branches, us, cols, now);
    var r := ApplyUpdates(t.branches, us, cols, now);
    assert forall i :: 0 <= i < |r| ==> BranchKey(r[i]) == BranchKey(t.branches[i]);
  }

  // ---------------------------------------------------------------- the database handle

  /** The database: both tables, updated in place by the operations below. */
  class Db {
    var globals: map<string, GlobalRow>
    var branches: seq<BranchRow>
    var nextId: nat
    var nextGlobalId: nat

    function Snapshot(): Tables
      reads this
    {
      Tables(globals, branches, nextId, nextGlobalId)
    }

    predicate Valid()
      reads this
    {
      TablesValid(Snapshot())
    }

    constructor ()
      ensures Valid() && Snapshot() == Tables(map[], [], 1, 1)
    {
      globals, branches, nextId, nextGlobalId := map[], [], 1, 1;
    }

    method CreateGlobal(row: GlobalRow) returns (affected: nat)
      requires Valid()
      modifies this
      ensures Valid()
      ensures (affected, globals, nextGlobalId) == InsertGlobal(old(globals), row, old(nextGlobalId))
      ensures branches == old(branches) && nextId == old(nextId)
    {
      var r := InsertGlobal(globals, row, nextGlobalId);
      InsertGlobalValid(globals, row, nextGlobalId);
      affected, globals, nextGlobalId := r.0, r.1, r.2;
    }

    /** The update of trans_global by gid and status (Model(&TransGlobal{}).Where(gid, status)). */
    method UpdateGlobal(gid: string, expected: string, u: GlobalUpdate, now: Time) returns (affected: nat)
      requires Valid()
      modifies this
      ensures Valid()
      ensures (affected, globals) == UpdateGlobalWhere(old(globals), gid, expected, u, now)
      ensures affected <= 1
      ensures branches == old(branches) && nextId == old(nextId) && nextGlobalId == old(nextGlobalId)
    {
      var r := UpdateGlobalWhere(globals, gid, expected, u, now);
      affected, globals := r.0, r.1;
    }

    /** The update of trans_global through an object's primary key and status (Model(t).Where(status)). */
    method UpdateGlobalModel(id: nat, expected: string, u: GlobalUpdate, now: Time) returns (affected: nat)
      requires Valid()
      modifies this
      ensures Valid()
      ensures (affected, globals) == UpdateGlobalByModel(old(globals), id, expected, u, now)
      ensures id != 0 ==> affected <= 1
      ensures branches == old(branches) && nextId == old(nextId) && nextGlobalId == old(nextGlobalId)
    {
      var r := UpdateGlobalByModel(globals, id, expected, u, now);
      UpdateGlobalByModelValid(globals, nextGlobalId, id, expected, u, now);
      affected, globals := r.0, r.1;
    }

    method Touch(gid: string, now: Time) returns (affected: nat)
      requires Valid()
      modifies this
      ensures Valid()
      ensures (affected, globals) == TouchGlobal(old(globals), gid, now)
      ensures branches == old(branches) && nextId == old(nextId) && nextGlobalId == old(nextGlobalId)
    {
      var r := TouchGlobal(globals, gid, now);
      affected, globals := r.0, r.1;
    }

    method UpdateBranch(id: nat, expected: string, status: string, now: Time) returns (affected: nat)
      requires Valid()
      modifies this
      ensures Valid()
      ensures (affected, branches) == UpdateBranchWhere(old(branches), id, expected, status, now)
      ensures id != 0 ==> affected <= 1
      ensures globals == old(globals) && nextId == old(nextId) && nextGlobalId == old(nextGlobalId)
    {
      UpdateBranchWhereRows(branches, id, expected, status, now);
      if id != 0 {
        UpdateBranchWhereAtMostOne(branches, id, expected, status, now);
      }
      var r := UpdateBranchWhere(branches, id, expected, status, now);
      assert forall i :: 0 <= i < |branches| ==> BranchKey(r.1[i]) == BranchKey(branches[i]) && r.1[i].id == branches[i].id;
      affected, branches := r.0, r.1;
    }

    /** The multi-row insert with do-nothing-on-conflict, one row at a time. */
    method CreateBranches(rows: seq<BranchRow>, now: Time) returns (affected: nat)
      requires Valid()
      modifies this
      ensures Valid()
      ensures (affected, branches, nextId) == InsertBranches(old(branches), old(nextId), rows, now)
      ensures globals == old(globals) && nextGlobalId == old(nextGlobalId)
    {
      ghost var target := InsertBranches(branches, nextId, rows, now);
      affected := 0;
      var rest := rows;
      while rest != []
        invariant globals == old(globals) && nextGlobalId == old(nextGlobalId)
        invariant IdsAscending(branches) && IdsBelow(branches, nextId) && KeysUnique(branches)
        invariant var r := InsertBranches(branches, nextId, rest, now); target == (affected + r.0, r.1, r.2)
        decreases |rest|
      {
        if !HasKey(branches, BranchKey(rest[0])) {
          var b := Stamped(rest[0], nextId, now);
          AppendBranchValid(branches, nextId, b);
          branches := branches + [b];
          nextId := nextId + 1;
          affected := affected + 1;
        }
        rest := rest[1..];
      }
    }

    /**
      The store's batch update of trans_branch by primary key, writing only `cols`.
      `fail` stands for the store's own failure, which the model does not decide.
     */
    method UpdateBranches(updates: seq<BranchRow>, cols: seq<string>, fail: bool, now: Time) returns (err: bool)
      requires Valid()
      modifies this
      ensures Valid()
      ensures err == fail
      ensures Snapshot() == if fail then old(Snapshot()) else old(Snapshot()).(branches := ApplyUpdates(old(branches), updates, cols, now))
    {
      err := fail;
      if !fail {
        ApplyUpdatesValid(Snapshot(), updates, cols, now);
        branches := ApplyUpdates(branches, updates, cols, now);
      }
    }

    /**
      Rolls back a unit of work to the rows it started from. The auto-increment
      counters are not transactional: ids issued inside the unit of work stay used.
     */
    method Rollback(saved: Tables)
      requires TablesValid(saved) && saved.nextId <= nextId && saved.nextGlobalId <= nextGlobalId
      modifies this
      ensures Valid() && Snapshot() == saved.(nextId := old(nextId), nextGlobalId := old(nextGlobalId))
    {
      globals, branches := saved.globals, saved.branches;
    }
  }
}
