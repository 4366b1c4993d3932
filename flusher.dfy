/**
  The asynchronous branch-status flusher (updateBranchAsync in dtmsvr/svr.go).
  Producers push status events onto a bounded channel; one loop drains it in
  batches of at most 20, one batch per time window, and writes each batch with
  one store call, retrying the same batch until the store accepts it.

  Time is not modelled. A cycle is given `windowOpen`: at its k-th check the
  accumulation window is still open exactly when k < |windowOpen| and
  windowOpen[k]. The store's behaviour is given by `failures`: the j-th call of
  a flush fails exactly when j < |failures| and failures[j].
 */
module Flusher {
  import opened Wrappers
  import opened Store

  /** The largest number of events one batch holds. */
  const MaxBatch: nat := 20

  /** The capacity of updateBranchAsyncChan. */
  const ChanCapacity: nat := 1000

  /** The only columns the flush writes. */
  const FlushColumns: seq<string> := ["status", "finish_time", "update_time"]

  /** An event on the channel: a branch's new status and finish time. */
  datatype BranchStatus = BranchStatus(id: nat, status: string, finishTime: Option<Time>)

  /** One call of the store's batch update: the batch it was given and whether it succeeded. */
  datatype StoreCall = StoreCall(batch: seq<BranchRow>, ok: bool)

  /** The batch entry for an event: a branch carrying only the id, status and finish time. */
  function ToUpdate(e: BranchStatus): (u: BranchRow)
    ensures u.id == e.id && u.status == e.status && u.finishTime == e.finishTime
  {
    BranchRow(e.id, "", "", "", "", "", e.status, e.finishTime, None, None, None)
  }

  /** The batch entries for a run of events, one per event and in the same order. */
  function ToUpdates(es: seq<BranchStatus>): (us: seq<BranchRow>)
    ensures |us| == |es| && forall i :: 0 <= i < |es| ==> us[i] == ToUpdate(es[i])
  {
    seq(|es|, i requires 0 <= i < |es| => ToUpdate(es[i]))
  }

  lemma ToUpdatesAppend(a: seq<BranchStatus>, b: seq<BranchStatus>)
    ensures ToUpdates(a + b) == ToUpdates(a) + ToUpdates(b)
  {
    assert forall i :: 0 <= i < |a + b| ==> ToUpdates(a + b)[i] == (ToUpdates(a) + ToUpdates(b))[i];
  }

  predicate Holds(s: seq<bool>, k: nat) {
    k < |s| && s[k]
  }

  /** The number of leading `true`s: the first k at which Holds(s, k) is false. */
  function RunLength(s: seq<bool>): (n: nat)
    ensures n <= |s|
    ensures forall k :: 0 <= k < n ==> Holds(s, k)
    ensures !Holds(s, n)
  {
    if |s| == 0 || !s[0] then 0
    else
      var m := RunLength(s[1..]);
      assert forall k :: 1 <= k <= m ==> Holds(s, k) by {
        forall k | 1 <= k <= m ensures Holds(s, k) {
          assert Holds(s[1..], k - 1);
        }
      }
      1 + m
  }

  function Min(a: nat, b: nat): nat {
    if a <= b then a else b
  }

  /** How many events one accumulation takes: it stops at an empty window, at 20, or when the queue runs dry. */
  function BatchSize(queue: seq<BranchStatus>, windowOpen: seq<bool>): (n: nat)
    ensures n <= MaxBatch && n <= |queue| && n <= RunLength(windowOpen)
    ensures n == MaxBatch || n == |queue| || n == RunLength(windowOpen)
  {
    Min(Min(|queue|, MaxBatch), RunLength(windowOpen))
  }

  /**
    The accumulation loop over the channel's contents: each check of an open window
    either dequeues one event into the batch or, on an empty channel, waits one
    poll slice. Returns the batch and what remains on the channel.
   */
  method Accumulate(queue: seq<BranchStatus>, windowOpen: seq<bool>) returns (updates: seq<BranchRow>, rest: seq<BranchStatus>)
    ensures |updates| == BatchSize(queue, windowOpen)
    ensures |updates| <= MaxBatch
    ensures forall i :: 0 <= i < |updates| ==>
      updates[i] == ToUpdate(queue[i]) &&
      updates[i].id == queue[i].id && updates[i].status == queue[i].status && updates[i].finishTime == queue[i].finishTime
    ensures queue == queue[..|updates|] + rest
  {
    updates, rest := [], queue;
    var k := 0;
    while Holds(windowOpen, k) && |updates| < MaxBatch
      invariant k <= RunLength(windowOpen)
      invariant |updates| == Min(k, |queue|) <= MaxBatch
      invariant updates == ToUpdates(queue[..|updates|])
      invariant rest == queue[|updates|..]
      decreases |windowOpen| - k
    {
      if |rest| > 0 {
        updates := updates + [ToUpdate(rest[0])];
        rest := rest[1..];
      }
      k := k + 1;
    }
    assert queue == queue[..|updates|] + queue[|updates|..];
  }

  /**
    The retry loop: the same batch goes to the store until a call succeeds; the
    batch is cleared only then. An empty batch makes no call.
   */
  method Flush(db: Db, updates: seq<BranchRow>, failures: seq<bool>, now: Time) returns (ghost calls: seq<StoreCall>)
    requires db.Valid()
    modifies db
    ensures db.Valid()
    ensures updates == [] ==> calls == [] && db.Snapshot() == old(db.Snapshot())
    ensures updates != [] ==>
      && |calls| == RunLength(failures) + 1
      && (forall j :: 0 <= j < |calls| ==> calls[j].batch == updates && (calls[j].ok <==> j == |calls| - 1))
      && db.Snapshot() == old(db.Snapshot()).(branches := ApplyUpdates(old(db.branches), updates, FlushColumns, now))
  {
    var pending := updates;
    calls := [];
    var attempt := 0;
    while |pending| > 0
      invariant db.Valid()
      invariant attempt == |calls|
      invariant pending == [] || pending == updates
      invariant forall j :: 0 <= j < |calls| ==> calls[j].batch == updates && (calls[j].ok <==> pending == [] && j == |calls| - 1)
      invariant updates == [] ==> calls == [] && db.Snapshot() == old(db.Snapshot())
      invariant pending != [] ==> attempt <= RunLength(failures) && db.Snapshot() == old(db.Snapshot())
      invariant updates != [] && pending == [] ==>
        && attempt == RunLength(failures) + 1
        && db.Snapshot() == old(db.Snapshot()).(branches := ApplyUpdates(old(db.branches), updates, FlushColumns, now))
      decreases if pending == [] then 0 else |failures| + 1 - attempt
    {
      var err := db.UpdateBranches(pending, FlushColumns, Holds(failures, attempt), now);
      calls := calls + [StoreCall(pending, !err)];
      attempt := attempt + 1;
      if !err {
        pending := [];
      }
      // on an error the source logs it and sleeps for a second before retrying
    }
  }

  /** The flush writes status, finish_time and update_time; every other column of every row stays. */
  lemma FlushKeepsOtherColumns(bs: seq<BranchRow>, updates: seq<BranchRow>, now: Time)
    ensures var r := ApplyUpdates(bs, updates, FlushColumns, now);
      && |r| == |bs|
      && forall i :: 0 <= i < |bs| ==>
           r[i] == bs[i].(status := r[i].status, finishTime := r[i].finishTime, updateTime := r[i].updateTime)
  {
    ApplyUpdatesFrame(bs, updates, FlushColumns, now);
  }

  /** Each flushed row ends with the status and finish time of the batch's last event for it. */
  lemma FlushLastEventWins(bs: seq<BranchRow>, events: seq<BranchStatus>, now: Time, i: nat)
    requires i < |bs|
    ensures var r := ApplyUpdates(bs, ToUpdates(events), FlushColumns, now);
      && |r| == |bs|
      && match LastFor(ToUpdates(events), bs[i].id)
         case None => r[i] == bs[i]
         case Some(u) => r[i] == bs[i].(status := u.status, finishTime := u.finishTime, updateTime := Some(now))
  {
    ApplyUpdatesLastWins(bs, ToUpdates(events), FlushColumns, now);
  }

  /** 25 queued events under unhurried windows go out as a batch of 20, then a batch of the other 5. */
  lemma TwentyFiveEvents(queue: seq<BranchStatus>, first: seq<bool>, second: seq<bool>)
    requires |queue| == 25 && RunLength(first) >= MaxBatch && RunLength(second) >= 5
    ensures BatchSize(queue, first) == 20
    ensures BatchSize(queue[20..], second) == 5
    ensures queue[..20] + queue[20..][..5] == queue
  {
  }

  /** The inputs a single cycle of the flush loop depends on. */
  datatype CycleInput = CycleInput(windowOpen: seq<bool>, failures: seq<bool>, now: Time)

  /** The branch rows after a run of cycles: batch k is flushed at the instant of input k, in order. */
  function ApplyCycles(bs: seq<BranchRow>, batches: seq<seq<BranchRow>>, inputs: seq<CycleInput>): (r: seq<BranchRow>)
    requires |batches| <= |inputs|
    ensures |r| == |bs|
  {
    if batches == [] then bs
    else
      var n := |batches| - 1;
      ApplyUpdates(ApplyCycles(bs, batches[..n], inputs), batches[n], FlushColumns, inputs[n].now)
  }

  /** The batches of a run, one after the other. */
  function Flatten(batches: seq<seq<BranchRow>>): seq<BranchRow> {
    if batches == [] then [] else Flatten(batches[..|batches| - 1]) + batches[|batches| - 1]
  }

  lemma ApplyCyclesSnoc(bs: seq<BranchRow>, batches: seq<seq<BranchRow>>, b: seq<BranchRow>, inputs: seq<CycleInput>)
    requires |batches| < |inputs|
    ensures ApplyCycles(bs, batches + [b], inputs)
         == ApplyUpdates(ApplyCycles(bs, batches, inputs), b, FlushColumns, inputs[|batches|].now)
  {
    assert (batches + [b])[..|batches|] == batches;
  }

  lemma FlattenSnoc(batches: seq<seq<BranchRow>>, b: seq<BranchRow>)
    ensures Flatten(batches + [b]) == Flatten(batches) + b
  {
    assert (batches + [b])[..|batches|] == batches;
  }

  /** Any number of flushes changes only status, finish_time and update_time, on any row. */
  lemma {:induction false} ApplyCyclesKeepsOtherColumns(bs: seq<BranchRow>, batches: seq<seq<BranchRow>>, inputs: seq<CycleInput>)
    requires |batches| <= |inputs|
    ensures var r := ApplyCycles(bs, batches, inputs);
      forall i :: 0 <= i < |bs| ==>
        r[i] == bs[i].(status := r[i].status, finishTime := r[i].finishTime, updateTime := r[i].updateTime)
  {
    if batches != [] {
      var n := |batches| - 1;
      ApplyCyclesKeepsOtherColumns(bs, batches[..n], inputs);
      FlushKeepsOtherColumns(ApplyCycles(bs, batches[..n], inputs), batches[n], inputs[n].now);
    }
  }

  /** Moving the head of the channel to the flushed events keeps both bookkeeping equations. */
  lemma DrainStep<T>(f0: seq<T>, c0: seq<T>, events: seq<T>, queue: seq<T>, n: nat, flushed: seq<T>, rest: seq<T>)
    requires c0 == events + queue && n <= |queue|
    requires flushed == (f0 + events) + queue[..n] && rest == queue[n..]
    ensures flushed == f0 + (events + queue[..n]) && c0 == (events + queue[..n]) + rest
  {
    assert queue == queue[..n] + rest;
  }

  /** The flusher: the channel it drains, with ghost records of what was sent and what reached the store. */
  class BranchFlusher {
    var chan: seq<BranchStatus>
    ghost var Sent: seq<BranchStatus>
    ghost var Flushed: seq<BranchStatus>

    /** No event is lost or duplicated: what was sent is what was flushed followed by what waits. */
    ghost predicate Valid()
      reads this
    {
      |chan| <= ChanCapacity && Sent == Flushed + chan
    }

    constructor ()
      ensures Valid() && chan == [] && Sent == [] && Flushed == []
    {
      chan, Sent, Flushed := [], [], [];
    }

    /** A producer's send. A full channel refuses: the producer blocks and must send again. */
    method Send(e: BranchStatus) returns (accepted: bool)
      requires Valid()
      modifies this
      ensures Valid() && Flushed == old(Flushed)
      ensures accepted == (|old(chan)| < ChanCapacity)
      ensures accepted ==> chan == old(chan) + [e] && Sent == old(Sent) + [e]
      ensures !accepted ==> chan == old(chan) && Sent == old(Sent)
    {
      accepted := |chan| < ChanCapacity;
      if accepted {
        chan := chan + [e];
        Sent := Sent + [e];
      }
    }

    /** One pass of the outer loop: accumulate a batch, then flush it until the store accepts it. */
    method Cycle(db: Db, input: CycleInput) returns (ghost calls: seq<StoreCall>, ghost batch: seq<BranchRow>)
      requires Valid() && db.Valid()
      modifies this, db
      ensures Valid() && db.Valid() && Sent == old(Sent)
      ensures var n := BatchSize(old(chan), input.windowOpen);
        && chan == old(chan)[n..]
        && Flushed == old(Flushed) + old(chan)[..n]
        && (n == 0 ==> calls == [])
        && (n > 0 ==>
              && |calls| == RunLength(input.failures) + 1
              && forall j :: 0 <= j < |calls| ==>
                   calls[j].batch == ToUpdates(old(chan)[..n]) && (calls[j].ok <==> j == |calls| - 1))
      ensures batch == ToUpdates(old(chan)[..BatchSize(old(chan), input.windowOpen)]) && |batch| <= MaxBatch
      ensures db.globals == old(db.globals) && db.nextId == old(db.nextId) && db.nextGlobalId == old(db.nextGlobalId)
      ensures db.branches == ApplyUpdates(old(db.branches), batch, FlushColumns, input.now)
    {
      var updates, rest := Accumulate(chan, input.windowOpen);
      ghost var taken := chan[..|updates|];
      assert updates == ToUpdates(taken);
      chan := rest;
      calls := Flush(db, updates, input.failures, input.now);
      Flushed := Flushed + taken;
      batch := updates;
    }

    /**
      A run of the outer loop, one cycle per input. Events leave the channel in the
      order they were sent; `batches` are the batches the cycles flushed, and the
      store ends with each applied in turn and nothing else changed.
     */
    method Run(db: Db, inputs: seq<CycleInput>) returns (ghost batches: seq<seq<BranchRow>>)
      requires Valid() && db.Valid()
      modifies this, db
      ensures Valid() && db.Valid() && Sent == old(Sent)
      ensures |Flushed| >= |old(Flushed)| && Flushed[..|old(Flushed)|] == old(Flushed)
      ensures old(chan) == Flushed[|old(Flushed)|..] + chan
      ensures |batches| == |inputs| && forall k :: 0 <= k < |batches| ==> |batches[k]| <= MaxBatch
      ensures Flatten(batches) == ToUpdates(Flushed[|old(Flushed)|..])
      ensures db.Snapshot() == old(db.Snapshot()).(branches := ApplyCycles(old(db.branches), batches, inputs))
    {
      batches := [];
      ghost var events: seq<BranchStatus> := [];
      var i := 0;
      while i < |inputs|
        invariant 0 <= i <= |inputs| && |batches| == i
        invariant Valid() && db.Valid() && Sent == old(Sent)
        invariant Flushed == old(Flushed) + events && old(chan) == events + chan
        invariant forall k :: 0 <= k < |batches| ==> |batches[k]| <= MaxBatch
        invariant Flatten(batches) == ToUpdates(events)
        invariant db.globals == old(db.globals) && db.nextId == old(db.nextId) && db.nextGlobalId == old(db.nextGlobalId)
        invariant db.branches == ApplyCycles(old(db.branches), batches, inputs)
      {
        ghost var queue := chan;
        ghost var n := BatchSize(queue, inputs[i].windowOpen);
        ghost var calls, batch := Cycle(db, inputs[i]);
        ToUpdatesAppend(events, queue[..n]);
        ApplyCyclesSnoc(old(db.branches), batches, batch, inputs);
        FlattenSnoc(batches, batch);
        DrainStep(old(Flushed), old(chan), events, queue, n, Flushed, chan);
        events := events + queue[..n];
        batches := batches + [batch];
        i := i + 1;
      }
      assert Flushed[|old(Flushed)|..] == events;
    }
  }
}
