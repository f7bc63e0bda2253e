/**
 * The task/lease coordinator of controller.js: one object owning the
 * module-level tables `farmers`, `tasks`, `claimed` and `masterFarmerUuid`,
 * with one method per message handler, socket event and timer. Every
 * method runs to completion, as a handler does on Node's event loop.
 */
module Coordinator {
  import opened JsArrays
  import opened CoordinatorSpec

  /**
   * The source's `for (i…) if (tasks[i].position.x == x && …z == z) tasks.splice(j, 1)`
   * loop of the claim sweep: no `j--`, so the task sliding into a freed
   * index is not looked at.
   */
  method SpliceClaimedPosition(ts: seq<Task>, x: int, z: int) returns (r: seq<Task>)
    ensures r == SpliceMatches(ts, x, z)
  {
    r := ts;
    var j := 0;
    while j < |r|
      invariant 0 <= j <= |r| + 1
      invariant j <= |r| ==> r[..j] + SpliceMatches(r[j..], x, z) == SpliceMatches(ts, x, z)
      invariant j == |r| + 1 ==> r == SpliceMatches(ts, x, z)
    {
      if r[j].position.x == x && r[j].position.z == z {
        SpliceHit(r, j, x, z);
        r := r[..j] + r[j + 1..];
      } else {
        SpliceMiss(r, j, x, z);
      }
      j := j + 1;
    }
    if j == |r| {
      assert r[..j] == r && r[j..] == [];
    }
  }

  /** One step of the sweep at a task that is not at (x, z): it is kept. */
  lemma SpliceMiss(r: seq<Task>, j: nat, x: int, z: int)
    requires j < |r| && !AtXZ(x, z)(r[j])
    ensures r[..j + 1] + SpliceMatches(r[j + 1..], x, z) == r[..j] + SpliceMatches(r[j..], x, z)
  {
    assert r[j..][1..] == r[j + 1..];
    assert r[..j + 1] == r[..j] + [r[j]];
  }

  /** One step of the sweep at a task at (x, z): it goes, and its successor is passed over. */
  lemma SpliceHit(r: seq<Task>, j: nat, x: int, z: int)
    requires j < |r| && AtXZ(x, z)(r[j])
    ensures var r' := r[..j] + r[j + 1..];
            if j + 1 <= |r'| then r'[..j + 1] + SpliceMatches(r'[j + 1..], x, z) == r[..j] + SpliceMatches(r[j..], x, z)
            else r' == r[..j] + SpliceMatches(r[j..], x, z)
  {
    if j + 1 < |r| {
      SpliceHitBeforeLast(r, j, x, z);
    } else {
      SpliceHitLast(r, j, x, z);
    }
  }

  lemma SpliceHitBeforeLast(r: seq<Task>, j: nat, x: int, z: int)
    requires j + 1 < |r| && AtXZ(x, z)(r[j])
    ensures (r[..j] + r[j + 1..])[..j + 1] + SpliceMatches((r[..j] + r[j + 1..])[j + 1..], x, z)
            == r[..j] + SpliceMatches(r[j..], x, z)
  {
    var tail := r[j..];
    assert tail[0] == r[j] && tail[1] == r[j + 1];
    assert SpliceMatches(tail, x, z) == [r[j + 1]] + SpliceMatches(tail[2..], x, z);
    assert tail[2..] == r[j + 2..] == (r[..j] + r[j + 1..])[j + 1..];
    assert (r[..j] + r[j + 1..])[..j + 1] == r[..j] + [r[j + 1]];
  }

  lemma SpliceHitLast(r: seq<Task>, j: nat, x: int, z: int)
    requires j + 1 == |r| && AtXZ(x, z)(r[j])
    ensures r[..j] + r[j + 1..] == r[..j] + SpliceMatches(r[j..], x, z)
  {
    assert r[j..] == [r[j]];
    assert r[j + 1..] == [];
  }

  /** `handleFarmData`'s two creation loops over a task list. */
  method IngestBatch(ts: seq<Task>, farmland: seq<Pos>, crops: seq<CropSpot>, newIds: seq<TaskId>) returns (r: seq<Task>)
    requires |newIds| == |farmland| + |crops|
    ensures r == IngestAll(ts, NewTasks(farmland, crops, newIds))
  {
    r := IngestFarmland(ts, farmland, crops, newIds);
    r := IngestCrops(ts, r, farmland, crops, newIds);
  }

  /** The first creation loop: a PLACE_CROP task per farmland position. */
  method IngestFarmland(ts: seq<Task>, farmland: seq<Pos>, crops: seq<CropSpot>, newIds: seq<TaskId>) returns (r: seq<Task>)
    requires |newIds| == |farmland| + |crops|
    ensures r == IngestAll(ts, NewTasks(farmland, crops, newIds)[..|farmland|])
  {
    ghost var news := NewTasks(farmland, crops, newIds);
    r := ts;
    var i := 0;
    while i < |farmland|
      invariant 0 <= i <= |farmland|
      invariant r == IngestAll(ts, news[..i])
    {
      var task := Task(newIds[i], PlaceCrop, farmland[i], None, None);
      NewTaskAt(farmland, crops, newIds, i);
      IngestStep(ts, news, i);
      r := SupersedeWith(r, task);
      i := i + 1;
    }
  }

  /** The second creation loop: a HARVEST_CROP task per crop, after the farmland's. */
  method IngestCrops(ts: seq<Task>, r0: seq<Task>, farmland: seq<Pos>, crops: seq<CropSpot>, newIds: seq<TaskId>)
    returns (r: seq<Task>)
    requires |newIds| == |farmland| + |crops|
    requires r0 == IngestAll(ts, NewTasks(farmland, crops, newIds)[..|farmland|])
    ensures r == IngestAll(ts, NewTasks(farmland, crops, newIds))
  {
    ghost var news := NewTasks(farmland, crops, newIds);
    r := r0;
    var k := |farmland|;
    while k < |newIds|
      invariant |farmland| <= k <= |newIds| == |news|
      invariant r == IngestAll(ts, news[..k])
    {
      var crop := crops[k - |farmland|];
      var task := Task(newIds[k], HarvestCrop, Pos(crop.x, crop.y, crop.z), Some(crop.cropType), None);
      NewTaskAt(farmland, crops, newIds, k);
      assert task == news[k];
      IngestStep(ts, news, k);
      r := SupersedeWith(r, task);
      k := k + 1;
    }
    assert news[..k] == news;
  }

  /** One creation step: the position loop drops the first task at the new task's (x, z), then `push`. */
  method SupersedeWith(ts: seq<Task>, task: Task) returns (r: seq<Task>)
    ensures r == Supersede(ts, task)
  {
    r := RemoveFirstMatch(ts, AtXZ(task.position.x, task.position.z));
    r := r + [task];
  }

  /** The k-th new task: a PLACE_CROP per farmland position, then a HARVEST_CROP per crop. */
  lemma NewTaskAt(farmland: seq<Pos>, crops: seq<CropSpot>, ids: seq<TaskId>, k: nat)
    requires |ids| == |farmland| + |crops| && k < |ids|
    ensures k < |farmland| ==> NewTasks(farmland, crops, ids)[k] == Task(ids[k], PlaceCrop, farmland[k], None, None)
    ensures k >= |farmland| ==>
              var c := crops[k - |farmland|];
              NewTasks(farmland, crops, ids)[k] == Task(ids[k], HarvestCrop, Pos(c.x, c.y, c.z), Some(c.cropType), None)
  {
    assert NewTasks(farmland, crops, ids)[k] == NewTask(farmland, crops, ids, k);
  }

  lemma IngestStep(ts: seq<Task>, news: seq<Task>, i: nat)
    requires i < |news|
    ensures IngestAll(ts, news[..i + 1]) == Supersede(IngestAll(ts, news[..i]), news[i])
  {
    assert news[..i + 1][..i] == news[..i];
  }

  /** `handleFarmData`'s claim sweep over a task list. */
  method SweepClaims(ts: seq<Task>, claims: seq<Claim>) returns (r: seq<Task>)
    ensures r == DropClaimed(ts, claims)
  {
    r := ts;
    var c := 0;
    while c < |claims|
      invariant 0 <= c <= |claims|
      invariant r == DropClaimed(ts, claims[..c])
    {
      assert claims[..c + 1][..c] == claims[..c];
      r := SpliceClaimedPosition(r, claims[c].x, claims[c].z);
      c := c + 1;
    }
    assert claims[..c] == claims;
  }

  /**
   * `handleTaskRequest`'s choice: the first task of the unassigned tasks
   * stably sorted by distance and then filtered by crop, i.e. the nearest
   * eligible task, ties going to the earliest; -1 when there is none.
   */
  method SelectTask(ts: seq<Task>, farmableCrops: seq<string>, position: Pos) returns (r: int)
    ensures r == Nearest(ts, farmableCrops, position)
    ensures r == -1 <==> forall k :: 0 <= k < |ts| ==> !Eligible(ts[k], farmableCrops)
    ensures r != -1 ==> 0 <= r && IsNearest(ts, farmableCrops, position, r)
  {
    r := -1;
    var i := 0;
    while i < |ts|
      invariant 0 <= i <= |ts|
      invariant r == NearestIn(ts, farmableCrops, position, i)
    {
      if Eligible(ts[i], farmableCrops) && (r == -1 || Dist2(ts[i], position) < Dist2(ts[r], position)) {
        r := i;
      }
      i := i + 1;
    }
    NearestSpec(ts, farmableCrops, position);
  }

  /** The scan over the farmers in `handleAuth`: the first clash decides the rejection. */
  method CheckAuth(fs: seq<Farmer>, username: string, uuid: string) returns (verdict: Option<string>)
    ensures verdict == AuthVerdict(fs, username, uuid)
  {
    var i := 0;
    while i < |fs|
      invariant 0 <= i <= |fs|
      invariant AuthVerdict(fs, username, uuid) == AuthVerdict(fs[i..], username, uuid)
    {
      assert fs[i..][1..] == fs[i + 1..];
      if fs[i].username == username {
        return Some(UsernameTaken);
      } else if fs[i].uuid == uuid {
        return Some(UuidTaken);
      }
      i := i + 1;
    }
    return None;
  }

  /** The index of the first farmer on socket `s`, or -1. */
  method FindFarmer(fs: seq<Farmer>, s: Session) returns (i: int)
    ensures i == FindIndex(fs, OnSocket(s))
  {
    i := 0;
    while i < |fs| && fs[i].socket != s
      invariant 0 <= i <= |fs|
      invariant forall k :: 0 <= k < i ==> !OnSocket(s)(fs[k])
    {
      i := i + 1;
    }
    if i == |fs| {
      i := -1;
    }
  }

  /** Removing a farmer other than the master keeps the master among the farmers. */
  lemma RemoveAtKeepsMaster(fs: seq<Farmer>, i: nat, m: string)
    requires i < |fs| && fs[i].uuid != m
    requires exists k :: 0 <= k < |fs| && fs[k].uuid == m
    ensures var r := fs[..i] + fs[i + 1..]; exists k :: 0 <= k < |r| && r[k].uuid == m
  {
    var r := fs[..i] + fs[i + 1..];
    var k :| 0 <= k < |fs| && fs[k].uuid == m;
    var k' := if k < i then k else k - 1;
    assert r[k'] == fs[k];
  }

  /**
   * The randomness one record's handler consumes: the `Math.random()` of an
   * election (used only by AUTH) and the generated task ids (used only by
   * MASTER_FARM_INFO, one per new task).
   */
  datatype Draw = Draw(random: real, ids: seq<TaskId>)

  /** The draw can serve the request: a random value in [0, 1) and enough ids. */
  predicate Fits(req: Request, d: Draw)
  {
    && 0.0 <= d.random < 1.0
    && (req.MasterFarmInfo? ==> |d.ids| == |req.farmland| + |req.crops|)
  }

  /** The coordinator's state: what one request can change. */
  datatype Tables = Tables(
    farmers: seq<Farmer>,
    tasks: seq<Task>,
    claimed: seq<Claim>,
    master: Option<string>,
    outbox: seq<Outgoing>,
    pendingElections: nat)

  /**
   * AUTH: a clash is refused with its reason; otherwise the farmer is
   * appended and accepted, and, with no master yet, the drawn farmer is
   * elected and every farmer told.
   */
  function AuthStep(st: Tables, s: Session, username: string, uuid: string, random: real): Tables
    requires 0.0 <= random < 1.0
  {
    match AuthVerdict(st.farmers, username, uuid)
    case Some(reason) => st.(outbox := st.outbox + [Outgoing(s, AuthRejected(reason))])
    case None =>
      var fs := st.farmers + [Farmer(username, uuid, s)];
      var out := st.outbox + [Outgoing(s, AuthAccepted)];
      if st.master.Some? then st.(farmers := fs, outbox := out)
      else
        var m := Some(fs[Pick(random, |fs|)].uuid);
        st.(farmers := fs, master := m, outbox := out + Announce(fs, m))
  }

  /** MASTER_FARM_INFO: the batch is ingested, then every task on a lease is swept. */
  function FarmStep(st: Tables, farmland: seq<Pos>, crops: seq<CropSpot>, ids: seq<TaskId>): Tables
    requires |ids| == |farmland| + |crops|
  {
    st.(tasks := DropClaimed(IngestAll(st.tasks, NewTasks(farmland, crops, ids)), st.claimed))
  }

  /** GET_TASK: an IDLE reply, or the nearest eligible task assigned to `s`, leased and sent. */
  function TaskStep(st: Tables, s: Session, requestId: string, farmableCrops: seq<string>, position: Pos): Tables
  {
    var r := Nearest(st.tasks, farmableCrops, position);
    if r == -1 then st.(outbox := st.outbox + [Outgoing(s, TaskReply(requestId, None))])
    else
      var t := st.tasks[r].(assignedTo := Some(s));
      st.(tasks := st.tasks[r := t],
          claimed := st.claimed + [Claim(t.id, s, t.position.x, t.position.z)],
          outbox := st.outbox + [Outgoing(s, TaskReply(requestId, Some(t)))])
  }

  /** COMPLETED_TASK: the first task and the first lease with the id go. */
  function CompletedStep(st: Tables, id: TaskId): Tables
  {
    st.(tasks := RemoveFirst(st.tasks, HasId(id)), claimed := RemoveFirst(st.claimed, ClaimHasId(id)))
  }

  /** One request from session `s`, with the randomness `d` it consumes. */
  function Serve(st: Tables, s: Session, req: Request, d: Draw): Tables
    requires Fits(req, d)
  {
    match req
    case Auth(username, uuid) => AuthStep(st, s, username, uuid, d.random)
    case MasterFarmInfo(farmland, crops) => FarmStep(st, farmland, crops, d.ids)
    case GetTask(requestId, farmableCrops, position) => TaskStep(st, s, requestId, farmableCrops, position)
    case CompletedTask(taskId) => CompletedStep(st, taskId)
    case OtherType(_) => st
  }

  predicate AllFit(reqs: seq<Request>, draws: seq<Draw>)
  {
    |draws| == |reqs| && forall k :: 0 <= k < |reqs| ==> Fits(reqs[k], draws[k])
  }

  /** The requests of a chunk, in order. */
  function ServeAll(st: Tables, s: Session, reqs: seq<Request>, draws: seq<Draw>): Tables
    requires AllFit(reqs, draws)
  {
    if reqs == [] then st
    else
      var n := |reqs| - 1;
      assert AllFit(reqs[..n], draws[..n]) by {
        forall k | 0 <= k < n
          ensures Fits(reqs[..n][k], draws[..n][k])
        {
          assert reqs[..n][k] == reqs[k] && draws[..n][k] == draws[k];
        }
      }
      Serve(ServeAll(st, s, reqs[..n], draws[..n]), s, reqs[n], draws[n])
  }

  lemma ServeAllStep(st: Tables, s: Session, reqs: seq<Request>, draws: seq<Draw>, n: nat)
    requires AllFit(reqs, draws) && n < |reqs|
    ensures AllFit(reqs[..n], draws[..n]) && AllFit(reqs[..n + 1], draws[..n + 1])
    ensures ServeAll(st, s, reqs[..n + 1], draws[..n + 1]) == Serve(ServeAll(st, s, reqs[..n], draws[..n]), s, reqs[n], draws[n])
  {
    assert reqs[..n + 1][..n] == reqs[..n];
    assert draws[..n + 1][..n] == draws[..n];
  }

  /**
   * A chunk only appends to the outbox and schedules no election; without
   * an AUTH the farmers and the master stay, and without a GET_TASK or a
   * COMPLETED_TASK the leases stay.
   */
  lemma {:induction false} ServeAllFrames(st: Tables, s: Session, reqs: seq<Request>, draws: seq<Draw>)
    requires AllFit(reqs, draws)
    ensures var r := ServeAll(st, s, reqs, draws);
            st.outbox <= r.outbox && r.pendingElections == st.pendingElections &&
            ((forall k :: 0 <= k < |reqs| ==> !reqs[k].Auth?) ==> r.farmers == st.farmers && r.master == st.master) &&
            ((forall k :: 0 <= k < |reqs| ==> !reqs[k].GetTask? && !reqs[k].CompletedTask?) ==> r.claimed == st.claimed)
  {
    if reqs != [] {
      var n := |reqs| - 1;
      ServeAllStep(st, s, reqs, draws, n);
      assert reqs[..n + 1] == reqs && draws[..n + 1] == draws;
      ServeAllFrames(st, s, reqs[..n], draws[..n]);
      assert forall k :: 0 <= k < n ==> reqs[..n][k] == reqs[k];
      ServeFrames(ServeAll(st, s, reqs[..n], draws[..n]), s, reqs[n], draws[n]);
    }
  }

  /** The same for one request. */
  lemma ServeFrames(st: Tables, s: Session, req: Request, d: Draw)
    requires Fits(req, d)
    ensures var r := Serve(st, s, req, d);
            st.outbox <= r.outbox && r.pendingElections == st.pendingElections &&
            (!req.Auth? ==> r.farmers == st.farmers && r.master == st.master) &&
            (!req.GetTask? && !req.CompletedTask? ==> r.claimed == st.claimed)
  {
  }

  class Controller {
    var farmers: seq<Farmer>
    var tasks: seq<Task>
    var claimed: seq<Claim>
    /** `masterFarmerUuid`. */
    var master: Option<string>
    /** Every record `sendData` has written, with its session, in order. */
    var outbox: seq<Outgoing>
    /** `setTimeout(electMaster, 100)` calls made by a departing master that have not fired yet. */
    var pendingElections: nat

    function Snapshot(): Tables
      reads this
    {
      Tables(farmers, tasks, claimed, master, outbox, pendingElections)
    }

    /** The tables' invariants, without the leadership one. */
    ghost predicate Consistent()
      reads this
    {
      && DistinctIdentities(farmers)
      && UniqueXZ(tasks)
      && (master.Some? ==> exists k :: 0 <= k < |farmers| && farmers[k].uuid == master.value)
    }

    /** And while a farmer is connected there is a master, or an election is on its way. */
    ghost predicate Valid()
      reads this
    {
      Consistent() && (farmers != [] ==> master.Some? || pendingElections > 0)
    }

    constructor ()
      ensures Valid()
      ensures farmers == [] && tasks == [] && claimed == [] && master == None
      ensures outbox == [] && pendingElections == 0
    {
      farmers, tasks, claimed, master := [], [], [], None;
      outbox, pendingElections := [], 0;
    }

    /**
     * The CHOSEN_MASTER loop: the 1-second interval body. Its console
     * output is left out, but the lookup it prints from always finds the
     * master: the `farmers[masterIndex].username` it reads never indexes -1.
     */
    method Broadcast()
      requires Consistent()
      modifies this
      ensures master.Some? ==> var m := master.value; FindIndex(farmers, (f: Farmer) => f.uuid == m) >= 0
      ensures outbox == old(outbox) + Announce(farmers, master)
      ensures farmers == old(farmers) && tasks == old(tasks) && claimed == old(claimed)
      ensures master == old(master) && pendingElections == old(pendingElections)
    {
      var out := outbox;
      var i := 0;
      while i < |farmers|
        invariant 0 <= i <= |farmers|
        invariant out == old(outbox) + Announce(farmers[..i], master)
      {
        assert farmers[..i + 1][..i] == farmers[..i];
        out := out + [Announcement(farmers[i], master)];
        i := i + 1;
      }
      assert farmers[..i] == farmers;
      outbox := out;
    }

    /**
     * `electMaster`: nothing with no farmer or a master already set;
     * otherwise the farmer at index `Math.floor(random * farmers.length)`
     * becomes master and
     * every farmer is told.
     */
    method ElectMaster(random: real)
      requires Consistent()
      requires 0.0 <= random < 1.0
      modifies this
      ensures farmers == old(farmers) && tasks == old(tasks) && claimed == old(claimed)
      ensures Consistent() && (farmers != [] ==> master.Some?)
      ensures old(farmers) == [] || old(master).Some? ==> master == old(master) && outbox == old(outbox)
      ensures old(farmers) != [] && old(master).None? ==>
                master == Some(farmers[Pick(random, |farmers|)].uuid) && outbox == old(outbox) + Announce(farmers, master)
      ensures pendingElections == old(pendingElections)
    {
      if |farmers| == 0 {
        return;
      }
      if master != None {
        return;
      }
      var masterIndex := Pick(random, |farmers|);
      master := Some(farmers[masterIndex].uuid);
      Broadcast();
    }

    /** An `electMaster` timer set by a departing master fires. */
    method ElectionTimer(random: real)
      requires Valid() && pendingElections > 0
      requires 0.0 <= random < 1.0
      modifies this
      ensures farmers == old(farmers) && tasks == old(tasks) && claimed == old(claimed)
      ensures Valid() && pendingElections == old(pendingElections) - 1
      ensures old(master).Some? || farmers == [] ==> master == old(master) && outbox == old(outbox)
      ensures old(master).None? && farmers != [] ==>
                master == Some(farmers[Pick(random, |farmers|)].uuid) && outbox == old(outbox) + Announce(farmers, master)
    {
      pendingElections := pendingElections - 1;
      ElectMaster(random);
    }

    /**
     * `handleAuth`: a newcomer sharing a username or uuid with a connected
     * farmer is refused with the first clash's reason and nothing else
     * changes; otherwise it is added, told so, and an election runs with
     * the random draw `random`.
     */
    method HandleAuth(s: Session, username: string, uuid: string, random: real)
      requires Valid()
      requires 0.0 <= random < 1.0
      modifies this
      ensures Valid()
      ensures var verdict := AuthVerdict(old(farmers), username, uuid);
              verdict.Some? ==>
                farmers == old(farmers) && master == old(master) &&
                outbox == old(outbox) + [Outgoing(s, AuthRejected(verdict.value))]
      ensures AuthVerdict(old(farmers), username, uuid).None? ==>
                farmers == old(farmers) + [Farmer(username, uuid, s)] &&
                (old(master).Some? ==> master == old(master) && outbox == old(outbox) + [Outgoing(s, AuthAccepted)]) &&
                (old(master).None? ==>
                   master == Some(farmers[Pick(random, |farmers|)].uuid) &&
                   outbox == old(outbox) + [Outgoing(s, AuthAccepted)] + Announce(farmers, master))
      ensures tasks == old(tasks) && claimed == old(claimed) && pendingElections == old(pendingElections)
      ensures Snapshot() == AuthStep(old(Snapshot()), s, username, uuid, random)
    {
      var verdict := CheckAuth(farmers, username, uuid);
      if verdict.Some? {
        outbox := outbox + [Outgoing(s, AuthRejected(verdict.value))];
        return;
      }
      AcceptKeepsDistinct(farmers, Farmer(username, uuid, s));
      ghost var before := farmers;
      farmers := farmers + [Farmer(username, uuid, s)];
      assert master.Some? ==> exists k :: 0 <= k < |farmers| && farmers[k].uuid == master.value by {
        if master.Some? {
          var k :| 0 <= k < |before| && before[k].uuid == master.value;
          assert farmers[k] == before[k];
        }
      }
      outbox := outbox + [Outgoing(s, AuthAccepted)];
      ElectMaster(random);
    }

    /**
     * `handleFarmData`: each new PLACE_CROP task (one per farmland position)
     * and then each new HARVEST_CROP task supersedes the first task at its
     * (x, z) and is appended unassigned; then every task at a claimed (x, z)
     * is swept. `newIds` are the random ids the source draws, one per new task.
     */
    method HandleFarmData(farmland: seq<Pos>, crops: seq<CropSpot>, newIds: seq<TaskId>)
      requires Valid()
      requires |newIds| == |farmland| + |crops|
      modifies this
      ensures Valid()
      ensures tasks == DropClaimed(IngestAll(old(tasks), NewTasks(farmland, crops, newIds)), claimed)
      ensures forall k, c :: 0 <= k < |tasks| && 0 <= c < |claimed| ==>
                !(tasks[k].position.x == claimed[c].x && tasks[k].position.z == claimed[c].z)
      ensures farmers == old(farmers) && claimed == old(claimed) && master == old(master)
      ensures outbox == old(outbox) && pendingElections == old(pendingElections)
      ensures Snapshot() == FarmStep(old(Snapshot()), farmland, crops, newIds)
    {
      var ingested := IngestBatch(tasks, farmland, crops, newIds);
      IngestAllUnique(tasks, NewTasks(farmland, crops, newIds));
      tasks := SweepClaims(ingested, claimed);
      DropClaimedClears(ingested, claimed);
    }

    /**
     * `handleTaskRequest`: with no eligible task, an IDLE reply echoing the
     * request id and no other change; otherwise the nearest eligible task
     * is marked assigned to `s`, a claim for it is appended and the task is
     * sent back.
     */
    method HandleTaskRequest(s: Session, requestId: string, farmableCrops: seq<string>, position: Pos)
      requires Valid()
      modifies this
      ensures Valid()
      ensures (forall k :: 0 <= k < |old(tasks)| ==> !Eligible(old(tasks)[k], farmableCrops)) ==>
                tasks == old(tasks) && claimed == old(claimed) &&
                outbox == old(outbox) + [Outgoing(s, TaskReply(requestId, None))]
      ensures (exists k :: 0 <= k < |old(tasks)| && Eligible(old(tasks)[k], farmableCrops)) ==>
                exists r: nat :: IsNearest(old(tasks), farmableCrops, position, r) &&
                  var t := old(tasks)[r].(assignedTo := Some(s));
                  tasks == old(tasks)[r := t] &&
                  claimed == old(claimed) + [Claim(t.id, s, t.position.x, t.position.z)] &&
                  outbox == old(outbox) + [Outgoing(s, TaskReply(requestId, Some(t)))]
      ensures farmers == old(farmers) && master == old(master) && pendingElections == old(pendingElections)
      ensures Snapshot() == TaskStep(old(Snapshot()), s, requestId, farmableCrops, position)
    {
      var r := SelectTask(tasks, farmableCrops, position);
      if r == -1 {
        outbox := outbox + [Outgoing(s, TaskReply(requestId, None))];
      } else {
        var task := tasks[r].(assignedTo := Some(s));
        AssignKeepsUnique(tasks, r, s);
        tasks := tasks[r := task];
        claimed := claimed + [Claim(task.id, s, task.position.x, task.position.z)];
        outbox := outbox + [Outgoing(s, TaskReply(requestId, Some(task)))];
      }
    }

    /** `handleCompletedTask`: the first task and the first claim with that id go; nothing else changes. */
    method HandleCompletedTask(id: TaskId)
      requires Valid()
      modifies this
      ensures Valid()
      ensures tasks == RemoveFirst(old(tasks), HasId(id))
      ensures claimed == RemoveFirst(old(claimed), ClaimHasId(id))
      ensures farmers == old(farmers) && master == old(master)
      ensures outbox == old(outbox) && pendingElections == old(pendingElections)
      ensures Snapshot() == CompletedStep(old(Snapshot()), id)
    {
      RemoveFirstUnique(tasks, HasId(id));
      var ts := RemoveFirstMatch(tasks, HasId(id));
      var cs := RemoveFirstMatch(claimed, ClaimHasId(id));
      tasks, claimed := ts, cs;
    }

    /**
     * The socket's `end` and `error` handlers (the same code): every task
     * assigned to the session is deleted, every claim it holds is dropped,
     * and the first farmer on that socket goes; if it was the master, the
     * master is cleared and an election is scheduled.
     */
    method Disconnect(s: Session)
      requires Valid()
      modifies this
      ensures Valid()
      ensures tasks == Filter(old(tasks), Not(AssignedTo(s)))
      ensures claimed == Filter(old(claimed), Not(HeldBy(s)))
      ensures farmers == RemoveFirst(old(farmers), OnSocket(s))
      ensures var i := FindIndex(old(farmers), OnSocket(s));
              if i != -1 && old(master) == Some(old(farmers)[i].uuid)
              then master == None && pendingElections == old(pendingElections) + 1
              else master == old(master) && pendingElections == old(pendingElections)
      ensures outbox == old(outbox)
    {
      FilterUnique(tasks, Not(AssignedTo(s)));
      tasks := RemoveAllMatches(tasks, AssignedTo(s));
      claimed := RemoveAllMatches(claimed, HeldBy(s));
      RemoveFarmer(s);
    }

    /** The handlers' last loop: the first farmer on the socket goes, and a departing master is replaced later. */
    method RemoveFarmer(s: Session)
      requires Valid()
      modifies this
      ensures Valid()
      ensures farmers == RemoveFirst(old(farmers), OnSocket(s))
      ensures var i := FindIndex(old(farmers), OnSocket(s));
              if i != -1 && old(master) == Some(old(farmers)[i].uuid)
              then master == None && pendingElections == old(pendingElections) + 1
              else master == old(master) && pendingElections == old(pendingElections)
      ensures tasks == old(tasks) && claimed == old(claimed) && outbox == old(outbox)
    {
      var i := FindFarmer(farmers, s);
      if i != -1 {
        if master == Some(farmers[i].uuid) {
          master := None;
          pendingElections := pendingElections + 1;
        }
        RemoveAtKeepsDistinct(farmers, i);
        if master.Some? {
          RemoveAtKeepsMaster(farmers, i, master.value);
        }
        farmers := farmers[..i] + farmers[i + 1..];
      }
    }

    /** The `if (message.type == …) return handle…` chain for one parsed record. */
    method Dispatch(s: Session, req: Request, d: Draw)
      requires Valid() && Fits(req, d)
      modifies this
      ensures Valid()
      ensures req.OtherType? ==>
                farmers == old(farmers) && tasks == old(tasks) && claimed == old(claimed) &&
                master == old(master) && outbox == old(outbox) && pendingElections == old(pendingElections)
      ensures req.CompletedTask? ==>
                tasks == RemoveFirst(old(tasks), HasId(req.taskId)) &&
                claimed == RemoveFirst(old(claimed), ClaimHasId(req.taskId))
      ensures req.MasterFarmInfo? ==>
                tasks == DropClaimed(IngestAll(old(tasks), NewTasks(req.farmland, req.crops, d.ids)), claimed)
      ensures !req.Auth? ==> farmers == old(farmers) && master == old(master)
      ensures !req.GetTask? && !req.CompletedTask? ==> claimed == old(claimed)
      ensures pendingElections == old(pendingElections)
      ensures |old(outbox)| <= |outbox| && outbox[..|old(outbox)|] == old(outbox)
      ensures Snapshot() == Serve(old(Snapshot()), s, req, d)
    {
      match req {
        case Auth(username, uuid) =>
          HandleAuth(s, username, uuid, d.random);
        case MasterFarmInfo(farmland, crops) =>
          HandleFarmData(farmland, crops, d.ids);
        case GetTask(requestId, farmableCrops, position) =>
          HandleTaskRequest(s, requestId, farmableCrops, position);
        case CompletedTask(taskId) =>
          HandleCompletedTask(taskId);
        case OtherType(_) =>
      }
    }

    /**
     * The socket's `data` handler: the chunk is split at `;` and every piece
     * that parses to a record with a known `type` is handled, in order.
     * `draws[k]` is the randomness the k-th handled record consumes.
     */
    method OnData(s: Session, data: string, parse: string -> Option<Request>, draws: seq<Draw>)
      requires Valid()
      requires |draws| == |Incoming(data, parse)|
      requires forall k :: 0 <= k < |draws| ==> Fits(Incoming(data, parse)[k], draws[k])
      modifies this
      ensures Valid()
      ensures (forall k :: 0 <= k < |draws| ==> !Incoming(data, parse)[k].Auth?) ==>
                farmers == old(farmers) && master == old(master)
      ensures (forall k :: 0 <= k < |draws| ==> !Incoming(data, parse)[k].GetTask? && !Incoming(data, parse)[k].CompletedTask?) ==>
                claimed == old(claimed)
      ensures pendingElections == old(pendingElections)
      ensures |old(outbox)| <= |outbox| && outbox[..|old(outbox)|] == old(outbox)
      ensures Snapshot() == ServeAll(old(Snapshot()), s, Incoming(data, parse), draws)
    {
      ServeEach(s, Incoming(data, parse), draws);
      ServeAllFrames(old(Snapshot()), s, Incoming(data, parse), draws);
    }

    /** The loop over a chunk's requests. */
    method ServeEach(s: Session, reqs: seq<Request>, draws: seq<Draw>)
      requires Valid() && AllFit(reqs, draws)
      modifies this
      ensures Valid()
      ensures Snapshot() == ServeAll(old(Snapshot()), s, reqs, draws)
    {
      var i := 0;
      while i < |reqs|
        invariant 0 <= i <= |reqs|
        invariant Valid()
        invariant AllFit(reqs[..i], draws[..i])
        invariant Snapshot() == ServeAll(old(Snapshot()), s, reqs[..i], draws[..i])
      {
        ServeAllStep(old(Snapshot()), s, reqs, draws, i);
        Dispatch(s, reqs[i], draws[i]);
        i := i + 1;
      }
      assert reqs[..i] == reqs && draws[..i] == draws;
    }
  }
}
