/**
 * The tables of the task/lease coordinator (controller.js) and the pure
 * functions that say what its handlers do to them. The class that owns the
 * tables and runs the handlers is in coordinator.dfy.
 *
 * A socket is an opaque session number; a task's `assigned`/`assignedTo`
 * pair is one optional session (the source always sets both together).
 */
module CoordinatorSpec {
  import opened JsArrays
  import Framing

  type Session = nat
  type TaskId = string

  const UsernameTaken: string := "Username already authenticated"
  const UuidTaken: string := "UUID already authenticated"

  datatype Pos = Pos(x: int, y: int, z: int)

  datatype Kind = PlaceCrop | HarvestCrop

  datatype Task = Task(id: TaskId, kind: Kind, position: Pos, crop: Option<string>, assignedTo: Option<Session>)

  /** An entry of `claimed`: the task id, the session it went to and the task's x and z. */
  datatype Claim = Claim(id: TaskId, assignedTo: Session, x: int, z: int)

  datatype Farmer = Farmer(username: string, uuid: string, socket: Session)

  /** One element of a MASTER_FARM_INFO `crops` list. */
  datatype CropSpot = CropSpot(x: int, y: int, z: int, cropType: string)

  /** The records the coordinator writes; `TaskReply(id, None)` is `{id, task: {type: 'IDLE'}}`. */
  datatype Reply =
    | AuthAccepted
    | AuthRejected(reason: string)
    | ChosenMaster(master: Option<string>, isMaster: bool)
    | TaskReply(requestId: string, task: Option<Task>)

  datatype Outgoing = Outgoing(to: Session, reply: Reply)

  /** A record received on a socket, once parsed; `OtherType` has a `type` no handler takes. */
  datatype Request =
    | Auth(username: string, uuid: string)
    | MasterFarmInfo(farmland: seq<Pos>, crops: seq<CropSpot>)
    | GetTask(requestId: string, farmableCrops: seq<string>, position: Pos)
    | CompletedTask(taskId: TaskId)
    | OtherType(kind: string)

  // ---------------------------------------------------------------- identities

  ghost predicate DistinctIdentities(fs: seq<Farmer>)
  {
    forall i, j :: 0 <= i < j < |fs| ==> fs[i].username != fs[j].username && fs[i].uuid != fs[j].uuid
  }

  function Clashes(username: string, uuid: string): Farmer -> bool
  {
    (f: Farmer) => f.username == username || f.uuid == uuid
  }

  /**
   * The outcome of `handleAuth`'s scan: the first farmer that shares the
   * username or the uuid decides the reason, the username being tested first.
   */
  function AuthVerdict(farmers: seq<Farmer>, username: string, uuid: string): (r: Option<string>)
    ensures r.None? <==> forall k :: 0 <= k < |farmers| ==> farmers[k].username != username && farmers[k].uuid != uuid
    ensures r.Some? ==> r.value == UsernameTaken || r.value == UuidTaken
  {
    if farmers == [] then None
    else if farmers[0].username == username then Some(UsernameTaken)
    else if farmers[0].uuid == uuid then Some(UuidTaken)
    else AuthVerdict(farmers[1..], username, uuid)
  }

  /** Which reason a rejected newcomer gets: the one of the first clashing farmer. */
  lemma {:induction false} AuthVerdictReason(farmers: seq<Farmer>, username: string, uuid: string)
    ensures var i := FindIndex(farmers, Clashes(username, uuid));
            AuthVerdict(farmers, username, uuid) ==
              if i == -1 then None
              else if farmers[i].username == username then Some(UsernameTaken)
              else Some(UuidTaken)
  {
    if farmers != [] && !Clashes(username, uuid)(farmers[0]) {
      AuthVerdictReason(farmers[1..], username, uuid);
    }
  }

  /** An accepted newcomer keeps usernames and uuids pairwise distinct. */
  lemma {:induction false} AcceptKeepsDistinct(farmers: seq<Farmer>, f: Farmer)
    requires DistinctIdentities(farmers)
    requires AuthVerdict(farmers, f.username, f.uuid).None?
    ensures DistinctIdentities(farmers + [f])
  {
    var fs := farmers + [f];
    forall i, j | 0 <= i < j < |fs|
      ensures fs[i].username != fs[j].username && fs[i].uuid != fs[j].uuid
    {
      if j == |farmers| {
        assert fs[i] == farmers[i];
      } else {
        assert fs[i] == farmers[i] && fs[j] == farmers[j];
      }
    }
  }

  /** Removing one farmer keeps the others' identities distinct. */
  lemma RemoveAtKeepsDistinct(fs: seq<Farmer>, i: nat)
    requires DistinctIdentities(fs) && i < |fs|
    ensures DistinctIdentities(fs[..i] + fs[i + 1..])
  {
    var r := fs[..i] + fs[i + 1..];
    forall a, b | 0 <= a < b < |r|
      ensures r[a].username != r[b].username && r[a].uuid != r[b].uuid
    {
      var a' := if a < i then a else a + 1;
      var b' := if b < i then b else b + 1;
      assert r[a] == fs[a'] && r[b] == fs[b'];
    }
  }

  // ---------------------------------------------------------------- election

  /** `Math.floor(random * n)`: the election's index for a draw in [0, 1). */
  function Pick(random: real, n: nat): (i: nat)
    requires 0.0 <= random < 1.0 && n > 0
    ensures i < n
  {
    assert random * (n as real) < n as real by {
      assert (1.0 - random) * (n as real) > 0.0;
    }
    (random * (n as real)).Floor
  }

  /** Every farmer can be elected: the draw in [k/n, (k+1)/n) picks index k. */
  lemma PickReaches(n: nat, k: nat)
    requires k < n
    ensures Pick((k as real) / (n as real), n) == k
  {
    assert (k as real) / (n as real) * (n as real) == k as real;
  }

  /** The CHOSEN_MASTER record for one farmer: `isMaster` iff its uuid is the master's. */
  function Announcement(f: Farmer, master: Option<string>): Outgoing
  {
    Outgoing(f.socket, ChosenMaster(master, master == Some(f.uuid)))
  }

  /** What `electMaster` and the 1-second broadcast write: one record per farmer, in table order. */
  function Announce(farmers: seq<Farmer>, master: Option<string>): seq<Outgoing>
  {
    if farmers == [] then []
    else Announce(farmers[..|farmers| - 1], master) + [Announcement(farmers[|farmers| - 1], master)]
  }

  lemma {:induction false} AnnounceAt(farmers: seq<Farmer>, master: Option<string>)
    ensures |Announce(farmers, master)| == |farmers|
    ensures forall i :: 0 <= i < |farmers| ==>
              Announce(farmers, master)[i] == Announcement(farmers[i], master)
  {
    if farmers != [] {
      AnnounceAt(farmers[..|farmers| - 1], master);
    }
  }

  /**
   * With distinct uuids and the master chosen among the farmers, every farmer
   * gets exactly one record and exactly the master's says `isMaster`.
   */
  lemma AnnounceOneMaster(farmers: seq<Farmer>, k: nat)
    requires DistinctIdentities(farmers) && k < |farmers|
    ensures var out := Announce(farmers, Some(farmers[k].uuid));
            |out| == |farmers| &&
            forall i :: 0 <= i < |out| ==>
              out[i] == Outgoing(farmers[i].socket, ChosenMaster(Some(farmers[k].uuid), i == k))
  {
    AnnounceAt(farmers, Some(farmers[k].uuid));
  }

  // ---------------------------------------------------------------- task ingestion

  predicate SameXZ(a: Task, b: Task)
  {
    a.position.x == b.position.x && a.position.z == b.position.z
  }

  function AtXZ(x: int, z: int): Task -> bool
  {
    (t: Task) => t.position.x == x && t.position.z == z
  }

  /** At most one task per (x, z): the y coordinate is not compared. */
  ghost predicate UniqueXZ(ts: seq<Task>)
  {
    forall i, j :: 0 <= i < j < |ts| ==> !SameXZ(ts[i], ts[j])
  }

  /** The unassigned task `handleFarmData` builds for the k-th element of `farmland ++ crops`. */
  function NewTask(farmland: seq<Pos>, crops: seq<CropSpot>, ids: seq<TaskId>, k: nat): Task
    requires |ids| == |farmland| + |crops| && k < |ids|
  {
    if k < |farmland| then Task(ids[k], PlaceCrop, farmland[k], None, None)
    else
      var c := crops[k - |farmland|];
      Task(ids[k], HarvestCrop, Pos(c.x, c.y, c.z), Some(c.cropType), None)
  }

  function NewTasks(farmland: seq<Pos>, crops: seq<CropSpot>, ids: seq<TaskId>): (r: seq<Task>)
    requires |ids| == |farmland| + |crops|
  {
    seq(|ids|, k requires 0 <= k < |ids| => NewTask(farmland, crops, ids, k))
  }

  /** One new task: the first task at its (x, z) goes, then it is appended. */
  function Supersede(ts: seq<Task>, t: Task): seq<Task>
  {
    RemoveFirst(ts, AtXZ(t.position.x, t.position.z)) + [t]
  }

  /** The batch, new task by new task, in order. */
  function IngestAll(ts: seq<Task>, news: seq<Task>): seq<Task>
  {
    if news == [] then ts
    else Supersede(IngestAll(ts, news[..|news| - 1]), news[|news| - 1])
  }

  /** Removing the task at one index keeps (x, z) unique, and no other task sat at its (x, z). */
  lemma RemoveAtUnique(ts: seq<Task>, i: nat)
    requires UniqueXZ(ts) && i < |ts|
    ensures UniqueXZ(ts[..i] + ts[i + 1..])
    ensures var r := ts[..i] + ts[i + 1..]; forall k :: 0 <= k < |r| ==> !SameXZ(r[k], ts[i])
  {
    var r := ts[..i] + ts[i + 1..];
    forall a, b | 0 <= a < b < |r|
      ensures !SameXZ(r[a], r[b])
    {
      var a' := if a < i then a else a + 1;
      var b' := if b < i then b else b + 1;
      assert r[a] == ts[a'] && r[b] == ts[b'];
    }
    forall k | 0 <= k < |r|
      ensures !SameXZ(r[k], ts[i])
    {
      var k' := if k < i then k else k + 1;
      assert r[k] == ts[k'];
    }
  }

  /** Removing the first match, whatever it is, keeps (x, z) unique. */
  lemma RemoveFirstUnique(ts: seq<Task>, p: Task -> bool)
    requires UniqueXZ(ts)
    ensures UniqueXZ(RemoveFirst(ts, p))
  {
    var i := FindIndex(ts, p);
    if i != -1 {
      RemoveAtUnique(ts, i);
    }
  }

  /**
   * Superseding keeps (x, z) unique; the new task is the only one at its
   * (x, z); every task elsewhere stays.
   */
  lemma SupersedeSpec(ts: seq<Task>, t: Task)
    requires UniqueXZ(ts)
    ensures var r := Supersede(ts, t);
            UniqueXZ(r) && r[|r| - 1] == t &&
            (forall k :: 0 <= k < |r| - 1 ==> !SameXZ(r[k], t)) &&
            (forall k :: 0 <= k < |ts| && !SameXZ(ts[k], t) ==> ts[k] in r)
  {
    var p := AtXZ(t.position.x, t.position.z);
    var i := FindIndex(ts, p);
    var rest := RemoveFirst(ts, p);
    if i == -1 {
      assert rest == ts;
    } else {
      RemoveAtUnique(ts, i);
      assert rest == ts[..i] + ts[i + 1..];
    }
    forall k | 0 <= k < |ts| && !SameXZ(ts[k], t)
      ensures ts[k] in Supersede(ts, t)
    {
      RemoveFirstKeeps(ts, p, ts[k]);
    }
  }

  lemma {:induction false} IngestAllUnique(ts: seq<Task>, news: seq<Task>)
    requires UniqueXZ(ts)
    ensures UniqueXZ(IngestAll(ts, news))
  {
    if news != [] {
      IngestAllUnique(ts, news[..|news| - 1]);
      SupersedeSpec(IngestAll(ts, news[..|news| - 1]), news[|news| - 1]);
    }
  }

  /**
   * The newest data wins: a new task that no later task of the batch
   * supersedes is in the table after ingestion.
   */
  lemma {:induction false} IngestLatestWins(ts: seq<Task>, news: seq<Task>, i: nat)
    requires UniqueXZ(ts) && i < |news|
    requires forall j :: i < j < |news| ==> !SameXZ(news[j], news[i])
    ensures news[i] in IngestAll(ts, news)
  {
    var n := |news|;
    var prefix := news[..n - 1];
    IngestAllUnique(ts, prefix);
    SupersedeSpec(IngestAll(ts, prefix), news[n - 1]);
    if i < n - 1 {
      IngestLatestWins(ts, prefix, i);
      var mid := IngestAll(ts, prefix);
      var k :| 0 <= k < |mid| && mid[k] == news[i];
      assert !SameXZ(mid[k], news[n - 1]);
    }
  }

  /** A task already in the table survives ingestion when no new task shares its (x, z). */
  lemma {:induction false} IngestKeepsOthers(ts: seq<Task>, news: seq<Task>, t: Task)
    requires t in ts
    requires forall j :: 0 <= j < |news| ==> !SameXZ(news[j], t)
    ensures t in IngestAll(ts, news)
  {
    if news != [] {
      var n := |news|;
      var prefix := news[..n - 1];
      assert forall j :: 0 <= j < |prefix| ==> prefix[j] == news[j];
      IngestKeepsOthers(ts, prefix, t);
      RemoveFirstKeeps(IngestAll(ts, prefix), AtXZ(news[n - 1].position.x, news[n - 1].position.z), t);
    }
  }

  // ---------------------------------------------------------------- claim sweep

  /**
   * The inner loop of `handleFarmData`'s claim sweep: it splices every task at
   * (x, z) but, lacking `j--`, does not look at the task that slides into the
   * freed index.
   */
  function SpliceMatches(ts: seq<Task>, x: int, z: int): (r: seq<Task>)
    ensures |r| <= |ts|
  {
    if ts == [] then []
    else if AtXZ(x, z)(ts[0]) then (if |ts| == 1 then [] else [ts[1]] + SpliceMatches(ts[2..], x, z))
    else [ts[0]] + SpliceMatches(ts[1..], x, z)
  }

  /** With tasks unique per (x, z) the skipped task never matters: every task at (x, z) goes. */
  lemma {:induction false} SpliceMatchesUnique(ts: seq<Task>, x: int, z: int)
    requires UniqueXZ(ts)
    ensures SpliceMatches(ts, x, z) == Filter(ts, Not(AtXZ(x, z)))
  {
    if ts != [] {
      if AtXZ(x, z)(ts[0]) {
        if |ts| > 1 {
          assert !SameXZ(ts[0], ts[1]);
          SpliceMatchesUnique(ts[2..], x, z);
          assert ts[1..][1..] == ts[2..];
        }
      } else {
        SpliceMatchesUnique(ts[1..], x, z);
      }
    }
  }

  /** Two adjacent tasks at a claimed (x, z): the sweep leaves the second one. */
  lemma SpliceMatchesSkipsNeighbour(a: Task, b: Task)
    requires SameXZ(a, b)
    ensures SpliceMatches([a, b], a.position.x, a.position.z) == [b]
  {
    assert [a, b][2..] == [];
  }

  /** The sweep, claim by claim, over the ingested tasks. */
  function DropClaimed(ts: seq<Task>, claims: seq<Claim>): seq<Task>
  {
    if claims == [] then ts
    else
      var c := claims[|claims| - 1];
      SpliceMatches(DropClaimed(ts, claims[..|claims| - 1]), c.x, c.z)
  }

  lemma {:induction false} FilterUnique(ts: seq<Task>, p: Task -> bool)
    requires UniqueXZ(ts)
    ensures UniqueXZ(Filter(ts, p))
  {
    if ts != [] {
      FilterUnique(ts[1..], p);
      FilterMembers(ts[1..], p);
      var rest := Filter(ts[1..], p);
      forall k | 0 <= k < |rest|
        ensures !SameXZ(ts[0], rest[k])
      {
        var j :| 0 <= j < |ts[1..]| && ts[1..][j] == rest[k];
        assert ts[j + 1] == rest[k];
      }
    }
  }

  /**
   * After the sweep (tasks unique per (x, z) beforehand) no task shares
   * (x, z) with any claim, tasks stay unique, and every task left was there
   * before.
   */
  lemma {:induction false} DropClaimedClears(ts: seq<Task>, claims: seq<Claim>)
    requires UniqueXZ(ts)
    ensures var r := DropClaimed(ts, claims);
            UniqueXZ(r) &&
            (forall k, c :: 0 <= k < |r| && 0 <= c < |claims| ==>
               !(r[k].position.x == claims[c].x && r[k].position.z == claims[c].z)) &&
            (forall k :: 0 <= k < |r| ==> r[k] in ts)
  {
    if claims != [] {
      var n := |claims|;
      var last := claims[n - 1];
      DropClaimedClears(ts, claims[..n - 1]);
      var prev := DropClaimed(ts, claims[..n - 1]);
      SpliceMatchesUnique(prev, last.x, last.z);
      FilterUnique(prev, Not(AtXZ(last.x, last.z)));
      FilterMembers(prev, Not(AtXZ(last.x, last.z)));
      var r := DropClaimed(ts, claims);
      assert r == Filter(prev, Not(AtXZ(last.x, last.z)));
      forall k, c | 0 <= k < |r| && 0 <= c < n
        ensures !(r[k].position.x == claims[c].x && r[k].position.z == claims[c].z)
      {
        if c < n - 1 {
          var j :| 0 <= j < |prev| && prev[j] == r[k];
          assert claims[..n - 1][c] == claims[c];
        }
      }
    }
  }

  /**
   * `handleFarmData` as a whole: with tasks unique per (x, z) beforehand,
   * they still are, no task sits at a claimed (x, z), and every new task that
   * is the batch's last at its (x, z) and is not at a claimed one is in the
   * table.
   */
  lemma FarmDataSpec(ts: seq<Task>, news: seq<Task>, claims: seq<Claim>, i: nat)
    requires UniqueXZ(ts) && i < |news|
    requires forall j :: i < j < |news| ==> !SameXZ(news[j], news[i])
    requires forall c :: 0 <= c < |claims| ==> !(news[i].position.x == claims[c].x && news[i].position.z == claims[c].z)
    ensures var r := DropClaimed(IngestAll(ts, news), claims);
            UniqueXZ(r) && news[i] in r &&
            forall k, c :: 0 <= k < |r| && 0 <= c < |claims| ==>
              !(r[k].position.x == claims[c].x && r[k].position.z == claims[c].z)
  {
    IngestAllUnique(ts, news);
    IngestLatestWins(ts, news, i);
    DropClaimedClears(IngestAll(ts, news), claims);
    DropClaimedKeeps(IngestAll(ts, news), claims, news[i]);
  }

  /** The sweep keeps a task whose (x, z) no claim holds. */
  lemma {:induction false} DropClaimedKeeps(ts: seq<Task>, claims: seq<Claim>, t: Task)
    requires UniqueXZ(ts) && t in ts
    requires forall c :: 0 <= c < |claims| ==> !(t.position.x == claims[c].x && t.position.z == claims[c].z)
    ensures t in DropClaimed(ts, claims)
  {
    if claims != [] {
      var n := |claims|;
      var last := claims[n - 1];
      DropClaimedKeeps(ts, claims[..n - 1], t);
      DropClaimedClears(ts, claims[..n - 1]);
      var prev := DropClaimed(ts, claims[..n - 1]);
      SpliceMatchesUnique(prev, last.x, last.z);
      FilterMembers(prev, Not(AtXZ(last.x, last.z)));
      var j :| 0 <= j < |prev| && prev[j] == t;
      assert Not(AtXZ(last.x, last.z))(prev[j]);
    }
  }

  // ---------------------------------------------------------------- assignment

  /** A task `handleTaskRequest` may hand out: unassigned, and a harvest only of a farmable crop. */
  predicate Eligible(t: Task, farmableCrops: seq<string>)
  {
    t.assignedTo.None? && (t.kind == HarvestCrop ==> t.crop.Some? && t.crop.value in farmableCrops)
  }

  /** Squared XZ distance: it orders tasks as the source's `Math.sqrt` distance does. */
  function Dist2(t: Task, p: Pos): nat
  {
    var dx := t.position.x - p.x;
    var dz := t.position.z - p.z;
    dx * dx + dz * dz
  }

  /**
   * The task the stable sort puts first among the eligible ones: minimal
   * distance, and strictly nearer than every eligible task before it.
   */
  ghost predicate IsNearest(ts: seq<Task>, farmableCrops: seq<string>, p: Pos, r: nat)
  {
    r < |ts| && Eligible(ts[r], farmableCrops) &&
    (forall k :: 0 <= k < |ts| && Eligible(ts[k], farmableCrops) ==> Dist2(ts[r], p) <= Dist2(ts[k], p)) &&
    (forall k :: 0 <= k < r && Eligible(ts[k], farmableCrops) ==> Dist2(ts[r], p) < Dist2(ts[k], p))
  }

  /**
   * The index the handler's choice lands on, scanning the first `n` tasks:
   * a later eligible task replaces the current one only when strictly
   * nearer, so ties go to the earliest, as the stable sort's `[0]` does.
   */
  function NearestIn(ts: seq<Task>, farmableCrops: seq<string>, p: Pos, n: nat): (r: int)
    requires n <= |ts|
    ensures -1 <= r < n
  {
    if n == 0 then -1
    else
      var r := NearestIn(ts, farmableCrops, p, n - 1);
      if Eligible(ts[n - 1], farmableCrops) && (r == -1 || Dist2(ts[n - 1], p) < Dist2(ts[r], p)) then n - 1 else r
  }

  /** The task `handleTaskRequest` hands out, or -1 when none is eligible. */
  function Nearest(ts: seq<Task>, farmableCrops: seq<string>, p: Pos): (r: int)
    ensures -1 <= r < |ts|
  {
    NearestIn(ts, farmableCrops, p, |ts|)
  }

  lemma {:induction false} NearestInSpec(ts: seq<Task>, farmableCrops: seq<string>, p: Pos, n: nat)
    requires n <= |ts|
    ensures var r := NearestIn(ts, farmableCrops, p, n);
            (r == -1 <==> forall k :: 0 <= k < n ==> !Eligible(ts[k], farmableCrops)) &&
            (r != -1 ==>
               Eligible(ts[r], farmableCrops) &&
               (forall k :: 0 <= k < n && Eligible(ts[k], farmableCrops) ==> Dist2(ts[r], p) <= Dist2(ts[k], p)) &&
               (forall k :: 0 <= k < r && Eligible(ts[k], farmableCrops) ==> Dist2(ts[r], p) < Dist2(ts[k], p)))
  {
    if n > 0 {
      NearestInSpec(ts, farmableCrops, p, n - 1);
    }
  }

  /** `Nearest` is -1 exactly when no task is eligible, and otherwise the nearest task. */
  lemma NearestSpec(ts: seq<Task>, farmableCrops: seq<string>, p: Pos)
    ensures Nearest(ts, farmableCrops, p) == -1 <==> forall k :: 0 <= k < |ts| ==> !Eligible(ts[k], farmableCrops)
    ensures Nearest(ts, farmableCrops, p) != -1 ==> IsNearest(ts, farmableCrops, p, Nearest(ts, farmableCrops, p))
  {
    NearestInSpec(ts, farmableCrops, p, |ts|);
  }

  /** At most one index is the nearest, so the handler's choice is determined. */
  lemma NearestIsUnique(ts: seq<Task>, farmableCrops: seq<string>, p: Pos, r1: nat, r2: nat)
    requires IsNearest(ts, farmableCrops, p, r1) && IsNearest(ts, farmableCrops, p, r2)
    ensures r1 == r2
  {
  }

  /** Assigning one task changes no position, so uniqueness per (x, z) survives. */
  lemma AssignKeepsUnique(ts: seq<Task>, r: nat, s: Session)
    requires UniqueXZ(ts) && r < |ts|
    ensures UniqueXZ(ts[r := ts[r].(assignedTo := Some(s))])
  {
    var u := ts[r := ts[r].(assignedTo := Some(s))];
    forall i, j | 0 <= i < j < |u|
      ensures !SameXZ(u[i], u[j])
    {
      assert SameXZ(u[i], u[j]) == SameXZ(ts[i], ts[j]);
    }
  }

  /** An assigned task is no longer eligible: the same task is never handed out twice. */
  lemma AssignedNotEligible(ts: seq<Task>, r: nat, s: Session, farmableCrops: seq<string>)
    requires r < |ts|
    ensures !Eligible(ts[r := ts[r].(assignedTo := Some(s))][r], farmableCrops)
  {
  }

  // ---------------------------------------------------------------- disconnect

  function AssignedTo(s: Session): Task -> bool
  {
    (t: Task) => t.assignedTo == Some(s)
  }

  function HeldBy(s: Session): Claim -> bool
  {
    (c: Claim) => c.assignedTo == s
  }

  function OnSocket(s: Session): Farmer -> bool
  {
    (f: Farmer) => f.socket == s
  }

  function HasId(id: TaskId): Task -> bool
  {
    (t: Task) => t.id == id
  }

  function ClaimHasId(id: TaskId): Claim -> bool
  {
    (c: Claim) => c.id == id
  }

  /** After the cleanup no task is assigned to, and no claim held by, the gone session. */
  lemma CleanupLeavesNothing(ts: seq<Task>, cs: seq<Claim>, s: Session)
    ensures forall k :: 0 <= k < |Filter(ts, Not(AssignedTo(s)))| ==> Filter(ts, Not(AssignedTo(s)))[k].assignedTo != Some(s)
    ensures forall k :: 0 <= k < |Filter(cs, Not(HeldBy(s)))| ==> Filter(cs, Not(HeldBy(s)))[k].assignedTo != s
    ensures forall k :: 0 <= k < |ts| && ts[k].assignedTo != Some(s) ==> ts[k] in Filter(ts, Not(AssignedTo(s)))
  {
  }

  // ---------------------------------------------------------------- framing

  /** The requests the `data` handler dispatches from the pieces of one chunk, in order. */
  function Dispatched(pieces: seq<string>, parse: string -> Option<Request>): (r: seq<Request>)
    ensures |r| <= |pieces|
    ensures forall k :: 0 <= k < |r| ==> !r[k].OtherType?
  {
    if pieces == [] then []
    else
      var rest := Dispatched(pieces[1..], parse);
      match parse(pieces[0])
      case Some(req) => if req.OtherType? then rest else [req] + rest
      case None => rest
  }

  /** A chunk, split on `;`; pieces that do not parse or have an unknown `type` are ignored. */
  function Incoming(data: string, parse: string -> Option<Request>): seq<Request>
  {
    Dispatched(Framing.Split(data, Framing.Terminator), parse)
  }

  /**
   * Requests written framed, by a client whose serialisation the parser
   * inverts and which puts no `;` inside a record, are dispatched exactly
   * and in order.
   */
  lemma {:induction false} IncomingFramed(reqs: seq<Request>, enc: Request -> string, parse: string -> Option<Request>)
    requires parse([]) == None
    requires forall i :: 0 <= i < |reqs| ==> !reqs[i].OtherType? && Framing.Terminator !in enc(reqs[i]) && parse(enc(reqs[i])) == Some(reqs[i])
    ensures Incoming(Framing.FrameAll(seq(|reqs|, i requires 0 <= i < |reqs| => enc(reqs[i]))), parse) == reqs
  {
    var texts := seq(|reqs|, i requires 0 <= i < |reqs| => enc(reqs[i]));
    Framing.SplitFrameAll(texts);
    DispatchedAll(reqs, texts, parse);
  }

  lemma {:induction false} DispatchedAll(reqs: seq<Request>, texts: seq<string>, parse: string -> Option<Request>)
    requires parse([]) == None && |texts| == |reqs|
    requires forall i :: 0 <= i < |reqs| ==> !reqs[i].OtherType? && parse(texts[i]) == Some(reqs[i])
    ensures Dispatched(texts + [[]], parse) == reqs
  {
    if reqs != [] {
      DispatchedAll(reqs[1..], texts[1..], parse);
      assert (texts + [[]])[1..] == texts[1..] + [[]];
      assert reqs == [reqs[0]] + reqs[1..];
    }
  }
}
