/**
 * The farming loop of main.js (`initBot`): each pass may look for ripe
 * crops and for empty farmland and ask the claim server for one of them
 * (FINDBLOCK), lets a chat-forced task override the choice, performs the
 * chosen task (the game actions are not modelled) and moves to the next
 * task. The scans, the server's replies and the inventory are inputs.
 */
module BotLoop {
  import opened JsArrays
  import opened BotUtils
  import opened BlockClaims

  /** A `sendControlMessage` call of the loop. */
  datatype ControlRequest =
    | FindBlockRequest(blockList: seq<Block>, username: string)
    | ReleaseBlockRequest(block: Block, username: string)

  /**
   * What one pass observes: the inventory test, the ripe-crop scan, the
   * FINDBLOCK reply for it, the farmland scan, the FINDBLOCK reply for
   * that, and whether seeds are at hand. A reply is `None` when the
   * request resolved `false` (no control socket), else the ACK's `data`.
   */
  datatype Observation = Observation(
    inventoryFull: bool,
    grownCrops: seq<Block>,
    cropReply: Option<AckData>,
    farmlands: seq<Block>,
    farmlandReply: Option<AckData>,
    hasSeeds: bool)

  /** `targetBlock?.data?.x != null ? [targetBlock.data] : []`. */
  function Target(reply: Option<AckData>): (r: seq<Block>)
    ensures |r| <= 1
    ensures |r| == 1 <==> reply.Some? && reply.value.Found?
  {
    if reply.Some? && reply.value.Found? then [reply.value.block] else []
  }

  /** The pass's choice: the task after both scans, the two targets and the requests made. */
  datatype Choice = Choice(task: BotTask, grown: seq<Block>, farmlands: seq<Block>, requests: seq<ControlRequest>)

  /** The tasks during which the loop does not scan. */
  predicate Busy(task: BotTask)
  {
    task == ReturnHome || task == DropItems || task == BakkieDoen
  }

  /** The ripe-crop block: a full inventory means DROP_ITEMS; a granted crop means FARM_CROPS. */
  function ChooseCrop(task: BotTask, obs: Observation, username: string): Choice
  {
    if Busy(task) then Choice(task, [], [], [])
    else if obs.inventoryFull then Choice(DropItems, [], [], [])
    else if |obs.grownCrops| > 0 then
      var g := Target(obs.cropReply);
      Choice(if |g| > 0 then FarmCrops else task, g, [], [FindBlockRequest(obs.grownCrops, username)])
    else Choice(task, [], [], [])
  }

  /**
   * The pass's choice with the farmland scan awaited: while still IDLE, a
   * granted farmland position and seeds at hand mean SEED_CROPS.
   */
  function Choose(task: BotTask, obs: Observation, username: string): Choice
  {
    var c := ChooseCrop(task, obs, username);
    if c.task == Idle && |obs.farmlands| > 0 then
      var f := Target(obs.farmlandReply);
      Choice(if |f| > 0 && obs.hasSeeds then SeedCrops else Idle, c.grown, f,
             c.requests + [FindBlockRequest(obs.farmlands, username)])
    else c
  }

  /**
   * The pass as main.js binds its imports: it takes `findGrownWheat` from
   * utils/botUtils.js, which exports no such name (its scan is
   * `findgrownCrops`), so calling it throws whenever the crop block is
   * reached with room in the inventory, ending the loop (`None`).
   */
  function ChooseAsImported(task: BotTask, obs: Observation, username: string): Option<Choice>
  {
    if !Busy(task) && !obs.inventoryFull then None
    else Some(ChooseCrop(task, obs, username))
  }

  /** As imported, the loop never sends a FINDBLOCK, never farms or seeds, and stops at its first scan. */
  lemma AsImportedNeverAsks(task: BotTask, obs: Observation, username: string)
    ensures !Busy(task) && !obs.inventoryFull ==> ChooseAsImported(task, obs, username).None?
    ensures ChooseAsImported(task, obs, username).Some? ==>
              ChooseAsImported(task, obs, username).value.requests == [] &&
              ChooseAsImported(task, obs, username).value.task != FarmCrops &&
              ChooseAsImported(task, obs, username).value.task != SeedCrops
    ensures ChooseAsImported(task, obs, username).Some? ==>
              ChooseAsImported(task, obs, username) == Some(Choose(task, obs, username))
  {
  }

  /** From the start (RETURN_HOME, nothing forced), the second pass stops unless the inventory is full. */
  lemma AsImportedStopsOnSecondPass(first: Observation, second: Observation, username: string)
    requires !second.inventoryFull
    ensures ChooseAsImported(ReturnHome, first, username).Some?
    ensures var t := Forced(ChooseAsImported(ReturnHome, first, username).value.task, None).0;
            Next(t) == Idle && ChooseAsImported(Next(t), second, username).None?
  {
  }

  /**
   * The choice with the crop scan bound but the farmland scan as written:
   * its promise is not awaited, so `.filter` on it throws whenever the
   * loop reaches that block, ending the loop (`None`).
   */
  function ChooseAsWritten(task: BotTask, obs: Observation, username: string): Option<Choice>
  {
    var c := ChooseCrop(task, obs, username);
    if c.task == Idle then None else Some(c)
  }

  /** As written, the loop never seeds, and it stops at the first IDLE pass that found no crop to farm. */
  lemma AsWrittenNeverSeeds(task: BotTask, obs: Observation, username: string)
    requires task != SeedCrops
    ensures ChooseAsWritten(task, obs, username).Some? ==> ChooseAsWritten(task, obs, username).value.task != SeedCrops
    ensures task == Idle && !obs.inventoryFull && Target(obs.cropReply) == [] ==> ChooseAsWritten(task, obs, username).None?
    ensures ChooseAsWritten(task, obs, username).Some? ==> ChooseAsWritten(task, obs, username) == Some(Choose(task, obs, username))
  {
  }

  /** With the scan awaited, an IDLE pass that is granted farmland and has seeds does seed. */
  lemma SeedsWhenGranted(obs: Observation, username: string, b: Block)
    requires !obs.inventoryFull && Target(obs.cropReply) == [] && |obs.farmlands| > 0
    requires obs.farmlandReply == Some(Found(b)) && obs.hasSeeds
    ensures Choose(Idle, obs, username).task == SeedCrops
    ensures Choose(Idle, obs, username).farmlands == [b]
  {
  }

  /** While returning home, dropping items or on a break, no scan and no FINDBLOCK happen. */
  lemma BusyDoesNotScan(task: BotTask, obs: Observation, username: string)
    requires Busy(task)
    ensures Choose(task, obs, username) == Choice(task, [], [], [])
  {
  }

  /** Otherwise a full inventory means DROP_ITEMS, with no scan. */
  lemma FullInventoryDrops(task: BotTask, obs: Observation, username: string)
    requires !Busy(task) && obs.inventoryFull
    ensures Choose(task, obs, username) == Choice(DropItems, [], [], [])
  {
  }

  /** FARM_CROPS and SEED_CROPS are chosen only with a position the claim server granted. */
  lemma ChosenOnlyWhenGranted(task: BotTask, obs: Observation, username: string)
    requires task != FarmCrops && task != SeedCrops
    ensures var c := Choose(task, obs, username);
            c.task == FarmCrops ==>
              (!obs.inventoryFull && |obs.grownCrops| > 0 &&
               obs.cropReply.Some? && obs.cropReply.value.Found? && c.grown == [obs.cropReply.value.block])
    ensures var c := Choose(task, obs, username);
            c.task == SeedCrops ==>
              (task == Idle && !obs.inventoryFull && (|obs.grownCrops| == 0 || Target(obs.cropReply) == []) &&
               obs.hasSeeds && obs.farmlandReply.Some? && obs.farmlandReply.value.Found? &&
               c.farmlands == [obs.farmlandReply.value.block])
  {
  }

  /** `if (forceTask)`: a truthy forced task (IDLE, 0, is falsy) replaces the task and is cleared unless it is BAKKIE_DOEN. */
  function Forced(task: BotTask, forceTask: Option<BotTask>): (r: (BotTask, Option<BotTask>))
    ensures forceTask.Some? && forceTask.value != Idle ==>
              r.0 == forceTask.value && r.1 == (if forceTask.value == BakkieDoen then forceTask else None)
    ensures forceTask.None? || forceTask.value == Idle ==> r == (task, forceTask)
  {
    if forceTask.Some? && Code(forceTask.value) != 0 then
      (forceTask.value, if Code(forceTask.value) != Code(BakkieDoen) then None else forceTask)
    else (task, forceTask)
  }

  /** The task after performing `task` (the `switch`'s assignments). */
  function Next(task: BotTask): BotTask
  {
    match task
    case BakkieDoen => BakkieDoen
    case DropItems => ReturnHome
    case ReturnHome => Idle
    case SeedCrops => Idle
    case FarmCrops => Idle
    case Idle => BakkieDoen
    case Teamleider => Teamleider
  }

  /** SEED_CROPS and FARM_CROPS release their target afterwards, whatever the action's outcome. */
  function Releases(task: BotTask, c: Choice, username: string): seq<ControlRequest>
  {
    if task == SeedCrops && |c.farmlands| > 0 then [ReleaseBlockRequest(c.farmlands[0], username)]
    else if task == FarmCrops && |c.grown| > 0 then [ReleaseBlockRequest(c.grown[0], username)]
    else []
  }

  /** The tasks the loop can be in at the top of a pass. */
  predicate AtLoopTop(task: BotTask)
  {
    task == ReturnHome || task == Idle || task == BakkieDoen
  }

  /** The values the chat handler can force. */
  predicate Forceable(forceTask: Option<BotTask>)
  {
    forceTask.None? || forceTask.value == BakkieDoen || forceTask.value == ReturnHome
  }

  /** A pass keeps the task among RETURN_HOME, IDLE and BAKKIE_DOEN at the loop top, and the forced task forceable. */
  lemma PassKeepsLoopTop(task: BotTask, forceTask: Option<BotTask>, obs: Observation, username: string)
    requires AtLoopTop(task) && Forceable(forceTask)
    ensures var t := Forced(Choose(task, obs, username).task, forceTask);
            AtLoopTop(Next(t.0)) && Forceable(t.1)
  {
    var c := Choose(task, obs, username);
    assert c.task in {task, DropItems, FarmCrops, SeedCrops, Idle};
  }

  /** Every SEED_CROPS or FARM_CROPS pass releases exactly the position it was granted. */
  lemma WorkReleasesTarget(task: BotTask, forceTask: Option<BotTask>, obs: Observation, username: string)
    requires AtLoopTop(task) && Forceable(forceTask)
    ensures var c := Choose(task, obs, username);
            var t := Forced(c.task, forceTask).0;
            (t == SeedCrops ==> Releases(t, c, username) == [ReleaseBlockRequest(obs.farmlandReply.value.block, username)]) &&
            (t == FarmCrops ==> Releases(t, c, username) == [ReleaseBlockRequest(obs.cropReply.value.block, username)])
  {
    ChosenOnlyWhenGranted(task, obs, username);
  }

  /** Without a forced task, BAKKIE_DOEN is never left and asks nothing of the claim server. */
  lemma BreakIsAbsorbing(obs: Observation, username: string)
    ensures var c := Choose(BakkieDoen, obs, username);
            var t := Forced(c.task, None);
            t == (BakkieDoen, None) && Next(t.0) == BakkieDoen && c.requests == [] && Releases(t.0, c, username) == []
  {
  }

  /** The post-action transitions. */
  lemma Transitions()
    ensures Next(DropItems) == ReturnHome && Next(ReturnHome) == Idle
    ensures Next(SeedCrops) == Idle && Next(FarmCrops) == Idle
    ensures Next(Idle) == BakkieDoen && Next(BakkieDoen) == BakkieDoen
  {
  }

  /** Between passes: a chat line, or the next pass with what it observes. */
  datatype Event = Chat(bakkieDoen: bool, werrekuh: bool) | Pass(obs: Observation)

  predicate IsPass(e: Event)
  {
    e.Pass?
  }

  /** What the loop and the chat handler change: the task, the forced task, the requests sent and the tasks performed. */
  datatype LoopState = LoopState(task: BotTask, force: Option<BotTask>, requests: seq<ControlRequest>, performed: seq<BotTask>)

  /** A chat line: "werrekuh" forces RETURN_HOME, else "bakkie doen" forces BAKKIE_DOEN, else nothing changes. */
  function ChatStep(st: LoopState, bakkieDoen: bool, werrekuh: bool): LoopState
  {
    st.(force := if werrekuh then Some(ReturnHome) else if bakkieDoen then Some(BakkieDoen) else st.force)
  }

  /**
   * A pass: the awaited-scan choice, overridden by the forced task, is
   * performed; its FINDBLOCKs and then its release are sent, and the loop
   * moves to the task that follows it.
   */
  function PassStep(st: LoopState, obs: Observation, username: string): LoopState
  {
    var c := Choose(st.task, obs, username);
    var t := Forced(c.task, st.force);
    LoopState(Next(t.0), t.1, st.requests + c.requests + Releases(t.0, c, username), st.performed + [t.0])
  }

  function Step(st: LoopState, e: Event, username: string): LoopState
  {
    match e
    case Chat(b, w) => ChatStep(st, b, w)
    case Pass(obs) => PassStep(st, obs, username)
  }

  /** The events in order, from `st`. */
  function RunAll(st: LoopState, events: seq<Event>, username: string): LoopState
  {
    if events == [] then st else Step(RunAll(st, events[..|events| - 1], username), events[|events| - 1], username)
  }

  lemma RunAllStep(st: LoopState, events: seq<Event>, username: string, n: nat)
    requires n < |events|
    ensures RunAll(st, events[..n + 1], username) == Step(RunAll(st, events[..n], username), events[n], username)
  {
    assert events[..n + 1][..n] == events[..n];
  }

  /** Any run of chat lines and passes keeps the loop top at RETURN_HOME, IDLE or BAKKIE_DOEN and the forced task forceable. */
  lemma {:induction false} RunAllKeepsLoopTop(st: LoopState, events: seq<Event>, username: string)
    requires AtLoopTop(st.task) && Forceable(st.force)
    ensures AtLoopTop(RunAll(st, events, username).task) && Forceable(RunAll(st, events, username).force)
  {
    if events != [] {
      var prefix := events[..|events| - 1];
      RunAllKeepsLoopTop(st, prefix, username);
      var last := events[|events| - 1];
      if last.Pass? {
        var mid := RunAll(st, prefix, username);
        PassKeepsLoopTop(mid.task, mid.force, last.obs, username);
      }
    }
  }

  /**
   * Each pass performs exactly one task and chat lines perform none; the
   * tasks performed and the requests sent before are kept as a prefix.
   */
  lemma {:induction false} RunAllHistory(st: LoopState, events: seq<Event>, username: string)
    ensures var r := RunAll(st, events, username);
            |r.performed| == |st.performed| + |Filter(events, IsPass)| &&
            st.performed <= r.performed && st.requests <= r.requests
  {
    if events != [] {
      var n := |events| - 1;
      RunAllHistory(st, events[..n], username);
      FilterSnoc(events, n, IsPass);
      assert events[..n + 1] == events;
    }
  }

  /** The scanning half of a pass, with the farmland scan awaited; each scan sends its FINDBLOCK. */
  method Scan(task: BotTask, obs: Observation, username: string) returns (c: Choice)
    ensures c == Choose(task, obs, username)
  {
    var current := task;
    var grownWheat: seq<Block> := [];
    var emptyFarmlands: seq<Block> := [];
    var sent: seq<ControlRequest> := [];
    if current != ReturnHome && current != DropItems && current != BakkieDoen {
      if obs.inventoryFull {
        current := DropItems;
      } else {
        grownWheat := obs.grownCrops;
        if |grownWheat| > 0 {
          sent := sent + [FindBlockRequest(grownWheat, username)];
          grownWheat := Target(obs.cropReply);
        }
        if |grownWheat| > 0 {
          current := FarmCrops;
        }
      }
    }
    if current == Idle {
      emptyFarmlands := obs.farmlands;
      if |emptyFarmlands| > 0 {
        sent := sent + [FindBlockRequest(emptyFarmlands, username)];
        emptyFarmlands := Target(obs.farmlandReply);
      }
      if |emptyFarmlands| > 0 && obs.hasSeeds {
        current := SeedCrops;
      }
    }
    c := Choice(current, grownWheat, emptyFarmlands, sent);
  }

  /** The `switch`: the task after this one, and the release a SEED_CROPS or FARM_CROPS pass sends. */
  method Perform(task: BotTask, c: Choice, username: string) returns (next: BotTask, released: seq<ControlRequest>)
    ensures next == Next(task) && released == Releases(task, c, username)
  {
    released := [];
    match task {
      case BakkieDoen =>
        next := BakkieDoen;
      case DropItems =>
        next := ReturnHome;
      case ReturnHome =>
        next := Idle;
      case SeedCrops =>
        if |c.farmlands| > 0 {
          released := [ReleaseBlockRequest(c.farmlands[0], username)];
        }
        next := Idle;
      case FarmCrops =>
        if |c.grown| > 0 {
          released := [ReleaseBlockRequest(c.grown[0], username)];
        }
        next := Idle;
      case Idle =>
        next := BakkieDoen;
      case Teamleider =>
        next := Teamleider;
    }
  }

  class Bot {
    const username: string
    var currentTask: BotTask
    /** The module-level `forceTask` the chat handler sets. */
    var forceTask: Option<BotTask>
    /** Every `sendControlMessage` call, in order. */
    var requests: seq<ControlRequest>
    /** The task performed by each pass, in order. */
    var performed: seq<BotTask>

    ghost predicate Valid()
      reads this
    {
      AtLoopTop(currentTask) && Forceable(forceTask)
    }

    function Snapshot(): LoopState
      reads this
    {
      LoopState(currentTask, forceTask, requests, performed)
    }

    /** The loop starts at RETURN_HOME. */
    constructor (name: string)
      ensures Valid()
      ensures username == name && currentTask == ReturnHome && forceTask == None
      ensures requests == [] && performed == []
    {
      username := name;
      currentTask, forceTask := ReturnHome, None;
      requests, performed := [], [];
    }

    /** The chat handler: "bakkie doen" forces BAKKIE_DOEN, "werrekuh" RETURN_HOME (checked second). */
    method OnChat(bakkieDoen: bool, werrekuh: bool)
      requires Valid()
      modifies this
      ensures Valid()
      ensures Snapshot() == ChatStep(old(Snapshot()), bakkieDoen, werrekuh)
    {
      if bakkieDoen {
        forceTask := Some(BakkieDoen);
      }
      if werrekuh {
        forceTask := Some(ReturnHome);
      }
    }

    /** One pass of `while (runLoop)`, with the farmland scan awaited. */
    method Iterate(obs: Observation)
      requires Valid()
      modifies this
      ensures Valid()
      ensures Snapshot() == PassStep(old(Snapshot()), obs, username)
    {
      PassKeepsLoopTop(currentTask, forceTask, obs, username);
      var c := Scan(currentTask, obs, username);
      var task, force := c.task, forceTask;
      if force.Some? && Code(force.value) != 0 {
        task := force.value;
        if Code(force.value) != Code(BakkieDoen) {
          force := None;
        }
      }
      var next, released := Perform(task, c, username);
      performed, currentTask, forceTask := performed + [task], next, force;
      requests := requests + c.requests + released;
    }

    /** The loop over a run of chat lines and passes. */
    method Run(events: seq<Event>)
      requires Valid()
      modifies this
      ensures Valid()
      ensures Snapshot() == RunAll(old(Snapshot()), events, username)
    {
      var i := 0;
      while i < |events|
        invariant 0 <= i <= |events|
        invariant Valid()
        invariant Snapshot() == RunAll(old(Snapshot()), events[..i], username)
      {
        RunAllStep(old(Snapshot()), events, username, i);
        match events[i] {
          case Chat(b, w) =>
            OnChat(b, w);
          case Pass(obs) =>
            Iterate(obs);
        }
        i := i + 1;
      }
      assert events[..i] == events;
    }
  }
}
