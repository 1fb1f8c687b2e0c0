/** The state restoration: polling the contract's logs window by window, and processing each verified
    block once. */
module DataRestore {
  import opened BlockEvents
  import opened Common

  /** The logs of every Ethereum block, by block number; what lies `endEthBlocksOffset` behind the head
      does not change any more. */
  type Chain = seq<seq<Log>>

  function LogsAt(chain: Chain, ethBlock: nat): seq<Log> {
    if ethBlock < |chain| then chain[ethBlock] else []
  }

  function LogsBetween(chain: Chain, from: nat, until: nat): seq<Log>
    decreases until
  {
    if from > until then []
    else if until == 0 then LogsAt(chain, 0)
    else LogsBetween(chain, from, until - 1) + LogsAt(chain, until)
  }

  function LogsUpTo(chain: Chain, until: nat): seq<Log> {
    LogsBetween(chain, 0, until)
  }

  lemma {:induction false} LogsSplit(chain: Chain, mid: nat, until: nat)
    requires mid <= until
    ensures LogsUpTo(chain, until) == LogsUpTo(chain, mid) + LogsBetween(chain, mid + 1, until)
    decreases until
  {
    hide LogsAt;
    if until > mid {
      LogsSplit(chain, mid, until - 1);
      Regroup(LogsUpTo(chain, mid), LogsBetween(chain, mid + 1, until - 1), LogsAt(chain, until));
    }
  }

  /** All logs are the contract's own. */
  predicate Lawful(chain: Chain) {
    EmitsAll(DEPLOYED, LogsUpTo(chain, |chain|))
  }

  lemma {:induction false} NothingLater(chain: Chain, until: nat)
    requires until >= |chain|
    ensures LogsUpTo(chain, until) == LogsUpTo(chain, |chain|)
    decreases until
  {
    if until > |chain| {
      NothingLater(chain, until - 1);
    }
  }

  lemma {:induction false} LawfulSoFar(chain: Chain, until: nat)
    requires Lawful(chain)
    ensures EmitsAll(DEPLOYED, LogsUpTo(chain, until))
  {
    if until < |chain| {
      LogsSplit(chain, until, |chain|);
      LogsConcat(DEPLOYED, LogsUpTo(chain, until), LogsBetween(chain, until + 1, |chain|));
    } else {
      NothingLater(chain, until);
    }
  }

  /** The contract once the logs up to an Ethereum block happened. */
  function ContractAt(chain: Chain, until: nat): (k: Contract)
    requires Lawful(chain)
    ensures k.verified <= |k.committed|
  {
    LawfulSoFar(chain, until);
    AfterLogs(DEPLOYED, LogsUpTo(chain, until))
  }

  lemma {:induction false} ContractMoves(chain: Chain, mid: nat, until: nat)
    requires Lawful(chain) && mid <= until
    ensures EmitsAll(ContractAt(chain, mid), LogsBetween(chain, mid + 1, until))
    ensures ContractAt(chain, until) == AfterLogs(ContractAt(chain, mid), LogsBetween(chain, mid + 1, until))
    ensures VerifiedBlocks(ContractAt(chain, mid)) <= VerifiedBlocks(ContractAt(chain, until))
  {
    LawfulSoFar(chain, until);
    LawfulSoFar(chain, mid);
    LogsSplit(chain, mid, until);
    LogsConcat(DEPLOYED, LogsUpTo(chain, mid), LogsBetween(chain, mid + 1, until));
    VerifiedBlocksStay(ContractAt(chain, mid), LogsBetween(chain, mid + 1, until));
  }

  // ----- one round

  /** What the last finished write of the database was about: `None`, `Events` and `Operations`. */
  datatype StorageUpdateState = Nothing | EventsSaved | OperationsSaved

  /** The database: the events and the last watched block, the blocks whose operations are waiting to be
      applied, and the blocks the stored tree was updated with. */
  datatype Database = Database(events: Events, watched: nat, ops: seq<BlockEvent>, state: StorageUpdateState, blocks: seq<BlockEvent>)

  function SaveEventsState(db: Database, events: Events, watched: nat): Database {
    db.(events := events, watched := watched, state := EventsSaved)
  }

  function SaveRollupOps(db: Database, ops: seq<BlockEvent>): Database {
    db.(ops := ops, state := OperationsSaved)
  }

  /** The blocks are saved one by one. */
  function SaveBlocks(db: Database, blocks: seq<BlockEvent>): Database {
    if blocks == [] then db else db.(state := Nothing, blocks := db.blocks + blocks)
  }

  /** What the driver keeps: the events, the last watched block and the blocks the tree was updated with,
      in order, and the database. */
  datatype State = State(events: Events, watched: nat, treeBlocks: seq<BlockEvent>, db: Database)

  const NO_EVENTS := Events([], [])

  function Started(genesis: nat): State {
    State(NO_EVENTS, genesis, [], Database(NO_EVENTS, genesis, [], EventsSaved, []))
  }

  /** The last block of the next window. */
  function WindowEnd(watched: nat, latest: nat, step: nat): nat {
    if watched + 1 + step >= latest then latest else watched + 1 + step
  }

  /** A query whose end is before its start finds nothing. */
  function WindowLogs(chain: Chain, watched: nat, latest: nat, step: nat): seq<Log> {
    LogsBetween(chain, watched + 1, WindowEnd(watched, latest, step))
  }

  /** The events without those that were processed. */
  function Drained(es: Events): Events
    requires |es.verified| <= |es.committed|
  {
    Events(es.committed[|es.verified|..], [])
  }

  /** The commit events of the blocks to process. */
  function Processable(es: Events): seq<BlockEvent>
    requires |es.verified| <= |es.committed|
  {
    es.committed[..|es.verified|]
  }

  /** The events that are returned and saved: none after a window without logs. */
  function Returned(es: Events, logs: seq<Log>): Events {
    if logs == [] then NO_EVENTS else es
  }

  /** One round of the run loop; no result stands for the panic of a drain or slice out of range. */
  function Round(chain: Chain, s: State, latest: nat, step: nat): Option<State> {
    if |s.events.verified| > |s.events.committed| then None
    else
      var until, logs := WindowEnd(s.watched, latest, step), WindowLogs(chain, s.watched, latest, step);
      var es := ApplyLogs(Drained(s.events), logs);
      var db := SaveEventsState(s.db, Returned(es, logs), until);
      if db.events == NO_EVENTS then Some(State(es, until, s.treeBlocks, db))
      else if |es.verified| > |es.committed| then None
      else Some(State(es, until, s.treeBlocks + Processable(es), SaveBlocks(SaveRollupOps(db, Processable(es)), Processable(es))))
  }

  /** The database after each block is saved. */
  function TreeWrites(db: Database, blocks: seq<BlockEvent>): (dbs: seq<Database>)
    ensures |dbs| == |blocks|
  {
    seq(|blocks|, j requires 0 <= j < |blocks| => SaveBlocks(db, blocks[..j + 1]))
  }

  /** The database after each write of a round. */
  function Writes(chain: Chain, s: State, latest: nat, step: nat): (dbs: seq<Database>)
    requires |s.events.verified| <= |s.events.committed|
    ensures |dbs| > 0
  {
    var until, logs := WindowEnd(s.watched, latest, step), WindowLogs(chain, s.watched, latest, step);
    var es := ApplyLogs(Drained(s.events), logs);
    var db := SaveEventsState(s.db, Returned(es, logs), until);
    if db.events == NO_EVENTS || |es.verified| > |es.committed| then [db]
    else [db, SaveRollupOps(db, Processable(es))] + TreeWrites(SaveRollupOps(db, Processable(es)), Processable(es))
  }

  /** Exactly the verified blocks were processed, and the events that are left are the commits of the
      blocks that wait for their verification. */
  predicate Restored(chain: Chain, s: State)
    requires Lawful(chain)
  {
    var k := ContractAt(chain, s.watched);
    && s.treeBlocks == VerifiedBlocks(k)
    && |s.events.verified| <= |s.events.committed|
    && Drained(s.events).committed == CommitEvents(k, k.verified)
  }

  /** The contract at the head is not older than at the last watched block. */
  predicate HeadHolds(chain: Chain, watched: nat, latest: nat)
    requires Lawful(chain)
  {
    latest >= watched || ContractAt(chain, latest) == ContractAt(chain, watched)
  }

  lemma {:induction false} NothingBehind(chain: Chain, from: nat, until: nat)
    requires from > until
    ensures LogsBetween(chain, from, until) == []
  {
  }

  /** The events after a forward window from a restored state. */
  lemma {:induction false} WindowIsTracked(chain: Chain, s: State, latest: nat, step: nat)
    requires Lawful(chain) && Restored(chain, s) && latest >= s.watched
    ensures var es := ApplyLogs(Drained(s.events), WindowLogs(chain, s.watched, latest, step));
            Tracks(es, ContractAt(chain, s.watched).verified, ContractAt(chain, WindowEnd(s.watched, latest, step)))
  {
    var k := ContractAt(chain, s.watched);
    assert Tracks(Drained(s.events), k.verified, k);
    hide ContractAt, Lawful, LogsBetween, Tracks, VerifiedBlocks;
    ContractMoves(chain, s.watched, WindowEnd(s.watched, latest, step));
    LogsAreTracked(Drained(s.events), k.verified, k, WindowLogs(chain, s.watched, latest, step));
  }

  lemma {:induction false} NoLogsNoChange(es: Events, logs: seq<Log>)
    requires logs == []
    ensures ApplyLogs(es, logs) == es
  {
  }

  /** Forward windows: the verified prefix of the events completes the processed blocks. */
  lemma {:induction false} ForwardRound(chain: Chain, s: State, latest: nat, step: nat)
    requires Lawful(chain) && Restored(chain, s) && latest >= s.watched
    ensures Round(chain, s, latest, step).Some? && Restored(chain, Round(chain, s, latest, step).value)
  {
    var until, logs := WindowEnd(s.watched, latest, step), WindowLogs(chain, s.watched, latest, step);
    var k, k' := ContractAt(chain, s.watched), ContractAt(chain, until);
    var es := ApplyLogs(Drained(s.events), logs);
    WindowIsTracked(chain, s, latest, step);
    ContractMoves(chain, s.watched, until);
    DoneCount(k);
    PrefixCompletes(es, k.verified, s.treeBlocks, k');
    DrainIsTracked(es, k.verified, k');
    hide VerifiedBlocks, LogsBetween, WindowEnd, EmitsAll, ContractAt, Lawful, AfterLogs, ApplyLogs;
    assert s.treeBlocks + Processable(es) == VerifiedBlocks(k') && Drained(es).committed == CommitEvents(k', k'.verified);
    if logs == [] {
      NoLogsNoChange(Drained(s.events), logs);
    }
    if |es.verified| == 0 {
      assert s.treeBlocks + Processable(es) == s.treeBlocks;
    }
  }

  lemma {:induction false} DoneCount(k: Contract)
    requires k.verified <= |k.committed|
    ensures |VerifiedBlocks(k)| == k.verified
  {
  }

  /** The processed blocks and the ones waiting determine the contract. */
  lemma {:induction false} ContractIsKnown(k: Contract, m: Contract)
    requires k.verified <= |k.committed| && m.verified <= |m.committed|
    requires VerifiedBlocks(k) == VerifiedBlocks(m) && CommitEvents(k, k.verified) == CommitEvents(m, m.verified)
    ensures k == m
  {
    DoneCount(k);
    DoneCount(m);
    forall i | 0 <= i < |k.committed|
      ensures k.committed[i] == m.committed[i]
    {
      if i < k.verified {
        assert VerifiedBlocks(k)[i] == VerifiedBlocks(m)[i];
      } else {
        assert CommitEvents(k, k.verified)[i - k.verified] == CommitEvents(m, m.verified)[i - k.verified];
      }
    }
  }

  /** The round theorem: for a lawful contract a round never panics, and it processes exactly the blocks
      that were verified in its window, unless the head fell back to an older contract. */
  lemma {:induction false} RoundRestoresIff(chain: Chain, s: State, latest: nat, step: nat)
    requires Lawful(chain) && Restored(chain, s)
    ensures Round(chain, s, latest, step).Some?
    ensures Restored(chain, Round(chain, s, latest, step).value) <==> HeadHolds(chain, s.watched, latest)
  {
    if latest >= s.watched {
      ForwardRound(chain, s, latest, step);
    } else {
      NothingBehind(chain, s.watched + 1, latest);
      var next := Round(chain, s, latest, step).value;
      assert next == State(Drained(s.events), latest, s.treeBlocks, SaveEventsState(s.db, NO_EVENTS, latest));
      assert Drained(next.events) == next.events;
      if Restored(chain, next) {
        ContractIsKnown(ContractAt(chain, s.watched), ContractAt(chain, latest));
      }
    }
  }

  // ----- whole runs

  /** No head falls back to an older contract. */
  predicate HeadsHold(chain: Chain, watched: nat, latests: seq<nat>, step: nat)
    requires Lawful(chain)
    decreases |latests|
  {
    latests == [] ||
    (HeadHolds(chain, watched, latests[0]) && HeadsHold(chain, WindowEnd(watched, latests[0], step), latests[1..], step))
  }

  function Rounds(chain: Chain, s: State, latests: seq<nat>, step: nat): Option<State>
    decreases |latests|
  {
    if latests == [] then Some(s)
    else
      var next := Round(chain, s, latests[0], step);
      if next.None? then None else Rounds(chain, next.value, latests[1..], step)
  }

  /** Whatever the windows are, the processed blocks are the verified blocks of the contract at the last
      watched block: once each, in order, each with the commit transaction that stands. */
  lemma {:induction false} RunRestores(chain: Chain, s: State, latests: seq<nat>, step: nat)
    requires Lawful(chain) && Restored(chain, s) && HeadsHold(chain, s.watched, latests, step)
    ensures Rounds(chain, s, latests, step).Some? && Restored(chain, Rounds(chain, s, latests, step).value)
    decreases |latests|
  {
    if latests != [] {
      hide Restored, Lawful, HeadHolds;
      RoundRestoresIff(chain, s, latests[0], step);
      assert Round(chain, s, latests[0], step).value.watched == WindowEnd(s.watched, latests[0], step);
      RunRestores(chain, Round(chain, s, latests[0], step).value, latests[1..], step);
    }
  }

  /** The state is restored after a run. */
  predicate RunIsRestored(chain: Chain, s: State, latests: seq<nat>, step: nat)
    requires Lawful(chain)
  {
    Rounds(chain, s, latests, step).Some? && Restored(chain, Rounds(chain, s, latests, step).value)
  }

  /** After every prefix of the rounds. */
  predicate AlwaysRestored(chain: Chain, s: State, latests: seq<nat>, step: nat)
    requires Lawful(chain)
  {
    forall n :: 0 <= n <= |latests| ==> RunIsRestored(chain, s, latests[..n], step)
  }

  /** A run keeps to the contract after every round if and only if no head falls back to an older
      contract. */
  lemma {:induction false} RunRestoresIff(chain: Chain, s: State, latests: seq<nat>, step: nat)
    requires Lawful(chain) && Restored(chain, s)
    ensures AlwaysRestored(chain, s, latests, step) <==> HeadsHold(chain, s.watched, latests, step)
    decreases |latests|
  {
    hide Restored, Lawful, HeadHolds, WindowEnd;
    if latests == [] {
      assert latests[..0] == [];
    } else {
      RoundRestoresIff(chain, s, latests[0], step);
      var next, rest := Round(chain, s, latests[0], step).value, latests[1..];
      NextWatched(chain, s, latests[0], step);
      FirstRound(chain, s, latests, step);
      if HeadHolds(chain, s.watched, latests[0]) {
        RunRestoresIff(chain, next, rest, step);
        PrefixesShift(chain, s, latests, step);
      } else {
        assert !RunIsRestored(chain, s, latests[..1], step);
      }
    }
  }

  lemma {:induction false} NextWatched(chain: Chain, s: State, latest: nat, step: nat)
    requires Round(chain, s, latest, step).Some?
    ensures Round(chain, s, latest, step).value.watched == WindowEnd(s.watched, latest, step)
  {
  }

  lemma {:induction false} FirstRound(chain: Chain, s: State, latests: seq<nat>, step: nat)
    requires latests != []
    ensures Rounds(chain, s, latests[..1], step) == Round(chain, s, latests[0], step)
  {
    hide Round;
    assert latests[..1] == [latests[0]] && latests[..1][1..] == [];
  }

  lemma {:induction false} PrefixesShift(chain: Chain, s: State, latests: seq<nat>, step: nat)
    requires Lawful(chain) && Restored(chain, s) && latests != [] && Round(chain, s, latests[0], step).Some?
    ensures AlwaysRestored(chain, s, latests, step)
       <==> AlwaysRestored(chain, Round(chain, s, latests[0], step).value, latests[1..], step)
  {
    hide Restored, Lawful, Round;
    var next, rest := Round(chain, s, latests[0], step).value, latests[1..];
    assert latests[..0] == [] && RunIsRestored(chain, s, latests[..0], step);
    forall n | 0 <= n <= |rest|
      ensures RunIsRestored(chain, s, latests[..n + 1], step) <==> RunIsRestored(chain, next, rest[..n], step)
    {
      assert latests[..n + 1][0] == latests[0] && latests[..n + 1][1..] == rest[..n];
    }
    if AlwaysRestored(chain, next, rest, step) {
      forall n | 0 < n <= |latests|
        ensures RunIsRestored(chain, s, latests[..n], step)
      {
        assert RunIsRestored(chain, next, rest[..n - 1], step);
      }
    }
    if AlwaysRestored(chain, s, latests, step) {
      forall n | 0 <= n <= |rest|
        ensures RunIsRestored(chain, next, rest[..n], step)
      {
        assert RunIsRestored(chain, s, latests[..n + 1], step);
      }
    }
  }

  predicate Nondecreasing(ns: seq<nat>) {
    forall i, j :: 0 <= i < j < |ns| ==> ns[i] <= ns[j]
  }

  lemma {:induction false} NoLogsBefore(chain: Chain, from: nat, until: nat)
    requires LogsUpTo(chain, until) == [] && from <= until
    ensures LogsUpTo(chain, from) == []
  {
    LogsSplit(chain, from, until);
  }

  /** Heads that never decrease hold, also when the first of them are still before the block the
      restoration starts from. */
  lemma {:induction false} MonotoneHeadsHold(chain: Chain, watched: nat, latests: seq<nat>, step: nat)
    requires Lawful(chain) && Nondecreasing(latests)
    requires LogsUpTo(chain, watched) == [] || latests == [] || watched <= latests[0]
    ensures HeadsHold(chain, watched, latests, step)
    decreases |latests|
  {
    if latests != [] {
      var latest, until := latests[0], WindowEnd(watched, latests[0], step);
      if latest < watched {
        NoLogsBefore(chain, latest, watched);
      }
      hide LogsBetween, LogsUpTo, Lawful;
      MonotoneHeadsHold(chain, until, latests[1..], step);
    }
  }

  function Watched(watched: nat, latests: seq<nat>, step: nat): nat
    decreases |latests|
  {
    if latests == [] then watched else Watched(WindowEnd(watched, latests[0], step), latests[1..], step)
  }

  lemma {:induction false} RoundsWatch(chain: Chain, s: State, latests: seq<nat>, step: nat)
    requires Rounds(chain, s, latests, step).Some?
    ensures Rounds(chain, s, latests, step).value.watched == Watched(s.watched, latests, step)
    decreases |latests|
  {
    if latests != [] {
      RoundsWatch(chain, Round(chain, s, latests[0], step).value, latests[1..], step);
    }
  }

  /** The restoration catches up: every round advances by a window or reaches the goal. */
  lemma {:induction false} CatchesUp(watched: nat, latests: seq<nat>, step: nat, goal: nat)
    requires watched <= goal && forall i :: 0 <= i < |latests| ==> latests[i] >= goal
    requires |latests| * (step + 1) >= goal - watched
    ensures Watched(watched, latests, step) >= goal
    decreases |latests|
  {
    if latests != [] {
      var until := WindowEnd(watched, latests[0], step);
      assert |latests| * (step + 1) == |latests[1..]| * (step + 1) + (step + 1);
      if until <= goal {
        CatchesUp(until, latests[1..], step, goal);
      } else {
        StaysAhead(until, latests[1..], step, goal);
      }
    }
  }

  lemma {:induction false} StaysAhead(watched: nat, latests: seq<nat>, step: nat, goal: nat)
    requires watched >= goal && forall i :: 0 <= i < |latests| ==> latests[i] >= goal
    ensures Watched(watched, latests, step) >= goal
    decreases |latests|
  {
    if latests != [] {
      StaysAhead(WindowEnd(watched, latests[0], step), latests[1..], step, goal);
    }
  }

  /** From the genesis block on, with heads that never fall back to an older contract and enough rounds,
      every block that was verified up to the goal is processed. */
  lemma {:induction false} RestorationIsExact(chain: Chain, genesis: nat, latests: seq<nat>, step: nat)
    requires Lawful(chain) && LogsUpTo(chain, genesis) == [] && HeadsHold(chain, genesis, latests, step)
    ensures Rounds(chain, Started(genesis), latests, step).Some?
    ensures var s := Rounds(chain, Started(genesis), latests, step).value;
            s.treeBlocks == VerifiedBlocks(ContractAt(chain, s.watched))
    ensures forall goal: nat :: goal >= genesis && (forall i :: 0 <= i < |latests| ==> latests[i] >= goal)
                                && |latests| * (step + 1) >= goal - genesis ==>
              VerifiedBlocks(ContractAt(chain, goal)) <= Rounds(chain, Started(genesis), latests, step).value.treeBlocks
  {
    StartIsRestored(chain, genesis);
    RunRestores(chain, Started(genesis), latests, step);
    RoundsWatch(chain, Started(genesis), latests, step);
    var s := Rounds(chain, Started(genesis), latests, step).value;
    forall goal: nat | goal >= genesis && (forall i :: 0 <= i < |latests| ==> latests[i] >= goal)
                       && |latests| * (step + 1) >= goal - genesis
      ensures VerifiedBlocks(ContractAt(chain, goal)) <= s.treeBlocks
    {
      CatchesUp(genesis, latests, step, goal);
      ContractMoves(chain, goal, s.watched);
    }
  }

  lemma {:induction false} StartIsRestored(chain: Chain, genesis: nat)
    requires Lawful(chain) && LogsUpTo(chain, genesis) == []
    ensures Restored(chain, Started(genesis))
  {
    assert ContractAt(chain, genesis) == DEPLOYED;
  }

  // ----- restarts

  /** What a restart makes of the database. A stored tree without blocks is refused; events that were
      saved are processed, and so are operations that were saved but not applied. */
  function Recovered(db: Database): Option<State> {
    if db.blocks == [] then None
    else
      match db.state
      case EventsSaved =>
        if |db.events.verified| > |db.events.committed| then None
        else
          var blocks := Processable(db.events);
          Some(State(db.events, db.watched, db.blocks + blocks, SaveBlocks(SaveRollupOps(db, blocks), blocks)))
      case OperationsSaved => Some(State(db.events, db.watched, db.blocks + db.ops, SaveBlocks(db, db.ops)))
      case Nothing => Some(State(db.events, db.watched, db.blocks, db))
  }

  // ----- the driver

  class EventsState {
    var committedEvents: seq<BlockEvent>
    var verifiedEvents: seq<BlockEvent>
    var lastWatchedEthBlockNumber: nat

    constructor (genesis: nat)
      ensures Contents() == NO_EVENTS && lastWatchedEthBlockNumber == genesis
    {
      committedEvents, verifiedEvents, lastWatchedEthBlockNumber := [], [], genesis;
    }

    function Contents(): Events
      reads this
    {
      Events(committedEvents, verifiedEvents)
    }

    /** `remove_verified_events`: draining more events than there are would panic. */
    method RemoveVerifiedEvents() returns (ok: bool)
      modifies this`committedEvents, this`verifiedEvents
      ensures ok <==> old(|verifiedEvents| <= |committedEvents|)
      ensures ok ==> Contents() == old(Events(committedEvents[|verifiedEvents|..], []))
    {
      var countToRemove := |verifiedEvents|;
      verifiedEvents := [];
      if countToRemove > |committedEvents| {
        return false;
      }
      committedEvents := committedEvents[countToRemove..];
      ok := true;
    }

    /** `get_new_events_and_last_watched_block` */
    method GetNewEventsAndLastWatchedBlock(chain: Chain, latest: nat, step: nat) returns (logs: seq<Log>, until: nat)
      ensures until == WindowEnd(lastWatchedEthBlockNumber, latest, step)
      ensures logs == WindowLogs(chain, lastWatchedEthBlockNumber, latest, step)
    {
      if latest == lastWatchedEthBlockNumber {
        return [], lastWatchedEthBlockNumber;
      }
      var from := lastWatchedEthBlockNumber + 1;
      until := if from + step >= latest then latest else from + step;
      logs := LogsBetween(chain, from, until);
    }

    static method Retain(events: seq<BlockEvent>, bound: nat) returns (kept: seq<BlockEvent>)
      ensures kept == Retained(events, bound)
    {
      kept := [];
      for i := 0 to |events|
        invariant kept + Retained(events[i..], bound) == Retained(events, bound)
      {
        assert events[i..][1..] == events[i + 1..];
        if events[i].blockNum <= bound {
          kept := kept + [events[i]];
        }
      }
    }

    /** `update_blocks_state` */
    method UpdateBlocksState(logs: seq<Log>) returns (anyLogs: bool)
      modifies this`committedEvents, this`verifiedEvents
      ensures anyLogs <==> logs != []
      ensures Contents() == ApplyLogs(old(Contents()), logs)
    {
      if logs == [] {
        return false;
      }
      for i := 0 to |logs|
        invariant ApplyLogs(Contents(), logs[i..]) == ApplyLogs(old(Contents()), logs)
      {
        var log := logs[i];
        assert logs[i..][0] == log && logs[i..][1..] == logs[i + 1..];
        match log {
          case BlocksRevert(totalVerified, totalCommitted) =>
            committedEvents := Retain(committedEvents, totalCommitted);
            verifiedEvents := Retain(verifiedEvents, totalVerified);
          case BlockVerification(n, tx) =>
            verifiedEvents := verifiedEvents + [BlockEvent(n, tx, Verified)];
          case BlockCommit(n, tx) =>
            committedEvents := committedEvents + [BlockEvent(n, tx, Committed)];
        }
      }
      anyLogs := true;
    }

    /** `update_events_state`: nothing is returned for a window without logs. */
    method UpdateEventsState(chain: Chain, latest: nat, step: nat) returns (ok: bool, blockEvents: seq<BlockEvent>)
      modifies this
      ensures ok <==> old(|verifiedEvents| <= |committedEvents|)
      ensures ok ==> lastWatchedEthBlockNumber == WindowEnd(old(lastWatchedEthBlockNumber), latest, step)
      ensures ok ==> var logs := WindowLogs(chain, old(lastWatchedEthBlockNumber), latest, step);
                     && Contents() == ApplyLogs(old(Events(committedEvents[|verifiedEvents|..], [])), logs)
                     && blockEvents == (if logs == [] then [] else committedEvents + verifiedEvents)
    {
      ok := RemoveVerifiedEvents();
      if !ok {
        return false, [];
      }
      var logs, until := GetNewEventsAndLastWatchedBlock(chain, latest, step);
      lastWatchedEthBlockNumber := until;
      var anyLogs := UpdateBlocksState(logs);
      blockEvents := if anyLogs then committedEvents + verifiedEvents else [];
    }

    /** `get_only_verified_committed_events`: the slice would panic if it were out of range. */
    method GetOnlyVerifiedCommittedEvents() returns (ok: bool, events: seq<BlockEvent>)
      ensures ok <==> |verifiedEvents| <= |committedEvents|
      ensures ok ==> events == committedEvents[..|verifiedEvents|]
    {
      ok, events := false, [];
      if |verifiedEvents| <= |committedEvents| {
        ok, events := true, committedEvents[..|verifiedEvents|];
      }
    }
  }

  predicate AllReach(heads: seq<nat>, offset: nat) {
    forall i :: 0 <= i < |heads| ==> heads[i] >= offset
  }

  /** The last blocks that are `offset` behind the heads. */
  function Latests(heads: seq<nat>, offset: nat): (latests: seq<nat>)
    requires AllReach(heads, offset)
    ensures |latests| == |heads| && forall i :: 0 <= i < |heads| ==> latests[i] == heads[i] - offset
  {
    seq(|heads|, i requires 0 <= i < |heads| => heads[i] - offset)
  }

  lemma {:induction false} LatestsAppend(heads: seq<nat>, n: nat, offset: nat)
    requires AllReach(heads, offset) && n < |heads|
    ensures Latests(heads[..n + 1], offset) == Latests(heads[..n], offset) + [heads[n] - offset]
  {
  }

  /** How a run of the driver ends: it goes on, it is done, a drain or slice is out of range, or the
      expected root hash was not met. */
  datatype Outcome = Working | Done | OutOfRange | HashMissed

  /** What a run in finite mode is waiting for: the contract's counts of verified blocks, one for each
      round, and the root hash that some round is expected to leave. */
  datatype Goal = Goal(finite: bool, totals: seq<nat>, rootHash: seq<BlockEvent> -> nat, finalHash: Option<nat>)

  /** The processed blocks after a round that processed some. */
  function ProcessedAt(chain: Chain, s: State, latests: seq<nat>, step: nat, i: nat): Option<seq<BlockEvent>>
    requires i < |latests|
  {
    var before, after := Rounds(chain, s, latests[..i], step), Rounds(chain, s, latests[..i + 1], step);
    if before.Some? && after.Some? && |after.value.treeBlocks| > |before.value.treeBlocks| then Some(after.value.treeBlocks) else None
  }

  predicate HashMet(chain: Chain, s: State, latests: seq<nat>, step: nat, goal: Goal) {
    exists i :: 0 <= i < |latests| && HashMetAt(chain, s, latests, step, goal, i)
  }

  predicate HashMetAt(chain: Chain, s: State, latests: seq<nat>, step: nat, goal: Goal, i: nat)
    requires i < |latests|
  {
    var blocks := ProcessedAt(chain, s, latests, step, i);
    blocks.Some? && goal.finalHash == Some(goal.rootHash(blocks.value))
  }

  predicate AllThereAt(chain: Chain, s: State, latests: seq<nat>, step: nat, goal: Goal, i: nat)
    requires i < |latests|
  {
    var blocks := ProcessedAt(chain, s, latests, step, i);
    goal.finite && i < |goal.totals| && blocks.Some? && |blocks.value| == goal.totals[i]
  }

  /** Only the last round can have left all blocks that were verified. */
  predicate StopsOnlyLast(chain: Chain, s: State, latests: seq<nat>, step: nat, goal: Goal, stopped: bool) {
    forall i :: 0 <= i < |latests| ==> (AllThereAt(chain, s, latests, step, goal, i) <==> stopped && i == |latests| - 1)
  }

  /** The outcome of these rounds: the panic of a slice exactly when the rounds have no result, and an end
      exactly in the first round that left all blocks, with or without the expected root hash by whether
      some round met it. */
  predicate RunEnds(chain: Chain, s: State, latests: seq<nat>, step: nat, goal: Goal, outcome: Outcome) {
    && (outcome.OutOfRange? <==> Rounds(chain, s, latests, step).None?)
    && StopsOnlyLast(chain, s, latests, step, goal, outcome.Done? || outcome.HashMissed?)
    && (outcome.Done? || outcome.HashMissed? ==> latests != [])
    && (outcome.Done? ==> goal.finalHash.None? || HashMet(chain, s, latests, step, goal))
    && (outcome.HashMissed? ==> goal.finalHash.Some? && !HashMet(chain, s, latests, step, goal))
  }

  class DataRestoreDriver {
    const eventsState: EventsState
    const ethBlocksStep: nat
    const endEthBlocksOffset: nat
    const finiteMode: bool
    const finalHash: Option<nat>
    var db: Database
    var treeBlocks: seq<BlockEvent>

    constructor (step: nat, offset: nat, genesis: nat, finite: bool, hash: Option<nat>)
      ensures fresh(eventsState) && ethBlocksStep == step && endEthBlocksOffset == offset
      ensures finiteMode == finite && finalHash == hash
      ensures Contents() == Started(genesis)
    {
      eventsState := new EventsState(genesis);
      ethBlocksStep, endEthBlocksOffset, finiteMode, finalHash := step, offset, finite, hash;
      db, treeBlocks := Database(NO_EVENTS, genesis, [], EventsSaved, []), [];
    }

    function Contents(): State
      reads this, eventsState
    {
      State(eventsState.Contents(), eventsState.lastWatchedEthBlockNumber, treeBlocks, db)
    }

    /** `update_events_state`: reads the next window and saves the events. */
    method UpdateEventsState(chain: Chain, head: nat) returns (ok: bool, any: bool)
      requires head >= endEthBlocksOffset
      modifies this`db, eventsState
      ensures ok <==> old(|eventsState.verifiedEvents| <= |eventsState.committedEvents|)
      ensures ok ==>
                var s := old(Contents());
                var latest := head - endEthBlocksOffset;
                var until, logs := WindowEnd(s.watched, latest, ethBlocksStep), WindowLogs(chain, s.watched, latest, ethBlocksStep);
                var es := ApplyLogs(Drained(s.events), logs);
                && Contents() == State(es, until, s.treeBlocks, SaveEventsState(s.db, Returned(es, logs), until))
                && (any <==> Returned(es, logs) != NO_EVENTS)
      ensures !ok ==> db == old(db)
    {
      hide WindowEnd, WindowLogs, ApplyLogs;
      var blockEvents;
      ok, blockEvents := eventsState.UpdateEventsState(chain, head - endEthBlocksOffset, ethBlocksStep);
      any := ok && blockEvents != [];
      if ok {
        db := SaveEventsState(db, if any then eventsState.Contents() else NO_EVENTS, eventsState.lastWatchedEthBlockNumber);
      }
    }

    /** `update_operations_state` */
    method UpdateOperationsState() returns (ok: bool, newOpsBlocks: seq<BlockEvent>)
      modifies this`db
      ensures ok <==> |eventsState.verifiedEvents| <= |eventsState.committedEvents|
      ensures ok ==> newOpsBlocks == Processable(eventsState.Contents()) && db == SaveRollupOps(old(db), newOpsBlocks)
      ensures !ok ==> db == old(db)
    {
      ok, newOpsBlocks := eventsState.GetOnlyVerifiedCommittedEvents();
      if ok {
        db := SaveRollupOps(db, newOpsBlocks);
      }
    }

    /** `update_tree_state`: the tree takes all blocks, then they are saved one by one. */
    method UpdateTreeState(newOpsBlocks: seq<BlockEvent>) returns (ghost writes: seq<Database>)
      modifies this`db, this`treeBlocks
      ensures treeBlocks == old(treeBlocks) + newOpsBlocks && db == SaveBlocks(old(db), newOpsBlocks)
      ensures writes == TreeWrites(old(db), newOpsBlocks)
    {
      treeBlocks, writes := treeBlocks + newOpsBlocks, [];
      for i := 0 to |newOpsBlocks|
        invariant treeBlocks == old(treeBlocks) + newOpsBlocks && db == SaveBlocks(old(db), newOpsBlocks[..i])
        invariant |writes| == i && forall j :: 0 <= j < i ==> writes[j] == SaveBlocks(old(db), newOpsBlocks[..j + 1])
      {
        assert newOpsBlocks[..i + 1] == newOpsBlocks[..i] + [newOpsBlocks[i]];
        db := SaveBlocks(db, [newOpsBlocks[i]]);
        writes := writes + [db];
      }
      assert newOpsBlocks[..|newOpsBlocks|] == newOpsBlocks;
    }

    /** One round: the events are read and saved, then the verified blocks are processed. The writes of
        the database are those of the specification. */
    method UpdateState(chain: Chain, head: nat) returns (ok: bool, ghost writes: seq<Database>)
      requires head >= endEthBlocksOffset
      modifies this, eventsState
      ensures var next := old(Round(chain, Contents(), head - endEthBlocksOffset, ethBlocksStep));
              && (ok <==> next.Some?) && (ok ==> Contents() == next.value)
      ensures writes == if old(|eventsState.verifiedEvents| > |eventsState.committedEvents|) then []
                        else old(Writes(chain, Contents(), head - endEthBlocksOffset, ethBlocksStep))
    {
      hide WindowEnd, WindowLogs, ApplyLogs, SaveBlocks;
      var any;
      ok, any := UpdateEventsState(chain, head);
      writes := if ok then [db] else [];
      if ok && any {
        var newOpsBlocks;
        ok, newOpsBlocks := UpdateOperationsState();
        if ok {
          writes := writes + [db];
          ghost var treeWrites := UpdateTreeState(newOpsBlocks);
          writes := writes + treeWrites;
        }
      }
    }

    /** `load_state_from_storage`: a stored tree without blocks is refused; what was saved but not
        processed is processed first. In finite mode nothing is left to do once all blocks are there. */
    method LoadStateFromStorage(totalVerified: nat) returns (ok: bool, done: bool)
      modifies this, eventsState
      ensures var recovered := old(Recovered(db));
              && (ok <==> recovered.Some?) && (ok ==> Contents() == recovered.value)
              && (done <==> ok && finiteMode && |treeBlocks| == totalVerified)
    {
      hide SaveBlocks;
      eventsState.committedEvents, eventsState.verifiedEvents := db.events.committed, db.events.verified;
      eventsState.lastWatchedEthBlockNumber := db.watched;
      treeBlocks := db.blocks;
      if db.blocks == [] {
        return false, false;
      }
      ok := true;
      match db.state {
        case EventsSaved =>
          var newOpsBlocks;
          ok, newOpsBlocks := UpdateOperationsState();
          if ok {
            var _ := UpdateTreeState(newOpsBlocks);
          }
        case OperationsSaved =>
          var _ := UpdateTreeState(db.ops);
        case Nothing =>
      }
      done := ok && finiteMode && |treeBlocks| == totalVerified;
    }

    /** The body of the run loop: one round, and if it processed blocks, whether the expected root hash was
        met and whether all blocks are there. */
    method UpdateAndCompare(chain: Chain, head: nat, totalVerified: nat, rootHash: seq<BlockEvent> -> nat)
      returns (ok: bool, hashFound: bool, allThere: bool)
      requires head >= endEthBlocksOffset
      modifies this, eventsState
      ensures var next := old(Round(chain, Contents(), head - endEthBlocksOffset, ethBlocksStep));
              && (ok <==> next.Some?) && (ok ==> Contents() == next.value)
      ensures hashFound <==> ok && |treeBlocks| > |old(treeBlocks)| && finalHash == Some(rootHash(treeBlocks))
      ensures allThere <==> ok && |treeBlocks| > |old(treeBlocks)| && finiteMode && |treeBlocks| == totalVerified
    {
      hide Round, Writes;
      var processed := |treeBlocks|;
      ghost var writes;
      ok, writes := UpdateState(chain, head);
      hashFound, allThere := false, false;
      if ok && |treeBlocks| > processed {
        hashFound := finalHash == Some(rootHash(treeBlocks));
        allThere := finiteMode && |treeBlocks| == totalVerified;
      }
    }

    /** `run_state_update` over the heads and the counts of verified blocks the contract reports. In
        finite mode it stops once it has processed that many blocks, and panics then if the expected root
        hash was met after none of its rounds. */
    method RunStateUpdate(chain: Chain, heads: seq<nat>, totalVerified: seq<nat>, rootHash: seq<BlockEvent> -> nat)
      returns (outcome: Outcome, rounds: nat)
      requires |heads| == |totalVerified| && AllReach(heads, endEthBlocksOffset)
      modifies this, eventsState
      ensures rounds <= |heads| && (outcome.Working? ==> rounds == |heads|)
      ensures var latests, start := Latests(heads[..rounds], endEthBlocksOffset), old(Contents());
              && RunEnds(chain, start, latests, ethBlocksStep, Goal(finiteMode, totalVerified, rootHash, finalHash), outcome)
              && (outcome != OutOfRange ==> Some(Contents()) == Rounds(chain, start, latests, ethBlocksStep))
    {
      ghost var start, latests, goal := Contents(), [], Goal(finiteMode, totalVerified, rootHash, finalHash);
      var finalHashWasFound, stopped := false, false;
      outcome, rounds := Working, 0;
      NoProgress(chain, start, ethBlocksStep, goal);
      assert latests == Latests(heads[..0], endEthBlocksOffset);
      while rounds < |heads| && !stopped
        invariant rounds <= |heads|
        invariant latests == Latests(heads[..rounds], endEthBlocksOffset) && |latests| == rounds
        invariant Progress(chain, start, latests, ethBlocksStep, goal, Contents(), finalHashWasFound, stopped)
        decreases |heads| - rounds
      {
        ghost var latest := heads[rounds] - endEthBlocksOffset;
        LatestsAppend(heads, rounds, endEthBlocksOffset);
        MoreProgress(chain, start, latests, latest, ethBlocksStep, goal, Contents(), finalHashWasFound);
        latests := latests + [latest];
        var ok, hashFound, allThere := UpdateAndCompare(chain, heads[rounds], totalVerified[rounds], rootHash);
        rounds := rounds + 1;
        if !ok {
          return OutOfRange, rounds;
        }
        finalHashWasFound, stopped := finalHashWasFound || hashFound, allThere;
      }
      if stopped {
        outcome := if finalHash.Some? && !finalHashWasFound then HashMissed else Done;
      }
      ProgressEnds(chain, start, latests, ethBlocksStep, goal, Contents(), finalHashWasFound, stopped, outcome);
    }
  }

  /** What the loop of a run knows after some rounds. */
  predicate Progress(chain: Chain, s: State, latests: seq<nat>, step: nat, goal: Goal, now: State, found: bool, stopped: bool) {
    && Rounds(chain, s, latests, step) == Some(now)
    && (found <==> HashMet(chain, s, latests, step, goal))
    && StopsOnlyLast(chain, s, latests, step, goal, stopped) && (stopped ==> latests != [])
  }

  lemma {:induction false} NoProgress(chain: Chain, s: State, step: nat, goal: Goal)
    ensures Progress(chain, s, [], step, goal, s, false, false)
  {
  }

  lemma {:induction false} MoreProgress(
    chain: Chain, s: State, latests: seq<nat>, latest: nat, step: nat, goal: Goal, now: State, found: bool)
    requires Progress(chain, s, latests, step, goal, now, found, false)
    ensures var next, all := Round(chain, now, latest, step), latests + [latest];
            if next.None? then RunEnds(chain, s, all, step, goal, OutOfRange)
            else
              var blocks := next.value.treeBlocks;
              var any := |blocks| > |now.treeBlocks|;
              Progress(chain, s, all, step, goal, next.value, found || (any && goal.finalHash == Some(goal.rootHash(blocks))),
                       any && goal.finite && |latests| < |goal.totals| && |blocks| == goal.totals[|latests|])
  {
    var all, n, next := latests + [latest], |latests|, Round(chain, now, latest, step);
    hide Rounds, Round;
    RoundsAppend(chain, s, latests, latest, step);
    assert all[..n] == latests && all[..n + 1] == all;
    assert ProcessedAt(chain, s, all, step, n)
        == if next.Some? && |next.value.treeBlocks| > |now.treeBlocks| then Some(next.value.treeBlocks) else None;
    SameProcessed(chain, s, latests, latest, step);
    hide ProcessedAt;
    HashMetMore(chain, s, latests, latest, step, goal);
    hide HashMet;
    forall i | 0 <= i < n
      ensures !AllThereAt(chain, s, all, step, goal, i)
    {
      assert !AllThereAt(chain, s, latests, step, goal, i);
    }
  }

  /** One more round does not change what the earlier ones processed. */
  lemma {:induction false} SameProcessed(chain: Chain, s: State, latests: seq<nat>, latest: nat, step: nat)
    ensures forall i :: 0 <= i < |latests| ==>
              ProcessedAt(chain, s, latests + [latest], step, i) == ProcessedAt(chain, s, latests, step, i)
  {
    hide Rounds;
    var all := latests + [latest];
    forall i | 0 <= i < |latests|
      ensures ProcessedAt(chain, s, all, step, i) == ProcessedAt(chain, s, latests, step, i)
    {
      assert all[..i] == latests[..i] && all[..i + 1] == latests[..i + 1];
    }
  }

  lemma {:induction false} HashMetMore(chain: Chain, s: State, latests: seq<nat>, latest: nat, step: nat, goal: Goal)
    ensures HashMet(chain, s, latests + [latest], step, goal)
       <==> HashMet(chain, s, latests, step, goal) || HashMetAt(chain, s, latests + [latest], step, goal, |latests|)
  {
    hide ProcessedAt;
    var all := latests + [latest];
    SameProcessed(chain, s, latests, latest, step);
    if HashMet(chain, s, latests, step, goal) {
      var i :| 0 <= i < |latests| && HashMetAt(chain, s, latests, step, goal, i);
      assert HashMetAt(chain, s, all, step, goal, i);
    }
    if HashMet(chain, s, all, step, goal) {
      var i :| 0 <= i < |all| && HashMetAt(chain, s, all, step, goal, i);
      assert i < |latests| ==> HashMetAt(chain, s, latests, step, goal, i);
    }
  }

  lemma {:induction false} ProgressEnds(
    chain: Chain, s: State, latests: seq<nat>, step: nat, goal: Goal, now: State, found: bool, stopped: bool, outcome: Outcome)
    requires Progress(chain, s, latests, step, goal, now, found, stopped)
    requires outcome == if !stopped then Working else if goal.finalHash.Some? && !found then HashMissed else Done
    ensures RunEnds(chain, s, latests, step, goal, outcome) && Rounds(chain, s, latests, step) == Some(now)
  {
    hide Rounds, HashMet;
  }

  lemma {:induction false} RoundsAppend(chain: Chain, s: State, latests: seq<nat>, latest: nat, step: nat)
    ensures var mid := Rounds(chain, s, latests, step);
            Rounds(chain, s, latests + [latest], step) == if mid.None? then None else Round(chain, mid.value, latest, step)
    decreases |latests|
  {
    hide Round;
    var all := latests + [latest];
    if latests == [] {
      assert all[1..] == [];
    } else {
      assert all[0] == latests[0] && all[1..] == latests[1..] + [latest];
      var next := Round(chain, s, latests[0], step);
      if next.Some? {
        RoundsAppend(chain, next.value, latests[1..], latest, step);
      }
    }
  }
}
