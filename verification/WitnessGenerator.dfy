/** The witness generators: each works on every n-th block above the block that was verified last when
    the server started. They share the database and nothing else, so any interleaving is possible. */
module WitnessGenerator {
  import opened Bits

  type BlockNumber = nat

  /** What the database says about a block; the block itself is not part of the model. */
  datatype BlockInfo = NotReadyBlock | WithWitness | NoWitness

  function NextWitnessBlock(current: BlockNumber, step: BlockNumber, info: BlockInfo): BlockNumber {
    match info
    case NotReadyBlock => current
    case _ => current + step
  }

  /** One generator: it has to look at its current block, or it is preparing the witness for it. */
  datatype Generator = Generator(start: BlockNumber, step: nat, current: BlockNumber, working: bool)

  /** `sealedBlocks` is the number of blocks in the database. */
  datatype State = State(sealedBlocks: nat, witnesses: set<BlockNumber>, generators: seq<Generator>)

  function InfoOf(s: State, block: BlockNumber): BlockInfo {
    if block > s.sealedBlocks then NotReadyBlock
    else if block in s.witnesses then WithWitness
    else NoWitness
  }

  /** An atomic action: a block is sealed, a generator asks the database about its block, or it stores
      the witness it prepared. Any database call may fail. */
  datatype Event = Seal | Check(id: nat, checked: bool) | Save(id: nat, saved: bool)

  /** A generator after the database answered. */
  function Checked(g: Generator, info: BlockInfo): Generator {
    if info.NoWitness? then g.(working := true) else g.(current := NextWitnessBlock(g.current, g.step, info))
  }

  function Saved(g: Generator): Generator {
    g.(current := NextWitnessBlock(g.current, g.step, NoWitness), working := false)
  }

  function Next(s: State, e: Event): (r: State)
    ensures |r.generators| == |s.generators|
  {
    match e
    case Seal => s.(sealedBlocks := s.sealedBlocks + 1)
    case Check(id, checked) =>
      if id < |s.generators| && !s.generators[id].working && checked then
        var g := s.generators[id];
        s.(generators := s.generators[id := Checked(g, InfoOf(s, g.current))])
      else s
    case Save(id, saved) =>
      if id < |s.generators| && s.generators[id].working then
        var g := s.generators[id];
        if saved then s.(witnesses := s.witnesses + {g.current}, generators := s.generators[id := Saved(g)])
        else s.(generators := s.generators[id := g.(working := false)])
      else s
  }

  function After(s: State, events: seq<Event>): State
    decreases |events|
  {
    if events == [] then s else After(Next(s, events[0]), events[1..])
  }

  /** `run_prover_server`: the offsets and the step of the generators. */
  function Started(lastVerified: nat, count: nat, sealedBlocks: nat, witnesses: set<BlockNumber>): State {
    State(sealedBlocks, witnesses, seq(count, (i: nat) => Generator(lastVerified + i + 1, count, lastVerified + i + 1, false)))
  }

  /** The blocks a generator is responsible for. */
  predicate Owns(g: Generator, block: BlockNumber)
    requires g.step > 0
  {
    block >= g.start && (block - g.start) % g.step == 0
  }

  /** Every block above the verified one belongs to exactly one generator. */
  lemma {:induction false} BlocksArePartitioned(lastVerified: nat, count: nat, sealedBlocks: nat, witnesses: set<BlockNumber>, block: nat)
    requires count > 0 && block > lastVerified
    ensures var gs := Started(lastVerified, count, sealedBlocks, witnesses).generators;
            exists i :: 0 <= i < |gs| && Owns(gs[i], block) && forall j :: 0 <= j < |gs| && Owns(gs[j], block) ==> j == i
  {
    var gs := Started(lastVerified, count, sealedBlocks, witnesses).generators;
    var offset := block - lastVerified - 1;
    var i := offset % count;
    SameRemainder(offset, i, count);
    assert Owns(gs[i], block);
    forall j | 0 <= j < |gs| && Owns(gs[j], block)
      ensures j == i
    {
      UniqueRemainder(offset, j, count);
    }
  }

  lemma {:induction false} SameRemainder(n: nat, r: nat, d: nat)
    requires d > 0 && r == n % d
    ensures r <= n && (n - r) % d == 0
  {
    QuotientBounds(n, d);
    QuotientUnique(n - r, d, n / d, 0);
  }

  lemma {:induction false} UniqueRemainder(n: nat, r: nat, d: nat)
    requires d > 0 && r < d && r <= n && (n - r) % d == 0
    ensures n % d == r
  {
    QuotientUnique(n, d, (n - r) / d, r);
  }

  // ----- what every interleaving keeps

  /** The generator stands on a block of its own, and every earlier one has a stored witness. */
  predicate Diligent(g: Generator, s: State) {
    && g.step > 0 && Owns(g, g.current)
    && (g.working ==> g.current <= s.sealedBlocks)
    && forall b :: g.start <= b < g.current && Owns(g, b) ==> b in s.witnesses
  }

  predicate AllDiligent(s: State) {
    forall i :: 0 <= i < |s.generators| ==> Diligent(s.generators[i], s)
  }

  lemma {:induction false} NextOwned(g: Generator, block: BlockNumber)
    requires g.step > 0 && Owns(g, g.current) && Owns(g, block) && g.current < block
    ensures block >= g.current + g.step
  {
    var d, p, q := g.step, (g.current - g.start) / g.step, (block - g.start) / g.step;
    assert d * (p + 1) == d * p + d;
    if q <= p {
      MulMonotonic(d, q, p);
    } else {
      MulMonotonic(d, p + 1, q);
    }
  }

  lemma {:induction false} StepOwned(g: Generator)
    requires g.step > 0 && Owns(g, g.current)
    ensures Owns(g, g.current + g.step)
  {
    var d, p := g.step, (g.current - g.start) / g.step;
    assert d * (p + 1) == d * p + d;
    QuotientUnique(g.current + d - g.start, d, p + 1, 0);
  }

  lemma {:induction false} AdvanceIsDiligent(g: Generator, s: State, t: State)
    requires Diligent(g, s) && s.witnesses <= t.witnesses && s.sealedBlocks <= t.sealedBlocks && g.current in t.witnesses
    ensures Diligent(g.(current := g.current + g.step, working := false), t)
  {
    var next := g.(current := g.current + g.step, working := false);
    StepOwned(g);
    forall b | next.start <= b < next.current && Owns(next, b)
      ensures b in t.witnesses
    {
      assert Owns(g, b);
      if b > g.current {
        NextOwned(g, b);
      }
    }
  }

  lemma {:induction false} StaysDiligent(g: Generator, s: State, t: State)
    requires Diligent(g, s) && s.witnesses <= t.witnesses && s.sealedBlocks <= t.sealedBlocks
    ensures Diligent(g, t)
  {
  }

  lemma {:induction false} PauseIsDiligent(g: Generator, s: State, working: bool)
    requires Diligent(g, s) && (working ==> g.current <= s.sealedBlocks)
    ensures Diligent(g.(working := working), s)
  {
    assert forall b :: Owns(g.(working := working), b) == Owns(g, b);
  }

  lemma {:induction false} EventKeepsDiligence(s: State, e: Event)
    requires AllDiligent(s)
    ensures AllDiligent(Next(s, e))
  {
    hide Owns;
    var t := Next(s, e);
    forall i | 0 <= i < |t.generators|
      ensures Diligent(t.generators[i], t)
    {
      var g := s.generators[i];
      StaysDiligent(g, s, t);
      PauseIsDiligent(g, t, false);
      if g.current <= t.sealedBlocks {
        PauseIsDiligent(g, t, true);
      }
      if e.Check? && e.id == i && e.checked && !g.working && InfoOf(s, g.current) == WithWitness {
        AdvanceIsDiligent(g, s, t);
      }
      if e.Save? && e.id == i && e.saved && g.working {
        AdvanceIsDiligent(g, s, t);
      }
    }
  }

  /** Whatever the interleaving and the failures: every block a generator has passed has a witness. */
  lemma {:induction false} PassedBlocksHaveWitnesses(s: State, events: seq<Event>)
    requires AllDiligent(s)
    ensures AllDiligent(After(s, events))
    decreases |events|
  {
    hide AllDiligent, Next;
    if events != [] {
      EventKeepsDiligence(s, events[0]);
      PassedBlocksHaveWitnesses(Next(s, events[0]), events[1..]);
    }
  }

  lemma {:induction false} StartIsDiligent(lastVerified: nat, count: nat, sealedBlocks: nat, witnesses: set<BlockNumber>)
    ensures AllDiligent(Started(lastVerified, count, sealedBlocks, witnesses))
  {
  }

  predicate AllPassed(s: State, block: nat) {
    forall i :: 0 <= i < |s.generators| ==> s.generators[i].current > block
  }

  /** Witnesses up to a block: once every generator has passed the block, all blocks up to it that were
      not verified at the start have one. */
  lemma {:induction false} AllPassedMeansAllWitnessed(
    lastVerified: nat, count: nat, sealedBlocks: nat, witnesses: set<BlockNumber>, events: seq<Event>, block: nat)
    requires count > 0 && AllPassed(After(Started(lastVerified, count, sealedBlocks, witnesses), events), block)
    ensures forall b :: lastVerified < b <= block ==>
              b in After(Started(lastVerified, count, sealedBlocks, witnesses), events).witnesses
  {
    var start := Started(lastVerified, count, sealedBlocks, witnesses);
    StartIsDiligent(lastVerified, count, sealedBlocks, witnesses);
    PassedBlocksHaveWitnesses(start, events);
    GeneratorsKeepTheirBlocks(start, events);
    var s := After(start, events);
    forall b | lastVerified < b <= block
      ensures b in s.witnesses
    {
      BlocksArePartitioned(lastVerified, count, sealedBlocks, witnesses, b);
      var i :| 0 <= i < |start.generators| && Owns(start.generators[i], b);
      assert Diligent(s.generators[i], s) && Owns(s.generators[i], b);
    }
  }

  lemma {:induction false} GeneratorsKeepTheirBlocks(s: State, events: seq<Event>)
    ensures |After(s, events).generators| == |s.generators|
    ensures forall i :: 0 <= i < |s.generators| ==>
              After(s, events).generators[i].start == s.generators[i].start
              && After(s, events).generators[i].step == s.generators[i].step
              && After(s, events).generators[i].current >= s.generators[i].current
    decreases |events|
  {
    if events != [] {
      GeneratorsKeepTheirBlocks(Next(s, events[0]), events[1..]);
    }
  }

  /** Two generators never work on one block, so no witness is prepared twice. */
  lemma {:induction false} GeneratorsStayApart(
    lastVerified: nat, count: nat, sealedBlocks: nat, witnesses: set<BlockNumber>, events: seq<Event>, i: nat, j: nat)
    requires count > 0 && i < j < count
    ensures var gs := After(Started(lastVerified, count, sealedBlocks, witnesses), events).generators;
            j < |gs| && gs[i].current != gs[j].current
  {
    var start := Started(lastVerified, count, sealedBlocks, witnesses);
    StartIsDiligent(lastVerified, count, sealedBlocks, witnesses);
    PassedBlocksHaveWitnesses(start, events);
    GeneratorsKeepTheirBlocks(start, events);
    var s := After(start, events);
    assert Diligent(s.generators[i], s) && Diligent(s.generators[j], s);
    var b := s.generators[i].current;
    if b == s.generators[j].current {
      BlocksArePartitioned(lastVerified, count, sealedBlocks, witnesses, b);
      assert Owns(start.generators[i], b) && Owns(start.generators[j], b);
    }
  }

  // ----- progress

  /** Completed rounds of one generator: its check was answered, and its next store, if it has something to store,
      works. `pending` says that a check was answered since its last store. */
  function Rounds(events: seq<Event>, i: nat, pending: bool): nat
    decreases |events|
  {
    if events == [] then 0
    else
      var rest := events[1..];
      match events[0]
      case Check(id, checked) => Rounds(rest, i, pending || (id == i && checked))
      case Save(id, saved) =>
        if id != i then Rounds(rest, i, pending) else (if pending && saved then 1 else 0) + Rounds(rest, i, false)
      case Seal => Rounds(rest, i, pending)
  }

  /** From block `base` on, or already past the blocks that were sealed; after an answered check the generator
      prepares the witness for its block, or has moved on. */
  predicate Advancing(g: Generator, sealedBefore: nat, base: nat, pending: bool) {
    || g.current > sealedBefore
    || (if pending then (g.working && g.current >= base) || g.current >= base + g.step else g.current >= base)
  }

  lemma {:induction false} EventAdvances(s: State, e: Event, i: nat, sealedBefore: nat, base: nat, pending: bool)
    requires i < |s.generators| && sealedBefore <= s.sealedBlocks && Advancing(s.generators[i], sealedBefore, base, pending)
    ensures var g := Next(s, e).generators[i];
            && g.step == s.generators[i].step && sealedBefore <= Next(s, e).sealedBlocks
            && (e.Check? ==> Advancing(g, sealedBefore, base, pending || (e.id == i && e.checked)))
            && (e.Seal? || (e.Save? && e.id != i) ==> Advancing(g, sealedBefore, base, pending))
            && (e.Save? && e.id == i ==> Advancing(g, sealedBefore, if pending && e.saved then base + g.step else base, false))
  {
  }

  /** Each completed round takes a generator one block of its own further, until it is past the sealed blocks. */
  lemma {:induction false} RoundsMakeProgress(s: State, events: seq<Event>, i: nat, sealedBefore: nat, base: nat, pending: bool)
    requires i < |s.generators| && sealedBefore <= s.sealedBlocks && Advancing(s.generators[i], sealedBefore, base, pending)
    ensures i < |After(s, events).generators|
    ensures var current := After(s, events).generators[i].current;
            current > sealedBefore || current >= base + Rounds(events, i, pending) * s.generators[i].step
    decreases |events|
  {
    if events != [] {
      var e, step := events[0], s.generators[i].step;
      EventAdvances(s, e, i, sealedBefore, base, pending);
      hide Next, Advancing;
      var next := Next(s, e);
      if e.Save? && e.id == i {
        var more := if pending && e.saved then 1 else 0;
        RoundsMakeProgress(next, events[1..], i, sealedBefore, base + more * step, false);
        OneRoundMore(more, Rounds(events[1..], i, false), step);
      } else if e.Check? {
        RoundsMakeProgress(next, events[1..], i, sealedBefore, base, pending || (e.id == i && e.checked));
      } else {
        RoundsMakeProgress(next, events[1..], i, sealedBefore, base, pending);
      }
    }
  }

  lemma {:induction false} OneRoundMore(more: nat, rounds: nat, step: nat)
    ensures (more + rounds) * step == more * step + rounds * step
  {
  }

  lemma {:induction false} AfterConcat(s: State, x: seq<Event>, y: seq<Event>)
    ensures After(s, x + y) == After(After(s, x), y)
    decreases |x|
  {
    hide Next;
    if x == [] {
      assert x + y == y;
    } else {
      assert (x + y)[0] == x[0] && (x + y)[1..] == x[1..] + y;
      AfterConcat(Next(s, x[0]), x[1..], y);
    }
  }

  /** Progress. Whatever happened before: once each generator completed enough rounds, in any interleaving and with
      any failures in between, every block that was sealed by then and not verified at the start has a witness. */
  lemma {:induction false} SealedBlocksGetWitnesses(
    lastVerified: nat, count: nat, sealedBlocks: nat, witnesses: set<BlockNumber>, before: seq<Event>, events: seq<Event>)
    requires count > 0
    requires var sealedBefore := After(Started(lastVerified, count, sealedBlocks, witnesses), before).sealedBlocks;
             forall i :: 0 <= i < count ==> lastVerified + i + 1 + Rounds(events, i, false) * count > sealedBefore
    ensures var start := Started(lastVerified, count, sealedBlocks, witnesses);
            forall b :: lastVerified < b <= After(start, before).sealedBlocks ==> b in After(start, before + events).witnesses
  {
    var start := Started(lastVerified, count, sealedBlocks, witnesses);
    var mid := After(start, before);
    GeneratorsKeepTheirBlocks(start, before);
    GeneratorsKeepTheirBlocks(mid, events);
    AfterConcat(start, before, events);
    var last := After(start, before + events);
    assert last == After(mid, events);
    forall i | 0 <= i < |last.generators|
      ensures last.generators[i].current > mid.sealedBlocks
    {
      assert mid.generators[i].step == count && mid.generators[i].current >= lastVerified + i + 1;
      RoundsMakeProgress(mid, events, i, mid.sealedBlocks, lastVerified + i + 1, false);
    }
    AllPassedMeansAllWitnessed(lastVerified, count, sealedBlocks, witnesses, before + events, mid.sealedBlocks);
  }

  // ----- the generators themselves

  /** One round of `maintain`: whether the database answered, what it said, and whether the witness, if
      one was prepared, could be stored. */
  datatype Turn = Turn(checked: bool, info: BlockInfo, saved: bool)

  function AfterTurn(g: Generator, turn: Turn): Generator {
    if !turn.checked then g
    else
      var c := Checked(g, turn.info);
      if !c.working then c else if turn.saved then Saved(c) else c.(working := false)
  }

  function AfterTurns(g: Generator, turns: seq<Turn>): Generator
    decreases |turns|
  {
    if turns == [] then g else AfterTurns(AfterTurn(g, turns[0]), turns[1..])
  }

  /** A round is a check followed by a store, with nothing of this generator in between; other
      generators may do anything in between without changing it. */
  lemma {:induction false} TurnIsTwoEvents(s: State, i: nat, checked: bool, between: seq<Event>, saved: bool)
    requires i < |s.generators| && !s.generators[i].working
    requires forall k :: 0 <= k < |between| ==> !between[k].Seal? ==> between[k].id != i
    ensures var mid := After(Next(s, Check(i, checked)), between);
            i < |mid.generators| &&
            Next(mid, Save(i, saved)).generators[i] == AfterTurn(s.generators[i], Turn(checked, InfoOf(s, s.generators[i].current), saved))
  {
    OthersKeep(Next(s, Check(i, checked)), i, between);
  }

  lemma {:induction false} OthersKeep(s: State, i: nat, events: seq<Event>)
    requires i < |s.generators|
    requires forall k :: 0 <= k < |events| ==> !events[k].Seal? ==> events[k].id != i
    ensures |After(s, events).generators| == |s.generators| && After(s, events).generators[i] == s.generators[i]
    decreases |events|
  {
    if events != [] {
      forall k | 0 <= k < |events[1..]| && !events[1..][k].Seal?
        ensures events[1..][k].id != i
      {
        assert events[1..][k] == events[k + 1];
      }
      OthersKeep(Next(s, events[0]), i, events[1..]);
    }
  }

  /** The database answered, the block is sealed, and a witness that was prepared is stored. */
  predicate Completes(turn: Turn) {
    turn.checked && !turn.info.NotReadyBlock? && (turn.info.NoWitness? ==> turn.saved)
  }

  function Completions(turns: seq<Turn>): nat {
    if turns == [] then 0 else (if Completes(turns[0]) then 1 else 0) + Completions(turns[1..])
  }

  /** A generator is exactly as many of its blocks further as it completed turns. */
  lemma {:induction false} TurnsMakeProgress(g: Generator, turns: seq<Turn>)
    requires !g.working
    ensures AfterTurns(g, turns) == g.(current := g.current + Completions(turns) * g.step)
    decreases |turns|
  {
    if turns != [] {
      var more := if Completes(turns[0]) then 1 else 0;
      assert AfterTurn(g, turns[0]) == g.(current := g.current + more * g.step);
      hide AfterTurn, Completes;
      TurnsMakeProgress(AfterTurn(g, turns[0]), turns[1..]);
      OneRoundMore(more, Completions(turns[1..]), g.step);
    }
  }

  class WitnessGenerator {
    const startBlock: BlockNumber
    const blockStep: nat
    var currentBlock: BlockNumber

    constructor (start: BlockNumber, step: nat)
      ensures Contents() == Generator(start, step, start, false)
    {
      startBlock, blockStep, currentBlock := start, step, start;
    }

    /** The generator between two rounds. */
    function Contents(): Generator
      reads this
    {
      Generator(startBlock, blockStep, currentBlock, false)
    }

    /** `maintain`, for as long as it gets turns. */
    method Maintain(turns: seq<Turn>)
      modifies this`currentBlock
      ensures Contents() == AfterTurns(old(Contents()), turns)
    {
      for i := 0 to |turns|
        invariant AfterTurns(Contents(), turns[i..]) == AfterTurns(old(Contents()), turns)
      {
        assert turns[i..][1..] == turns[i + 1..];
        if turns[i].checked {
          var nextBlock := NextWitnessBlock(currentBlock, blockStep, turns[i].info);
          if !turns[i].info.NoWitness? || turns[i].saved {
            currentBlock := nextBlock;
          }
        }
      }
    }
  }

  /** `run_prover_server`: one generator for each offset. */
  method RunProverServer(lastVerifiedBlock: nat, witnessGenerators: nat) returns (generators: seq<WitnessGenerator>)
    ensures |generators| == witnessGenerators
    ensures forall i :: 0 <= i < |generators| ==>
              generators[i].Contents() == Started(lastVerifiedBlock, witnessGenerators, 0, {}).generators[i]
  {
    generators := [];
    for offset := 0 to witnessGenerators
      invariant |generators| == offset
      invariant forall i :: 0 <= i < offset ==>
                  generators[i].Contents() == Started(lastVerifiedBlock, witnessGenerators, 0, {}).generators[i]
    {
      var startBlock := lastVerifiedBlock + offset + 1;
      var generator := new WitnessGenerator(startBlock, witnessGenerators);
      generators := generators + [generator];
    }
  }
}
