/** What holds over whole runs. */
module Runs {
  import opened Basics
  import opened State
  import opened Addresses
  import opened Accounts
  import opened Program
  import opened Invariant
  import opened Placement
  import opened Preservation
  import opened Frames
  import opened Ranks

  function After(c: Chain, w: World, steps: seq<Step>): World
    decreases |steps|
  {
    if steps == [] then w else After(c, Next(c, w, steps[0]), steps[1..])
  }

  ghost predicate FairRun(c: Chain, w: World, steps: seq<Step>)
    decreases |steps|
  {
    steps == [] || (Fair(c, w, steps[0]) && FairRun(c, Next(c, w, steps[0]), steps[1..]))
  }

  /** A run of all that the runtime allows, whatever lies below the keys that are handed over. */
  ghost predicate LawfulRun(c: Chain, w: World, steps: seq<Step>)
    decreases |steps|
  {
    steps == [] || (Lawful(c, w, steps[0]) && LawfulRun(c, Next(c, w, steps[0]), steps[1..]))
  }

  lemma {:induction false} FairIsLawful(c: Chain, w: World, steps: seq<Step>)
    requires FairRun(c, w, steps)
    ensures LawfulRun(c, w, steps)
    decreases |steps|
  {
    hide Lawful, Next;
    if steps != [] {
      FairIsLawful(c, Next(c, w, steps[0]), steps[1..]);
    }
  }

  lemma {:induction false} RunInv(c: Chain, w: World, steps: seq<Step>)
    requires c.Sound() && Inv(c, w) && FairRun(c, w, steps)
    ensures Inv(c, After(c, w, steps))
    decreases |steps|
  {
    hide Inv, Fair, Next;
    if steps != [] {
      StepInv(c, w, steps[0]);
      RunInv(c, Next(c, w, steps[0]), steps[1..]);
    }
  }

  /** Lawful runs keep every account in its place, and the account of ranks. */
  lemma {:induction false} RunPlaced(c: Chain, w: World, steps: seq<Step>)
    requires c.Sound() && Placed(c, w) && LawfulRun(c, w, steps)
    ensures Placed(c, After(c, w, steps))
    ensures Ranked(c, w) ==> Ranked(c, After(c, w, steps))
    decreases |steps|
  {
    hide Placed, Ranked, Lawful, Next;
    if steps != [] {
      StepPlaced(c, w, steps[0]);
      if Ranked(c, w) {
        StepRanked(c, w, steps[0]);
      }
      RunPlaced(c, Next(c, w, steps[0]), steps[1..]);
    }
  }

  /** Every world that a fair run reaches from one without program accounts is well kept. */
  lemma ReachableInv(c: Chain, w: World, steps: seq<Step>)
    requires c.Sound() && Init(c, w) && FairRun(c, w, steps)
    ensures Inv(c, After(c, w, steps)) && Ranked(c, After(c, w, steps))
  {
    InitInv(c, w);
    InitRanked(c, w);
    RunInv(c, w, steps);
    InvPlaced(c, w);
    FairIsLawful(c, w, steps);
    hide Inv, Placed, FairRun, LawfulRun, After;
    RunPlaced(c, w, steps);
  }

  // ---------------------------------------------------------------- ranks

  /**
    Over any lawful run, closes and re-initialisations included: no rank is issued twice, the issued ranks are those
    the counters have passed, in order on each shard, and they are as many as the counters say. Live inscriptions
    have issued ranks and share none, save those whose metadata somebody can pass for data.
   */
  lemma RanksAreUnique(c: Chain, w: World, steps: seq<Step>)
    requires c.Sound() && Init(c, w) && LawfulRun(c, w, steps)
    ensures var w' := After(c, w, steps);
            && NoDup(w'.issued)
            && IssuedExactly(c, w')
            && IncreasingPerShard(w'.issued)
            && |w'.issued| == |Elements(w'.issued)| == TotalCount(c, w', 32)
            && UnshadowedRanks(c, w')
            && (FairRun(c, w, steps) ==> LiveRanks(w'))
  {
    InitInv(c, w);
    InvPlaced(c, w);
    InitRanked(c, w);
    hide IssuedExactly, IncreasingPerShard, LiveRanks, UnshadowedRanks, TotalCount, After, Init, FairRun, LawfulRun,
         Inv, Placed;
    RunPlaced(c, w, steps);
    var w' := After(c, w, steps);
    RanksIssuedOnce(c, w');
    DistinctElements(w'.issued);
    if FairRun(c, w, steps) {
      ReachableInv(c, w, steps);
      AllRanksLive(c, w');
    }
  }

  lemma {:induction false} DistinctElements<T>(s: seq<T>)
    requires NoDup(s)
    ensures |Elements(s)| == |s|
  {
    if s != [] {
      var r, x := s[..|s| - 1], s[|s| - 1];
      DistinctElements(r);
      assert s == r + [x];
      assert Elements(s) == Elements(r) + {x};
      assert x !in Elements(r);
    }
  }

  /** A rank issued now was never issued before, also when the address was in use before. */
  lemma NewRankIsNew(c: Chain, w: World, ix: Instruction, rt: Runtime)
    requires c.Sound() && Placed(c, w) && Ranked(c, w) && Lawful(c, w, Run(ix, rt)) && Execute(c, w, ix, rt).Ok?
    requires Registers(ix)
    ensures var w' := Execute(c, w, ix, rt).value;
            RankAt(w', ix.metadata) !in w.issued && w'.issued == w.issued + [RankAt(w', ix.metadata)]
  {
    hide Decode, DecodeShard, Execute, Lawful, Registered, Ranked, Placed;
    var m, s := Registration(c, w, ix, rt);
    RegistrationCounts(c, w, ix, rt, m, s);
    InstructionRanked(c, w, ix, rt);
    var w' := Execute(c, w, ix, rt).value;
    RanksIssuedOnce(c, w');
    assert w'.issued[|w.issued|] == m.inscriptionRank;
    assert forall i :: 0 <= i < |w.issued| ==> w'.issued[i] == w.issued[i];
  }

  ghost predicate LiveThroughout(c: Chain, w: World, steps: seq<Step>, k: Pubkey)
    decreases |steps|
  {
    && k in w.roles && w.roles[k].Metadata?
    && (steps != [] ==> LiveThroughout(c, Next(c, w, steps[0]), steps[1..], k))
  }

  /**
    The rank of an inscription never changes during its lifetime, in any lawful run, if the program had nothing
    below its metadata when that lifetime began; and then it never has anything there.
   */
  lemma {:induction false} RankForLife(c: Chain, w: World, steps: seq<Step>, k: Pubkey)
    requires c.Sound() && Placed(c, w) && LawfulRun(c, w, steps) && LiveThroughout(c, w, steps, k)
    requires NothingBelow(c, w, k) && w.Record(k).Some?
    ensures var w' := After(c, w, steps);
            w'.Record(k).Some? && RankAt(w', k) == RankAt(w, k) && NothingBelow(c, w', k)
    decreases |steps|
  {
    if steps != [] {
      StepPlaced(c, w, steps[0]);
      PlacedCovers(c, w);
      assert w.Owned(k);
      BelowStaysVacant(c, w, steps[0], k);
      hide Decode, DecodeShard, Execute, After, Placed, NothingBelow;
      match steps[0] {
        case Run(ix, rt) =>
          if Execute(c, w, ix, rt).Ok? {
            RankKept(c, w, ix, rt, k);
          }
        case Outside(_, _) =>
      }
      RankForLife(c, Next(c, w, steps[0]), steps[1..], k);
    }
  }

  // ---------------------------------------------------------------- shards

  /** Is the step a successful initialisation that names shard account `k`? */
  predicate RegistersOn(c: Chain, w: World, step: Step, k: Pubkey) {
    step.Run? && Registers(step.ix) && step.ix.shard == k && Execute(c, w, step.ix, step.rt).Ok?
  }

  function Registrations(c: Chain, w: World, steps: seq<Step>, k: Pubkey): nat
    decreases |steps|
  {
    if steps == [] then 0
    else (if RegistersOn(c, w, steps[0], k) then 1 else 0) + Registrations(c, Next(c, w, steps[0]), steps[1..], k)
  }

  /** One step, seen from a shard account. */
  lemma ShardStep(c: Chain, w: World, step: Step, k: Pubkey)
    requires c.Sound() && Placed(c, w) && Lawful(c, w, step) && k in w.roles && w.roles[k].Shard?
    ensures SameRole(w, Next(c, w, step), k)
    ensures DecodeShard(w.Data(k)).Some? && DecodeShard(Next(c, w, step).Data(k)).Some?
    ensures DecodeShard(Next(c, w, step).Data(k)).value
         == DecodeShard(w.Data(k)).value.(count := DecodeShard(Next(c, w, step).Data(k)).value.count)
    ensures DecodeShard(Next(c, w, step).Data(k)).value.count
         == DecodeShard(w.Data(k)).value.count + (if RegistersOn(c, w, step, k) then 1 else 0)
  {
    hide Decode, DecodeShard, Execute;
    assert w.Owned(k) && PlacedAt(c, w, k);
    if step.Run? && Execute(c, w, step.ix, step.rt).Ok? {
      ShardFrame(c, w, step.ix, step.rt, k);
    }
  }

  /**
    A shard, once created, is the program's forever, with the same number and bump, and counts the
    initialisations that named it, no more and no fewer. No lawful run can do anything about it.
   */
  lemma {:induction false} ShardForever(c: Chain, w: World, steps: seq<Step>, k: Pubkey)
    requires c.Sound() && Placed(c, w) && LawfulRun(c, w, steps) && k in w.roles && w.roles[k].Shard?
    ensures var w' := After(c, w, steps);
            && SameRole(w, w', k) && w'.Owned(k)
            && w.roles[k].number < SHARD_COUNT
            && DecodeShard(w.Data(k)).Some? && DecodeShard(w'.Data(k)).Some?
            && DecodeShard(w'.Data(k)).value
               == DecodeShard(w.Data(k)).value.(count := DecodeShard(w'.Data(k)).value.count)
            && DecodeShard(w'.Data(k)).value.count == DecodeShard(w.Data(k)).value.count + Registrations(c, w, steps, k)
    decreases |steps|
  {
    hide Decode, DecodeShard, Execute, Next, Lawful, RegistersOn;
    assert w.Owned(k) && PlacedAt(c, w, k);
    if steps != [] {
      ShardStep(c, w, steps[0], k);
      StepPlaced(c, w, steps[0]);
      ShardForever(c, Next(c, w, steps[0]), steps[1..], k);
    }
  }

  /** What others hand to the program lies there for good: nobody can use it, change it or close it. */
  lemma {:induction false} HandedForever(c: Chain, w: World, steps: seq<Step>, k: Pubkey)
    requires c.Sound() && Inv(c, w) && FairRun(c, w, steps) && k in w.roles && w.roles[k].Handed?
    ensures SameAt(w, After(c, w, steps), k)
    decreases |steps|
  {
    hide Decode, DecodeShard, Execute;
    if steps != [] {
      var w1 := Next(c, w, steps[0]);
      assert w.Owned(k);
      if steps[0].Run? && Execute(c, w, steps[0].ix, steps[0].rt).Ok? {
        HandedFrame(c, w, steps[0].ix, steps[0].rt, k);
      }
      StepInv(c, w, steps[0]);
      HandedForever(c, w1, steps[1..], k);
    }
  }

  // ---------------------------------------------------------------- minting order

  /** The rank that an initialisation issues is the next one of the shard it names. */
  lemma IssuedRank(c: Chain, w: World, ix: Instruction, rt: Runtime)
    requires c.Sound() && Placed(c, w) && Lawful(c, w, Run(ix, rt)) && Execute(c, w, ix, rt).Ok? && Registers(ix)
    ensures LoadShard(c, w, ix.shard).Ok?
    ensures NextRank(LoadShard(c, w, ix.shard).value) == Ok(RankAt(Execute(c, w, ix, rt).value, ix.metadata))
    ensures ix.shard in w.roles && w.roles[ix.shard] == Shard(LoadShard(c, w, ix.shard).value.shardNumber)
    ensures LoadShard(c, w, ix.shard).value.shardNumber < SHARD_COUNT
    ensures DecodeShard(w.Data(ix.shard)) == Some(LoadShard(c, w, ix.shard).value)
  {
    hide Decode, DecodeShard, Execute, Lawful, Registered, FreshRecord;
    var m, s := Registration(c, w, ix, rt);
    InitializesNewPair(c, w, ix, rt);
    RegisteredAccounts(c, w, ix.inscription, ix.metadata, m, OriginOf(ix), ix.shard, s);
    assert PlacedAt(c, w, ix.shard);
  }

  /**
    The project's own description has inscriptions ranked in minting order. Of two initialisations with any lawful
    run between them, the earlier gets the lower rank if and only if its shard had a lower count, or the same count
    and a lower number. On one shard that is always so; on two it need not be.
   */
  lemma MintingOrder(c: Chain, w: World, first: Instruction, rt: Runtime, steps: seq<Step>, second: Instruction,
                     rt': Runtime)
    requires c.Sound() && Placed(c, w) && Registers(first) && Registers(second)
    requires Lawful(c, w, Run(first, rt)) && Execute(c, w, first, rt).Ok?
    requires LawfulRun(c, Execute(c, w, first, rt).value, steps)
    requires var w2 := After(c, Execute(c, w, first, rt).value, steps);
             Lawful(c, w2, Run(second, rt')) && Execute(c, w2, second, rt').Ok?
    ensures var w1 := Execute(c, w, first, rt).value;
            var w2 := After(c, w1, steps);
            && LoadShard(c, w, first.shard).Ok? && LoadShard(c, w2, second.shard).Ok?
            && var s, s2 := LoadShard(c, w, first.shard).value, LoadShard(c, w2, second.shard).value;
               var r, r2 := RankAt(w1, first.metadata), RankAt(Execute(c, w2, second, rt').value, second.metadata);
               && (r < r2 <==> s.count < s2.count || (s.count == s2.count && s.shardNumber < s2.shardNumber))
               && (first.shard == second.shard ==> r < r2)
  {
    hide Decode, DecodeShard, Execute, Placed, Lawful, After, LawfulRun, LoadShard, RankAt, Registrations;
    var w1 := Execute(c, w, first, rt).value;
    var w2 := After(c, w1, steps);
    StepPlaced(c, w, Run(first, rt));
    RunPlaced(c, w1, steps);
    IssuedRank(c, w, first, rt);
    IssuedRank(c, w2, second, rt');
    if first.shard == second.shard {
      ShardFrame(c, w, first, rt, first.shard);
      ShardForever(c, w1, steps, first.shard);
    }
  }
}
