/** What every reachable world looks like from outside: ownership, addresses and bytes, without the ghost roles. */
module Lifecycles {
  import opened Basics
  import opened State
  import opened Codec
  import opened Layout
  import opened Addresses
  import opened Accounts
  import opened Program
  import opened Invariant
  import opened Placement
  import opened Preservation
  import opened Ranks
  import opened Runs
  import opened Authority

  /** Reached by a fair run from a ledger without accounts of the program. */
  ghost predicate Reachable(c: Chain, w: World) {
    exists w0, steps :: Init(c, w0) && FairRun(c, w0, steps) && w == After(c, w0, steps)
  }

  lemma ReachableHolds(c: Chain, w: World)
    requires c.Sound() && Reachable(c, w)
    ensures Inv(c, w) && Ranked(c, w)
  {
    hide Init, FairRun, After, Inv, Ranked;
    var w0, steps :| Init(c, w0) && FairRun(c, w0, steps) && w == After(c, w0, steps);
    ReachableInv(c, w0, steps);
  }

  lemma {:induction false} RunAppend(c: Chain, w: World, steps: seq<Step>, step: Step)
    requires FairRun(c, w, steps) && Fair(c, After(c, w, steps), step)
    ensures FairRun(c, w, steps + [step])
    ensures After(c, w, steps + [step]) == Next(c, After(c, w, steps), step)
    decreases |steps|
  {
    hide Fair, Next;
    if steps == [] {
      assert steps + [step] == [step];
      assert [step][1..] == [];
    } else {
      RunAppend(c, Next(c, w, steps[0]), steps[1..], step);
      assert (steps + [step])[1..] == steps[1..] + [step];
    }
  }

  lemma ReachableNext(c: Chain, w: World, step: Step)
    requires Reachable(c, w) && Fair(c, w, step)
    ensures Reachable(c, Next(c, w, step))
  {
    hide Init, FairRun, After, Fair, Next;
    var w0, steps :| Init(c, w0) && FairRun(c, w0, steps) && w == After(c, w0, steps);
    RunAppend(c, w0, steps, step);
  }

  /** Reached by a lawful run from there, whatever keys others handed over on the way. */
  ghost predicate LawfullyReachable(c: Chain, w: World) {
    exists w0, steps :: Init(c, w0) && LawfulRun(c, w0, steps) && w == After(c, w0, steps)
  }

  lemma LawfullyReachableHolds(c: Chain, w: World)
    requires c.Sound() && LawfullyReachable(c, w)
    ensures Placed(c, w) && Ranked(c, w)
  {
    hide LawfulRun, After, Ranked;
    var w0, steps :| Init(c, w0) && LawfulRun(c, w0, steps) && w == After(c, w0, steps);
    InitInv(c, w0);
    InvPlaced(c, w0);
    InitRanked(c, w0);
    hide Init, Placed;
    RunPlaced(c, w0, steps);
  }

  lemma ReachableLawfully(c: Chain, w: World)
    requires Reachable(c, w)
    ensures LawfullyReachable(c, w)
  {
    hide Init, FairRun, LawfulRun, After;
    var w0, steps :| Init(c, w0) && FairRun(c, w0, steps) && w == After(c, w0, steps);
    FairIsLawful(c, w0, steps);
  }

  lemma {:induction false} LawfulAppend(c: Chain, w: World, steps: seq<Step>, step: Step)
    requires LawfulRun(c, w, steps) && Lawful(c, After(c, w, steps), step)
    ensures LawfulRun(c, w, steps + [step])
    ensures After(c, w, steps + [step]) == Next(c, After(c, w, steps), step)
    decreases |steps|
  {
    hide Lawful, Next;
    if steps == [] {
      assert steps + [step] == [step];
      assert [step][1..] == [];
    } else {
      LawfulAppend(c, Next(c, w, steps[0]), steps[1..], step);
      assert (steps + [step])[1..] == steps[1..] + [step];
    }
  }

  lemma LawfullyReachableNext(c: Chain, w: World, step: Step)
    requires LawfullyReachable(c, w) && Lawful(c, w, step)
    ensures LawfullyReachable(c, Next(c, w, step))
  {
    hide Init, LawfulRun, After, Lawful, Next;
    var w0, steps :| Init(c, w0) && LawfulRun(c, w0, steps) && w == After(c, w0, steps);
    LawfulAppend(c, w0, steps, step);
  }

  /** Account `k` is the program's, in this role. */
  ghost predicate Serves(w: World, k: Pubkey, role: Role) {
    k in w.roles && w.roles[k] == role
  }

  ghost predicate IsMain(w: World, k: Pubkey) {
    k in w.roles && w.roles[k].MainData?
  }

  ghost predicate IsMetadata(w: World, k: Pubkey) {
    k in w.roles && w.roles[k].Metadata?
  }

  /**
    The same seeds give the metadata address of an account and the data address of a mint, yet they are never
    mixed up: the program owns both `d` and its derived address exactly when `d` is main data, and exactly
    when that address holds a record that names `d`.
   */
  lemma PairsLiveTogether(c: Chain, w: World, d: Pubkey)
    requires c.Sound() && Reachable(c, w) && c.KnowsMetadata(d)
    ensures var k := c.MetadataAddress(d);
            && (IsMain(w, d) <==> w.Owned(d) && w.Owned(k))
            && (Serves(w, k, Metadata(d)) <==> w.Owned(d) && w.Owned(k))
            && (IsMain(w, d) ==> w.Record(k).Some? && w.Record(k).value.inscriptionAccount == d)
            && (w.Owned(k) && !w.Owned(d) <==> Serves(w, k, MainData(FromMint(d))))
  {
    hide Decode, DecodeShard, LiveEntries, Reachable;
    ReachableHolds(c, w);
    var k := c.MetadataAddress(d);
    if w.Owned(d) && w.Owned(k) {
      MetadataResolves(c, w, d, k);
    }
    if d in w.roles {
      assert GoodAt(c, w, d);
    }
    if k in w.roles {
      AddressesDisjoint(c);
      assert GoodAt(c, w, k);
      match w.roles[k]
      case Metadata(e) => SameMetadataAddress(c, d, e);
      case MainData(FromMint(mint)) => SameMetadataAddress(c, d, mint);
      case _ =>
    }
  }

  /** Every account of the program is where its role says, and only there. */
  lemma OwnedAddresses(c: Chain, w: World, k: Pubkey)
    requires c.Sound() && Reachable(c, w)
    ensures w.Owned(k) <==> k in w.roles
    ensures k in w.roles ==>
              match w.roles[k]
              case Shard(n) => n < SHARD_COUNT && k == c.ShardAddress(n)
              case Metadata(d) => k == c.MetadataAddress(d) && w.Owned(d) && IsMain(w, d)
              case MainData(Keypair) => !c.derived(k) && w.Owned(c.MetadataAddress(k))
              case MainData(FromMint(mint)) => k == c.MetadataAddress(mint) && w.Owned(c.MetadataAddress(k))
              case AssociatedData(t, p) => k == c.AssociatedAddress(t, p) && w.Owned(p) && IsMetadata(w, p)
              case Handed =>
                !c.derived(k) && Zeroed(w.Data(k)) && (c.KnowsMetadata(k) ==> !w.Owned(c.MetadataAddress(k)))
  {
    hide Decode, DecodeShard, LiveEntries, Reachable;
    ReachableHolds(c, w);
    if k in w.roles {
      assert GoodAt(c, w, k);
    }
  }

  /**
    The tags listed in a live metadata account are distinct, and a tag is listed exactly when the program owns
    the account derived from the tag and the metadata address. A listed tag has 1 to 32 bytes.
   */
  lemma TagsMatchChildren(c: Chain, w: World, k: Pubkey, tag: bytes)
    requires c.Sound() && Reachable(c, w) && IsMetadata(w, k) && c.KnowsAssociated(tag, k)
    ensures w.Record(k).Some?
    ensures var l := w.Record(k).value.associatedInscriptions;
            && DistinctTags(l)
            && (HasTag(l, tag) <==> w.Owned(c.AssociatedAddress(tag, k)))
            && (HasTag(l, tag) ==> 1 <= |tag| <= 32 && Lists(l, tag, c.AssociatedBump(tag, k)))
  {
    hide Decode, DecodeShard, Reachable;
    ReachableHolds(c, w);
    assert GoodAt(c, w, k);
    var l := w.Record(k).value.associatedInscriptions;
    var child := c.AssociatedAddress(tag, k);
    if HasTag(l, tag) {
      var i :| 0 <= i < |l| && l[i].tag == tag;
      assert LiveEntry(c, w, k, l[i]);
    }
    if w.Owned(child) {
      AssociatedResolves(c, w, tag, child, k);
      assert GoodAt(c, w, child);
    }
  }

  /** No child account outlives its metadata account. */
  lemma NoOrphans(c: Chain, w: World, k: Pubkey, tag: bytes)
    requires c.Sound() && Reachable(c, w) && c.KnowsAssociated(tag, k)
    requires w.Owned(c.AssociatedAddress(tag, k))
    ensures w.Owned(k) && IsMetadata(w, k)
    ensures w.Record(k).Some? && HasTag(w.Record(k).value.associatedInscriptions, tag)
  {
    hide Decode, DecodeShard, Reachable, LiveEntries;
    ReachableHolds(c, w);
    AssociatedResolves(c, w, tag, c.AssociatedAddress(tag, k), k);
    assert GoodAt(c, w, c.AssociatedAddress(tag, k));
  }

  /**
    Every live metadata account holds exactly the encoding of its record, with no spare byte, so it always
    parses; and its rank, which was issued, is at bytes 35 to 42.
   */
  lemma MetadataFillsItsAccount(c: Chain, w: World, k: Pubkey)
    requires c.Sound() && Reachable(c, w) && IsMetadata(w, k)
    ensures w.Record(k).Some?
    ensures var m := w.Record(k).value;
            && w.Data(k) == Encode(m)
            && m.inscriptionAccount == w.roles[k].inscription
            && |w.Data(k)| >= 60 && LongWord(w.Data(k)[35..43]) == m.inscriptionRank
            && m.inscriptionRank in w.issued
  {
    hide Decode, DecodeShard, Encode, Reachable, LiveEntries;
    ReachableHolds(c, w);
    assert GoodAt(c, w, k);
    EncodeDecode(w.Data(k));
    FixedOffsets(w.Record(k).value);
    RecordBytes(w.Record(k).value);
    AllRanksLive(c, w);
    assert RankAt(w, k) in w.issued;
  }

  // ---------------------------------------------------------------- without legacy records

  /** The same chain, on which every mint inscription records its mint from the start. */
  function Strict(c: Chain): Chain {
    c.(legacy := false)
  }

  lemma SameChecks(c: Chain, w: World, inscription: Pubkey, metadata: Pubkey, caller: Caller, tag: Option<Tag>)
    ensures forall m ::
              TargetCheck(Strict(c), inscription, metadata, m, tag) == TargetCheck(c, inscription, metadata, m, tag)
    ensures DataChecks(Strict(c), w, inscription, metadata, caller, tag)
         == DataChecks(c, w, inscription, metadata, caller, tag)
  {
    hide Decode, AuthorityCheck;
  }

  lemma SameRegister(c: Chain, w: World, inscription: Pubkey, metadata: Pubkey, authority: Pubkey, origin: Origin,
                     shard: Pubkey)
    ensures Register(Strict(c), w, inscription, metadata, authority, origin, shard)
         == Register(c, w, inscription, metadata, authority, origin, shard)
  {
    hide DecodeShard, NextRank, Registered;
  }

  /** No processor looks at the flag. */
  lemma SameExecution(c: Chain, w: World, ix: Instruction, rt: Runtime)
    ensures Execute(Strict(c), w, ix, rt) == Execute(c, w, ix, rt)
  {
    hide Decode, Encode, EncodeShard, Without, Position, SwapRemove, AuthorityCheck, TargetCheck, DataChecks, Register,
         Resized, Spliced;
    match ix {
      case Initialize(i, m, s, caller) =>
        if caller.Signer().Ok? {
          SameRegister(c, w, i, m, caller.Signer().value, Keypair, s);
        }
      case InitializeFromMint(i, m, mint, _, s, caller) =>
        if caller.Signer().Ok? {
          SameRegister(c, w, i, m, caller.Signer().value, FromMint(mint), s);
        }
      case Close(i, m, caller, tag) => SameChecks(c, w, i, m, caller, tag);
      case WriteData(i, m, caller, tag, _, _) => SameChecks(c, w, i, m, caller, tag);
      case ClearData(i, m, caller, tag) => SameChecks(c, w, i, m, caller, tag);
      case Allocate(i, m, caller, tag, _) => SameChecks(c, w, i, m, caller, tag);
      case _ =>
    }
  }

  lemma {:induction false} SameRun(c: Chain, w: World, steps: seq<Step>)
    ensures FairRun(Strict(c), w, steps) <==> FairRun(c, w, steps)
    ensures After(Strict(c), w, steps) == After(c, w, steps)
    decreases |steps|
  {
    if steps != [] {
      if steps[0].Run? {
        SameExecution(c, w, steps[0].ix, steps[0].rt);
      }
      hide Execute;
      SameRun(c, Next(c, w, steps[0]), steps[1..]);
    }
  }

  /** What starts without accounts of the program never gets a legacy record, whether or not the chain admits them. */
  lemma ReachableStrictly(c: Chain, w: World)
    requires c.Sound() && Reachable(c, w)
    ensures Strict(c).Sound() && Reachable(Strict(c), w)
  {
    hide FairRun, After;
    var w0, steps :| Init(c, w0) && FairRun(c, w0, steps) && w == After(c, w0, steps);
    SameRun(c, w0, steps);
    assert Init(Strict(c), w0);
  }

  /** In a reachable world an empty list of authorities is all that immutability takes. */
  lemma EmptyListIsFinal(c: Chain, w: World, k: Pubkey)
    requires c.Sound() && Reachable(c, w) && IsMetadata(w, k)
    requires w.Record(k).Some? && w.Record(k).value.updateAuthorities == []
    ensures Frozen(w, k)
  {
    hide Decode, Reachable;
    ReachableStrictly(c, w);
    ReachableHolds(Strict(c), w);
    EmptyListFreezes(Strict(c), w, k);
  }

  /** In a reachable world SetMint, which anyone may send, changes nothing at all. */
  lemma SetMintIsIdle(c: Chain, w: World, ix: Instruction, rt: Runtime)
    requires c.Sound() && Reachable(c, w) && ix.SetMint?
    requires Fair(c, w, Run(ix, rt)) && Execute(c, w, ix, rt).Ok?
    ensures Execute(c, w, ix, rt).value == w
  {
    hide Decode, Reachable, Execute;
    ReachableStrictly(c, w);
    ReachableHolds(Strict(c), w);
    SameExecution(c, w, ix, rt);
    SetMintIsIdentity(Strict(c), w, ix, rt);
  }
}
