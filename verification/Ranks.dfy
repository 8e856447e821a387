/** Thirty-two counters issue global ranks: none twice, and in the end every one. */
module Ranks {
  import opened Basics
  import opened State
  import opened Codec
  import opened Addresses
  import opened Accounts
  import opened Program
  import opened Invariant
  import opened Placement
  import opened Preservation
  import opened Frames

  // ---------------------------------------------------------------- the arithmetic

  const COUNT_LIMIT: nat := 0x800_0000_0000_0000

  /** Issuing fails exactly when the count reaches 2^59, and then it is the multiplication that overflows. */
  lemma IssueFailsAtLimit(s: InscriptionShard)
    requires s.shardNumber < SHARD_COUNT
    ensures NextRank(s) == Err(NumericalOverflow) <==> s.count >= COUNT_LIMIT
    ensures NextRank(s).Err? ==> NextRank(s) == Err(NumericalOverflow) && s.count * SHARD_COUNT >= U64_LIMIT
    ensures NextRank(s).Ok? ==> NextRank(s).value / SHARD_COUNT == s.count
                                && NextRank(s).value % SHARD_COUNT == s.shardNumber
  {
  }

  /** Every 64-bit value is the rank that one count of one shard issues, and of no other. */
  lemma RanksAreBijective(r: u64, s: InscriptionShard)
    requires s.shardNumber < SHARD_COUNT
    ensures NextRank(s) == Ok(r) <==> s.count == r / SHARD_COUNT && s.shardNumber == r % SHARD_COUNT
    ensures r / SHARD_COUNT < COUNT_LIMIT && r % SHARD_COUNT < SHARD_COUNT
  {
  }

  // ---------------------------------------------------------------- the history

  /** The count of a shard; a shard that was not created counts zero. */
  function Count(c: Chain, w: World, n: byte): nat {
    var k := c.ShardAddress(n);
    if w.Owned(k) && DecodeShard(w.Data(k)).Some? then DecodeShard(w.Data(k)).value.count else 0
  }

  function TotalCount(c: Chain, w: World, n: byte): nat {
    if n == 0 then 0 else TotalCount(c, w, n - 1) + Count(c, w, n - 1)
  }

  function RankAt(w: World, k: Pubkey): u64 {
    if w.Record(k).Some? then w.Record(k).value.inscriptionRank else 0
  }

  /** The ranks issued so far are 32 * j + n for the counts j that shard n has passed. */
  ghost predicate IssuedExactly(c: Chain, w: World) {
    forall r: int :: r in w.issued <==> 0 <= r && r / SHARD_COUNT < Count(c, w, r % SHARD_COUNT)
  }

  /** Each shard issues its ranks in increasing order. */
  ghost predicate IncreasingPerShard(issued: seq<u64>) {
    forall i, j :: 0 <= i < j < |issued| && issued[i] % SHARD_COUNT == issued[j] % SHARD_COUNT ==> issued[i] < issued[j]
  }

  ghost predicate LiveRanks(w: World) {
    && (forall k :: k in w.roles && w.roles[k].Metadata? ==> RankAt(w, k) in w.issued)
    && (forall j, k :: j in w.roles && w.roles[j].Metadata? && k in w.roles && w.roles[k].Metadata? && j != k
          ==> RankAt(w, j) != RankAt(w, k))
  }

  /** A live metadata account with nothing below it, so that nobody can pass it for data. */
  ghost predicate Unshadowed(c: Chain, w: World, k: Pubkey) {
    k in w.roles && w.roles[k].Metadata? && NothingBelow(c, w, k)
  }

  ghost predicate UnshadowedRanks(c: Chain, w: World) {
    && (forall k :: Unshadowed(c, w, k) ==> w.Record(k).Some? && RankAt(w, k) in w.issued)
    && (forall j, k :: Unshadowed(c, w, j) && Unshadowed(c, w, k) && j != k ==> RankAt(w, j) != RankAt(w, k))
  }

  /** The account of ranks that every lawful run keeps. */
  ghost predicate Ranked(c: Chain, w: World) {
    && IssuedExactly(c, w)
    && IncreasingPerShard(w.issued)
    && |w.issued| == TotalCount(c, w, 32)
    && UnshadowedRanks(c, w)
  }

  lemma {:induction false} NothingCounted(c: Chain, w: World, n: byte)
    requires forall k :: !w.Owned(k)
    ensures TotalCount(c, w, n) == 0
  {
    if n > 0 {
      NothingCounted(c, w, n - 1);
    }
  }

  lemma InitRanked(c: Chain, w: World)
    requires Init(c, w)
    ensures Ranked(c, w)
  {
    hide Decode, DecodeShard;
    NothingCounted(c, w, 32);
    assert forall n: byte :: Count(c, w, n) == 0;
  }

  // ---------------------------------------------------------------- consequences

  /** No rank is issued twice. */
  lemma RanksIssuedOnce(c: Chain, w: World)
    requires Ranked(c, w)
    ensures NoDup(w.issued)
  {
    hide IssuedExactly, UnshadowedRanks, TotalCount;
  }

  /** In a world that keeps the invariant nothing lies below metadata, so all live ranks are issued and distinct. */
  lemma AllRanksLive(c: Chain, w: World)
    requires c.Sound() && Inv(c, w) && Ranked(c, w)
    ensures LiveRanks(w)
  {
    hide IssuedExactly, IncreasingPerShard, TotalCount, RankAt, Inv;
    forall k | k in w.roles && w.roles[k].Metadata? ensures Unshadowed(c, w, k) {
      MetadataUnshadowed(c, w, k);
    }
  }

  lemma MetadataUnshadowed(c: Chain, w: World, k: Pubkey)
    requires c.Sound() && Inv(c, w) && k in w.roles && w.roles[k].Metadata?
    ensures Unshadowed(c, w, k)
  {
    hide Decode, DecodeShard;
    if !NothingBelow(c, w, k) {
      assert w.Owned(k);
      MetadataResolves(c, w, k, c.MetadataAddress(k));
    }
  }

  /** Below 32 times the smallest count, no rank is missing. */
  lemma NoGapsBelowSmallest(c: Chain, w: World, smallest: nat, r: nat)
    requires Ranked(c, w)
    requires forall n: byte :: n < SHARD_COUNT ==> smallest <= Count(c, w, n)
    requires r < SHARD_COUNT * smallest
    ensures r in w.issued
  {
    hide Count, IncreasingPerShard, UnshadowedRanks, TotalCount;
    var n: byte := r % SHARD_COUNT;
    assert smallest <= Count(c, w, n);
    assert r / SHARD_COUNT < smallest;
  }

  // ---------------------------------------------------------------- steps

  /** Whatever is owned at a shard's address is that shard. */
  lemma ShardAddressRole(c: Chain, w: World, n: byte)
    requires c.Sound() && Placed(c, w) && w.Owned(c.ShardAddress(n))
    ensures c.ShardAddress(n) in w.roles && w.roles[c.ShardAddress(n)] == Shard(n)
    ensures DecodeShard(w.Data(c.ShardAddress(n))).Some?
    ensures n < SHARD_COUNT
  {
    hide DecodeShard;
    var k := c.ShardAddress(n);
    AddressesDisjoint(c);
    assert k in w.roles;
    assert PlacedAt(c, w, k);
    match w.roles[k]
    case Shard(m) => SameShardAddress(c, m, n);
    case _ =>
  }

  lemma NewShardCountsZero(c: Chain, w: World, ix: Instruction, rt: Runtime)
    requires ix.CreateShard? && Execute(c, w, ix, rt).Ok?
    ensures ix.shard == c.ShardAddress(ix.number)
    ensures Count(c, Execute(c, w, ix, rt).value, ix.number) == 0
  {
    hide Decode, DecodeShard, EncodeShard;
    ShardDecodeEncode(InscriptionShard(InscriptionShardAccount, c.ShardBump(ix.number), ix.number, 0));
  }

  /** Every count stays, save that an initialisation counts one on its shard. */
  lemma CountStep(c: Chain, w: World, ix: Instruction, rt: Runtime, n: byte)
    requires c.Sound() && Placed(c, w) && Lawful(c, w, Run(ix, rt)) && Execute(c, w, ix, rt).Ok?
    ensures Count(c, Execute(c, w, ix, rt).value, n)
         == Count(c, w, n) + (if Registers(ix) && ix.shard == c.ShardAddress(n) then 1 else 0)
  {
    hide Decode, DecodeShard, Execute, Placed, Lawful, Shape, Registered;
    var k := c.ShardAddress(n);
    var w' := Execute(c, w, ix, rt).value;
    StepPlaced(c, w, Run(ix, rt));
    PlacedCovers(c, w);
    PlacedCovers(c, w');
    if w.Owned(k) {
      ShardAddressRole(c, w, n);
      ShardFrame(c, w, ix, rt, k);
    } else {
      if Registers(ix) {
        var m, s := Registration(c, w, ix, rt);
      }
      if w'.Owned(k) {
        ShardAddressRole(c, w', n);
        Newcomers(c, w, ix, rt, k);
        NewShardCountsZero(c, w, ix, rt);
      }
    }
  }

  lemma OwnedHasRole(c: Chain, w: World)
    requires Inv(c, w)
    ensures RolesCoverOwned(w) && Shape(c, w)
  {
  }

  /** While nothing lies below it, a metadata account keeps its rank for life. */
  lemma RankKept(c: Chain, w: World, ix: Instruction, rt: Runtime, k: Pubkey)
    requires c.Sound() && Placed(c, w) && Lawful(c, w, Run(ix, rt)) && Execute(c, w, ix, rt).Ok?
    requires Unshadowed(c, w, k) && k in Execute(c, w, ix, rt).value.roles
    ensures RankAt(Execute(c, w, ix, rt).value, k) == RankAt(w, k)
    ensures w.Record(k).Some? ==> Execute(c, w, ix, rt).value.Record(k).Some?
    ensures Unshadowed(c, Execute(c, w, ix, rt).value, k)
  {
    PlacedCovers(c, w);
    assert w.Owned(k);
    assert !Exposed(c, w, k);
    hide Decode, DecodeShard, Execute, AuthorityCheck, Placed, NothingBelow, Exposed;
    PlacedRecordFrame(c, w, ix, rt, k);
    BelowStaysVacant(c, w, Run(ix, rt), k);
  }

  lemma {:induction false} TotalCountSame(c: Chain, w: World, w': World, n: byte)
    requires forall i: byte :: i < n ==> Count(c, w', i) == Count(c, w, i)
    ensures TotalCount(c, w', n) == TotalCount(c, w, n)
  {
    hide Count;
    if n > 0 {
      TotalCountSame(c, w, w', n - 1);
    }
  }

  lemma {:induction false} TotalCountPlusOne(c: Chain, w: World, w': World, n: byte, i: byte)
    requires i < n
    requires forall j: byte :: j < n ==> Count(c, w', j) == Count(c, w, j) + (if j == i then 1 else 0)
    ensures TotalCount(c, w', n) == TotalCount(c, w, n) + 1
  {
    hide Count;
    if i == n - 1 {
      TotalCountSame(c, w, w', n - 1);
    } else {
      TotalCountPlusOne(c, w, w', n - 1, i);
    }
  }

  /** A world with the same counts and history, and no unshadowed metadata account that was none before. */
  lemma QuietRanked(c: Chain, w: World, w': World)
    requires Ranked(c, w) && w'.issued == w.issued
    requires forall n: byte :: Count(c, w', n) == Count(c, w, n)
    requires forall k :: Unshadowed(c, w', k)
               ==> Unshadowed(c, w, k) && RankAt(w', k) == RankAt(w, k) && w'.Record(k).Some?
    ensures Ranked(c, w')
  {
    hide Count, RankAt, Unshadowed;
    TotalCountSame(c, w, w', 32);
  }

  /** What is unshadowed after an instruction was so before, with the same rank, or was just registered. */
  lemma UnshadowedBefore(c: Chain, w: World, ix: Instruction, rt: Runtime, k: Pubkey)
    requires c.Sound() && Placed(c, w) && Lawful(c, w, Run(ix, rt)) && Execute(c, w, ix, rt).Ok?
    requires UnshadowedRanks(c, w) && Unshadowed(c, Execute(c, w, ix, rt).value, k)
    ensures var w' := Execute(c, w, ix, rt).value;
            || (Registers(ix) && k == ix.metadata && k !in w.roles)
            || (Unshadowed(c, w, k) && RankAt(w', k) == RankAt(w, k) && w'.Record(k).Some?)
  {
    hide Decode, DecodeShard, Execute, Lawful, Shape, RankAt, Placed, NothingBelow, AuthorityCheck;
    if k !in w.roles {
      Newcomers(c, w, ix, rt, k);
    } else {
      PlacedCovers(c, w);
      RolesFixed(c, w, ix, rt, k);
      if !NothingBelow(c, w, k) {
        BelowStaysOwned(c, w, Run(ix, rt), k);
      }
      RankKept(c, w, ix, rt, k);
    }
  }

  lemma InstructionRanked(c: Chain, w: World, ix: Instruction, rt: Runtime)
    requires c.Sound() && Placed(c, w) && Ranked(c, w) && Lawful(c, w, Run(ix, rt)) && Execute(c, w, ix, rt).Ok?
    ensures Ranked(c, Execute(c, w, ix, rt).value)
  {
    hide Decode, DecodeShard, Execute, Placed, Lawful, Shape, Count, RankAt, Registered, Unshadowed, IssuedExactly,
         IncreasingPerShard, TotalCount, UnshadowedRanks;
    var w' := Execute(c, w, ix, rt).value;
    forall n: byte
      ensures Count(c, w', n) == Count(c, w, n) + (if Registers(ix) && ix.shard == c.ShardAddress(n) then 1 else 0)
    {
      CountStep(c, w, ix, rt, n);
    }
    forall k | Unshadowed(c, w', k) && !(Registers(ix) && k == ix.metadata && k !in w.roles)
      ensures Unshadowed(c, w, k) && RankAt(w', k) == RankAt(w, k) && w'.Record(k).Some?
    {
      UnshadowedBefore(c, w, ix, rt, k);
    }
    if Registers(ix) {
      var m, s := Registration(c, w, ix, rt);
      RegistrationCounts(c, w, ix, rt, m, s);
      RegistrationRanked(c, w, w', ix.metadata, s, m.inscriptionRank);
    } else {
      OnlyRegistrationsIssue(c, w, ix, rt);
      QuietRanked(c, w, w');
    }
  }

  /** What an initialisation does to the counts, the history and the new account's rank. */
  lemma RegistrationCounts(c: Chain, w: World, ix: Instruction, rt: Runtime, m: InscriptionMetadata,
                           s: InscriptionShard)
    requires c.Sound() && Placed(c, w) && Lawful(c, w, Run(ix, rt)) && Execute(c, w, ix, rt).Ok? && Registers(ix)
    requires LoadShard(c, w, ix.shard) == Ok(s) && NextRank(s) == Ok(m.inscriptionRank)
    requires ix.shard in w.roles && w.roles[ix.shard] == Shard(s.shardNumber) && ix.caller.Signer().Ok?
    requires m == FreshRecord(c, ix.inscription, ix.caller.Signer().value, OriginOf(ix), m.inscriptionRank)
    requires Execute(c, w, ix, rt).value
          == Registered(w, ix.inscription, ix.metadata, m, OriginOf(ix), ix.shard, s)
    ensures var w' := Execute(c, w, ix, rt).value;
            && s.shardNumber < SHARD_COUNT && Count(c, w, s.shardNumber) == s.count
            && (forall n: byte :: ix.shard == c.ShardAddress(n) <==> n == s.shardNumber)
            && w'.issued == w.issued + [m.inscriptionRank]
            && RankAt(w', ix.metadata) == m.inscriptionRank && w'.Record(ix.metadata).Some?
            && ix.metadata !in w.roles
  {
    hide Decode, DecodeShard, Execute, Registered, FreshRecord;
    InitializesNewPair(c, w, ix, rt);
    RegisteredAccounts(c, w, ix.inscription, ix.metadata, m, OriginOf(ix), ix.shard, s);
    assert w.Owned(ix.shard);
    assert PlacedAt(c, w, ix.shard);
    forall n: byte | ix.shard == c.ShardAddress(n) ensures n == s.shardNumber {
      SameShardAddress(c, n, s.shardNumber);
    }
  }

  /** A new rank is the next of its shard, so it is new everywhere. */
  lemma RegistrationIssued(c: Chain, w: World, w': World, s: InscriptionShard, rank: u64)
    requires IssuedExactly(c, w) && IncreasingPerShard(w.issued) && s.shardNumber < SHARD_COUNT
    requires NextRank(s) == Ok(rank) && Count(c, w, s.shardNumber) == s.count
    requires forall n: byte :: Count(c, w', n) == Count(c, w, n) + (if n == s.shardNumber then 1 else 0)
    requires w'.issued == w.issued + [rank]
    ensures rank !in w.issued && IssuedExactly(c, w') && IncreasingPerShard(w'.issued)
  {
    hide Count;
    IssueFailsAtLimit(s);
    assert rank !in w.issued;
    forall r: int ensures r in w'.issued <==> 0 <= r && r / SHARD_COUNT < Count(c, w', r % SHARD_COUNT) {
      assert r in w'.issued <==> r in w.issued || r == rank;
    }
    forall i | 0 <= i < |w.issued| && w.issued[i] % SHARD_COUNT == rank % SHARD_COUNT ensures w.issued[i] < rank {
      assert w.issued[i] in w.issued;
    }
  }

  lemma RegistrationRanked(c: Chain, w: World, w': World, k: Pubkey, s: InscriptionShard, rank: u64)
    requires Ranked(c, w) && s.shardNumber < SHARD_COUNT && NextRank(s) == Ok(rank)
    requires Count(c, w, s.shardNumber) == s.count
    requires forall n: byte :: Count(c, w', n) == Count(c, w, n) + (if n == s.shardNumber then 1 else 0)
    requires w'.issued == w.issued + [rank]
    requires RankAt(w', k) == rank && w'.Record(k).Some?
    requires forall j :: Unshadowed(c, w', j) && j != k
               ==> Unshadowed(c, w, j) && RankAt(w', j) == RankAt(w, j) && w'.Record(j).Some?
    ensures Ranked(c, w')
  {
    hide Count, RankAt, Unshadowed, NextRank;
    RegistrationIssued(c, w, w', s, rank);
    TotalCountPlusOne(c, w, w', 32, s.shardNumber);
    hide IssuedExactly, IncreasingPerShard, TotalCount;
    assert forall r: u64 :: r in w.issued ==> r in w'.issued;
    assert rank in w'.issued;
  }

  lemma OutsideRanked(c: Chain, w: World, step: Step)
    requires c.Sound() && Placed(c, w) && Ranked(c, w) && step.Outside? && Lawful(c, w, step)
    ensures Ranked(c, Next(c, w, step))
  {
    var w' := Next(c, w, step);
    PlacedCovers(c, w);
    OutsideShape(c, w, step.k, step.account);
    AddressesDisjoint(c);
    hide Decode, DecodeShard, Placed, Shape, Ranked, IssuedExactly;
    forall k | Unshadowed(c, w', k)
      ensures Unshadowed(c, w, k) && RankAt(w', k) == RankAt(w, k) && w'.Record(k).Some?
    {
      assert w.Owned(k);
      if !NothingBelow(c, w, k) {
        BelowStaysOwned(c, w, step, k);
      }
      assert Ranked(c, w) ==> UnshadowedRanks(c, w) by { RanksAreKept(c, w); }
    }
    QuietRanked(c, w, w');
  }

  lemma RanksAreKept(c: Chain, w: World)
    ensures Ranked(c, w) ==> UnshadowedRanks(c, w)
  {
  }

  /** Every lawful step keeps the account of ranks. */
  lemma StepRanked(c: Chain, w: World, step: Step)
    requires c.Sound() && Placed(c, w) && Ranked(c, w) && Lawful(c, w, step)
    ensures Ranked(c, Next(c, w, step))
  {
    hide Placed, Ranked, Lawful, Execute;
    match step
    case Outside(_, _) => OutsideRanked(c, w, step);
    case Run(ix, rt) =>
      if Execute(c, w, ix, rt).Ok? {
        InstructionRanked(c, w, ix, rt);
      }
  }
}
