/** Runs that show the assumptions met and the exceptions real. */
module Witnesses {
  import opened Basics
  import opened State
  import opened Codec
  import opened Addresses
  import opened Accounts
  import opened Program
  import opened Invariant
  import opened Placement
  import opened Preservation
  import opened Frames
  import opened Ranks
  import opened Runs
  import opened Lifecycles
  import opened Authority
  import opened Success
  import opened Exceptions
  import opened Handovers

  // ---------------------------------------------------------------- a stage

  /** Two keys to inscribe, a mint with its token metadata, a payer, and a tag. */
  datatype Cast = Cast(first: Pubkey, second: Pubkey, mint: Pubkey, token: Pubkey, payer: Pubkey, tag: Tag)

  /** A sound chain on which these keys sign, are distinct, and derive known addresses. */
  ghost predicate Staged(c: Chain, s: Cast) {
    && c.Sound()
    && c.KnowsMetadata(s.first) && c.KnowsMetadata(s.second) && c.KnowsMetadata(s.mint)
    && c.KnowsMetadata(c.MetadataAddress(s.mint)) && c.KnowsAssociated(s.tag, c.MetadataAddress(s.first))
    && c.KnowsAssociated(s.tag, c.MetadataAddress(s.mint)) && 1 <= |s.tag| <= 32
    && !c.derived(s.first) && !c.derived(s.second) && !c.derived(s.mint) && !c.derived(s.token) && !c.derived(s.payer)
    && NoDup([s.first, s.second, s.mint, s.token, s.payer])
    && c.tokenMetadata([]) == Some(TokenMetadataRecord(s.mint, s.payer))
  }

  /** Derived addresses start with a byte of their own, then tell their kind, then what they derive from. */
  function Derive(s: Cast, mark: byte, seeds: bytes): Pubkey {
    if |seeds| > 11 && seeds[11] == 65 then Digest([mark, 2] + Zeros(29) + [seeds[|seeds| - 2]])
    else if |seeds| == 50 then Digest([mark, 0] + Zeros(29) + [seeds[48]])
    else if |seeds| == 76 then Digest([mark, 1] + Zeros(29) + [Place(s, seeds[43..75])])
    else Digest([mark, 3] + Zeros(30))
  }

  function Place(s: Cast, key: bytes): byte {
    if key == s.first.raw then 0 else if key == s.second.raw then 1 else if key == s.mint.raw then 2 else 3
  }

  function Stage(s: Cast, mark: byte, legacy: bool): Chain {
    Chain((seeds: bytes) => Derive(s, mark, seeds),
          (seeds: bytes) => 255,
          (b: bytes) => Some(TokenMetadataRecord(s.mint, s.payer)),
          (k: Pubkey) => k.raw[0] == mark,
          {MetadataSeeds(s.first), MetadataSeeds(s.second), MetadataSeeds(s.mint),
           MetadataSeeds(Digest([mark, 1] + Zeros(29) + [2])),
           AssociatedSeeds(s.tag, Digest([mark, 1] + Zeros(29) + [0])),
           AssociatedSeeds(s.tag, Digest([mark, 1] + Zeros(29) + [2]))}
          + (set n: byte {:trigger ShardSeeds(n)} | 0 <= n < 256 :: ShardSeeds(n)),
          legacy)
  }

  lemma DerivedOnStage(s: Cast, mark: byte, legacy: bool, k: Pubkey, n: byte, t: bytes)
    ensures var c := Stage(s, mark, legacy);
            && c.MetadataAddress(k) == Digest([mark, 1] + Zeros(29) + [Place(s, k.raw)])
            && c.ShardAddress(n) == Digest([mark, 0] + Zeros(29) + [n])
            && c.AssociatedAddress(t, k) == Digest([mark, 2] + Zeros(29) + [k.raw[31]])
  {
    SeedShapes(k, n, t);
  }

  lemma SeedShapes(k: Pubkey, n: byte, t: bytes)
    ensures var m := MetadataSeeds(k) + [255]; |m| == 76 && m[11] == 0 && m[43..75] == k.raw
    ensures var h := ShardSeeds(n) + [255]; |h| == 50 && h[11] == 83 && h[48] == n
    ensures var a := AssociatedSeeds(t, k) + [255]; |a| > 11 && a[11] == 65 && a[|a| - 2] == k.raw[31]
  {
    var m, h := MetadataSeeds(k) + [255], ShardSeeds(n) + [255];
    assert m[..43] == PREFIX + ID.raw;
    assert m[11] == ID.raw[0];
    assert h[11] == SHARD_PREFIX[0];
  }

  /** The assumptions can be met, for any distinct keys whose first bytes leave a byte unused. */
  lemma StagesExist(s: Cast, mark: byte, legacy: bool)
    requires NoDup([s.first, s.second, s.mint, s.token, s.payer]) && 1 <= |s.tag| <= 32
    requires forall k :: k in [s.first, s.second, s.mint, s.token, s.payer] ==> k.raw[0] != mark
    ensures Staged(Stage(s, mark, legacy), s)
  {
    var l := [s.first, s.second, s.mint, s.token, s.payer];
    assert forall i :: 0 <= i < 5 ==> l[i] in l;
    assert l[0] == s.first && l[1] == s.second && l[2] == s.mint && l[3] == s.token && l[4] == s.payer;
    assert s.first.raw != s.second.raw && s.first.raw != s.mint.raw && s.second.raw != s.mint.raw;
    StageIsSound(s, mark, legacy);
    StageKnows(s, mark, legacy);
    hide MetadataSeeds, AssociatedSeeds, ShardSeeds, Derive;
  }

  lemma StageKnows(s: Cast, mark: byte, legacy: bool)
    requires s.first.raw != s.mint.raw && s.second.raw != s.mint.raw
    ensures var c := Stage(s, mark, legacy);
            && c.KnowsMetadata(s.first) && c.KnowsMetadata(s.second) && c.KnowsMetadata(s.mint)
            && c.KnowsMetadata(c.MetadataAddress(s.mint)) && c.KnowsAssociated(s.tag, c.MetadataAddress(s.first))
            && c.KnowsAssociated(s.tag, c.MetadataAddress(s.mint))
  {
    DerivedOnStage(s, mark, legacy, s.first, 0, s.tag);
    DerivedOnStage(s, mark, legacy, s.mint, 0, s.tag);
    hide MetadataSeeds, AssociatedSeeds, ShardSeeds, Derive;
  }

  /** The known seeds that an address on the stage derives from. */
  function Source(s: Cast, mark: byte, k: Pubkey): bytes {
    if k.raw[1] == 0 then ShardSeeds(k.raw[31])
    else if k.raw[1] == 2 then AssociatedSeeds(s.tag, Digest([mark, 1] + Zeros(29) + [k.raw[31]]))
    else if k.raw[31] == 0 then MetadataSeeds(s.first)
    else if k.raw[31] == 1 then MetadataSeeds(s.second)
    else if k.raw[31] == 2 then MetadataSeeds(s.mint)
    else MetadataSeeds(Digest([mark, 1] + Zeros(29) + [2]))
  }

  lemma KnownHasSource(s: Cast, mark: byte, legacy: bool, seeds: bytes)
    requires s.first.raw != s.second.raw && s.first.raw != s.mint.raw && s.second.raw != s.mint.raw
    requires s.first.raw[0] != mark && s.second.raw[0] != mark && s.mint.raw[0] != mark
    requires seeds in Stage(s, mark, legacy).known
    ensures var k := Stage(s, mark, legacy).Address(seeds); k.raw[0] == mark && seeds == Source(s, mark, k)
  {
    hide MetadataSeeds, AssociatedSeeds, ShardSeeds, Derive;
    var metadata := Digest([mark, 1] + Zeros(29) + [0]);
    var data := Digest([mark, 1] + Zeros(29) + [2]);
    if seeds == AssociatedSeeds(s.tag, metadata) {
      DerivedOnStage(s, mark, legacy, metadata, 0, s.tag);
    } else if seeds == AssociatedSeeds(s.tag, data) {
      DerivedOnStage(s, mark, legacy, data, 0, s.tag);
    } else if n: byte :| seeds == ShardSeeds(n) {
      DerivedOnStage(s, mark, legacy, s.first, n, s.tag);
    } else {
      var key :| seeds == MetadataSeeds(key)
        && key in [s.first, s.second, s.mint, Digest([mark, 1] + Zeros(29) + [2])];
      DerivedOnStage(s, mark, legacy, key, 0, s.tag);
    }
  }

  lemma StageIsSound(s: Cast, mark: byte, legacy: bool)
    requires s.first.raw != s.second.raw && s.first.raw != s.mint.raw && s.second.raw != s.mint.raw
    requires s.first.raw[0] != mark && s.second.raw[0] != mark && s.mint.raw[0] != mark
    ensures Stage(s, mark, legacy).Sound()
  {
    var c := Stage(s, mark, legacy);
    forall seeds | seeds in c.known
      ensures c.derived(c.Address(seeds)) && seeds == Source(s, mark, c.Address(seeds))
    {
      KnownHasSource(s, mark, legacy, seeds);
    }
    hide Source, Derive, MetadataSeeds, AssociatedSeeds;
    assert forall n: byte :: ShardSeeds(n) in c.known;
  }

  // ---------------------------------------------------------------- single steps

  const GRANT: Runtime := Runtime(true, [])

  function By(s: Cast): Caller {
    Caller(s.payer, None, {s.payer, s.first, s.second, s.mint}, SYSTEM_PROGRAM)
  }

  /** Shard `n` is there, and has counted so far. */
  ghost predicate CountsTo(c: Chain, w: World, n: byte, count: u64) {
    && w.Owned(c.ShardAddress(n))
    && DecodeShard(w.Data(c.ShardAddress(n)))
       == Some(InscriptionShard(InscriptionShardAccount, c.ShardBump(n), n, count))
  }

  ghost predicate SameBut(w: World, w': World, touched: set<Pubkey>) {
    forall j :: j !in touched ==> w'.At(j) == w.At(j)
  }

  lemma ShardCreated(c: Chain, s: Cast, w: World, n: byte) returns (w': World)
    requires Staged(c, s) && Reachable(c, w) && n < SHARD_COUNT && w.Vacant(c.ShardAddress(n))
    ensures Reachable(c, w') && CountsTo(c, w', n, 0) && SameBut(w, w', {c.ShardAddress(n)})
    ensures w'.roles == w.roles[c.ShardAddress(n) := Shard(n)]
  {
    hide DecodeShard, EncodeShard, Reachable;
    var ix := CreateShard(c.ShardAddress(n), By(s), n);
    w' := Next(c, w, Run(ix, GRANT));
    ShardDecodeEncode(InscriptionShard(InscriptionShardAccount, c.ShardBump(n), n, 0));
    ReachableNext(c, w, Run(ix, GRANT));
  }

  /** An initialisation with all accounts right and a shard that has counted to `count`. */
  lemma Enrolled(c: Chain, w: World, ix: Instruction, n: byte, count: u64) returns (w': World)
    requires c.Sound() && Placed(c, w) && Lawful(c, w, Run(ix, GRANT)) && Registers(ix)
    requires Addressed(c, w, ix) && ix.caller.Signer().Ok? && ix.shard == c.ShardAddress(n)
    requires n < SHARD_COUNT && count < COUNT_LIMIT && CountsTo(c, w, n, count)
    ensures Execute(c, w, ix, GRANT) == Ok(w') && Next(c, w, Run(ix, GRANT)) == w'
    ensures w'.roles == w.roles[ix.inscription := MainData(OriginOf(ix))][ix.metadata := Metadata(ix.inscription)]
    ensures w'.Record(ix.metadata)
         == Some(FreshRecord(c, ix.inscription, ix.caller.Signer().value, OriginOf(ix), SHARD_COUNT * count + n))
    ensures w'.Data(ix.inscription) == [] && CountsTo(c, w', n, count + 1)
    ensures SameBut(w, w', {ix.inscription, ix.metadata, ix.shard})
  {
    hide Decode, DecodeShard, Registered, FreshRecord;
    RegistersOk(c, w, ix, n, count);
    w' := Next(c, w, Run(ix, GRANT));
    StepPlaced(c, w, Run(ix, GRANT));
    hide Execute;
    var m, sh := Registration(c, w, ix, GRANT);
    PlacedCovers(c, w);
    InitializesNewPair(c, w, ix, GRANT);
    RegisteredAccounts(c, w, ix.inscription, ix.metadata, m, OriginOf(ix), ix.shard, sh);
    ShardFrame(c, w, ix, GRANT, ix.shard);
    PlacedCovers(c, w');
  }

  lemma ReachableIsPlaced(c: Chain, w: World)
    requires c.Sound() && Reachable(c, w)
    ensures Placed(c, w)
  {
    ReachableHolds(c, w);
    InvPlaced(c, w);
  }

  lemma RegistersOk(c: Chain, w: World, ix: Instruction, n: byte, count: u64)
    requires c.Sound() && Lawful(c, w, Run(ix, GRANT)) && Registers(ix)
    requires Addressed(c, w, ix) && ix.caller.Signer().Ok? && ix.shard == c.ShardAddress(n)
    requires n < SHARD_COUNT && count < COUNT_LIMIT && CountsTo(c, w, n, count)
    ensures Execute(c, w, ix, GRANT).Ok?
  {
    hide Decode, Registered, FreshRecord;
    assert w.Data(ix.shard) != [];
    AddressesDisjoint(c);
    if ix.InitializeFromMint? && ix.inscription == ix.metadata {
      SameMetadataAddress(c, ix.mint, ix.inscription);
    }
  }

  // ---------------------------------------------------------------- minting order

  lemma Start(c: Chain, accounts: map<Pubkey, Account>) returns (w: World)
    requires Init(c, World(accounts, map[], []))
    ensures w == World(accounts, map[], []) && Reachable(c, w)
  {
    w := World(accounts, map[], []);
    hide Init;
    assert FairRun(c, w, []) && After(c, w, []) == w;
  }

  lemma StartsEmpty(c: Chain)
    ensures Init(c, World(map[], map[], []))
  {
  }

  /** The accounts of two inscriptions and two shards are all different. */
  ghost predicate Apart(c: Chain, k1: Pubkey, k2: Pubkey) {
    var m1, m2, s0, s1 := c.MetadataAddress(k1), c.MetadataAddress(k2), c.ShardAddress(0), c.ShardAddress(1);
    && k1 != k2 && k1 != m1 && k1 != m2 && k1 != s0 && k1 != s1
    && k2 != m1 && k2 != m2 && k2 != s0 && k2 != s1
    && m1 != m2 && m1 != s0 && m1 != s1 && m2 != s0 && m2 != s1 && s0 != s1
  }

  lemma KeysApart(c: Chain, s: Cast)
    requires Staged(c, s)
    ensures c.Sound() && Apart(c, s.first, s.second)
  {
    AddressesDisjoint(c);
    var l := [s.first, s.second, s.mint, s.token, s.payer];
    assert l[0] != l[1];
    if c.MetadataAddress(s.first) == c.MetadataAddress(s.second) {
      SameMetadataAddress(c, s.first, s.second);
    }
    if c.ShardAddress(0) == c.ShardAddress(1) {
      SameShardAddress(c, 0, 1);
    }
  }

  lemma SignersFair(c: Chain, s: Cast)
    requires Staged(c, s)
    ensures c.Sound()
    ensures forall k :: k in By(s).signers ==> !c.derived(k)
    ensures c.KnowsMetadata(s.first) && c.KnowsMetadata(s.second)
  {
  }

  /** Shards 1 and 0 are created, and nothing else. */
  lemma TwoShards(c: Chain, s: Cast) returns (w: World)
    requires Staged(c, s)
    ensures Reachable(c, w) && CountsTo(c, w, 0, 0) && CountsTo(c, w, 1, 0)
    ensures w.Vacant(s.first) && w.Vacant(s.second)
    ensures w.Vacant(c.MetadataAddress(s.first)) && w.Vacant(c.MetadataAddress(s.second))
  {
    hide DecodeShard, Reachable, Staged, Init;
    StartsEmpty(c);
    KeysApart(c, s);
    w := Start(c, map[]);
    w := ShardCreated(c, s, w, 1);
    w := ShardCreated(c, s, w, 0);
  }

  /** The key `k` is inscribed, on a shard that has issued nothing yet. */
  lemma KeyInscribed(c: Chain, s: Cast, w: World, k: Pubkey, n: byte) returns (w': World, ix: Instruction)
    requires Staged(c, s) && Reachable(c, w) && k in {s.first, s.second} && n < SHARD_COUNT
    requires CountsTo(c, w, n, 0) && w.Vacant(k) && w.Vacant(c.MetadataAddress(k))
    ensures ix == Initialize(k, c.MetadataAddress(k), c.ShardAddress(n), By(s))
    ensures Fair(c, w, Run(ix, GRANT)) && Execute(c, w, ix, GRANT) == Ok(w') && Reachable(c, w')
    ensures w'.roles == w.roles[k := MainData(Keypair)][ix.metadata := Metadata(k)]
    ensures w'.Record(ix.metadata) == Some(FreshRecord(c, k, s.payer, Keypair, n)) && w'.Data(k) == []
    ensures SameBut(w, w', {k, ix.metadata, ix.shard})
  {
    hide Decode, DecodeShard, Execute, Reachable, FreshRecord, Staged;
    SignersFair(c, s);
    ix := Initialize(k, c.MetadataAddress(k), c.ShardAddress(n), By(s));
    ReachableIsPlaced(c, w);
    w' := Enrolled(c, w, ix, n, 0);
    ReachableNext(c, w, Run(ix, GRANT));
  }

  /**
    Minting order fails: from an empty ledger the project's own instructions lead to a world in which, of two
    initialisations one right after the other, the later gets the lower rank.
   */
  lemma LaterButLower(c: Chain, s: Cast) returns (w: World, first: Instruction, second: Instruction)
    requires Staged(c, s)
    ensures Reachable(c, w) && Registers(first) && Registers(second)
    ensures Fair(c, w, Run(first, GRANT)) && Execute(c, w, first, GRANT).Ok?
    ensures var w1 := Execute(c, w, first, GRANT).value;
            && Fair(c, w1, Run(second, GRANT)) && Execute(c, w1, second, GRANT).Ok?
            && RankAt(w1, first.metadata) == 1
            && RankAt(Execute(c, w1, second, GRANT).value, second.metadata) == 0
  {
    hide Decode, DecodeShard, Execute, Reachable, FreshRecord, Staged, Fair;
    KeysApart(c, s);
    w := TwoShards(c, s);
    var w1, w2;
    w1, first := KeyInscribed(c, s, w, s.first, 1);
    assert w1.At(s.second) == w.At(s.second);
    w2, second := KeyInscribed(c, s, w1, s.second, 0);
    RankOfFresh(c, w1, first, 1);
    RankOfFresh(c, w2, second, 0);
  }

  lemma RankOfFresh(c: Chain, w: World, ix: Instruction, rank: u64)
    requires Registers(ix) && ix.caller.Signer().Ok?
    requires w.Record(ix.metadata) == Some(FreshRecord(c, ix.inscription, ix.caller.Signer().value, OriginOf(ix), rank))
    ensures RankAt(w, ix.metadata) == rank
  {
    hide Decode;
  }

  // ---------------------------------------------------------------- immutability

  /** A record for the metadata of `k` that names the payer, and that an upload may put into a data account. */
  function Bait(c: Chain, s: Cast, k: Pubkey): InscriptionMetadata {
    FreshRecord(c, k, s.payer, Keypair, 0)
  }

  /** Metadata account `k` of the still empty data account `d`, which nobody but the payer may change. */
  ghost predicate FreshPair(c: Chain, s: Cast, w: World, d: Pubkey, k: Pubkey, m: InscriptionMetadata) {
    && c.KnowsMetadata(d) && k == c.MetadataAddress(d)
    && d in w.roles && w.roles[d].MainData? && k in w.roles && w.roles[k] == Metadata(d)
    && w.Data(d) == [] && w.Record(k) == Some(m)
    && m.updateAuthorities == [s.payer] && m.bump == c.MetadataBump(d)
  }

  /** A record that one write can put into an empty account, and that names the payer. */
  ghost predicate Baits(s: Cast, m: InscriptionMetadata) {
    Fits(m) && |Encode(m)| <= MAX_PERMITTED_DATA_INCREASE && s.payer in m.updateAuthorities
  }

  lemma BaitBaits(c: Chain, s: Cast, k: Pubkey)
    ensures Baits(s, Bait(c, s, k))
  {
    RecordSize(Bait(c, s, k));
    assert EncodeAssociations([]) == [];
    hide Encode;
  }

  lemma BaitWritten(c: Chain, s: Cast, w: World, d: Pubkey, k: Pubkey, m: InscriptionMetadata,
                    bait: InscriptionMetadata)
    requires Staged(c, s) && Placed(c, w) && FreshPair(c, s, w, d, k, m) && Baits(s, bait)
    ensures var ix := WriteData(d, k, By(s), None, 0, Encode(bait));
            Fair(c, w, Run(ix, GRANT)) && Execute(c, w, ix, GRANT) == Ok(w.Put(d, Encode(bait)))
  {
    hide Decode, DecodeShard, Encode, PlacedAt;
    var value := Encode(bait);
    EncodeDecode(w.Data(k));
    FixedOffsets(m);
    assert Spliced([], 0, value, GRANT) == value;
    assert w.Owned(d) && w.Owned(k);
  }

  lemma LastAuthorityLeaves(c: Chain, s: Cast, w: World, k: Pubkey, m: InscriptionMetadata)
    requires Staged(c, s) && w.Owned(k) && w.Record(k) == Some(m) && m.updateAuthorities == [s.payer]
    ensures var ix := RemoveAuthority(k, By(s));
            Fair(c, w, Run(ix, GRANT))
            && Execute(c, w, ix, GRANT) == Ok(w.Put(k, Encode(m.(updateAuthorities := []))))
  {
    hide Decode, Encode;
    EncodeDecode(w.Data(k));
    FixedOffsets(m);
    RecordSize(m);
    RecordSize(m.(updateAuthorities := []));
    assert SwapRemove([s.payer], 0) == [];
  }

  /** The payer writes the bait and gives up its authority. */
  lemma BaitedAndFrozen(c: Chain, s: Cast, w: World, d: Pubkey, k: Pubkey, m: InscriptionMetadata,
                        bait: InscriptionMetadata) returns (w': World)
    requires Staged(c, s) && Reachable(c, w) && FreshPair(c, s, w, d, k, m) && Baits(s, bait)
    requires m.key == MintInscriptionMetadataAccount ==> m.mint.Some?
    ensures Reachable(c, w') && w'.roles == w.roles && SameBut(w, w', {d, k})
    ensures w'.Record(d) == Some(bait) && !Sealed(c, w', d)
    ensures w'.Record(k) == Some(m.(updateAuthorities := [])) && Frozen(w', k)
  {
    hide Decode, Encode, Reachable, Execute, Placed, Staged, Fair;
    PayerSigns(c, s);
    ReachableIsPlaced(c, w);
    PlacedCovers(c, w);
    assert w.Owned(k) && d != k;
    BaitWritten(c, s, w, d, k, m, bait);
    var write := WriteData(d, k, By(s), None, 0, Encode(bait));
    var w1 := Next(c, w, Run(write, GRANT));
    ReachableNext(c, w, Run(write, GRANT));
    assert w1.At(k) == w.At(k);
    LastAuthorityLeaves(c, s, w1, k, m);
    w' := Next(c, w1, Run(RemoveAuthority(k, By(s)), GRANT));
    ReachableNext(c, w1, Run(RemoveAuthority(k, By(s)), GRANT));
    assert Fits(m) by { EncodeDecode(w.Data(k)); }
    DecodeEncode(m.(updateAuthorities := []));
    DecodeEncode(bait);
    assert s.payer in bait.updateAuthorities;
  }

  lemma PayerSigns(c: Chain, s: Cast)
    requires Staged(c, s)
    ensures c.Sound() && !c.derived(s.payer)
  {
  }

  /**
    Immutability has its exception: from an empty ledger, an inscription without authorities can be reached whose
    data can change, because its bytes pass for a record.
   */
  lemma FrozenButOpen(c: Chain, s: Cast) returns (w: World)
    requires Staged(c, s)
    ensures var k := c.MetadataAddress(s.first);
            && Reachable(c, w) && Inv(c, w) && Frozen(w, k) && BelongsTo(c, w, s.first, k)
            && !Sealed(c, w, s.first) && Changeable(c, w, s.first)
  {
    hide Decode, DecodeShard, Execute, Reachable, Inv, Ranked, Staged, Fair, Changeable;
    var k := c.MetadataAddress(s.first);
    var ix;
    SignersFair(c, s);
    w := TwoShards(c, s);
    w, ix := KeyInscribed(c, s, w, s.first, 0);
    BaitBaits(c, s, s.first);
    w := BaitedAndFrozen(c, s, w, s.first, k, FreshRecord(c, s.first, s.payer, Keypair, 0),
                         Bait(c, s, s.first));
    ReachableHolds(c, w);
    FrozenDataChangesExactly(c, w, k, s.first);
  }

  // ---------------------------------------------------------------- mints

  /** A ledger on which only the mint and its token metadata exist. */
  function MintOnly(s: Cast): World {
    World(map[s.mint := Account(Token, []), s.token := Account(TokenMetadata, [])], map[], [])
  }

  /** The accounts of a mint's inscription are all different, and known where they need to be. */
  lemma MintApart(c: Chain, s: Cast)
    requires Staged(c, s)
    ensures var d := c.MetadataAddress(s.mint);
            var k, sh := c.MetadataAddress(d), c.ShardAddress(0);
            && c.KnowsMetadata(s.mint) && c.KnowsMetadata(d) && s.mint != s.token
            && d != k && d != sh && k != sh && s.mint !in {d, k, sh} && s.token !in {d, k, sh}
    ensures c.tokenMetadata([]) == Some(TokenMetadataRecord(s.mint, s.payer))
  {
    var d := c.MetadataAddress(s.mint);
    var l := [s.first, s.second, s.mint, s.token, s.payer];
    assert l[2] != l[3];
    AddressesDisjoint(c);
    if d == c.MetadataAddress(d) {
      SameMetadataAddress(c, s.mint, d);
    }
  }

  /** Shard 0 is created beside the mint. */
  lemma MintShard(c: Chain, s: Cast) returns (w: World)
    requires Staged(c, s)
    ensures var d := c.MetadataAddress(s.mint);
            && Reachable(c, w) && CountsTo(c, w, 0, 0) && w.Vacant(d) && w.Vacant(c.MetadataAddress(d))
            && w.At(s.mint) == Account(Token, []) && w.At(s.token) == Account(TokenMetadata, [])
  {
    hide DecodeShard, Reachable, Staged;
    MintApart(c, s);
    MintOnlyIsInitial(c, s);
    hide Init;
    var w0 := Start(c, MintOnly(s).accounts);
    w := ShardCreated(c, s, w0, 0);
    assert w.At(s.mint) == w0.At(s.mint) && w.At(s.token) == w0.At(s.token);
  }

  /** The mint is inscribed, on shard 0. */
  lemma MintInscribed(c: Chain, s: Cast) returns (w: World)
    requires Staged(c, s)
    ensures var d := c.MetadataAddress(s.mint);
            && Reachable(c, w)
            && FreshPair(c, s, w, d, c.MetadataAddress(d), FreshRecord(c, d, s.payer, FromMint(s.mint), 0))
            && w.roles[d] == MainData(FromMint(s.mint)) && w.At(s.mint) == Account(Token, [])
            && CountsTo(c, w, 0, 1)
  {
    hide Decode, DecodeShard, Execute, Reachable, Staged, Addressed, Fair, FreshRecord, CountsTo;
    MintApart(c, s);
    SignersFair(c, s);
    var d := c.MetadataAddress(s.mint);
    var w1 := MintShard(c, s);
    var ix := InitializeFromMint(d, c.MetadataAddress(d), s.mint, s.token, c.ShardAddress(0), By(s));
    MintAddressed(c, s, w1, ix);
    ReachableIsPlaced(c, w1);
    w := Enrolled(c, w1, ix, 0, 0);
    ReachableNext(c, w1, Run(ix, GRANT));
    FreshFields(c, s, d);
  }

  lemma MintAddressed(c: Chain, s: Cast, w: World, ix: Instruction)
    requires Staged(c, s)
    requires w.At(s.mint) == Account(Token, []) && w.At(s.token) == Account(TokenMetadata, [])
    requires var d := c.MetadataAddress(s.mint);
             ix == InitializeFromMint(d, c.MetadataAddress(d), s.mint, s.token, c.ShardAddress(0), By(s))
             && w.Vacant(d) && w.Vacant(c.MetadataAddress(d))
    ensures Addressed(c, w, ix) && Fair(c, w, Run(ix, GRANT))
  {
  }

  lemma FreshFields(c: Chain, s: Cast, d: Pubkey)
    ensures var m := FreshRecord(c, d, s.payer, FromMint(s.mint), 0);
            m.updateAuthorities == [s.payer] && m.bump == c.MetadataBump(d)
  {
  }

  lemma MintOnlyIsInitial(c: Chain, s: Cast)
    requires Staged(c, s)
    ensures Init(c, MintOnly(s))
  {
  }

  /**
    The condition of HandoverExactly is needed: a reachable inscription without authorities, whose mint was closed,
    and whose data account is closed by the next instruction once the mint's key is handed to the program.
   */
  lemma HandoverBreaks(c: Chain, s: Cast) returns (w: World)
    requires Staged(c, s)
    ensures var d := c.MetadataAddress(s.mint);
            && Reachable(c, w) && Frozen(w, c.MetadataAddress(d)) && w.roles[c.MetadataAddress(d)] == Metadata(d)
            && Handing(c, w, s.mint, []) && !NothingBelow(c, w, s.mint)
            && !Paired(c, AfterHanding(w, s.mint, [])) && Closable(c, AfterHanding(w, s.mint, []), d)
  {
    hide Decode, DecodeShard, Execute, Reachable, Inv, Ranked, Fair, Paired, Closable;
    var d := c.MetadataAddress(s.mint);
    var k := c.MetadataAddress(d);
    var w1 := MintInscribed(c, s);
    MintApart(c, s);
    BaitBaits(c, s, s.mint);
    var w2 := BaitedAndFrozen(c, s, w1, d, k, FreshRecord(c, d, s.payer, FromMint(s.mint), 0),
                              Bait(c, s, s.mint));
    ReachableHolds(c, w2);
    OwnedHasRole(c, w2);
    assert w2.At(s.mint) == w1.At(s.mint);
    w := Next(c, w2, Outside(s.mint, None));
    MintDrained(c, s, w2);
    ReachableNext(c, w2, Outside(s.mint, None));
    ReachableHolds(c, w);
    assert w.At(d) == w2.At(d) && w.At(k) == w2.At(k);
    HandoverExactly(c, w, s.mint, []);
    FrozenClosesExactly(c, w, s.mint, [], k);
  }

  lemma MintDrained(c: Chain, s: Cast, w: World)
    requires Staged(c, s) && w.At(s.mint).owner == Token
    ensures Fair(c, w, Outside(s.mint, None))
    ensures Handing(c, Next(c, w, Outside(s.mint, None)), s.mint, [])
  {
  }

  /** A legacy record that does not record its mint yet, and that anyone can still complete. */
  lemma LegacyAwaitsMint(c: Chain, s: Cast) returns (w: World)
    requires Staged(c, s) && c.legacy
    ensures var k := c.MetadataAddress(c.MetadataAddress(s.mint));
            && Inv(c, w) && AwaitsMint(w, k) && w.Record(k).value.updateAuthorities == [] && Changeable(c, w, k)
  {
    hide Decode, DecodeShard, Encode, Execute, Reachable, Inv, Ranked, Fair, Changeable, LiveEntries;
    var d := c.MetadataAddress(s.mint);
    var k := c.MetadataAddress(d);
    var m := FreshRecord(c, d, s.payer, FromMint(s.mint), 0);
    var w1 := MintInscribed(c, s);
    MintApart(c, s);
    var m' := m.(updateAuthorities := [], mint := None);
    ReachableHolds(c, w1);
    OwnedHasRole(c, w1);
    DecodeEncode(m');
    EmptyRecordGood(c, w1, k, d, m');
    PutRecord(c, w1, k, m', Encode(m'));
    w := w1.Put(k, Encode(m'));
    assert w.At(s.mint) == w1.At(s.mint);
    MintCanBeRecorded(c, w, k, s.payer);
  }

  lemma EmptyRecordGood(c: Chain, w: World, k: Pubkey, d: Pubkey, m: InscriptionMetadata)
    requires c.legacy && d in w.roles && w.roles[d].MainData? && w.roles[d].origin.FromMint?
    requires m == FreshRecord(c, d, k, w.roles[d].origin, 0).(updateAuthorities := [], mint := None)
    ensures GoodRecord(c, w, k, d, m)
  {
  }
}
