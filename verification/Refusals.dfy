/**
  Why an instruction fails: for each, the conditions it depends on, in the order in which the first to fail decides.
 */
module Refusals {
  import opened Basics
  import opened State
  import opened Codec
  import opened Addresses
  import opened Accounts
  import opened Program
  import opened Success

  function Need(ok: bool, e: Error): Check {
    if ok then Pass else Fail(e)
  }

  /** `k` is the address that the chain finds for these seeds. */
  function Found(k: Pubkey, c: Chain, seeds: bytes): Check {
    Need(k == c.hash(seeds + [c.bump(seeds)]), DerivedKeyInvalid)
  }

  /** The record at `k`; where there is none, an empty one that is never looked at. */
  function MetadataAt(w: World, k: Pubkey): InscriptionMetadata {
    match Decode(w.Data(k))
    case Some(m) => m
    case None =>
      InscriptionMetadata(Key.Uninitialized, SYSTEM_PROGRAM, 0, DataType.Uninitialized, 0, None, [], [], None, Zeros(7))
  }

  function ShardAt(w: World, k: Pubkey): InscriptionShard {
    match DecodeShard(w.Data(k))
    case Some(s) => s
    case None => InscriptionShard(Key.Uninitialized, 0, 0, 0)
  }

  /** Both the payer and the authority account, if one is passed, have to sign. */
  function Signed(caller: Caller): Check {
    Need(caller.authority.Some? ==> caller.authority.value in caller.signers, MissingRequiredSignature)
      .Then(Need(caller.payer in caller.signers, MissingRequiredSignature))
  }

  function SystemPassed(caller: Caller): Check {
    Need(caller.systemProgram == SYSTEM_PROGRAM, InvalidSystemProgram)
  }

  /** The authority account has to be listed; the payer's key only where no such account is passed. */
  function Listed(caller: Caller, m: InscriptionMetadata): Check {
    Signed(caller)
      .Then(Need(caller.authority.Some? ==> caller.authority.value in m.updateAuthorities, InvalidAuthority))
      .Then(Need(caller.authority.None? ==> caller.payer in m.updateAuthorities, InvalidAuthority))
      .Then(SystemPassed(caller))
  }

  function Tagged(t: bytes): Check {
    Need(|t| >= 1, AssociationTagCannotBeBlank).Then(Need(|t| <= 32, AssociationTagTooLong))
  }

  /** The data account is the child with the tag, and listed with its bump; or it is the one the metadata is for. */
  function Targeted(c: Chain, i: Pubkey, k: Pubkey, m: InscriptionMetadata, tag: Option<Tag>): Check {
    match tag
    case Some(t) =>
      Tagged(t)
        .Then(Found(i, c, AssociatedSeeds(t, k)))
        .Then(Need(exists a :: a in m.associatedInscriptions && a.tag == t && a.bump == c.bump(AssociatedSeeds(t, k)),
                   DerivedKeyInvalid))
    case None =>
      Found(k, c, MetadataSeeds(i)).Then(Need(m.bump == c.bump(MetadataSeeds(i)), DerivedKeyInvalid))
  }

  /** An account that the instruction creates. */
  function Free(w: World, k: Pubkey): Check {
    Need(w.At(k).owner == System && w.Data(k) == [], AlreadyInitialized)
  }

  function OwnedBy(w: World, k: Pubkey, owner: Owner, e: Error): Check {
    Need(w.At(k).owner == owner, e)
  }

  function NotEmpty(w: World, k: Pubkey, e: Error): Check {
    Need(w.Data(k) != [], e)
  }

  function Parses(w: World, k: Pubkey): Check {
    Need(Decode(w.Data(k)).Some?, BorshIo)
  }

  /** The shard is one, and has a rank left. */
  function Counting(c: Chain, w: World, k: Pubkey): Check {
    var s := ShardAt(w, k);
    Need(DecodeShard(w.Data(k)).Some?, BorshIo)
      .Then(Need(s.key == InscriptionShardAccount, InvalidShardAccount))
      .Then(Found(k, c, ShardSeeds(s.shardNumber)))
      .Then(Need(s.bump == c.bump(ShardSeeds(s.shardNumber)), DerivedKeyInvalid))
      .Then(Need(s.count * 32 + s.shardNumber < 0x1_0000_0000_0000_0000, NumericalOverflow))
  }

  /** The token metadata parses, is for the mint, and names the authority that the caller claims. */
  function TokenFor(c: Chain, w: World, t: Pubkey, mint: Pubkey): Check {
    match c.tokenMetadata(w.Data(t))
    case None => Fail(BorshIo)
    case Some(token) => Need(token.mint == mint, MintMismatch)
  }

  function TokenNames(c: Chain, w: World, t: Pubkey, caller: Caller): Check {
    match c.tokenMetadata(w.Data(t))
    case None => Fail(BorshIo)
    case Some(token) =>
      Need(caller.authority.Some? ==> token.updateAuthority == caller.authority.value, InvalidAuthority)
        .Then(Need(caller.authority.None? ==> token.updateAuthority == caller.payer, InvalidAuthority))
  }

  /** A metadata account of the program that is not empty and parses. */
  function Loaded(w: World, k: Pubkey): Check {
    OwnedBy(w, k, Program, NotInitialized).Then(NotEmpty(w, k, NotInitialized)).Then(Parses(w, k))
  }

  // ---------------------------------------------------------------- the checks, in order

  function InitializeChecks(c: Chain, w: World, i: Pubkey, k: Pubkey, s: Pubkey, caller: Caller, rt: Runtime): Check {
    Free(w, i)
      .Then(Free(w, k))
      .Then(Found(k, c, MetadataSeeds(i)))
      .Then(Signed(caller))
      .Then(SystemPassed(caller))
      .Then(Need(rt.grants && i in caller.signers, RuntimeFailure))
      .Then(Counting(c, w, s))
      .Then(Need(i != k && w.At(s).owner == Program, RuntimeFailure))
  }

  /** The accounts of the mint: the token metadata is for it and names the authority that the caller claims. */
  function MintChecks(c: Chain, w: World, i: Pubkey, k: Pubkey, mint: Pubkey, t: Pubkey, caller: Caller): Check {
    OwnedBy(w, t, TokenMetadata, IncorrectOwner)
      .Then(OwnedBy(w, mint, Token, IncorrectOwner))
      .Then(TokenFor(c, w, t, mint))
      .Then(Found(i, c, MetadataSeeds(mint)))
      .Then(Found(k, c, MetadataSeeds(i)))
      .Then(Signed(caller))
      .Then(TokenNames(c, w, t, caller))
  }

  function InitializeFromMintChecks(c: Chain, w: World, i: Pubkey, k: Pubkey, mint: Pubkey, t: Pubkey, s: Pubkey,
                                    caller: Caller, rt: Runtime): Check {
    Free(w, i)
      .Then(Free(w, k))
      .Then(MintChecks(c, w, i, k, mint, t, caller))
      .Then(SystemPassed(caller))
      .Then(Need(rt.grants, RuntimeFailure))
      .Then(Need(w.At(s).owner == Program && w.Data(s) != [], InvalidShardAccount))
      .Then(Counting(c, w, s))
      .Then(Need(i != k, RuntimeFailure))
  }

  function CloseChecks(c: Chain, w: World, i: Pubkey, k: Pubkey, caller: Caller, tag: Option<Tag>, rt: Runtime): Check {
    var m := MetadataAt(w, k);
    OwnedBy(w, i, Program, NotInitialized)
      .Then(Loaded(w, k))
      .Then(Listed(caller, m))
      .Then(Need(tag.None? ==> m.associatedInscriptions == [], RemainingAssociatedInscriptionAccounts))
      .Then(Targeted(c, i, k, m, tag))
      .Then(Need(tag.Some? ==> rt.grants, RuntimeFailure))
  }

  /** Common to the instructions that change the bytes of a data account. */
  function TargetChecks(c: Chain, w: World, i: Pubkey, k: Pubkey, caller: Caller, tag: Option<Tag>): Check {
    OwnedBy(w, i, Program, NotInitialized)
      .Then(OwnedBy(w, k, Program, NotInitialized))
      .Then(Parses(w, k))
      .Then(Targeted(c, i, k, MetadataAt(w, k), tag))
      .Then(Listed(caller, MetadataAt(w, k)))
  }

  function AssociateAccounts(c: Chain, w: World, i: Pubkey, k: Pubkey, a: Pubkey, tag: Tag): Check {
    OwnedBy(w, i, Program, IncorrectOwner)
      .Then(Free(w, a))
      .Then(Loaded(w, k))
      .Then(Found(k, c, MetadataSeeds(i)))
      .Then(Tagged(tag))
      .Then(Found(a, c, AssociatedSeeds(tag, k)))
  }

  function AssociateChecks(c: Chain, w: World, i: Pubkey, k: Pubkey, a: Pubkey, caller: Caller, tag: Tag,
                           rt: Runtime): Check {
    AssociateAccounts(c, w, i, k, a, tag)
      .Then(Listed(caller, MetadataAt(w, k)))
      .Then(Need(rt.grants, RuntimeFailure))
      .Then(Need(|MetadataAt(w, k).associatedInscriptions| + 1 < 0x1_0000_0000, BorshIo))
  }

  function SetMintAccounts(c: Chain, w: World, i: Pubkey, k: Pubkey, mint: Pubkey): Check {
    OwnedBy(w, i, Program, NotInitialized)
      .Then(Need(w.At(k).owner == Program && w.Data(k) != [], NotInitialized))
      .Then(OwnedBy(w, mint, Token, IncorrectOwner))
      .Then(Found(i, c, MetadataSeeds(mint)))
      .Then(Found(k, c, MetadataSeeds(i)))
  }

  function SetMintChecks(c: Chain, w: World, i: Pubkey, k: Pubkey, mint: Pubkey, caller: Caller, rt: Runtime): Check {
    SystemPassed(caller)
      .Then(SetMintAccounts(c, w, i, k, mint))
      .Then(Need(caller.payer in caller.signers, MissingRequiredSignature))
      .Then(Parses(w, k))
      .Then(Need(MetadataAt(w, k).key == MintInscriptionMetadataAccount, InvalidInscriptionMetadataAccount))
      .Then(Need(rt.grants, RuntimeFailure))
  }

  function Checks(c: Chain, w: World, ix: Instruction, rt: Runtime): Check {
    match ix
    case Initialize(i, k, s, caller) => InitializeChecks(c, w, i, k, s, caller, rt)
    case InitializeFromMint(i, k, mint, t, s, caller) => InitializeFromMintChecks(c, w, i, k, mint, t, s, caller, rt)
    case Close(i, k, caller, tag) => CloseChecks(c, w, i, k, caller, tag, rt)
    case WriteData(i, k, caller, tag, offset, value) =>
      var size, end := |w.Data(i)|, offset + |value|;
      NotEmpty(w, k, NotInitialized)
        .Then(TargetChecks(c, w, i, k, caller, tag))
        .Then(Need(end < 0x1_0000_0000_0000_0000, NumericalOverflow))
        .Then(Need(end > size ==> rt.grants && end <= size + 10240, RuntimeFailure))
    case ClearData(i, k, caller, tag) =>
      if w.Data(i) == [] then OwnedBy(w, i, Program, NotInitialized)
      else TargetChecks(c, w, i, k, caller, tag).Then(Need(rt.grants, RuntimeFailure))
    case Allocate(i, k, caller, tag, _) =>
      TargetChecks(c, w, i, k, caller, tag)
        .Then(Need(|w.Data(i)| + 10240 < 0x1_0000_0000_0000_0000, NumericalOverflow))
        .Then(Need(rt.grants, RuntimeFailure))
    case AddAuthority(k, caller, newAuthority) =>
      var authorities := MetadataAt(w, k).updateAuthorities;
      Loaded(w, k)
        .Then(Listed(caller, MetadataAt(w, k)))
        .Then(Need(newAuthority !in authorities, AuthorityAlreadyExists))
        .Then(Need(|authorities| + 1 < 0x1_0000_0000, BorshIo))
        .Then(Need(rt.grants, RuntimeFailure))
    case RemoveAuthority(k, caller) =>
      Loaded(w, k).Then(Listed(caller, MetadataAt(w, k))).Then(Need(rt.grants, RuntimeFailure))
    case CreateShard(s, caller, number) =>
      Free(w, s)
        .Then(Need(number < 32, InvalidShardAccount))
        .Then(SystemPassed(caller))
        .Then(Found(s, c, ShardSeeds(number)))
        .Then(Need(rt.grants, RuntimeFailure))
    case InitializeAssociatedInscription(i, k, a, caller, tag) => AssociateChecks(c, w, i, k, a, caller, tag, rt)
    case SetMint(i, k, mint, caller) => SetMintChecks(c, w, i, k, mint, caller, rt)
  }

  /** What the checks say of an execution. */
  ghost predicate Agrees(r: Result<World>, check: Check) {
    match check
    case Pass => r.Ok?
    case Fail(e) => r == Err(e)
  }

  // ---------------------------------------------------------------- the parts

  lemma ListedExactly(caller: Caller, m: InscriptionMetadata)
    ensures AuthorityCheck(caller, m) == Listed(caller, m)
  {
  }

  lemma TargetedExactly(c: Chain, i: Pubkey, k: Pubkey, m: InscriptionMetadata, tag: Option<Tag>)
    ensures TargetCheck(c, i, k, m, tag) == Targeted(c, i, k, m, tag)
  {
    if tag.Some? {
      ListsExactly(m.associatedInscriptions, tag.value, c.bump(AssociatedSeeds(tag.value, k)));
    }
    hide Lists;
  }

  lemma TaggedExactly(t: Tag)
    ensures TagCheck(t) == Tagged(t)
    ensures Tagged(t).Pass? ==> |t| <= 32
  {
  }

  lemma ListsExactly(l: seq<AssociatedInscription>, t: bytes, b: byte)
    ensures Lists(l, t, b) <==> exists a :: a in l && a.tag == t && a.bump == b
  {
    if Lists(l, t, b) {
      var i :| 0 <= i < |l| && l[i].tag == t && l[i].bump == b;
      assert l[i] in l;
    }
  }

  lemma LoadedExactly(w: World, k: Pubkey)
    ensures Load(w, k) == match Loaded(w, k) case Fail(e) => Err(e) case Pass => Ok(MetadataAt(w, k))
    ensures Loaded(w, k).Pass? ==> w.Record(k) == Some(MetadataAt(w, k)) && w.Owned(k)
  {
    hide Decode;
  }

  lemma CountingExactly(c: Chain, w: World, k: Pubkey)
    ensures var loaded := LoadShard(c, w, k);
            Counting(c, w, k) == match loaded
                                 case Err(e) => Fail(e)
                                 case Ok(s) => match NextRank(s) case Err(e) => Fail(e) case Ok(_) => Pass
  {
    hide DecodeShard;
  }

  // ---------------------------------------------------------------- the instructions

  lemma InitializeRefused(c: Chain, w: World, ix: Instruction, rt: Runtime)
    requires ix.Initialize?
    ensures Agrees(Execute(c, w, ix, rt), Checks(c, w, ix, rt))
  {
    CountingExactly(c, w, ix.shard);
    hide Counting, LoadShard, NextRank, Registered, FreshRecord, MetadataSeeds;
  }

  lemma InitializeFromMintRefused(c: Chain, w: World, ix: Instruction, rt: Runtime)
    requires ix.InitializeFromMint?
    ensures Agrees(Execute(c, w, ix, rt), Checks(c, w, ix, rt))
  {
    CountingExactly(c, w, ix.shard);
    hide Counting, LoadShard, NextRank, Registered, FreshRecord, MetadataSeeds;
  }

  lemma CloseRefused(c: Chain, w: World, ix: Instruction, rt: Runtime)
    requires ix.Close?
    ensures Agrees(Execute(c, w, ix, rt), Checks(c, w, ix, rt))
  {
    var m := MetadataAt(w, ix.metadata);
    ListedExactly(ix.caller, m);
    TargetedExactly(c, ix.inscription, ix.metadata, m, ix.tag);
    LoadedExactly(w, ix.metadata);
    if ix.tag.Some? && Loaded(w, ix.metadata).Pass? {
      DroppedStores(c, w, ix.metadata, m, ix.tag.value, rt);
    }
    hide MetadataAt, Loaded, Load, Listed, Targeted, AuthorityCheck, TargetCheck, Store, Without, Encode, Decode;
  }

  lemma DroppedStores(c: Chain, w: World, k: Pubkey, m: InscriptionMetadata, t: bytes, rt: Runtime)
    requires w.Record(k) == Some(m)
    ensures var l := Without(m.associatedInscriptions, t, c.AssociatedBump(t, k));
            var r := Store(w, k, m.(associatedInscriptions := l), rt);
            if rt.grants then r.Ok? else r == Err(RuntimeFailure)
  {
    var b := c.AssociatedBump(t, k);
    var m' := m.(associatedInscriptions := Without(m.associatedInscriptions, t, b));
    EncodeDecode(w.Data(k));
    WithoutSize(m.associatedInscriptions, t, b);
    RecordSize(m);
    RecordSize(m');
    hide Decode, Encode, Without;
    StoreSucceeds(w, k, m, m', rt);
  }

  lemma DataChecksExactly(c: Chain, w: World, i: Pubkey, k: Pubkey, caller: Caller, tag: Option<Tag>)
    ensures DataChecks(c, w, i, k, caller, tag) == TargetChecks(c, w, i, k, caller, tag)
    ensures !w.Owned(i) ==> TargetChecks(c, w, i, k, caller, tag) == Fail(NotInitialized)
  {
    var m := MetadataAt(w, k);
    ListedExactly(caller, m);
    TargetedExactly(c, i, k, m, tag);
    hide Decode, Listed, Targeted, AuthorityCheck, TargetCheck;
  }

  lemma DataRefused(c: Chain, w: World, ix: Instruction, rt: Runtime)
    requires ix.WriteData? || ix.ClearData? || ix.Allocate?
    ensures Agrees(Execute(c, w, ix, rt), Checks(c, w, ix, rt))
  {
    DataChecksExactly(c, w, ix.inscription, ix.metadata, ix.caller, ix.tag);
    hide DataChecks, TargetChecks, Spliced, Resized;
  }

  lemma AddAuthorityRefused(c: Chain, w: World, ix: Instruction, rt: Runtime)
    requires ix.AddAuthority?
    ensures Agrees(Execute(c, w, ix, rt), Checks(c, w, ix, rt))
  {
    var k, m := ix.metadata, MetadataAt(w, ix.metadata);
    ListedExactly(ix.caller, m);
    LoadedExactly(w, k);
    if Loaded(w, k).Pass? {
      PushedStores(w, k, m, ix.newAuthority, rt);
    }
    hide MetadataAt, Loaded, Load, Listed, AuthorityCheck, Store, Encode, Decode;
  }

  lemma RemoveAuthorityRefused(c: Chain, w: World, ix: Instruction, rt: Runtime)
    requires ix.RemoveAuthority?
    ensures Agrees(Execute(c, w, ix, rt), Checks(c, w, ix, rt))
  {
    var k, m := ix.metadata, MetadataAt(w, ix.metadata);
    ListedExactly(ix.caller, m);
    LoadedExactly(w, k);
    if Loaded(w, k).Pass? && AuthorityCheck(ix.caller, m).Pass? {
      RemovedStores(w, k, m, Position(m.updateAuthorities, ix.caller.Signer().value), rt);
    }
    hide MetadataAt, Loaded, Load, Listed, AuthorityCheck, Store, Encode, Decode, SwapRemove, Position;
  }

  lemma PushedStores(w: World, k: Pubkey, m: InscriptionMetadata, a: Pubkey, rt: Runtime)
    requires w.Record(k) == Some(m)
    ensures var r := Store(w, k, m.(updateAuthorities := m.updateAuthorities + [a]), rt);
            if |m.updateAuthorities| + 1 >= 0x1_0000_0000 then r == Err(BorshIo)
            else if rt.grants then r.Ok? else r == Err(RuntimeFailure)
  {
    var m' := m.(updateAuthorities := m.updateAuthorities + [a]);
    EncodeDecode(w.Data(k));
    RecordSize(m);
    RecordSize(m');
    hide Decode, Encode;
    StoreSucceeds(w, k, m, m', rt);
  }

  lemma RemovedStores(w: World, k: Pubkey, m: InscriptionMetadata, i: nat, rt: Runtime)
    requires w.Record(k) == Some(m) && i < |m.updateAuthorities|
    ensures var r := Store(w, k, m.(updateAuthorities := SwapRemove(m.updateAuthorities, i)), rt);
            if rt.grants then r.Ok? else r == Err(RuntimeFailure)
  {
    var m' := m.(updateAuthorities := SwapRemove(m.updateAuthorities, i));
    EncodeDecode(w.Data(k));
    SwapRemoveSize(m.updateAuthorities, i);
    RecordSize(m);
    RecordSize(m');
    hide Decode, Encode, SwapRemove;
    StoreSucceeds(w, k, m, m', rt);
  }

  lemma AssociateInParts(c: Chain, w: World, ix: Instruction, rt: Runtime)
    requires ix.InitializeAssociatedInscription?
    ensures var m, k := MetadataAt(w, ix.metadata), ix.metadata;
            var entry := AssociatedInscription(ix.newTag, c.AssociatedBump(ix.newTag, k), DataType.Uninitialized);
            Execute(c, w, ix, rt) ==
              match AssociateAccounts(c, w, ix.inscription, k, ix.associated, ix.newTag)
              case Fail(e) => Err(e)
              case Pass =>
                if AuthorityCheck(ix.caller, m).Fail? then Err(AuthorityCheck(ix.caller, m).error)
                else if !rt.grants then Err(RuntimeFailure)
                else Store(w.Create(ix.associated, [], AssociatedData(ix.newTag, k)), k,
                           m.(associatedInscriptions := m.associatedInscriptions + [entry]), rt)
  {
    LoadedExactly(w, ix.metadata);
    TaggedExactly(ix.newTag);
    hide TagCheck, Tagged, MetadataAt, Loaded, Load, AuthorityCheck, Store, Encode, Decode, World.Create;
    hide AssociatedSeeds, MetadataSeeds;
  }

  lemma AssociateRefused(c: Chain, w: World, ix: Instruction, rt: Runtime)
    requires ix.InitializeAssociatedInscription?
    ensures Agrees(Execute(c, w, ix, rt), Checks(c, w, ix, rt))
  {
    var k, m := ix.metadata, MetadataAt(w, ix.metadata);
    ListedExactly(ix.caller, m);
    AssociateInParts(c, w, ix, rt);
    hide Execute, AssociateAccounts, MetadataAt, Listed, AuthorityCheck, Store, World.Create, Decode, Encode;
    if AssociateAccounts(c, w, ix.inscription, k, ix.associated, ix.newTag).Pass? {
      AssociateAccountsMean(c, w, ix.inscription, k, ix.associated, ix.newTag);
      EntryStores(w, ix.associated, k, m,
                  AssociatedInscription(ix.newTag, c.AssociatedBump(ix.newTag, k), DataType.Uninitialized), rt);
    }
  }

  lemma AssociateAccountsMean(c: Chain, w: World, i: Pubkey, k: Pubkey, a: Pubkey, tag: Tag)
    requires AssociateAccounts(c, w, i, k, a, tag).Pass?
    ensures w.Record(k) == Some(MetadataAt(w, k)) && a != k && |tag| <= 32
  {
    LoadedExactly(w, k);
    TaggedExactly(tag);
    hide Tagged, MetadataAt, Loaded, Decode, AssociatedSeeds, MetadataSeeds;
  }

  lemma EntryStores(w: World, child: Pubkey, k: Pubkey, m: InscriptionMetadata, a: AssociatedInscription, rt: Runtime)
    requires w.Record(k) == Some(m) && child != k
    ensures var r := Store(w.Create(child, [], AssociatedData(a.tag, k)), k,
                           m.(associatedInscriptions := m.associatedInscriptions + [a]), rt);
            rt.grants && |a.tag| <= 32 ==>
              if |m.associatedInscriptions| + 1 >= 0x1_0000_0000 then r == Err(BorshIo) else r.Ok?
  {
    var m' := m.(associatedInscriptions := m.associatedInscriptions + [a]);
    var w1 := w.Create(child, [], AssociatedData(a.tag, k));
    assert w1.Record(k) == w.Record(k);
    EncodeDecode(w.Data(k));
    MoreSize(m.associatedInscriptions, a);
    RecordSize(m);
    RecordSize(m');
    hide Decode, Encode;
    if |a.tag| <= 32 {
      StoreSucceeds(w1, k, m, m', rt);
    }
  }

  lemma SetMintInParts(c: Chain, w: World, ix: Instruction, rt: Runtime)
    requires ix.SetMint?
    ensures var m, k := MetadataAt(w, ix.metadata), ix.metadata;
            Execute(c, w, ix, rt) ==
              if ix.caller.systemProgram != SYSTEM_PROGRAM then Err(InvalidSystemProgram)
              else
                match SetMintAccounts(c, w, ix.inscription, k, ix.mint)
                case Fail(e) => Err(e)
                case Pass =>
                  if ix.caller.payer !in ix.caller.signers then Err(MissingRequiredSignature)
                  else if w.Record(k).None? then Err(BorshIo)
                  else if m.key != MintInscriptionMetadataAccount then Err(InvalidInscriptionMetadataAccount)
                  else Store(w, k, m.(mint := Some(ix.mint)), rt)
  {
    hide Decode, Store, Encode, MetadataSeeds;
  }

  lemma SetMintRefused(c: Chain, w: World, ix: Instruction, rt: Runtime)
    requires ix.SetMint?
    ensures Agrees(Execute(c, w, ix, rt), Checks(c, w, ix, rt))
  {
    var k, m := ix.metadata, MetadataAt(w, ix.metadata);
    SetMintInParts(c, w, ix, rt);
    if w.Record(k).Some? {
      MintStores(w, k, m, ix.mint, rt);
    }
    hide Execute, SetMintAccounts, Decode, Store, Encode;
  }

  lemma MintStores(w: World, k: Pubkey, m: InscriptionMetadata, x: Pubkey, rt: Runtime)
    requires w.Record(k) == Some(m)
    ensures var r := Store(w, k, m.(mint := Some(x)), rt); if rt.grants then r.Ok? else r == Err(RuntimeFailure)
  {
    var m' := m.(mint := Some(x));
    EncodeDecode(w.Data(k));
    RecordSize(m);
    RecordSize(m');
    hide Decode, Encode;
    StoreSucceeds(w, k, m, m', rt);
  }

  /** In every world and for every caller: an instruction fails with the first condition that fails, or succeeds. */
  lemma RefusedExactly(c: Chain, w: World, ix: Instruction, rt: Runtime)
    ensures Agrees(Execute(c, w, ix, rt), Checks(c, w, ix, rt))
  {
    hide Agrees, Execute, Checks;
    match ix {
      case Initialize(_, _, _, _) => InitializeRefused(c, w, ix, rt);
      case InitializeFromMint(_, _, _, _, _, _) => InitializeFromMintRefused(c, w, ix, rt);
      case Close(_, _, _, _) => CloseRefused(c, w, ix, rt);
      case WriteData(_, _, _, _, _, _) => DataRefused(c, w, ix, rt);
      case ClearData(_, _, _, _) => DataRefused(c, w, ix, rt);
      case Allocate(_, _, _, _, _) => DataRefused(c, w, ix, rt);
      case AddAuthority(_, _, _) => AddAuthorityRefused(c, w, ix, rt);
      case RemoveAuthority(_, _) => RemoveAuthorityRefused(c, w, ix, rt);
      case CreateShard(_, _, _) => ShardRefused(c, w, ix, rt);
      case InitializeAssociatedInscription(_, _, _, _, _) => AssociateRefused(c, w, ix, rt);
      case SetMint(_, _, _, _) => SetMintRefused(c, w, ix, rt);
    }
  }

  lemma ShardRefused(c: Chain, w: World, ix: Instruction, rt: Runtime)
    requires ix.CreateShard?
    ensures Agrees(Execute(c, w, ix, rt), Checks(c, w, ix, rt))
  {
  }

  // ---------------------------------------------------------------- who has to sign

  /** The seven instructions that need an authority; clearing an account that is empty already is none. */
  predicate NeedsAuthority(w: World, ix: Instruction) {
    && !ix.Initialize? && !ix.InitializeFromMint? && !ix.CreateShard? && !ix.SetMint?
    && (ix.ClearData? ==> w.Data(ix.inscription) != [])
  }

  /** Nobody succeeds with one of them unless the payer and whoever's authority is claimed sign, and that key is
      listed. */
  lemma SignersNeeded(c: Chain, w: World, ix: Instruction, rt: Runtime)
    requires NeedsAuthority(w, ix) && Execute(c, w, ix, rt).Ok?
    ensures w.Record(ix.metadata).Some?
    ensures var listed := w.Record(ix.metadata).value.updateAuthorities;
            && ix.caller.payer in ix.caller.signers
            && match ix.caller.authority
               case Some(a) => a in ix.caller.signers && a in listed
               case None => ix.caller.payer in listed
  {
    RefusedExactly(c, w, ix, rt);
    hide Execute, Decode, Targeted;
  }

  /** An initialisation needs the new account's key to sign, or the update authority of the mint's token. */
  lemma InitializersSign(c: Chain, w: World, ix: Instruction, rt: Runtime)
    requires ix.Initialize? || ix.InitializeFromMint?
    requires Execute(c, w, ix, rt).Ok?
    ensures ix.caller.payer in ix.caller.signers
    ensures ix.caller.authority.Some? ==> ix.caller.authority.value in ix.caller.signers
    ensures ix.Initialize? ==> ix.inscription in ix.caller.signers
    ensures ix.InitializeFromMint? ==>
              var authority := match ix.caller.authority case Some(a) => a case None => ix.caller.payer;
              c.tokenMetadata(w.Data(ix.tokenMetadata)) == Some(TokenMetadataRecord(ix.mint, authority))
  {
    RefusedExactly(c, w, ix, rt);
    hide Execute, Decode, DecodeShard, Counting;
  }
}
