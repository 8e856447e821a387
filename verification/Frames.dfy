/** What a successful instruction may change, by the role of the account. */
module Frames {
  import opened Basics
  import opened State
  import opened Codec
  import opened Addresses
  import opened Accounts
  import opened Program
  import opened Invariant
  import opened Placement
  import opened Preservation

  /** The accounts an instruction is passed as writable, the payer aside. */
  function Writable(ix: Instruction): set<Pubkey> {
    match ix
    case Initialize(i, m, s, _) => {i, m, s}
    case InitializeFromMint(i, m, _, _, s, _) => {i, m, s}
    case Close(i, m, _, _) => {i, m}
    case WriteData(i, _, _, _, _, _) => {i}
    case ClearData(i, _, _, _) => {i}
    case AddAuthority(m, _, _) => {m}
    case RemoveAuthority(m, _) => {m}
    case CreateShard(s, _, _) => {s}
    case InitializeAssociatedInscription(_, m, a, _, _) => {m, a}
    case Allocate(i, _, _, _, _) => {i}
    case SetMint(_, m, _, _) => {m}
  }

  ghost predicate SameAt(w: World, w': World, k: Pubkey) {
    && w'.At(k) == w.At(k)
    && (k in w'.roles <==> k in w.roles)
    && (k in w.roles ==> w'.roles[k] == w.roles[k])
  }

  /** No other account changes. */
  lemma OnlyWritable(c: Chain, w: World, ix: Instruction, rt: Runtime, k: Pubkey)
    requires Execute(c, w, ix, rt).Ok? && k !in Writable(ix)
    ensures SameAt(w, Execute(c, w, ix, rt).value, k)
  {
    hide Decode, DecodeShard, Encode, EncodeShard, TargetCheck, AuthorityCheck, DataChecks, Load, LoadShard, NextRank,
         FreshRecord, Without, Position;
  }

  /** The checks of the data instructions and of Close, gathered. */
  lemma DataResolves(c: Chain, w: World, ix: Instruction, rt: Runtime)
    requires c.Sound() && Inv(c, w) && Fair(c, w, Run(ix, rt)) && Execute(c, w, ix, rt).Ok?
    requires ix.WriteData? || ix.ClearData? || ix.Allocate? || ix.Close?
    requires ix.ClearData? ==> w.Data(ix.inscription) != []
    ensures IsData(w, ix.inscription)
    ensures ix.metadata in w.roles && w.roles[ix.metadata].Metadata?
    ensures ix.tag.None? ==> w.roles[ix.metadata] == Metadata(ix.inscription) && w.roles[ix.inscription].MainData?
    ensures ix.tag.Some? ==> w.roles[ix.inscription] == AssociatedData(ix.tag.value, ix.metadata)
    ensures w.Record(ix.metadata).Some?
    ensures AuthorityCheck(CallerOf(ix), w.Record(ix.metadata).value) == Pass
  {
    hide Decode, Encode, Inv, TargetCheck, AuthorityCheck, Without, Store;
    TargetResolves(c, w, ix.inscription, ix.metadata, w.Record(ix.metadata).value, ix.tag);
  }

  /** The same checks, for what the addresses alone make of them. */
  lemma DataPlaced(c: Chain, w: World, ix: Instruction, rt: Runtime)
    requires c.Sound() && Placed(c, w) && Lawful(c, w, Run(ix, rt)) && Execute(c, w, ix, rt).Ok?
    requires ix.WriteData? || ix.ClearData? || ix.Allocate? || ix.Close?
    requires ix.ClearData? ==> w.Data(ix.inscription) != []
    ensures exists i :: c.KnowsMetadata(i) && ix.metadata == c.MetadataAddress(i)
    ensures ix.inscription in w.roles && ix.inscription != ix.metadata && w.Owned(ix.metadata)
    ensures w.Record(ix.metadata).Some?
    ensures ix.tag.None? ==> ix.metadata == c.MetadataAddress(ix.inscription) && c.KnowsMetadata(ix.inscription)
                             && w.Record(ix.metadata).value.bump == c.MetadataBump(ix.inscription)
                             && Inscribable(c, ix.inscription)
    ensures ix.tag.Some? ==> w.roles[ix.inscription] == AssociatedData(ix.tag.value, ix.metadata)
                             && ix.inscription == c.AssociatedAddress(ix.tag.value, ix.metadata)
                             && c.KnowsAssociated(ix.tag.value, ix.metadata)
    ensures AuthorityCheck(CallerOf(ix), w.Record(ix.metadata).value) == Pass
  {
    hide Decode, Encode, Placed, TargetCheck, AuthorityCheck, Without, Store;
    TargetPlaced(c, w, ix.inscription, ix.metadata, w.Record(ix.metadata).value, ix.tag);
  }

  // ---------------------------------------------------------------- shards

  predicate Registers(ix: Instruction) {
    ix.Initialize? || ix.InitializeFromMint?
  }

  /** No shard is where data or metadata can be. */
  lemma NoShardThere(c: Chain, w: World, ix: Instruction, rt: Runtime, k: Pubkey)
    requires c.Sound() && Placed(c, w) && Lawful(c, w, Run(ix, rt)) && Execute(c, w, ix, rt).Ok?
    requires k in w.roles && w.roles[k].Shard?
    requires ix.WriteData? || ix.ClearData? || ix.Allocate? || ix.Close?
    requires ix.ClearData? ==> w.Data(ix.inscription) != []
    ensures k != ix.inscription && k != ix.metadata
  {
    DataPlaced(c, w, ix, rt);
    hide Decode, DecodeShard, Execute, Shape;
    AddressesDisjoint(c);
    assert PlacedAt(c, w, k);
    NotInscribable(c, w.roles[k].number, [], k);
  }

  /** A shard is passed as writable to the two initialisations only. */
  lemma ShardWritable(c: Chain, w: World, ix: Instruction, rt: Runtime, k: Pubkey)
    requires c.Sound() && Placed(c, w) && Lawful(c, w, Run(ix, rt)) && Execute(c, w, ix, rt).Ok?
    requires k in w.roles && w.roles[k].Shard? && k in Writable(ix)
    ensures (Registers(ix) && k == ix.shard) || Execute(c, w, ix, rt).value == w
  {
    hide Decode, DecodeShard, Encode, EncodeShard, Without, Position, Store, Register, TargetCheck;
    assert w.Owned(k) && PlacedAt(c, w, k);
    AddressesDisjoint(c);
    match ix {
      case Close(_, _, _, _) => NoShardThere(c, w, ix, rt, k);
      case WriteData(_, _, _, _, _, _) => NoShardThere(c, w, ix, rt, k);
      case Allocate(_, _, _, _, _) => NoShardThere(c, w, ix, rt, k);
      case ClearData(i, _, _, _) =>
        if w.Data(i) != [] {
          NoShardThere(c, w, ix, rt, k);
        }
      case AddAuthority(m, _, _) => RecordsAreNotShards(w.Data(m));
      case RemoveAuthority(m, _) => RecordsAreNotShards(w.Data(m));
      case _ =>
    }
  }

  /** A shard outlives every instruction. Only an initialisation that names it changes it, by one count. */
  lemma ShardFrame(c: Chain, w: World, ix: Instruction, rt: Runtime, k: Pubkey)
    requires c.Sound() && Placed(c, w) && Lawful(c, w, Run(ix, rt)) && Execute(c, w, ix, rt).Ok?
    requires k in w.roles && w.roles[k].Shard?
    ensures var w' := Execute(c, w, ix, rt).value;
            && SameRole(w, w', k)
            && (!(Registers(ix) && ix.shard == k) ==> w'.At(k) == w.At(k))
            && (Registers(ix) && ix.shard == k ==>
                  && DecodeShard(w.Data(k)).Some?
                  && DecodeShard(w.Data(k)).value.count + 1 < U64_LIMIT
                  && DecodeShard(w'.Data(k))
                     == Some(DecodeShard(w.Data(k)).value.(count := DecodeShard(w.Data(k)).value.count + 1)))
  {
    hide Decode, DecodeShard, Encode, EncodeShard, Execute, Lawful, Registered, Placed;
    PlacedCovers(c, w);
    if Registers(ix) && k == ix.shard {
      var m, s := Registration(c, w, ix, rt);
      InitializesNewPair(c, w, ix, rt);
      RegisteredAccounts(c, w, ix.inscription, ix.metadata, m, OriginOf(ix), k, s);
    } else if k in Writable(ix) {
      ShardWritable(c, w, ix, rt, k);
    } else {
      OnlyWritable(c, w, ix, rt, k);
    }
  }

  // ---------------------------------------------------------------- metadata accounts

  /** The fields no instruction rewrites. */
  ghost predicate SameIdentity(m: InscriptionMetadata, m': InscriptionMetadata) {
    m' == m.(updateAuthorities := m'.updateAuthorities, associatedInscriptions := m'.associatedInscriptions,
             mint := m'.mint)
  }

  /** A metadata account leaves the program by an authorised close of its pair only. */
  ghost predicate PairClosed(w: World, w': World, ix: Instruction, k: Pubkey)
    requires k in w.roles && w.roles[k].Metadata?
  {
    && ix.Close? && ix.tag.None? && ix.metadata == k && ix.inscription == w.roles[k].inscription
    && k !in w'.roles && ix.inscription !in w'.roles
    && w.Record(k).Some? && w.Record(k).value.associatedInscriptions == []
  }

  /** Who may change a metadata account: an authority of it, or anyone recording its mint. */
  ghost predicate RecordChangePermitted(w: World, w': World, ix: Instruction, k: Pubkey) {
    && w.Record(k).Some?
    && (|| AuthorityCheck(CallerOf(ix), w.Record(k).value) == Pass
        || (ix.SetMint? && ix.metadata == k
            && w'.Record(k) == Some(w.Record(k).value.(mint := Some(ix.mint)))))
  }

  /** The account that `k`'s record sat in still holds a record of the same inscription, lawfully changed. */
  ghost predicate RecordRewritten(w: World, w': World, ix: Instruction, k: Pubkey) {
    && SameRole(w, w', k)
    && w'.Record(k).Some? && w.Record(k).Some?
    && SameIdentity(w.Record(k).value, w'.Record(k).value)
    && RecordChangePermitted(w, w', ix, k)
  }

  lemma AuthorityPassed(caller: Caller, m: InscriptionMetadata)
    requires AuthorityCheck(caller, m) == Pass
    ensures caller.Signer().Ok? && caller.Signer().value in m.updateAuthorities
  {
  }

  lemma AuthoritiesEdited(c: Chain, w: World, ix: Instruction, rt: Runtime)
    requires Shape(c, w) && Execute(c, w, ix, rt).Ok?
    requires ix.AddAuthority? || ix.RemoveAuthority?
    requires ix.metadata in w.roles && w.roles[ix.metadata].Metadata?
    ensures RecordRewritten(w, Execute(c, w, ix, rt).value, ix, ix.metadata)
  {
    hide Decode, DecodeShard, Encode, SwapRemove, Position, AuthorityCheck, LiveEntries;
    var m := w.Record(ix.metadata).value;
    AuthorityPassed(ix.caller, m);
    DecodeEncode(m.(updateAuthorities :=
      if ix.AddAuthority? then m.updateAuthorities + [ix.newAuthority]
      else SwapRemove(m.updateAuthorities, Position(m.updateAuthorities, ix.caller.Signer().value))));
  }

  lemma AssociationsEdited(c: Chain, w: World, ix: Instruction, rt: Runtime)
    requires Shape(c, w) && Execute(c, w, ix, rt).Ok? && ix.InitializeAssociatedInscription?
    requires ix.metadata in w.roles && w.roles[ix.metadata].Metadata?
    ensures RecordRewritten(w, Execute(c, w, ix, rt).value, ix, ix.metadata)
  {
    hide Decode, DecodeShard, Encode, AuthorityCheck;
    assert w.Owned(ix.metadata);
    var m := w.Record(ix.metadata).value;
    DecodeEncode(m.(associatedInscriptions := m.associatedInscriptions +
      [AssociatedInscription(ix.newTag, c.AssociatedBump(ix.newTag, ix.metadata), DataType.Uninitialized)]));
  }

  lemma MintEdited(c: Chain, w: World, ix: Instruction, rt: Runtime)
    requires Execute(c, w, ix, rt).Ok? && ix.SetMint?
    requires ix.metadata in w.roles && w.roles[ix.metadata].Metadata?
    ensures RecordRewritten(w, Execute(c, w, ix, rt).value, ix, ix.metadata)
  {
    hide Decode, DecodeShard, Encode, AuthorityCheck;
    DecodeEncode(w.Record(ix.metadata).value.(mint := Some(ix.mint)));
  }

  lemma RecordEdited(c: Chain, w: World, ix: Instruction, rt: Runtime, k: Pubkey)
    requires Shape(c, w) && Execute(c, w, ix, rt).Ok?
    requires k in w.roles && w.roles[k].Metadata?
    requires ix.AddAuthority? || ix.RemoveAuthority? || ix.InitializeAssociatedInscription? || ix.SetMint?
    requires ix.metadata == k
    ensures RecordRewritten(w, Execute(c, w, ix, rt).value, ix, k)
  {
    hide Execute, RecordRewritten;
    match ix {
      case AddAuthority(_, _, _) => AuthoritiesEdited(c, w, ix, rt);
      case RemoveAuthority(_, _) => AuthoritiesEdited(c, w, ix, rt);
      case InitializeAssociatedInscription(_, _, _, _, _) => AssociationsEdited(c, w, ix, rt);
      case SetMint(_, _, _, _) => MintEdited(c, w, ix, rt);
    }
  }

  lemma RecordClosed(c: Chain, w: World, ix: Instruction, rt: Runtime, k: Pubkey)
    requires c.Sound() && Inv(c, w) && Fair(c, w, Run(ix, rt)) && Execute(c, w, ix, rt).Ok?
    requires k in w.roles && w.roles[k].Metadata? && ix.Close? && k in Writable(ix)
    ensures ix.metadata == k
    ensures AuthorityCheck(ix.caller, w.Record(k).value) == Pass
    ensures var w' := Execute(c, w, ix, rt).value;
            if ix.tag.None? then PairClosed(w, w', ix, k) else RecordRewritten(w, w', ix, k)
  {
    hide Decode, DecodeShard, Encode, Without, TargetCheck, AuthorityCheck, Inv;
    DataResolves(c, w, ix, rt);
    if ix.tag.Some? {
      var m := w.Record(k).value;
      DecodeEncode(m.(associatedInscriptions :=
        Without(m.associatedInscriptions, ix.tag.value, c.AssociatedBump(ix.tag.value, k))));
    }
  }

  /** A metadata account that was there before the instruction: untouched, lawfully rewritten, or closed. */
  lemma RecordFrame(c: Chain, w: World, ix: Instruction, rt: Runtime, k: Pubkey)
    requires c.Sound() && Inv(c, w) && Fair(c, w, Run(ix, rt)) && Execute(c, w, ix, rt).Ok?
    requires k in w.roles && w.roles[k].Metadata?
    ensures var w' := Execute(c, w, ix, rt).value;
            || SameAt(w, w', k)
            || (PairClosed(w, w', ix, k) && AuthorityCheck(CallerOf(ix), w.Record(k).value) == Pass)
            || RecordRewritten(w, w', ix, k)
  {
    hide Decode, DecodeShard, Encode, Execute, Fair, AuthorityCheck;
    if k !in Writable(ix) {
      OnlyWritable(c, w, ix, rt, k);
    } else {
      match ix {
        case Close(_, _, _, _) => RecordClosed(c, w, ix, rt, k);
        case AddAuthority(_, _, _) => RecordEdited(c, w, ix, rt, k);
        case RemoveAuthority(_, _) => RecordEdited(c, w, ix, rt, k);
        case SetMint(_, _, _, _) => RecordEdited(c, w, ix, rt, k);
        case InitializeAssociatedInscription(_, _, _, _, _) =>
          NoRecordVacant(c, w, ix, rt, k);
          if ix.metadata == k {
            RecordEdited(c, w, ix, rt, k);
          }
        case _ => NoRecordVacant(c, w, ix, rt, k);
      }
    }
  }

  /** The other instructions write to vacant accounts, data accounts and shards, never to a live record. */
  lemma NoRecordVacant(c: Chain, w: World, ix: Instruction, rt: Runtime, k: Pubkey)
    requires c.Sound() && Inv(c, w) && Fair(c, w, Run(ix, rt)) && Execute(c, w, ix, rt).Ok?
    requires k in w.roles && w.roles[k].Metadata? && k in Writable(ix)
    requires !ix.Close? && !ix.AddAuthority? && !ix.RemoveAuthority? && !ix.SetMint?
    ensures Execute(c, w, ix, rt).value == w || (ix.InitializeAssociatedInscription? && ix.metadata == k)
  {
    hide Decode, DecodeShard, Encode, TargetCheck, AuthorityCheck, Register, Store;
    assert w.Owned(k);
    match ix {
      case Initialize(_, _, s, _) =>
        InvPlaced(c, w);
        var m, sh := Registration(c, w, ix, rt);
      case InitializeFromMint(_, _, _, _, s, _) =>
        InvPlaced(c, w);
        var m, sh := Registration(c, w, ix, rt);
      case WriteData(_, _, _, _, _, _) => DataResolves(c, w, ix, rt);
      case Allocate(_, _, _, _, _) => DataResolves(c, w, ix, rt);
      case ClearData(i, _, _, _) =>
        if w.Data(i) != [] {
          DataResolves(c, w, ix, rt);
        }
      case _ =>
    }
  }

  // ---------------------------------------------------------------- who can sign

  lemma NobodyPasses(caller: Caller, m: InscriptionMetadata)
    requires m.updateAuthorities == []
    ensures AuthorityCheck(caller, m) != Pass
  {
  }

  /** The bytes of account `k` do not pass for a record with an authority that could sign. */
  ghost predicate Sealed(c: Chain, w: World, k: Pubkey) {
    w.Record(k).Some? ==> forall s :: s in w.Record(k).value.updateAuthorities ==> c.derived(s)
  }

  lemma NobodyPassesSealed(c: Chain, w: World, ix: Instruction, rt: Runtime, k: Pubkey)
    requires Sealed(c, w, k) && w.Record(k).Some? && Lawful(c, w, Run(ix, rt))
    ensures AuthorityCheck(CallerOf(ix), w.Record(k).value) != Pass
  {
    hide Decode;
    var signer := CallerOf(ix).Signer();
    assert signer.Ok? ==> signer.value in CallerOf(ix).signers;
  }

  // ---------------------------------------------------------------- metadata that nobody passes for data

  /**
    The metadata account `k` can be passed for data: an account lies below it, whose bytes pass for its record, with
    an authority that can sign.
   */
  ghost predicate Exposed(c: Chain, w: World, k: Pubkey) {
    var below := c.MetadataAddress(k);
    && c.KnowsMetadata(k) && w.Owned(below)
    && w.Record(below).Some? && w.Record(below).value.bump == c.MetadataBump(k)
    && !Sealed(c, w, below)
  }

  lemma NotReachedAsData(c: Chain, w: World, ix: Instruction, rt: Runtime, k: Pubkey)
    requires c.Sound() && Placed(c, w) && Lawful(c, w, Run(ix, rt)) && Execute(c, w, ix, rt).Ok?
    requires k in w.roles && w.roles[k].Metadata? && !Exposed(c, w, k)
    requires ix.WriteData? || ix.ClearData? || ix.Allocate? || ix.Close?
    requires ix.ClearData? ==> w.Data(ix.inscription) != []
    ensures k != ix.inscription
  {
    DataPlaced(c, w, ix, rt);
    hide Decode, Execute, Placed, AuthorityCheck;
    if Sealed(c, w, ix.metadata) {
      NobodyPassesSealed(c, w, ix, rt, ix.metadata);
    }
  }

  lemma ClosedAsMetadata(c: Chain, w: World, ix: Instruction, rt: Runtime)
    requires Shape(c, w) && Execute(c, w, ix, rt).Ok? && ix.Close? && ix.inscription != ix.metadata
    requires ix.metadata in w.roles && w.roles[ix.metadata].Metadata?
    ensures var w' := Execute(c, w, ix, rt).value;
            && w.Record(ix.metadata).Some? && AuthorityCheck(ix.caller, w.Record(ix.metadata).value) == Pass
            && if ix.tag.None? then ix.metadata !in w'.roles else RecordRewritten(w, w', ix, ix.metadata)
  {
    hide Decode, Encode, AuthorityCheck, TargetCheck, Without, MintsSign;
    if ix.tag.Some? {
      var m := w.Record(ix.metadata).value;
      var bump := c.AssociatedBump(ix.tag.value, ix.metadata);
      DecodeEncode(m.(associatedInscriptions := Without(m.associatedInscriptions, ix.tag.value, bump)));
    }
  }

  /** By its authorities, a metadata account leaves the program. */
  ghost predicate Left(w: World, w': World, ix: Instruction, k: Pubkey) {
    && ix.Close? && ix.tag.None? && ix.metadata == k && k !in w'.roles
    && w.Record(k).Some? && AuthorityCheck(ix.caller, w.Record(k).value) == Pass
  }

  /** Unless it can be passed for data, a metadata account is untouched, lawfully rewritten, or closed. */
  lemma PlacedRecordFrame(c: Chain, w: World, ix: Instruction, rt: Runtime, k: Pubkey)
    requires c.Sound() && Placed(c, w) && Lawful(c, w, Run(ix, rt)) && Execute(c, w, ix, rt).Ok?
    requires k in w.roles && w.roles[k].Metadata? && !Exposed(c, w, k)
    ensures var w' := Execute(c, w, ix, rt).value;
            SameAt(w, w', k) || Left(w, w', ix, k) || RecordRewritten(w, w', ix, k)
  {
    PlacedCovers(c, w);
    hide Decode, DecodeShard, Encode, AuthorityCheck, TargetCheck, Register, Store, Placed, Exposed, MintsSign;
    assert w.Owned(k);
    if k !in Writable(ix) {
      OnlyWritable(c, w, ix, rt, k);
    } else {
      match ix {
        case Initialize(_, _, _, _) => var m, s := Registration(c, w, ix, rt);
        case InitializeFromMint(_, _, _, _, _, _) => var m, s := Registration(c, w, ix, rt);
        case Close(_, _, _, _) =>
          NotReachedAsData(c, w, ix, rt, k);
          ClosedAsMetadata(c, w, ix, rt);
        case WriteData(_, _, _, _, _, _) => NotReachedAsData(c, w, ix, rt, k);
        case Allocate(_, _, _, _, _) => NotReachedAsData(c, w, ix, rt, k);
        case ClearData(i, _, _, _) =>
          if w.Data(i) != [] {
            NotReachedAsData(c, w, ix, rt, k);
          }
        case AddAuthority(_, _, _) => RecordEdited(c, w, ix, rt, k);
        case RemoveAuthority(_, _) => RecordEdited(c, w, ix, rt, k);
        case SetMint(_, _, _, _) => RecordEdited(c, w, ix, rt, k);
        case InitializeAssociatedInscription(_, m, _, _, _) =>
          if m == k {
            RecordEdited(c, w, ix, rt, k);
          }
        case _ =>
      }
    }
  }

  // ---------------------------------------------------------------- what leaves the program

  lemma OnlyCloseFrees(c: Chain, w: World, ix: Instruction, rt: Runtime, d: Pubkey)
    requires Execute(c, w, ix, rt).Ok? && w.Owned(d) && !Execute(c, w, ix, rt).value.Owned(d)
    ensures ix.Close? && (ix.inscription == d || (ix.tag.None? && ix.metadata == d))
  {
    hide Decode, DecodeShard, Encode, EncodeShard, TargetCheck, AuthorityCheck, DataChecks, Load, LoadShard, NextRank,
         FreshRecord, Without, Position;
  }

  // ---------------------------------------------------------------- data accounts

  /** The metadata account that a data account belongs to. */
  function ParentOf(c: Chain, w: World, k: Pubkey): Pubkey
    requires k in w.roles && (w.roles[k].MainData? || w.roles[k].AssociatedData?)
  {
    if w.roles[k].MainData? then c.MetadataAddress(k) else w.roles[k].metadata
  }

  /** A data account changes by the authority of its metadata, or because its own bytes pass for a record. */
  lemma DataFrame(c: Chain, w: World, ix: Instruction, rt: Runtime, k: Pubkey)
    requires c.Sound() && Inv(c, w) && Fair(c, w, Run(ix, rt)) && Execute(c, w, ix, rt).Ok?
    requires IsData(w, k)
    ensures var w' := Execute(c, w, ix, rt).value;
            || SameAt(w, w', k)
            || (w.Record(ParentOf(c, w, k)).Some?
                && AuthorityCheck(CallerOf(ix), w.Record(ParentOf(c, w, k)).value) == Pass)
            || ((ix.AddAuthority? || ix.RemoveAuthority?) && ix.metadata == k && SameRole(w, w', k)
                && w.Record(k).Some? && AuthorityCheck(ix.caller, w.Record(k).value) == Pass)
  {
    hide Decode, DecodeShard, Encode, AuthorityCheck, Store, Register;
    assert w.Owned(k);
    if k !in Writable(ix) {
      OnlyWritable(c, w, ix, rt, k);
    } else {
      match ix {
        case Initialize(_, _, s, _) =>
          InvPlaced(c, w);
          var m, sh := Registration(c, w, ix, rt);
        case InitializeFromMint(_, _, _, _, s, _) =>
          InvPlaced(c, w);
          var m, sh := Registration(c, w, ix, rt);
        case Close(_, _, _, _) => DataResolves(c, w, ix, rt);
        case WriteData(_, _, _, _, _, _) => DataResolves(c, w, ix, rt);
        case Allocate(_, _, _, _, _) => DataResolves(c, w, ix, rt);
        case ClearData(i, _, _, _) =>
          if w.Data(i) != [] {
            DataResolves(c, w, ix, rt);
          }
        case InitializeAssociatedInscription(i, p, _, _, _) => MetadataResolves(c, w, i, p);
        case SetMint(_, _, _, _) => SetMintResolves(c, w, ix, rt);
        case AddAuthority(_, _, _) => AuthorityKeepsRoles(c, w, ix, rt);
        case RemoveAuthority(_, _) => AuthorityKeepsRoles(c, w, ix, rt);
        case _ =>
      }
      if ix.Close? || ix.WriteData? || ix.Allocate? || (ix.ClearData? && w.Data(k) != []) {
        ParentIsMetadata(c, w, ix, k);
      }
    }
  }

  lemma AuthorityKeepsRoles(c: Chain, w: World, ix: Instruction, rt: Runtime)
    requires (ix.AddAuthority? || ix.RemoveAuthority?) && Execute(c, w, ix, rt).Ok?
    ensures Execute(c, w, ix, rt).value.roles == w.roles
  {
    hide Decode, Encode, AuthorityCheck;
  }

  lemma ParentIsMetadata(c: Chain, w: World, ix: Instruction, k: Pubkey)
    requires Inv(c, w) && IsData(w, k) && (ix.Close? || ix.WriteData? || ix.Allocate? || ix.ClearData?)
    requires k == ix.inscription || k == ix.metadata
    requires ix.metadata in w.roles && w.roles[ix.metadata].Metadata?
    requires ix.tag.None? ==> w.roles[ix.metadata] == Metadata(ix.inscription) && w.roles[ix.inscription].MainData?
    requires ix.tag.Some? ==> w.roles[ix.inscription] == AssociatedData(ix.tag.value, ix.metadata)
    ensures ParentOf(c, w, k) == ix.metadata
  {
    hide Decode, DecodeShard;
    assert GoodAt(c, w, ix.metadata);
  }

  /** No instruction ever changes an account that was handed to the program. */
  lemma HandedFrame(c: Chain, w: World, ix: Instruction, rt: Runtime, k: Pubkey)
    requires c.Sound() && Inv(c, w) && Fair(c, w, Run(ix, rt)) && Execute(c, w, ix, rt).Ok?
    requires k in w.roles && w.roles[k].Handed?
    ensures SameAt(w, Execute(c, w, ix, rt).value, k)
  {
    hide Decode, DecodeShard, Encode, AuthorityCheck, Store, Register;
    assert w.Owned(k) && Zeroed(w.Data(k)) by { assert GoodAt(c, w, k); }
    if k !in Writable(ix) {
      OnlyWritable(c, w, ix, rt, k);
    } else {
      match ix {
        case Initialize(_, _, _, _) =>
          InvPlaced(c, w);
          var m, sh := Registration(c, w, ix, rt);
        case InitializeFromMint(_, _, _, _, _, _) =>
          InvPlaced(c, w);
          var m, sh := Registration(c, w, ix, rt);
        case Close(_, _, _, _) => DataResolves(c, w, ix, rt);
        case WriteData(_, _, _, _, _, _) => DataResolves(c, w, ix, rt);
        case Allocate(_, _, _, _, _) => DataResolves(c, w, ix, rt);
        case ClearData(i, _, _, _) =>
          if w.Data(i) != [] {
            DataResolves(c, w, ix, rt);
          }
        case InitializeAssociatedInscription(i, p, _, _, _) => MetadataResolves(c, w, i, p);
        case SetMint(_, _, _, _) => SetMintResolves(c, w, ix, rt);
        case AddAuthority(_, caller, _) => HandedRefuses(w, k, caller);
        case RemoveAuthority(_, caller) => HandedRefuses(w, k, caller);
        case _ =>
      }
    }
  }

  lemma HandedRefuses(w: World, k: Pubkey, caller: Caller)
    requires Zeroed(w.Data(k)) && w.Record(k).Some?
    ensures AuthorityCheck(caller, w.Record(k).value) != Pass
  {
    ZerosNameNobody(w.Data(k));
    hide Decode;
  }

  // ---------------------------------------------------------------- new accounts

  /** Account `k` got its role in world `w'` from this instruction. */
  ghost predicate BroughtBy(w: World, w': World, ix: Instruction, k: Pubkey) {
    k in w'.roles &&
    match w'.roles[k]
    case Shard(n) => ix.CreateShard? && ix.shard == k && ix.number == n
    case Metadata(d) => Registers(ix) && ix.metadata == k && ix.inscription == d
    case MainData(origin) => Registers(ix) && ix.inscription == k && origin == OriginOf(ix)
    case AssociatedData(t, p) =>
      && ix.InitializeAssociatedInscription? && ix.associated == k && ix.newTag == t && ix.metadata == p
      && w.Record(p).Some? && AuthorityCheck(ix.caller, w.Record(p).value) == Pass
    case Handed => false
  }

  lemma RegistrationBrings(c: Chain, w: World, ix: Instruction, rt: Runtime, k: Pubkey)
    requires c.Sound() && Placed(c, w) && Lawful(c, w, Run(ix, rt)) && Execute(c, w, ix, rt).Ok? && Registers(ix)
    requires k !in w.roles && k in Execute(c, w, ix, rt).value.roles
    ensures BroughtBy(w, Execute(c, w, ix, rt).value, ix, k)
  {
    hide Decode, DecodeShard, EncodeShard, Encode, Execute, FreshRecord, Lawful, Placed;
    InitializesNewPair(c, w, ix, rt);
    var m, s := Registration(c, w, ix, rt);
  }

  /** Which instruction can bring an account of which role into being. */
  lemma Newcomers(c: Chain, w: World, ix: Instruction, rt: Runtime, k: Pubkey)
    requires c.Sound() && Placed(c, w) && Lawful(c, w, Run(ix, rt)) && Execute(c, w, ix, rt).Ok?
    requires k !in w.roles && k in Execute(c, w, ix, rt).value.roles
    ensures BroughtBy(w, Execute(c, w, ix, rt).value, ix, k)
  {
    hide Decode, DecodeShard, Encode, EncodeShard, AuthorityCheck, Without, Position, TargetCheck, Register, DataChecks,
         Placed;
    if Registers(ix) {
      RegistrationBrings(c, w, ix, rt, k);
    }
  }

  /** A role is fixed for as long as the account stays with the program. */
  lemma RolesFixed(c: Chain, w: World, ix: Instruction, rt: Runtime, k: Pubkey)
    requires Shape(c, w) && Execute(c, w, ix, rt).Ok?
    requires k in w.roles && k in Execute(c, w, ix, rt).value.roles
    ensures SameRole(w, Execute(c, w, ix, rt).value, k)
  {
    hide Decode, DecodeShard, Encode, EncodeShard, AuthorityCheck, Without, Position, TargetCheck, FreshRecord,
         NextRank, LoadShard, DataChecks, Load;
    assert w.Owned(k);
  }

  lemma OnlyRegistrationsIssue(c: Chain, w: World, ix: Instruction, rt: Runtime)
    requires Execute(c, w, ix, rt).Ok? && !Registers(ix)
    ensures Execute(c, w, ix, rt).value.issued == w.issued
  {
    hide Decode, DecodeShard, Encode, EncodeShard, AuthorityCheck, Without, Position, TargetCheck, DataChecks, Load;
  }

  // ---------------------------------------------------------------- places

  lemma RegistrationShape(c: Chain, w: World, ix: Instruction, rt: Runtime)
    requires c.Sound() && Placed(c, w) && Lawful(c, w, Run(ix, rt)) && Execute(c, w, ix, rt).Ok? && Registers(ix)
    ensures Shape(c, Execute(c, w, ix, rt).value)
  {
    hide Decode, DecodeShard, Execute, Registered, FreshRecord, Lawful;
    InitializesNewPair(c, w, ix, rt);
    var m, s := Registration(c, w, ix, rt);
    RegisteredShape(c, w, ix.inscription, ix.metadata, m, OriginOf(ix), ix.shard, s);
  }

  /** Six instructions put new bytes into one account of the program, and no more. */
  lemma PutsOne(c: Chain, w: World, ix: Instruction, rt: Runtime)
    requires Shape(c, w) && Execute(c, w, ix, rt).Ok?
    requires ix.WriteData? || ix.ClearData? || ix.Allocate? || ix.AddAuthority? || ix.RemoveAuthority? || ix.SetMint?
    ensures var k := if ix.WriteData? || ix.ClearData? || ix.Allocate? then ix.inscription else ix.metadata;
            var w' := Execute(c, w, ix, rt).value;
            k in w.roles && (w' == w || w' == w.Put(k, w'.Data(k)))
  {
    hide Decode, Encode, AuthorityCheck, TargetCheck, Position, MintsSign, Resized, Spliced;
  }

  lemma CloseEffect(c: Chain, w: World, ix: Instruction, rt: Runtime)
    requires Execute(c, w, ix, rt).Ok? && ix.Close?
    ensures var i, m, w' := ix.inscription, ix.metadata, Execute(c, w, ix, rt).value;
            && w.Owned(i) && w.Owned(m)
            && if ix.tag.None? then w' == w.Close(i).Close(m) else exists data :: w' == w.Put(m, data).Close(i)
  {
    hide Decode, Encode, AuthorityCheck, TargetCheck, Without;
    if ix.tag.Some? {
      var m := w.Record(ix.metadata).value;
      var bump := c.AssociatedBump(ix.tag.value, ix.metadata);
      var m' := m.(associatedInscriptions := Without(m.associatedInscriptions, ix.tag.value, bump));
      assert Execute(c, w, ix, rt).value == w.Put(ix.metadata, Encode(m')).Close(ix.inscription);
    }
  }

  lemma CloseKeepsShape(c: Chain, w: World, ix: Instruction, rt: Runtime)
    requires Shape(c, w) && Execute(c, w, ix, rt).Ok? && ix.Close?
    ensures Shape(c, Execute(c, w, ix, rt).value)
  {
    CloseEffect(c, w, ix, rt);
    hide Execute, MintsSign;
    var i, m := ix.inscription, ix.metadata;
    if ix.tag.None? {
      CloseShape(c, w, i);
      CloseShape(c, w.Close(i), m);
    } else {
      var data :| Execute(c, w, ix, rt).value == w.Put(m, data).Close(i);
      PutShape(c, w, m, data);
      CloseShape(c, w.Put(m, data), i);
    }
  }

  lemma CreationKeepsShape(c: Chain, w: World, ix: Instruction, rt: Runtime)
    requires Shape(c, w) && Execute(c, w, ix, rt).Ok?
    requires ix.CreateShard? || ix.InitializeAssociatedInscription?
    ensures Shape(c, Execute(c, w, ix, rt).value)
  {
    hide Decode, Encode, EncodeShard, AuthorityCheck, MintsSign;
    var w' := Execute(c, w, ix, rt).value;
    match ix {
      case CreateShard(s, _, n) => CreateShape(c, w, s, w'.Data(s), Shard(n));
      case InitializeAssociatedInscription(_, m, a, _, t) => ChildShape(c, w, a, AssociatedData(t, m), m, w'.Data(m));
    }
  }

  /** Data is put where there is an account, and accounts are created where there is none. */
  lemma InstructionShape(c: Chain, w: World, ix: Instruction, rt: Runtime)
    requires c.Sound() && Placed(c, w) && Lawful(c, w, Run(ix, rt)) && Execute(c, w, ix, rt).Ok?
    ensures Shape(c, Execute(c, w, ix, rt).value)
  {
    PlacedCovers(c, w);
    hide Execute, Placed, Lawful, Shape;
    if Registers(ix) {
      RegistrationShape(c, w, ix, rt);
    } else if ix.Close? {
      CloseKeepsShape(c, w, ix, rt);
    } else if ix.CreateShard? || ix.InitializeAssociatedInscription? {
      CreationKeepsShape(c, w, ix, rt);
    } else {
      var k := if ix.WriteData? || ix.ClearData? || ix.Allocate? then ix.inscription else ix.metadata;
      PutsOne(c, w, ix, rt);
      PutShape(c, w, k, Execute(c, w, ix, rt).value.Data(k));
    }
  }

  /** A new account is at an address of its role. */
  lemma NewcomerPlaced(c: Chain, w: World, ix: Instruction, rt: Runtime, k: Pubkey)
    requires c.Sound() && Placed(c, w) && Lawful(c, w, Run(ix, rt)) && Execute(c, w, ix, rt).Ok?
    requires k !in w.roles && k in Execute(c, w, ix, rt).value.roles
    ensures PlacedAt(c, Execute(c, w, ix, rt).value, k)
  {
    hide Decode, DecodeShard, EncodeShard, Encode, Placed, Register, Store, Without, Position, TargetCheck,
         AuthorityCheck, DataChecks;
    Newcomers(c, w, ix, rt, k);
    if Registers(ix) {
      hide Execute;
      InitializesNewPair(c, w, ix, rt);
      PairInPlace(c, w, ix.inscription, ix.metadata, OriginOf(ix));
    } else if ix.CreateShard? {
      ShardDecodeEncode(InscriptionShard(InscriptionShardAccount, c.ShardBump(ix.number), ix.number, 0));
    } else {
      assert c.KnowsMetadata(ix.inscription) && c.KnowsAssociated(ix.newTag, ix.metadata);
    }
  }

  lemma PairInPlace(c: Chain, w: World, d: Pubkey, k: Pubkey, origin: Origin)
    requires Placed(c, w) && NewPair(c, w, d, k, origin)
    ensures c.KnowsMetadata(d) && k == c.MetadataAddress(d) && Inscribable(c, d)
    ensures origin.Keypair? ==> !c.derived(d)
    ensures origin.FromMint? ==> c.KnowsMetadata(origin.mint) && !c.derived(origin.mint)
                                 && d == c.MetadataAddress(origin.mint)
  {
  }

  lemma PlacedStays(c: Chain, w: World, w': World, k: Pubkey)
    requires k in w.roles && k in w'.roles && w'.roles[k] == w.roles[k] && PlacedAt(c, w, k) && !w.roles[k].Shard?
    ensures PlacedAt(c, w', k)
  {
  }

  /** Every lawful step leaves every account in its place. */
  lemma StepPlaced(c: Chain, w: World, step: Step)
    requires c.Sound() && Placed(c, w) && Lawful(c, w, step)
    ensures Placed(c, Next(c, w, step))
  {
    var w' := Next(c, w, step);
    if step.Outside? {
      OutsideShape(c, w, step.k, step.account);
    } else if Execute(c, w, step.ix, step.rt).Ok? {
      InstructionShape(c, w, step.ix, step.rt);
    }
    hide Decode, DecodeShard, Execute, Lawful, Shape;
    forall k | k in w'.roles ensures PlacedAt(c, w', k) {
      StepPlacedAt(c, w, step, k);
    }
  }

  lemma StepPlacedAt(c: Chain, w: World, step: Step, k: Pubkey)
    requires c.Sound() && Placed(c, w) && Lawful(c, w, step) && k in Next(c, w, step).roles
    ensures PlacedAt(c, Next(c, w, step), k)
  {
    hide Decode, DecodeShard, Execute, Shape;
    PlacedCovers(c, w);
    var w' := Next(c, w, step);
    match step
    case Outside(_, _) =>
      OutsideShape(c, w, step.k, step.account);
      if k in w.roles {
        assert PlacedAt(c, w, k) && SameRole(w, w', k);
      }
    case Run(ix, rt) =>
      if Execute(c, w, ix, rt).Err? {
        assert PlacedAt(c, w, k);
      } else if k !in w.roles {
        NewcomerPlaced(c, w, ix, rt, k);
      } else {
        assert PlacedAt(c, w, k);
        if w.roles[k].Shard? {
          ShardFrame(c, w, ix, rt, k);
        } else {
          RolesFixed(c, w, ix, rt, k);
          PlacedStays(c, w, w', k);
        }
      }
  }

  // ---------------------------------------------------------------- what lies below

  /** Where nothing lies below an account of the program, nothing comes to lie there. */
  lemma BelowStaysVacant(c: Chain, w: World, step: Step, k: Pubkey)
    requires c.Sound() && Placed(c, w) && Lawful(c, w, step) && w.Owned(k) && NothingBelow(c, w, k)
    ensures NothingBelow(c, Next(c, w, step), k)
  {
    hide Decode, DecodeShard, Execute;
    var w' := Next(c, w, step);
    var j := c.MetadataAddress(k);
    if c.KnowsMetadata(k) && w'.Owned(j) {
      StepPlaced(c, w, step);
      MetadataPlaced(c, w', k);
      PlacedCovers(c, w);
      hide Placed;
      AddressesDisjoint(c);
      match step
      case Outside(_, _) =>
      case Run(ix, rt) =>
        Newcomers(c, w, ix, rt, j);
        InitializesNewPair(c, w, ix, rt);
    }
  }

  /** What lies below a metadata account stays for as long as that account does. */
  lemma BelowStaysOwned(c: Chain, w: World, step: Step, k: Pubkey)
    requires c.Sound() && Placed(c, w) && Lawful(c, w, step) && k in w.roles && w.roles[k].Metadata?
    requires !NothingBelow(c, w, k) && k in Next(c, w, step).roles
    ensures !NothingBelow(c, Next(c, w, step), k)
  {
    hide Decode, DecodeShard, Execute;
    var j := c.MetadataAddress(k);
    assert w.Owned(j) && PlacedAt(c, w, k);
    if step.Run? && Execute(c, w, step.ix, step.rt).Ok? && !Next(c, w, step).Owned(j) {
      var ix := step.ix;
      OnlyCloseFrees(c, w, ix, step.rt, j);
      DataPlaced(c, w, ix, step.rt);
      AddressesDisjoint(c);
      if ix.inscription == j {
        NoThirdLevel(c, k, w.roles[k].inscription);
      } else {
        SameMetadataAddress(c, ix.inscription, k);
        CloseEffect(c, w, ix, step.rt);
      }
    }
  }

  /** The metadata address of a metadata account cannot be inscribed. */
  lemma NoThirdLevel(c: Chain, k: Pubkey, d: Pubkey)
    requires c.Sound() && c.KnowsMetadata(k) && c.KnowsMetadata(d) && k == c.MetadataAddress(d)
    ensures !Inscribable(c, c.MetadataAddress(k))
  {
    AddressesDisjoint(c);
    forall x | c.KnowsMetadata(x) && c.MetadataAddress(k) == c.MetadataAddress(x) ensures c.derived(x) {
      SameMetadataAddress(c, x, k);
    }
  }
}
