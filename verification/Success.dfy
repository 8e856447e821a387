/** Exactly when an instruction succeeds. */
module Success {
  import opened Basics
  import opened State
  import opened Codec
  import opened Layout
  import opened Addresses
  import opened Accounts
  import opened Program
  import opened Invariant
  import opened Placement
  import opened Preservation
  import opened Frames
  import opened Ranks
  import opened Registries

  /** The accounts passed are the ones meant, and those to be created are vacant. */
  ghost predicate Addressed(c: Chain, w: World, ix: Instruction) {
    && CallerOf(ix).systemProgram == SYSTEM_PROGRAM
    && match ix
       case Initialize(i, m, s, caller) =>
         w.Vacant(i) && w.Vacant(m) && m == c.MetadataAddress(i) && i in caller.signers
       case InitializeFromMint(i, m, mint, tm, s, caller) =>
         && w.Vacant(i) && w.Vacant(m) && i == c.MetadataAddress(mint) && m == c.MetadataAddress(i)
         && w.At(mint).owner == Token && w.At(tm).owner == TokenMetadata
         && caller.Signer().Ok? && c.tokenMetadata(w.Data(tm)) == Some(TokenMetadataRecord(mint, caller.Signer().value))
       case CreateShard(s, _, number) => w.Vacant(s) && s == c.ShardAddress(number)
       case InitializeAssociatedInscription(_, m, a, _, tag) => w.Vacant(a) && a == c.AssociatedAddress(tag, m)
       case SetMint(i, m, mint, caller) =>
         w.At(mint).owner == Token && i == c.MetadataAddress(mint) && caller.payer in caller.signers
       case AddAuthority(_, _, _) => true
       case RemoveAuthority(_, _) => true
       case _ => ix.tag.Some? ==> ix.inscription == c.AssociatedAddress(ix.tag.value, ix.metadata)
  }

  /** The sizes asked for are within bounds, and the runtime grants the space. */
  ghost predicate Funded(w: World, ix: Instruction, rt: Runtime) {
    match ix
    case Close(_, _, _, tag) => tag.None? || rt.grants
    case WriteData(i, _, _, _, offset, value) =>
      var end, size := offset + |value|, |w.Data(i)|;
      end < U64_LIMIT && (end <= size || (rt.grants && end <= size + MAX_PERMITTED_DATA_INCREASE))
    case Allocate(i, _, _, _, _) => |w.Data(i)| + MAX_PERMITTED_DATA_INCREASE < U64_LIMIT && rt.grants
    case AddAuthority(m, _, _) =>
      w.Record(m).Some? && |w.Record(m).value.updateAuthorities| + 1 < U32_LIMIT && rt.grants
    case InitializeAssociatedInscription(_, m, _, _, _) =>
      w.Record(m).Some? && |w.Record(m).value.associatedInscriptions| + 1 < U32_LIMIT && rt.grants
    case _ => rt.grants
  }

  // ---------------------------------------------------------------- sizes of records

  lemma RecordSize(m: InscriptionMetadata)
    ensures |Encode(m)| == 58 + |EncodeOptionalByte(m.inscriptionBump)| + 32 * |m.updateAuthorities|
                           + |EncodeAssociations(m.associatedInscriptions)| + |EncodeOptionalKey(m.mint)|
  {
    KeysTake32(m.updateAuthorities);
  }

  lemma {:induction false} MoreSize(l: seq<AssociatedInscription>, a: AssociatedInscription)
    ensures |EncodeAssociations(l + [a])| == |EncodeAssociations(l)| + 6 + |a.tag|
  {
    if l == [] {
      assert l + [a] == [a];
      assert EncodeAssociations([a]) == EncodeAssociated(a) + EncodeAssociations([]);
    } else {
      assert (l + [a])[1..] == l[1..] + [a];
      MoreSize(l[1..], a);
    }
  }

  lemma {:induction false} WithoutSize(l: seq<AssociatedInscription>, tag: bytes, bump: byte)
    ensures |Without(l, tag, bump)| <= |l|
    ensures |EncodeAssociations(Without(l, tag, bump))| <= |EncodeAssociations(l)|
  {
    if l != [] {
      WithoutSize(l[1..], tag, bump);
      var r := [l[0]] + Without(l[1..], tag, bump);
      assert r[1..] == Without(l[1..], tag, bump);
    }
  }

  /** A record that grows by no more than an instruction may add is stored if the runtime grants it. */
  lemma StoreSucceeds(w: World, k: Pubkey, m: InscriptionMetadata, m': InscriptionMetadata, rt: Runtime)
    requires w.Record(k) == Some(m) && |Encode(m')| <= |Encode(m)| + MAX_PERMITTED_DATA_INCREASE
    ensures Store(w, k, m', rt).Ok? <==> Fits(m') && rt.grants
    ensures Store(w, k, m', rt).Ok? ==> Store(w, k, m', rt) == Ok(w.Put(k, Encode(m')))
  {
    EncodeDecode(w.Data(k));
  }

  // ---------------------------------------------------------------- from the registry to the bytes

  /** What an entry says, the record says. */
  lemma EntryMeans(c: Chain, w: World, k: Pubkey)
    requires Inv(c, w) && k in Abstract(c, w).entries
    ensures k in w.roles && w.roles[k].Metadata? && w.Owned(k) && w.Record(k).Some?
    ensures var m, e := w.Record(k).value, Abstract(c, w).entries[k];
            && Load(w, k) == Ok(m)
            && Fits(m)
            && e.account == w.roles[k].inscription && w.Owned(e.account) && k == c.MetadataAddress(e.account)
            && m.bump == c.MetadataBump(e.account)
            && e.authorities == Elements(m.updateAuthorities)
            && e.mint == m.mint
            && (e.children == map[] <==> m.associatedInscriptions == [])
  {
    hide Decode, DecodeShard;
    EntryAccounts(c, w, k);
    EntryFields(c, w, k);
    assert GoodAt(c, w, k);
    EncodeDecode(w.Data(k));
    FixedOffsets(w.Record(k).value);
    var l := w.Record(k).value.associatedInscriptions;
    NoChildrenIff(c, w, k);
  }

  lemma NoChildrenIff(c: Chain, w: World, k: Pubkey)
    requires w.Record(k).Some?
    ensures EntryOf(c, w, k).children == map[] <==> w.Record(k).value.associatedInscriptions == []
  {
    hide Decode;
    var l := w.Record(k).value.associatedInscriptions;
    if l != [] {
      assert l[0] in l;
      assert l[0].tag in EntryOf(c, w, k).children;
    }
  }

  /** A tag that an entry holds is listed, with its bump, and its account is there. */
  lemma ChildMeans(c: Chain, w: World, k: Pubkey, t: Tag)
    requires Inv(c, w) && k in Abstract(c, w).entries && t in Abstract(c, w).entries[k].children
    ensures w.Record(k).Some?
    ensures TagCheck(t) == Pass
    ensures Lists(w.Record(k).value.associatedInscriptions, t, c.AssociatedBump(t, k))
    ensures w.Owned(c.AssociatedAddress(t, k))
  {
    hide Decode, DecodeShard;
    assert GoodAt(c, w, k);
    SlotTag(c, w, k, t);
    var l := w.Record(k).value.associatedInscriptions;
    TagsAreTags(l, t);
    var i :| 0 <= i < |l| && l[i].tag == t;
    assert LiveEntry(c, w, k, l[i]);
  }

  /** A counter is a shard that loads, and whose next rank is there while its count is below the limit. */
  lemma CounterMeans(c: Chain, w: World, k: Pubkey)
    requires Inv(c, w) && k in Abstract(c, w).counters
    ensures k in w.roles && w.Owned(k) && w.Data(k) != []
    ensures LoadShard(c, w, k).Ok?
    ensures Abstract(c, w).counters[k] == Counter(LoadShard(c, w, k).value.shardNumber, LoadShard(c, w, k).value.count)
    ensures NextRank(LoadShard(c, w, k).value).Ok? <==> Abstract(c, w).counters[k].count < COUNT_LIMIT
  {
    hide Decode;
    assert GoodAt(c, w, k);
    IssueFailsAtLimit(DecodeShard(w.Data(k)).value);
  }

  // ---------------------------------------------------------------- permitted instructions succeed

  /**
    What holds of a fair instruction that the registry permits, whose accounts are right and whose space is
    granted.
   */
  ghost predicate Due(c: Chain, w: World, ix: Instruction, rt: Runtime) {
    && c.Sound() && Inv(c, w) && Fair(c, w, Run(ix, rt)) && Proper(w, ix)
    && Permitted(Abstract(c, w), ix) && Addressed(c, w, ix) && Funded(w, ix, rt)
  }

  lemma InitializeSucceeds(c: Chain, w: World, ix: Instruction, rt: Runtime)
    requires Due(c, w, ix, rt) && Registers(ix)
    ensures Execute(c, w, ix, rt).Ok?
  {
    hide Decode, DecodeShard, Inv, Registered, FreshRecord, LoadShard, NextRank, EntryOf, CounterOf;
    CounterMeans(c, w, ix.shard);
    AddressesDisjoint(c);
    if ix.InitializeFromMint? {
      if ix.inscription == ix.metadata {
        SameMetadataAddress(c, ix.mint, ix.inscription);
      }
    } else {
      assert c.KnowsMetadata(ix.inscription);
    }
  }

  lemma SignerPasses(caller: Caller, m: InscriptionMetadata, authorities: set<Pubkey>)
    requires caller.Signer().Ok? && caller.Signer().value in authorities && authorities == Elements(m.updateAuthorities)
    requires caller.systemProgram == SYSTEM_PROGRAM
    ensures AuthorityCheck(caller, m) == Pass
  {
  }

  /** The data instructions and Close pass their checks. */
  lemma ChecksPass(c: Chain, w: World, ix: Instruction, rt: Runtime)
    requires Due(c, w, ix, rt) && (ix.WriteData? || ix.ClearData? || ix.Allocate? || ix.Close?)
    ensures w.Owned(ix.inscription) && w.Owned(ix.metadata) && w.Data(ix.metadata) != [] && w.Record(ix.metadata).Some?
    ensures TargetCheck(c, ix.inscription, ix.metadata, w.Record(ix.metadata).value, ix.tag) == Pass
    ensures AuthorityCheck(ix.caller, w.Record(ix.metadata).value) == Pass
    ensures Load(w, ix.metadata).Ok?
    ensures DataChecks(c, w, ix.inscription, ix.metadata, ix.caller, ix.tag) == Pass
  {
    hide Decode, DecodeShard, Inv, EntryOf, CounterOf, Fair, AuthorityCheck;
    var k := ix.metadata;
    EntryMeans(c, w, k);
    SignerPasses(ix.caller, w.Record(k).value, Abstract(c, w).entries[k].authorities);
    if ix.tag.Some? {
      ChildMeans(c, w, k, ix.tag.value);
    }
  }

  lemma DataSucceeds(c: Chain, w: World, ix: Instruction, rt: Runtime)
    requires Due(c, w, ix, rt) && (ix.WriteData? || ix.ClearData? || ix.Allocate?)
    ensures Execute(c, w, ix, rt).Ok?
  {
    hide Decode, Inv, Abstract, Fair, DataChecks, Permitted, Addressed;
    ChecksPass(c, w, ix, rt);
  }

  lemma CloseSucceeds(c: Chain, w: World, ix: Instruction, rt: Runtime)
    requires Due(c, w, ix, rt) && ix.Close?
    ensures Execute(c, w, ix, rt).Ok?
  {
    hide Decode, Inv, EntryOf, CounterOf, Fair, Addressed, AuthorityCheck, TargetCheck, Without, Store, Encode;
    var k := ix.metadata;
    ChecksPass(c, w, ix, rt);
    EntryMeans(c, w, k);
    if ix.tag.Some? {
      var m := w.Record(k).value;
      var bump := c.AssociatedBump(ix.tag.value, k);
      var m' := m.(associatedInscriptions := Without(m.associatedInscriptions, ix.tag.value, bump));
      WithoutSize(m.associatedInscriptions, ix.tag.value, bump);
      RecordSize(m);
      RecordSize(m');
      StoreSucceeds(w, k, m, m', rt);
    }
  }

  lemma AuthoritySucceeds(c: Chain, w: World, ix: Instruction, rt: Runtime)
    requires Due(c, w, ix, rt) && (ix.AddAuthority? || ix.RemoveAuthority?)
    ensures Execute(c, w, ix, rt).Ok?
  {
    hide Decode, Inv, EntryOf, CounterOf, Fair, AuthorityCheck, Store, Encode;
    var k := ix.metadata;
    EntryMeans(c, w, k);
    var m := w.Record(k).value;
    SignerPasses(CallerOf(ix), m, Abstract(c, w).entries[k].authorities);
    AuthorityPassed(CallerOf(ix), m);
    var m' := m.(updateAuthorities :=
      if ix.AddAuthority? then m.updateAuthorities + [ix.newAuthority]
      else SwapRemove(m.updateAuthorities, Position(m.updateAuthorities, ix.caller.Signer().value)));
    RecordSize(m);
    RecordSize(m');
    StoreSucceeds(w, k, m, m', rt);
  }

  lemma AssociateSucceeds(c: Chain, w: World, ix: Instruction, rt: Runtime)
    requires Due(c, w, ix, rt) && ix.InitializeAssociatedInscription?
    ensures Execute(c, w, ix, rt).Ok?
  {
    hide Decode, Inv, EntryOf, CounterOf, Fair, AuthorityCheck, Store, Encode;
    var k := ix.metadata;
    EntryMeans(c, w, k);
    var m := w.Record(k).value;
    var a := AssociatedInscription(ix.newTag, c.AssociatedBump(ix.newTag, k), DataType.Uninitialized);
    SignerPasses(ix.caller, m, Abstract(c, w).entries[k].authorities);
    var m' := m.(associatedInscriptions := m.associatedInscriptions + [a]);
    MoreSize(m.associatedInscriptions, a);
    RecordSize(m);
    RecordSize(m');
    var w1 := w.Create(ix.associated, [], AssociatedData(ix.newTag, k));
    assert ix.associated != k && w1.At(k) == w.At(k);
    StoreSucceeds(w1, k, m, m', rt);
  }

  lemma SetMintSucceeds(c: Chain, w: World, ix: Instruction, rt: Runtime)
    requires Due(c, w, ix, rt) && ix.SetMint?
    ensures Execute(c, w, ix, rt).Ok?
  {
    hide Decode, DecodeShard, EntryOf, CounterOf, Store, Encode;
    var k := ix.metadata;
    EntryMeans(c, w, k);
    var m := w.Record(k).value;
    assert GoodAt(c, w, k);
    assert GoodAt(c, w, ix.inscription);
    AddressesDisjoint(c);
    RecordSize(m);
    RecordSize(m.(mint := Some(ix.mint)));
    StoreSucceeds(w, k, m, m.(mint := Some(ix.mint)), rt);
  }

  lemma DueSucceeds(c: Chain, w: World, ix: Instruction, rt: Runtime)
    requires Due(c, w, ix, rt)
    ensures Execute(c, w, ix, rt).Ok?
  {
    match ix {
      case Initialize(_, _, _, _) => InitializeSucceeds(c, w, ix, rt);
      case InitializeFromMint(_, _, _, _, _, _) => InitializeSucceeds(c, w, ix, rt);
      case Close(_, _, _, _) => CloseSucceeds(c, w, ix, rt);
      case WriteData(_, _, _, _, _, _) => DataSucceeds(c, w, ix, rt);
      case ClearData(_, _, _, _) => DataSucceeds(c, w, ix, rt);
      case Allocate(_, _, _, _, _) => DataSucceeds(c, w, ix, rt);
      case AddAuthority(_, _, _) => AuthoritySucceeds(c, w, ix, rt);
      case RemoveAuthority(_, _) => AuthoritySucceeds(c, w, ix, rt);
      case CreateShard(_, _, _) =>
      case InitializeAssociatedInscription(_, _, _, _, _) => AssociateSucceeds(c, w, ix, rt);
      case SetMint(_, _, _, _) => SetMintSucceeds(c, w, ix, rt);
    }
  }

  // ---------------------------------------------------------------- and only those

  lemma SuccessAddressed(c: Chain, w: World, ix: Instruction, rt: Runtime)
    requires Execute(c, w, ix, rt).Ok? && Proper(w, ix)
    ensures Addressed(c, w, ix)
  {
    hide Decode, DecodeShard, Encode, Register, Store;
  }

  lemma SuccessFunded(c: Chain, w: World, ix: Instruction, rt: Runtime)
    requires Execute(c, w, ix, rt).Ok? && Proper(w, ix)
    ensures Funded(w, ix, rt)
  {
    hide Decode, DecodeShard, Encode, Register, TargetCheck, AuthorityCheck, Without, Position;
  }

  /**
    An instruction succeeds exactly when the registry permits it, its accounts are the right ones, and its
    space is within bounds and granted.
   */
  lemma SucceedsExactly(c: Chain, w: World, ix: Instruction, rt: Runtime)
    requires c.Sound() && Inv(c, w) && Fair(c, w, Run(ix, rt)) && Proper(w, ix)
    ensures Execute(c, w, ix, rt).Ok?
       <==> Permitted(Abstract(c, w), ix) && Addressed(c, w, ix) && Funded(w, ix, rt)
  {
    hide Execute, Inv, Fair, Abstract, Permitted, Addressed, Funded, Proper;
    if Execute(c, w, ix, rt).Ok? {
      LedgerRefinesRegistry(c, w, ix, rt);
      SuccessAddressed(c, w, ix, rt);
      SuccessFunded(c, w, ix, rt);
    }
    if Permitted(Abstract(c, w), ix) && Addressed(c, w, ix) && Funded(w, ix, rt) {
      DueSucceeds(c, w, ix, rt);
    }
  }

  /**
    The remaining instructions. Clearing an empty account of the program needs no authority; an authority
    instruction that is passed no metadata account works on a data account whose bytes pass for a record.
   */
  lemma ImproperSucceedsExactly(c: Chain, w: World, ix: Instruction, rt: Runtime)
    requires c.Sound() && Inv(c, w) && Fair(c, w, Run(ix, rt)) && !Proper(w, ix)
    ensures ix.ClearData? ==> (Execute(c, w, ix, rt).Ok? <==> ix.inscription in w.roles)
    ensures ix.AddAuthority? || ix.RemoveAuthority? ==>
              (Execute(c, w, ix, rt).Ok? <==>
                && IsData(w, ix.metadata) && w.Record(ix.metadata).Some?
                && AuthorityCheck(ix.caller, w.Record(ix.metadata).value) == Pass
                && (ix.AddAuthority? ==> ix.newAuthority !in w.Record(ix.metadata).value.updateAuthorities)
                && Funded(w, ix, rt))
  {
    hide DataChecks, Decode, DecodeShard, Encode, AuthorityCheck, SwapRemove;
    if ix.ClearData? {
      return;
    }
    if Execute(c, w, ix, rt).Ok? {
      AuthorityOnDataAccount(c, w, ix, rt);
    }
    if w.Record(ix.metadata).Some? && AuthorityCheck(ix.caller, w.Record(ix.metadata).value) == Pass {
      var m := w.Record(ix.metadata).value;
      EncodeDecode(w.Data(ix.metadata));
      FixedOffsets(m);
      AuthorityPassed(ix.caller, m);
      var m' := m.(updateAuthorities :=
        if ix.AddAuthority? then m.updateAuthorities + [ix.newAuthority]
        else SwapRemove(m.updateAuthorities, Position(m.updateAuthorities, ix.caller.Signer().value)));
      SwapRemoveSize(m.updateAuthorities, Position(m.updateAuthorities, ix.caller.Signer().value));
      RecordSize(m);
      RecordSize(m');
      StoreSucceeds(w, ix.metadata, m, m', rt);
    }
  }

  lemma SwapRemoveSize(ks: seq<Pubkey>, i: nat)
    requires i < |ks|
    ensures |SwapRemove(ks, i)| == |ks| - 1
  {
  }

  // ---------------------------------------------------------------- and why others fail

  /** The shard's next rank does not fit 64 bits. */
  predicate Exhausted(s: InscriptionShard) {
    s.count * SHARD_COUNT + s.shardNumber >= U64_LIMIT
  }

  lemma ExhaustedExactly(s: InscriptionShard)
    ensures Exhausted(s) <==> NextRank(s) == Err(NumericalOverflow)
    ensures NextRank(s).Err? ==> NextRank(s) == Err(NumericalOverflow)
  {
  }

  /**
    An initialisation reports NumericalOverflow if and only if everything it checks before is right and its shard
    has no rank left. On a shard of the program that is a count at the limit. Initialize only finds out at the end
    whether the shard it was passed is the program's; InitializeFromMint asks first.
   */
  lemma OverflowsAtLimit(c: Chain, w: World, ix: Instruction, rt: Runtime)
    requires c.Sound() && Inv(c, w) && Fair(c, w, Run(ix, rt)) && Registers(ix)
    ensures Execute(c, w, ix, rt) == Err(NumericalOverflow) <==>
              && Addressed(c, w, ix) && ix.caller.Signer().Ok? && rt.grants
              && (ix.InitializeFromMint? ==> w.Owned(ix.shard) && w.Data(ix.shard) != [])
              && LoadShard(c, w, ix.shard).Ok? && Exhausted(LoadShard(c, w, ix.shard).value)
    ensures w.Owned(ix.shard) && LoadShard(c, w, ix.shard).Ok? ==>
              (Exhausted(LoadShard(c, w, ix.shard).value) <==> LoadShard(c, w, ix.shard).value.count >= COUNT_LIMIT)
  {
    hide Decode, Registered, FreshRecord, Inv, NextRank, Exhausted;
    if LoadShard(c, w, ix.shard).Ok? {
      ExhaustedExactly(LoadShard(c, w, ix.shard).value);
      if w.Owned(ix.shard) {
        OwnedNumberSmall(c, w, ix.shard);
      }
    }
    hide DecodeShard;
  }

  lemma OwnedNumberSmall(c: Chain, w: World, k: Pubkey)
    requires c.Sound() && Inv(c, w) && w.Owned(k) && LoadShard(c, w, k).Ok?
    ensures var s := LoadShard(c, w, k).value; Exhausted(s) <==> s.count >= COUNT_LIMIT
  {
    hide Decode;
    InvPlaced(c, w);
    ShardPlaced(c, w, k);
    assert GoodAt(c, w, k);
  }

  /** Apart from who signs, the instruction is about an entry and accounts that it may be about. */
  ghost predicate AllElseRight(c: Chain, w: World, ix: Instruction) {
    && !Registers(ix) && !ix.CreateShard? && !ix.SetMint?
    && ix.metadata in Abstract(c, w).entries
    && var e := Abstract(c, w).entries[ix.metadata];
       if ix.AddAuthority? || ix.RemoveAuthority? then true
       else if ix.InitializeAssociatedInscription? then
         && e.account == ix.inscription && 1 <= |ix.newTag| <= 32
         && w.Vacant(ix.associated) && ix.associated == c.AssociatedAddress(ix.newTag, ix.metadata)
       else
         && e.Holds(ix.tag)
         && (ix.tag.None? ==> e.account == ix.inscription)
         && (ix.tag.Some? ==> ix.inscription == c.AssociatedAddress(ix.tag.value, ix.metadata))
         && (ix.ClearData? ==> w.Data(ix.inscription) != [])
  }

  /** The payer and the authority account, if one is passed, have signed. */
  predicate AllSigned(caller: Caller) {
    caller.payer in caller.signers && (caller.authority.Some? ==> caller.authority.value in caller.signers)
  }

  /** An authority account is passed that is among these keys; or none is, and the payer is among them. */
  predicate ClaimsOneOf(caller: Caller, authorities: set<Pubkey>) {
    match caller.authority
    case Some(a) => a in authorities
    case None => caller.payer in authorities
  }

  /**
    All seven instructions that need an authority tell a caller who signs but passes for none, and gets all else
    right, just that. It does not help that the payer is listed, if the authority account is another's.
   */
  lemma OutsidersRefused(c: Chain, w: World, ix: Instruction, rt: Runtime)
    requires Inv(c, w) && AllElseRight(c, w, ix) && AllSigned(ix.caller)
    requires !ClaimsOneOf(ix.caller, Abstract(c, w).entries[ix.metadata].authorities)
    ensures Execute(c, w, ix, rt) == Err(InvalidAuthority)
  {
    hide Decode, DecodeShard, Inv, EntryOf, CounterOf;
    EntryMeans(c, w, ix.metadata);
    if !ix.AddAuthority? && !ix.RemoveAuthority? && !ix.InitializeAssociatedInscription? && ix.tag.Some? {
      ChildMeans(c, w, ix.metadata, ix.tag.value);
    }
  }

  /** And they tell a caller who gets all else right, but for whom somebody has not signed, that. */
  lemma UnsignedRefused(c: Chain, w: World, ix: Instruction, rt: Runtime)
    requires Inv(c, w) && AllElseRight(c, w, ix) && !AllSigned(ix.caller)
    ensures Execute(c, w, ix, rt) == Err(MissingRequiredSignature)
  {
    hide Decode, DecodeShard, Inv, EntryOf, CounterOf;
    EntryMeans(c, w, ix.metadata);
    if !ix.AddAuthority? && !ix.RemoveAuthority? && !ix.InitializeAssociatedInscription? && ix.tag.Some? {
      ChildMeans(c, w, ix.metadata, ix.tag.value);
    }
  }

  /** Whether such an instruction succeeds is a matter of who signs and whose authority is claimed, and nothing else. */
  lemma AuthorityDecides(c: Chain, w: World, ix: Instruction, rt: Runtime)
    requires c.Sound() && Inv(c, w) && Fair(c, w, Run(ix, rt)) && AllElseRight(c, w, ix) && Funded(w, ix, rt)
    requires ix.caller.systemProgram == SYSTEM_PROGRAM
    requires ix.AddAuthority? ==> ix.newAuthority !in Abstract(c, w).entries[ix.metadata].authorities
    requires ix.Close? && ix.tag.None? ==> Abstract(c, w).entries[ix.metadata].children == map[]
    ensures Execute(c, w, ix, rt).Ok?
       <==> AllSigned(ix.caller) && ClaimsOneOf(ix.caller, Abstract(c, w).entries[ix.metadata].authorities)
  {
    EntryMeans(c, w, ix.metadata);
    if ix.InitializeAssociatedInscription? && ix.newTag in Abstract(c, w).entries[ix.metadata].children {
      ChildMeans(c, w, ix.metadata, ix.newTag);
      assert false;
    }
    hide Inv, Fair, EntryOf, CounterOf, Execute, Funded;
    SucceedsExactly(c, w, ix, rt);
  }

  /** A pair is not closed while it has children, and the caller learns why. */
  lemma CloseRefusedWithChildren(c: Chain, w: World, ix: Instruction, rt: Runtime)
    requires Inv(c, w) && ix.Close? && ix.tag.None? && ix.caller.systemProgram == SYSTEM_PROGRAM
    requires AuthorisedBytes(Abstract(c, w), ix) && Abstract(c, w).entries[ix.metadata].children != map[]
    ensures Execute(c, w, ix, rt) == Err(RemainingAssociatedInscriptionAccounts)
  {
    hide Decode, DecodeShard, Inv, EntryOf, CounterOf, AuthorityCheck;
    EntryMeans(c, w, ix.metadata);
    SignerPasses(ix.caller, w.Record(ix.metadata).value, Abstract(c, w).entries[ix.metadata].authorities);
  }

  /** The list is never searched for a tag in use: it is the child's account that is not vacant. */
  lemma TakenTagRefused(c: Chain, w: World, ix: Instruction, rt: Runtime)
    requires Inv(c, w) && ix.InitializeAssociatedInscription?
    requires ix.metadata in Abstract(c, w).entries && Abstract(c, w).entries[ix.metadata].account == ix.inscription
    requires ix.newTag in Abstract(c, w).entries[ix.metadata].children
    requires ix.associated == c.AssociatedAddress(ix.newTag, ix.metadata)
    ensures Execute(c, w, ix, rt) == Err(AlreadyInitialized)
  {
    hide Decode, DecodeShard, Inv, EntryOf, CounterOf;
    EntryMeans(c, w, ix.metadata);
    ChildMeans(c, w, ix.metadata, ix.newTag);
  }
}
