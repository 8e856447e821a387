/** The eleven instructions: what each one checks, in order, and the world it leaves. */
module Program {
  import opened Basics
  import opened State
  import opened Addresses
  import opened Accounts

  datatype Instruction =
    | Initialize(inscription: Pubkey, metadata: Pubkey, shard: Pubkey, caller: Caller)
    | InitializeFromMint(inscription: Pubkey, metadata: Pubkey, mint: Pubkey, tokenMetadata: Pubkey, shard: Pubkey,
                         caller: Caller)
    | Close(inscription: Pubkey, metadata: Pubkey, caller: Caller, tag: Option<Tag>)
    | WriteData(inscription: Pubkey, metadata: Pubkey, caller: Caller, tag: Option<Tag>, offset: u64, value: bytes)
    | ClearData(inscription: Pubkey, metadata: Pubkey, caller: Caller, tag: Option<Tag>)
    | AddAuthority(metadata: Pubkey, caller: Caller, newAuthority: Pubkey)
    | RemoveAuthority(metadata: Pubkey, caller: Caller)
    | CreateShard(shard: Pubkey, caller: Caller, number: byte)
    | InitializeAssociatedInscription(inscription: Pubkey, metadata: Pubkey, associated: Pubkey, caller: Caller,
                                      newTag: Tag)
    | Allocate(inscription: Pubkey, metadata: Pubkey, caller: Caller, tag: Option<Tag>, targetSize: u64)
    | SetMint(inscription: Pubkey, metadata: Pubkey, mint: Pubkey, caller: Caller)

  // ---------------------------------------------------------------- shared checks

  predicate Lists(l: seq<AssociatedInscription>, tag: bytes, bump: byte) {
    exists i :: 0 <= i < |l| && l[i].tag == tag && l[i].bump == bump
  }

  /** `retain` of every entry but those with this tag and bump. */
  function Without(l: seq<AssociatedInscription>, tag: bytes, bump: byte): seq<AssociatedInscription> {
    if l == [] then []
    else if l[0].tag == tag && l[0].bump == bump then Without(l[1..], tag, bump)
    else [l[0]] + Without(l[1..], tag, bump)
  }

  /** Index of the first occurrence. */
  function Position(ks: seq<Pubkey>, k: Pubkey): (i: nat)
    requires k in ks
    ensures i < |ks| && ks[i] == k && k !in ks[..i]
  {
    if ks[0] == k then 0 else 1 + Position(ks[1..], k)
  }

  /** `swap_remove`: the last element takes the place of the removed one. */
  function SwapRemove(ks: seq<Pubkey>, i: nat): seq<Pubkey>
    requires i < |ks|
  {
    ks[i := ks[|ks| - 1]][..|ks| - 1]
  }

  function TagCheck(tag: Tag): Check {
    if tag == [] then Fail(AssociationTagCannotBeBlank)
    else if |tag| > 32 then Fail(AssociationTagTooLong)
    else Pass
  }

  /** Does `metadata`, holding record `m`, speak for the data account `inscription`? */
  function TargetCheck(c: Chain, inscription: Pubkey, metadata: Pubkey, m: InscriptionMetadata,
                       tag: Option<Tag>): Check {
    match tag
    case Some(t) =>
      if TagCheck(t).Fail? then TagCheck(t)
      else if inscription != c.AssociatedAddress(t, metadata) then Fail(DerivedKeyInvalid)
      else if !Lists(m.associatedInscriptions, t, c.AssociatedBump(t, metadata)) then Fail(DerivedKeyInvalid)
      else Pass
    case None =>
      if metadata != c.MetadataAddress(inscription) then Fail(DerivedKeyInvalid)
      else if m.bump != c.MetadataBump(inscription) then Fail(DerivedKeyInvalid)
      else Pass
  }

  function AuthorityCheck(caller: Caller, m: InscriptionMetadata): Check {
    match caller.Signer()
    case Err(e) => Fail(e)
    case Ok(authority) =>
      if authority !in m.updateAuthorities then Fail(InvalidAuthority)
      else if caller.systemProgram != SYSTEM_PROGRAM then Fail(InvalidSystemProgram)
      else Pass
  }

  /** The metadata record, once its account is known to be the program's and not empty. */
  function Load(w: World, metadata: Pubkey): Result<InscriptionMetadata> {
    if !w.Owned(metadata) || w.Data(metadata) == [] then Err(NotInitialized)
    else
      match w.Record(metadata)
      case None => Err(BorshIo)
      case Some(m) => Ok(m)
  }

  /** The checks of the instructions that change the bytes of a data account. */
  function DataChecks(c: Chain, w: World, inscription: Pubkey, metadata: Pubkey, caller: Caller,
                      tag: Option<Tag>): Check {
    if !w.Owned(inscription) then Fail(NotInitialized)
    else if !w.Owned(metadata) then Fail(NotInitialized)
    else
      match w.Record(metadata)
      case None => Fail(BorshIo)
      case Some(m) =>
        if TargetCheck(c, inscription, metadata, m, tag).Fail? then TargetCheck(c, inscription, metadata, m, tag)
        else AuthorityCheck(caller, m)
  }

  // ---------------------------------------------------------------- shared effects

  /** Resizing account `k`, which the program owns, to `n` bytes. */
  predicate CanResize(w: World, k: Pubkey, n: nat, rt: Runtime) {
    rt.grants && n <= |w.Data(k)| + MAX_PERMITTED_DATA_INCREASE
  }

  /** The metadata account is resized to its record, which then fills it. */
  function Store(w: World, k: Pubkey, m: InscriptionMetadata, rt: Runtime): Result<World> {
    if !Fits(m) then Err(BorshIo)
    else if !CanResize(w, k, |Encode(m)|, rt) then Err(RuntimeFailure)
    else Ok(w.Put(k, Encode(m)))
  }

  /** Count * 32 + shard number, in 64 bits. */
  function NextRank(s: InscriptionShard): Result<u64> {
    if s.count * SHARD_COUNT >= U64_LIMIT then Err(NumericalOverflow)
    else if s.count * SHARD_COUNT + s.shardNumber >= U64_LIMIT then Err(NumericalOverflow)
    else if s.count + 1 >= U64_LIMIT then Err(NumericalOverflow)
    else Ok(s.count * SHARD_COUNT + s.shardNumber)
  }

  /** The shard that account `k` holds, once it proves to be the shard it says it is. */
  function LoadShard(c: Chain, w: World, k: Pubkey): Result<InscriptionShard> {
    match DecodeShard(w.Data(k))
    case None => Err(BorshIo)
    case Some(s) =>
      if s.key != InscriptionShardAccount then Err(InvalidShardAccount)
      else if k != c.ShardAddress(s.shardNumber) then Err(DerivedKeyInvalid)
      else if s.bump != c.ShardBump(s.shardNumber) then Err(DerivedKeyInvalid)
      else Ok(s)
  }

  function FreshRecord(c: Chain, inscription: Pubkey, authority: Pubkey, origin: Origin,
                       rank: u64): (m: InscriptionMetadata)
    ensures Fits(m) && m.inscriptionRank == rank
  {
    match origin
    case Keypair =>
      InscriptionMetadata(InscriptionMetadataAccount, inscription, c.MetadataBump(inscription), DataType.Uninitialized,
                          rank, None, [authority], [], None, Zeros(7))
    case FromMint(mint) =>
      InscriptionMetadata(MintInscriptionMetadataAccount, inscription, c.MetadataBump(inscription),
                          DataType.Uninitialized, rank, Some(c.MetadataBump(mint)), [authority], [], Some(mint),
                          Zeros(7))
  }

  /** The pair of accounts is created and shard `s` counts one more; the new rank is the record's. */
  function Registered(w: World, inscription: Pubkey, metadata: Pubkey, m: InscriptionMetadata, origin: Origin,
                      shard: Pubkey, s: InscriptionShard): World
    requires s.count + 1 < U64_LIMIT
  {
    w.Create(inscription, [], MainData(origin))
     .Create(metadata, Encode(m), Metadata(inscription))
     .Put(shard, EncodeShard(s.(count := s.count + 1)))
     .(issued := w.issued + [m.inscriptionRank])
  }

  /**
    The common end of both initialisations: a rank is taken from the shard, the pair of accounts is created,
    and the shard is written back with its count one higher.
   */
  function Register(c: Chain, w: World, inscription: Pubkey, metadata: Pubkey, authority: Pubkey, origin: Origin,
                    shard: Pubkey): Result<World> {
    match LoadShard(c, w, shard)
    case Err(e) => Err(e)
    case Ok(s) =>
      match NextRank(s)
      case Err(e) => Err(e)
      case Ok(rank) =>
        if inscription == metadata || !w.Owned(shard) then Err(RuntimeFailure)
        else
          var m := FreshRecord(c, inscription, authority, origin, rank);
          Ok(Registered(w, inscription, metadata, m, origin, shard, s))
  }

  // ---------------------------------------------------------------- the instructions

  function ExecInitialize(c: Chain, w: World, inscription: Pubkey, metadata: Pubkey, shard: Pubkey, caller: Caller,
                          rt: Runtime): Result<World> {
    if !w.Vacant(inscription) then Err(AlreadyInitialized)
    else if !w.Vacant(metadata) then Err(AlreadyInitialized)
    else if metadata != c.MetadataAddress(inscription) then Err(DerivedKeyInvalid)
    else
      match caller.Signer()
      case Err(e) => Err(e)
      case Ok(authority) =>
        if caller.systemProgram != SYSTEM_PROGRAM then Err(InvalidSystemProgram)
        else if !rt.grants || inscription !in caller.signers then Err(RuntimeFailure)
        else Register(c, w, inscription, metadata, authority, Keypair, shard)
  }

  function ExecInitializeFromMint(c: Chain, w: World, inscription: Pubkey, metadata: Pubkey, mint: Pubkey,
                                  tokenMetadata: Pubkey, shard: Pubkey, caller: Caller, rt: Runtime): Result<World> {
    if !w.Vacant(inscription) then Err(AlreadyInitialized)
    else if !w.Vacant(metadata) then Err(AlreadyInitialized)
    else if w.At(tokenMetadata).owner != TokenMetadata then Err(IncorrectOwner)
    else if w.At(mint).owner != Token then Err(IncorrectOwner)
    else
      match c.tokenMetadata(w.Data(tokenMetadata))
      case None => Err(BorshIo)
      case Some(token) =>
        if token.mint != mint then Err(MintMismatch)
        else if inscription != c.MetadataAddress(mint) then Err(DerivedKeyInvalid)
        else if metadata != c.MetadataAddress(inscription) then Err(DerivedKeyInvalid)
        else
          match caller.Signer()
          case Err(e) => Err(e)
          case Ok(authority) =>
            if token.updateAuthority != authority then Err(InvalidAuthority)
            else if caller.systemProgram != SYSTEM_PROGRAM then Err(InvalidSystemProgram)
            else if !rt.grants then Err(RuntimeFailure)
            else if !w.Owned(shard) || w.Data(shard) == [] then Err(InvalidShardAccount)
            else Register(c, w, inscription, metadata, authority, FromMint(mint), shard)
  }

  function ExecClose(c: Chain, w: World, inscription: Pubkey, metadata: Pubkey, caller: Caller, tag: Option<Tag>,
                     rt: Runtime): Result<World> {
    if !w.Owned(inscription) then Err(NotInitialized)
    else
      match Load(w, metadata)
      case Err(e) => Err(e)
      case Ok(m) =>
        if AuthorityCheck(caller, m).Fail? then Err(AuthorityCheck(caller, m).error)
        else if tag.None? && m.associatedInscriptions != [] then Err(RemainingAssociatedInscriptionAccounts)
        else
          var check := TargetCheck(c, inscription, metadata, m, tag);
          if check.Fail? then Err(check.error)
          else if tag.None? then Ok(w.Close(inscription).Close(metadata))
          else
            var bump := c.AssociatedBump(tag.value, metadata);
            match Store(w, metadata,
                        m.(associatedInscriptions := Without(m.associatedInscriptions, tag.value, bump)), rt)
            case Err(e) => Err(e)
            case Ok(w1) => Ok(w1.Close(inscription))
  }

  function ExecWriteData(c: Chain, w: World, inscription: Pubkey, metadata: Pubkey, caller: Caller, tag: Option<Tag>,
                         offset: u64, value: bytes, rt: Runtime): Result<World> {
    var check := DataChecks(c, w, inscription, metadata, caller, tag);
    var end := offset + |value|;
    if w.Data(metadata) == [] then Err(NotInitialized)
    else if check.Fail? then Err(check.error)
    else if end >= U64_LIMIT then Err(NumericalOverflow)
    else if end > |w.Data(inscription)| && !CanResize(w, inscription, end, rt) then Err(RuntimeFailure)
    else Ok(w.Put(inscription, Spliced(w.Data(inscription), offset, value, rt)))
  }

  function ExecClearData(c: Chain, w: World, inscription: Pubkey, metadata: Pubkey, caller: Caller, tag: Option<Tag>,
                         rt: Runtime): Result<World> {
    var check := DataChecks(c, w, inscription, metadata, caller, tag);
    if !w.Owned(inscription) then Err(NotInitialized)
    else if w.Data(inscription) == [] then Ok(w)
    else if check.Fail? then Err(check.error)
    else if !rt.grants then Err(RuntimeFailure)
    else Ok(w.Put(inscription, []))
  }

  function ExecAllocate(c: Chain, w: World, inscription: Pubkey, metadata: Pubkey, caller: Caller, tag: Option<Tag>,
                        targetSize: u64, rt: Runtime): Result<World> {
    var check := DataChecks(c, w, inscription, metadata, caller, tag);
    var size := |w.Data(inscription)|;
    if check.Fail? then Err(check.error)
    else if size + MAX_PERMITTED_DATA_INCREASE >= U64_LIMIT then Err(NumericalOverflow)
    else if !rt.grants then Err(RuntimeFailure)
    else
      var newSize := Min(targetSize, size + MAX_PERMITTED_DATA_INCREASE);
      Ok(w.Put(inscription, Resized(w.Data(inscription), newSize, rt)))
  }

  function ExecAddAuthority(w: World, metadata: Pubkey, caller: Caller, newAuthority: Pubkey,
                            rt: Runtime): Result<World> {
    match Load(w, metadata)
    case Err(e) => Err(e)
    case Ok(m) =>
      if AuthorityCheck(caller, m).Fail? then Err(AuthorityCheck(caller, m).error)
      else if newAuthority in m.updateAuthorities then Err(AuthorityAlreadyExists)
      else Store(w, metadata, m.(updateAuthorities := m.updateAuthorities + [newAuthority]), rt)
  }

  function ExecRemoveAuthority(w: World, metadata: Pubkey, caller: Caller, rt: Runtime): Result<World> {
    match Load(w, metadata)
    case Err(e) => Err(e)
    case Ok(m) =>
      if AuthorityCheck(caller, m).Fail? then Err(AuthorityCheck(caller, m).error)
      else
        var i := Position(m.updateAuthorities, caller.Signer().value);
        Store(w, metadata, m.(updateAuthorities := SwapRemove(m.updateAuthorities, i)), rt)
  }

  function ExecCreateShard(c: Chain, w: World, shard: Pubkey, caller: Caller, number: byte,
                           rt: Runtime): Result<World> {
    if !w.Vacant(shard) then Err(AlreadyInitialized)
    else if number >= SHARD_COUNT then Err(InvalidShardAccount)
    else if caller.systemProgram != SYSTEM_PROGRAM then Err(InvalidSystemProgram)
    else if shard != c.ShardAddress(number) then Err(DerivedKeyInvalid)
    else if !rt.grants then Err(RuntimeFailure)
    else Ok(w.Create(shard, EncodeShard(InscriptionShard(InscriptionShardAccount, c.ShardBump(number), number, 0)),
                     Shard(number)))
  }

  function ExecInitializeAssociated(c: Chain, w: World, inscription: Pubkey, metadata: Pubkey, associated: Pubkey,
                                    caller: Caller, tag: Tag, rt: Runtime): Result<World> {
    if !w.Owned(inscription) then Err(IncorrectOwner)
    else if !w.Vacant(associated) then Err(AlreadyInitialized)
    else
      match Load(w, metadata)
      case Err(e) => Err(e)
      case Ok(m) =>
        if metadata != c.MetadataAddress(inscription) then Err(DerivedKeyInvalid)
        else if TagCheck(tag).Fail? then Err(TagCheck(tag).error)
        else if associated != c.AssociatedAddress(tag, metadata) then Err(DerivedKeyInvalid)
        else if AuthorityCheck(caller, m).Fail? then Err(AuthorityCheck(caller, m).error)
        else if !rt.grants then Err(RuntimeFailure)
        else
          var entry := AssociatedInscription(tag, c.AssociatedBump(tag, metadata), DataType.Uninitialized);
          Store(w.Create(associated, [], AssociatedData(tag, metadata)), metadata,
                m.(associatedInscriptions := m.associatedInscriptions + [entry]), rt)
  }

  function ExecSetMint(c: Chain, w: World, inscription: Pubkey, metadata: Pubkey, mint: Pubkey, caller: Caller,
                       rt: Runtime): Result<World> {
    if caller.systemProgram != SYSTEM_PROGRAM then Err(InvalidSystemProgram)
    else if !w.Owned(inscription) then Err(NotInitialized)
    else if !w.Owned(metadata) || w.Data(metadata) == [] then Err(NotInitialized)
    else if w.At(mint).owner != Token then Err(IncorrectOwner)
    else if inscription != c.MetadataAddress(mint) then Err(DerivedKeyInvalid)
    else if metadata != c.MetadataAddress(inscription) then Err(DerivedKeyInvalid)
    else if caller.payer !in caller.signers then Err(MissingRequiredSignature)
    else
      match w.Record(metadata)
      case None => Err(BorshIo)
      case Some(m) =>
        if m.key != MintInscriptionMetadataAccount then Err(InvalidInscriptionMetadataAccount)
        else Store(w, metadata, m.(mint := Some(mint)), rt)
  }

  /** `process_instruction`. */
  function Execute(c: Chain, w: World, ix: Instruction, rt: Runtime): Result<World> {
    match ix
    case Initialize(i, m, s, caller) => ExecInitialize(c, w, i, m, s, caller, rt)
    case InitializeFromMint(i, m, mint, tm, s, caller) => ExecInitializeFromMint(c, w, i, m, mint, tm, s, caller, rt)
    case Close(i, m, caller, tag) => ExecClose(c, w, i, m, caller, tag, rt)
    case WriteData(i, m, caller, tag, offset, value) => ExecWriteData(c, w, i, m, caller, tag, offset, value, rt)
    case ClearData(i, m, caller, tag) => ExecClearData(c, w, i, m, caller, tag, rt)
    case AddAuthority(m, caller, k) => ExecAddAuthority(w, m, caller, k, rt)
    case RemoveAuthority(m, caller) => ExecRemoveAuthority(w, m, caller, rt)
    case CreateShard(s, caller, number) => ExecCreateShard(c, w, s, caller, number, rt)
    case InitializeAssociatedInscription(i, m, a, caller, tag) =>
      ExecInitializeAssociated(c, w, i, m, a, caller, tag, rt)
    case Allocate(i, m, caller, tag, size) => ExecAllocate(c, w, i, m, caller, tag, size, rt)
    case SetMint(i, m, mint, caller) => ExecSetMint(c, w, i, m, mint, caller, rt)
  }
}
