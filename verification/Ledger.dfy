/** The processors, changing the accounts in place, proved against the instructions' specification. */
module Ledgers {
  import opened Basics
  import opened State
  import opened Codec
  import opened Addresses
  import opened Accounts
  import opened Program
  import opened Invariant
  import opened Preservation

  class Ledger {
    const chain: Chain
    var accounts: map<Pubkey, Account>
    ghost var roles: map<Pubkey, Role>
    ghost var issued: seq<u64>

    /** The ledger as a value. */
    ghost function Now(): World
      reads this
    {
      World(accounts, roles, issued)
    }

    constructor (chain: Chain, accounts: map<Pubkey, Account>)
      requires forall k :: Lookup(accounts, k).owner != Program
      ensures this.chain == chain
      ensures Now() == World(accounts, map[], [])
    {
      this.chain := chain;
      this.accounts := accounts;
      roles := map[];
      issued := [];
    }

    function At(k: Pubkey): Account
      reads this
    {
      Lookup(accounts, k)
    }

    // -------------------------------------------------------------- the account helpers

    /** `resize_or_reallocate_account_raw` */
    method Resize(k: Pubkey, size: nat, rt: Runtime) returns (r: Result<()>)
      requires Now().Owned(k)
      modifies this`accounts
      ensures r == if CanResize(old(Now()), k, size, rt) then Ok(()) else Err(RuntimeFailure)
      ensures Now() == if r.Ok? then old(Now()).Put(k, Resized(old(Now()).Data(k), size, rt)) else old(Now())
    {
      var data := At(k).data;
      if !rt.grants || size > |data| + MAX_PERMITTED_DATA_INCREASE {
        return Err(RuntimeFailure);
      }
      accounts := accounts[k := Account(Program, Resized(data, size, rt))];
      return Ok(());
    }

    /** `sol_memcpy` into an account's bytes from `offset` on, which must not run past their end. */
    method Copy(k: Pubkey, offset: nat, value: bytes) returns (r: Result<()>)
      requires offset + |value| <= |Now().Data(k)|
      modifies this`accounts
      ensures r == if old(Now()).Owned(k) then Ok(()) else Err(RuntimeFailure)
      ensures Now() == if r.Err? then old(Now())
                       else old(Now()).Put(k, old(Now()).Data(k)[..offset] + value
                                              + old(Now()).Data(k)[offset + |value|..])
    {
      var account := At(k);
      if account.owner != Program {
        return Err(RuntimeFailure);
      }
      var data := account.data[..offset] + value + account.data[offset + |value|..];
      accounts := accounts[k := Account(Program, data)];
      return Ok(());
    }

    /** A copy that covers the account from end to end. */
    method Overwrite(k: Pubkey, value: bytes) returns (r: Result<()>)
      requires |value| == |Now().Data(k)|
      modifies this`accounts
      ensures r == if old(Now()).Owned(k) then Ok(()) else Err(RuntimeFailure)
      ensures Now() == if r.Ok? then old(Now()).Put(k, value) else old(Now())
    {
      ghost var data := Now().Data(k);
      assert data[..0] + value + data[|value|..] == value;
      r := Copy(k, 0, value);
    }

    /** `create_account`, or `create_or_allocate_account_raw` for a derived address. */
    method CreateAccount(k: Pubkey, size: nat, rt: Runtime, ghost role: Role) returns (r: Result<()>)
      modifies this`accounts, this`roles
      ensures r == if rt.grants && old(Now()).Vacant(k) then Ok(()) else Err(RuntimeFailure)
      ensures Now() == if r.Ok? then old(Now()).Create(k, Zeros(size), role) else old(Now())
    {
      if !rt.grants || At(k) != Vacancy() {
        return Err(RuntimeFailure);
      }
      accounts := accounts[k := Account(Program, Zeros(size))];
      roles := roles[k := role];
      return Ok(());
    }

    /** `close_account_raw` */
    method CloseAccount(k: Pubkey)
      modifies this`accounts, this`roles
      ensures Now() == old(Now()).Close(k)
    {
      accounts := accounts - {k};
      roles := roles - {k};
    }

    /** `try_to_vec`, resize, copy: the end of every processor that rewrites a record. */
    method StoreRecord(k: Pubkey, m: InscriptionMetadata, rt: Runtime) returns (r: Result<()>)
      requires Now().Owned(k)
      modifies this`accounts
      ensures r.Ok? ==> Store(old(Now()), k, m, rt) == Ok(Now())
      ensures r.Err? ==> Store(old(Now()), k, m, rt) == Err(r.error)
    {
      hide Encode;
      if !Fits(m) {
        return Err(BorshIo);
      }
      var serialized := Encode(m);
      r := Resize(k, |serialized|, rt);
      if r.Err? {
        return;
      }
      ghost var resized := Now();
      r := Overwrite(k, serialized);
      PutTwice(old(Now()), k, resized.Data(k), serialized);
    }

    // -------------------------------------------------------------- the processors

    /**
      The second half of both initialisations, after the data account was created in world `w`: the shard is
      read, checked and counted up, and the metadata account is created with its record.
     */
    method Enrol(ghost w: World, inscription: Pubkey, metadata: Pubkey, authority: Pubkey, origin: Origin,
                 shard: Pubkey, rt: Runtime) returns (r: Result<()>)
      requires rt.grants && w.Vacant(inscription) && w.Vacant(metadata)
      requires Now() == w.Create(inscription, [], MainData(origin))
      modifies this
      ensures r.Ok? ==> Register(chain, w, inscription, metadata, authority, origin, shard) == Ok(Now())
      ensures r.Err? ==> Register(chain, w, inscription, metadata, authority, origin, shard) == Err(r.error)
    {
      hide Encode, Decode, DecodeShard, EncodeShard, FreshRecord;
      assert At(shard).data == w.Data(shard);
      var parsed := DecodeShard(At(shard).data);
      if parsed.None? {
        return Err(BorshIo);
      }
      var s := parsed.value;
      if s.key != InscriptionShardAccount {
        return Err(InvalidShardAccount);
      }
      if shard != chain.ShardAddress(s.shardNumber) || s.bump != chain.ShardBump(s.shardNumber) {
        return Err(DerivedKeyInvalid);
      }
      if s.count * SHARD_COUNT >= U64_LIMIT {
        return Err(NumericalOverflow);
      }
      if s.count * SHARD_COUNT + s.shardNumber >= U64_LIMIT {
        return Err(NumericalOverflow);
      }
      var rank: u64 := s.count * SHARD_COUNT + s.shardNumber;
      if s.count + 1 >= U64_LIMIT {
        return Err(NumericalOverflow);
      }
      var m := FreshRecord(chain, inscription, authority, origin, rank);
      var serialized := Encode(m);
      r := CreateAccount(metadata, |serialized|, rt, Metadata(inscription));
      if r.Err? {
        return;
      }
      ghost var created := Now();
      r := Overwrite(metadata, serialized);
      PutTwice(w.Create(inscription, [], MainData(origin)), metadata, created.Data(metadata), serialized);
      var counted := EncodeShard(s.(count := s.count + 1));
      ShardKeepsSize(w.Data(shard), s);
      r := Overwrite(shard, counted);
      if r.Err? {
        return;
      }
      issued := issued + [rank];
    }

    method Initialize(inscription: Pubkey, metadata: Pubkey, shard: Pubkey, caller: Caller, rt: Runtime)
      returns (r: Result<()>)
      modifies this
      ensures r.Ok? ==> ExecInitialize(chain, old(Now()), inscription, metadata, shard, caller, rt) == Ok(Now())
      ensures r.Err? ==> ExecInitialize(chain, old(Now()), inscription, metadata, shard, caller, rt) == Err(r.error)
    {
      hide Register;
      if At(inscription) != Vacancy() || At(metadata) != Vacancy() {
        return Err(AlreadyInitialized);
      }
      if metadata != chain.MetadataAddress(inscription) {
        return Err(DerivedKeyInvalid);
      }
      var signer := caller.Signer();
      if signer.Err? {
        return Err(signer.error);
      }
      if caller.systemProgram != SYSTEM_PROGRAM {
        return Err(InvalidSystemProgram);
      }
      if inscription !in caller.signers {
        return Err(RuntimeFailure);
      }
      r := CreateAccount(inscription, 0, rt, MainData(Keypair));
      if r.Err? {
        return;
      }
      r := Enrol(old(Now()), inscription, metadata, signer.value, Keypair, shard, rt);
    }

    method InitializeFromMint(inscription: Pubkey, metadata: Pubkey, mint: Pubkey, tokenMetadata: Pubkey, shard: Pubkey,
                              caller: Caller, rt: Runtime) returns (r: Result<()>)
      modifies this
      ensures r.Ok? ==>
        ExecInitializeFromMint(chain, old(Now()), inscription, metadata, mint, tokenMetadata, shard, caller, rt)
          == Ok(Now())
      ensures r.Err? ==>
        ExecInitializeFromMint(chain, old(Now()), inscription, metadata, mint, tokenMetadata, shard, caller, rt)
          == Err(r.error)
    {
      hide Register;
      if At(inscription) != Vacancy() || At(metadata) != Vacancy() {
        return Err(AlreadyInitialized);
      }
      if At(tokenMetadata).owner != TokenMetadata || At(mint).owner != Token {
        return Err(IncorrectOwner);
      }
      var token := chain.tokenMetadata(At(tokenMetadata).data);
      if token.None? {
        return Err(BorshIo);
      }
      if token.value.mint != mint {
        return Err(MintMismatch);
      }
      if inscription != chain.MetadataAddress(mint) || metadata != chain.MetadataAddress(inscription) {
        return Err(DerivedKeyInvalid);
      }
      var signer := caller.Signer();
      if signer.Err? {
        return Err(signer.error);
      }
      if token.value.updateAuthority != signer.value {
        return Err(InvalidAuthority);
      }
      if caller.systemProgram != SYSTEM_PROGRAM {
        return Err(InvalidSystemProgram);
      }
      r := CreateAccount(inscription, 0, rt, MainData(FromMint(mint)));
      if r.Err? {
        return;
      }
      if At(shard).owner != Program || At(shard).data == [] {
        return Err(InvalidShardAccount);
      }
      r := Enrol(old(Now()), inscription, metadata, signer.value, FromMint(mint), shard, rt);
    }

    method Close(inscription: Pubkey, metadata: Pubkey, caller: Caller, tag: Option<Tag>, rt: Runtime)
      returns (r: Result<()>)
      modifies this
      ensures r.Ok? ==> ExecClose(chain, old(Now()), inscription, metadata, caller, tag, rt) == Ok(Now())
      ensures r.Err? ==> ExecClose(chain, old(Now()), inscription, metadata, caller, tag, rt) == Err(r.error)
    {
      hide Decode, TargetCheck, AuthorityCheck, Without;
      if At(inscription).owner != Program {
        return Err(NotInitialized);
      }
      if At(metadata).owner != Program || At(metadata).data == [] {
        return Err(NotInitialized);
      }
      var record := Decode(At(metadata).data);
      if record.None? {
        return Err(BorshIo);
      }
      var m := record.value;
      var authorised := AuthorityCheck(caller, m);
      if authorised.Fail? {
        return Err(authorised.error);
      }
      if tag.None? && m.associatedInscriptions != [] {
        return Err(RemainingAssociatedInscriptionAccounts);
      }
      var target := TargetCheck(chain, inscription, metadata, m, tag);
      if target.Fail? {
        return Err(target.error);
      }
      match tag {
        case Some(t) =>
          m := m.(associatedInscriptions := Without(m.associatedInscriptions, t, chain.AssociatedBump(t, metadata)));
          r := StoreRecord(metadata, m, rt);
          if r.Err? {
            return;
          }
          CloseAccount(inscription);
        case None =>
          CloseAccount(inscription);
          CloseAccount(metadata);
          r := Ok(());
      }
    }

    /** The checks that WriteData, ClearData and Allocate share. */
    method CheckData(inscription: Pubkey, metadata: Pubkey, caller: Caller, tag: Option<Tag>) returns (check: Check)
      ensures check == DataChecks(chain, Now(), inscription, metadata, caller, tag)
      ensures check.Pass? ==> Now().Owned(inscription)
    {
      if At(inscription).owner != Program || At(metadata).owner != Program {
        return Fail(NotInitialized);
      }
      var record := Decode(At(metadata).data);
      if record.None? {
        return Fail(BorshIo);
      }
      check := TargetCheck(chain, inscription, metadata, record.value, tag);
      if check.Pass? {
        check := AuthorityCheck(caller, record.value);
      }
    }

    method WriteData(inscription: Pubkey, metadata: Pubkey, caller: Caller, tag: Option<Tag>, offset: u64, value: bytes,
                     rt: Runtime) returns (r: Result<()>)
      modifies this
      ensures r.Ok? ==>
        ExecWriteData(chain, old(Now()), inscription, metadata, caller, tag, offset, value, rt) == Ok(Now())
      ensures r.Err? ==>
        ExecWriteData(chain, old(Now()), inscription, metadata, caller, tag, offset, value, rt) == Err(r.error)
    {
      hide Spliced, TargetCheck, AuthorityCheck, Decode;
      if At(metadata).data == [] {
        return Err(NotInitialized);
      }
      var check := CheckData(inscription, metadata, caller, tag);
      if check.Fail? {
        return Err(check.error);
      }
      var oldSize := |At(inscription).data|;
      var writeEnd := offset + |value|;
      if writeEnd >= U64_LIMIT {
        return Err(NumericalOverflow);
      }
      if writeEnd > oldSize {
        r := Resize(inscription, writeEnd, rt);
        if r.Err? {
          return;
        }
      }
      ghost var data := Now().Data(inscription);
      CopyIsSplice(old(Now()).Data(inscription), data, offset, value, rt);
      r := Copy(inscription, offset, value);
      PutTwice(old(Now()), inscription, data, Now().Data(inscription));
    }

    method ClearData(inscription: Pubkey, metadata: Pubkey, caller: Caller, tag: Option<Tag>, rt: Runtime)
      returns (r: Result<()>)
      modifies this
      ensures r.Ok? ==> ExecClearData(chain, old(Now()), inscription, metadata, caller, tag, rt) == Ok(Now())
      ensures r.Err? ==> ExecClearData(chain, old(Now()), inscription, metadata, caller, tag, rt) == Err(r.error)
    {
      if At(inscription).owner != Program {
        return Err(NotInitialized);
      }
      if At(inscription).data == [] {
        return Ok(());
      }
      var check := CheckData(inscription, metadata, caller, tag);
      if check.Fail? {
        return Err(check.error);
      }
      r := Resize(inscription, 0, rt);
    }

    method Allocate(inscription: Pubkey, metadata: Pubkey, caller: Caller, tag: Option<Tag>, targetSize: u64,
                    rt: Runtime)
      returns (r: Result<()>)
      modifies this
      ensures r.Ok? ==> ExecAllocate(chain, old(Now()), inscription, metadata, caller, tag, targetSize, rt) == Ok(Now())
      ensures r.Err?
          ==> ExecAllocate(chain, old(Now()), inscription, metadata, caller, tag, targetSize, rt) == Err(r.error)
    {
      hide TargetCheck, AuthorityCheck, Decode;
      var check := CheckData(inscription, metadata, caller, tag);
      if check.Fail? {
        return Err(check.error);
      }
      var maxSize := |At(inscription).data| + MAX_PERMITTED_DATA_INCREASE;
      if maxSize >= U64_LIMIT {
        return Err(NumericalOverflow);
      }
      r := Resize(inscription, Min(targetSize, maxSize), rt);
    }

    method AddAuthority(metadata: Pubkey, caller: Caller, newAuthority: Pubkey, rt: Runtime) returns (r: Result<()>)
      modifies this
      ensures r.Ok? ==> ExecAddAuthority(old(Now()), metadata, caller, newAuthority, rt) == Ok(Now())
      ensures r.Err? ==> ExecAddAuthority(old(Now()), metadata, caller, newAuthority, rt) == Err(r.error)
    {
      hide Decode, Encode;
      if At(metadata).owner != Program || At(metadata).data == [] {
        return Err(NotInitialized);
      }
      var record := Decode(At(metadata).data);
      if record.None? {
        return Err(BorshIo);
      }
      var m := record.value;
      var authorised := AuthorityCheck(caller, m);
      if authorised.Fail? {
        return Err(authorised.error);
      }
      if newAuthority in m.updateAuthorities {
        return Err(AuthorityAlreadyExists);
      }
      m := m.(updateAuthorities := m.updateAuthorities + [newAuthority]);
      r := StoreRecord(metadata, m, rt);
    }

    method RemoveAuthority(metadata: Pubkey, caller: Caller, rt: Runtime) returns (r: Result<()>)
      modifies this
      ensures r.Ok? ==> ExecRemoveAuthority(old(Now()), metadata, caller, rt) == Ok(Now())
      ensures r.Err? ==> ExecRemoveAuthority(old(Now()), metadata, caller, rt) == Err(r.error)
    {
      hide Decode, Encode;
      if At(metadata).owner != Program || At(metadata).data == [] {
        return Err(NotInitialized);
      }
      var record := Decode(At(metadata).data);
      if record.None? {
        return Err(BorshIo);
      }
      var m := record.value;
      var authorised := AuthorityCheck(caller, m);
      if authorised.Fail? {
        return Err(authorised.error);
      }
      var index := Position(m.updateAuthorities, caller.Signer().value);
      m := m.(updateAuthorities := SwapRemove(m.updateAuthorities, index));
      r := StoreRecord(metadata, m, rt);
    }

    method CreateShard(shard: Pubkey, caller: Caller, number: byte, rt: Runtime) returns (r: Result<()>)
      modifies this
      ensures r.Ok? ==> ExecCreateShard(chain, old(Now()), shard, caller, number, rt) == Ok(Now())
      ensures r.Err? ==> ExecCreateShard(chain, old(Now()), shard, caller, number, rt) == Err(r.error)
    {
      if At(shard) != Vacancy() {
        return Err(AlreadyInitialized);
      }
      if number >= SHARD_COUNT {
        return Err(InvalidShardAccount);
      }
      if caller.systemProgram != SYSTEM_PROGRAM {
        return Err(InvalidSystemProgram);
      }
      if shard != chain.ShardAddress(number) {
        return Err(DerivedKeyInvalid);
      }
      var serialized := EncodeShard(InscriptionShard(InscriptionShardAccount, chain.ShardBump(number), number, 0));
      r := CreateAccount(shard, |serialized|, rt, Shard(number));
      if r.Err? {
        return;
      }
      ghost var created := Now().Data(shard);
      r := Overwrite(shard, serialized);
      PutTwice(old(Now()), shard, created, serialized);
    }

    method InitializeAssociatedInscription(inscription: Pubkey, metadata: Pubkey, associated: Pubkey, caller: Caller,
                                           tag: Tag, rt: Runtime) returns (r: Result<()>)
      modifies this
      ensures r.Ok? ==>
        ExecInitializeAssociated(chain, old(Now()), inscription, metadata, associated, caller, tag, rt) == Ok(Now())
      ensures r.Err? ==>
        ExecInitializeAssociated(chain, old(Now()), inscription, metadata, associated, caller, tag, rt) == Err(r.error)
    {
      hide Decode, Encode, AuthorityCheck;
      if At(inscription).owner != Program {
        return Err(IncorrectOwner);
      }
      if At(associated) != Vacancy() {
        return Err(AlreadyInitialized);
      }
      if At(metadata).owner != Program || At(metadata).data == [] {
        return Err(NotInitialized);
      }
      var record := Decode(At(metadata).data);
      if record.None? {
        return Err(BorshIo);
      }
      var m := record.value;
      if metadata != chain.MetadataAddress(inscription) {
        return Err(DerivedKeyInvalid);
      }
      var tagged := TagCheck(tag);
      if tagged.Fail? {
        return Err(tagged.error);
      }
      if associated != chain.AssociatedAddress(tag, metadata) {
        return Err(DerivedKeyInvalid);
      }
      var authorised := AuthorityCheck(caller, m);
      if authorised.Fail? {
        return Err(authorised.error);
      }
      r := CreateAccount(associated, 0, rt, AssociatedData(tag, metadata));
      if r.Err? {
        return;
      }
      var entry := AssociatedInscription(tag, chain.AssociatedBump(tag, metadata), DataType.Uninitialized);
      m := m.(associatedInscriptions := m.associatedInscriptions + [entry]);
      r := StoreRecord(metadata, m, rt);
    }

    method SetMint(inscription: Pubkey, metadata: Pubkey, mint: Pubkey, caller: Caller, rt: Runtime)
      returns (r: Result<()>)
      modifies this
      ensures r.Ok? ==> ExecSetMint(chain, old(Now()), inscription, metadata, mint, caller, rt) == Ok(Now())
      ensures r.Err? ==> ExecSetMint(chain, old(Now()), inscription, metadata, mint, caller, rt) == Err(r.error)
    {
      hide Decode, Encode;
      if caller.systemProgram != SYSTEM_PROGRAM {
        return Err(InvalidSystemProgram);
      }
      if At(inscription).owner != Program {
        return Err(NotInitialized);
      }
      if At(metadata).owner != Program || At(metadata).data == [] {
        return Err(NotInitialized);
      }
      if At(mint).owner != Token {
        return Err(IncorrectOwner);
      }
      if inscription != chain.MetadataAddress(mint) || metadata != chain.MetadataAddress(inscription) {
        return Err(DerivedKeyInvalid);
      }
      if caller.payer !in caller.signers {
        return Err(MissingRequiredSignature);
      }
      var record := Decode(At(metadata).data);
      if record.None? {
        return Err(BorshIo);
      }
      var m := record.value;
      if m.key != MintInscriptionMetadataAccount {
        return Err(InvalidInscriptionMetadataAccount);
      }
      m := m.(mint := Some(mint));
      r := StoreRecord(metadata, m, rt);
    }

    // -------------------------------------------------------------- transactions

    /**
      `process_instruction`, inside its transaction: when the processor fails, the runtime puts back whatever
      it had changed.
     */
    method Process(ix: Instruction, rt: Runtime) returns (r: Result<()>)
      modifies this
      ensures Now() == Next(chain, old(Now()), Run(ix, rt))
      ensures r.Ok? ==> Execute(chain, old(Now()), ix, rt) == Ok(Now())
      ensures r.Err? ==> Execute(chain, old(Now()), ix, rt) == Err(r.error) && Now() == old(Now())
      ensures chain.Sound() && old(Inv(chain, Now())) && old(Fair(chain, Now(), Run(ix, rt))) ==> Inv(chain, Now())
    {
      hide ExecInitialize, ExecInitializeFromMint, ExecClose, ExecWriteData, ExecClearData, ExecAllocate,
           ExecAddAuthority, ExecRemoveAuthority, ExecCreateShard, ExecInitializeAssociated, ExecSetMint, Inv, Fair;
      var saved := accounts;
      ghost var before := Now();
      match ix {
        case Initialize(i, m, s, caller) => r := Initialize(i, m, s, caller, rt);
        case InitializeFromMint(i, m, mint, tm, s, caller) => r := InitializeFromMint(i, m, mint, tm, s, caller, rt);
        case Close(i, m, caller, tag) => r := Close(i, m, caller, tag, rt);
        case WriteData(i, m, caller, tag, offset, value) => r := WriteData(i, m, caller, tag, offset, value, rt);
        case ClearData(i, m, caller, tag) => r := ClearData(i, m, caller, tag, rt);
        case AddAuthority(m, caller, k) => r := AddAuthority(m, caller, k, rt);
        case RemoveAuthority(m, caller) => r := RemoveAuthority(m, caller, rt);
        case CreateShard(s, caller, number) => r := CreateShard(s, caller, number, rt);
        case InitializeAssociatedInscription(i, m, a, caller, tag) =>
          r := InitializeAssociatedInscription(i, m, a, caller, tag, rt);
        case Allocate(i, m, caller, tag, size) => r := Allocate(i, m, caller, tag, size, rt);
        case SetMint(i, m, mint, caller) => r := SetMint(i, m, mint, caller, rt);
      }
      if r.Err? {
        accounts := saved;
        roles := before.roles;
        issued := before.issued;
      }
      if chain.Sound() && Inv(chain, before) && Fair(chain, before, Run(ix, rt)) {
        StepInv(chain, before, Run(ix, rt));
      }
    }

    /** Somebody else changes an account that is not the program's, hands it to the program, or drains it. */
    method Interfere(k: Pubkey, account: Option<Account>)
      requires LawfulChange(chain, Now(), k, account)
      modifies this`accounts, this`roles
      ensures Now() == Next(chain, old(Now()), Outside(k, account))
      ensures chain.Sound() && old(Inv(chain, Now())) && old(Fair(chain, Now(), Outside(k, account)))
              ==> Inv(chain, Now())
    {
      hide Inv;
      ghost var before := Now();
      match account {
        case None => accounts := accounts - {k};
        case Some(a) =>
          accounts := accounts[k := a];
          if a.owner == Program {
            roles := roles[k := Handed];
          }
      }
      if chain.Sound() && Inv(chain, before) && Fair(chain, before, Outside(k, account)) {
        StepInv(chain, before, Outside(k, account));
      }
    }
  }

  /** Growing to the end of the write and copying over it is the splice, whatever the new bytes held meanwhile. */
  lemma CopyIsSplice(data: bytes, grown: bytes, offset: nat, value: bytes, rt: Runtime)
    requires grown == if offset + |value| > |data| then Resized(data, offset + |value|, rt) else data
    ensures grown[..offset] + value + grown[offset + |value|..] == Spliced(data, offset, value, rt)
  {
  }

  lemma PutTwice(w: World, k: Pubkey, a: bytes, b: bytes)
    ensures w.Put(k, a).Put(k, b) == w.Put(k, b)
  {
    assert w.Put(k, a).Put(k, b).accounts == w.Put(k, b).accounts;
  }

  /** A shard's record has one size, so the new one fits where the old one was. */
  lemma ShardKeepsSize(b: bytes, s: InscriptionShard)
    requires DecodeShard(b) == Some(s) && s.count + 1 < U64_LIMIT
    ensures |b| == 11 && |EncodeShard(s.(count := s.count + 1))| == 11
  {
    ShardEncodeDecode(b);
    ShardDecodeEncode(s);
    ShardDecodeEncode(s.(count := s.count + 1));
  }
}
