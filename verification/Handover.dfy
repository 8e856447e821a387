/** Accounts that others hand to the program: exactly when one of them undoes what the other modules prove. */
module Handovers {
  import opened Basics
  import opened State
  import opened Codec
  import opened Addresses
  import opened Accounts
  import opened Program
  import opened Invariant
  import opened Preservation
  import opened Frames
  import opened Authority
  import opened Lifecycles

  /** Somebody hands account `k`, with `data`, to the program. The runtime sees to no more than this. */
  ghost predicate Handing(c: Chain, w: World, k: Pubkey, data: bytes) {
    LawfulChange(c, w, k, Some(Account(Program, data)))
  }

  function AfterHanding(w: World, k: Pubkey, data: bytes): World {
    w.Outside(k, Some(Account(Program, data)))
  }

  /** What the check of an untagged instruction takes for granted: if both accounts are owned, they are a pair. */
  ghost predicate Paired(c: Chain, w: World) {
    forall d :: c.KnowsMetadata(d) && w.Owned(d) && w.Owned(c.MetadataAddress(d))
      ==> IsMain(w, d) && Serves(w, c.MetadataAddress(d), Metadata(d))
  }

  lemma InvPairs(c: Chain, w: World)
    requires c.Sound() && Inv(c, w)
    ensures Paired(c, w)
  {
    hide Inv;
    forall d | c.KnowsMetadata(d) && w.Owned(d) && w.Owned(c.MetadataAddress(d))
      ensures IsMain(w, d) && Serves(w, c.MetadataAddress(d), Metadata(d))
    {
      MetadataResolves(c, w, d, c.MetadataAddress(d));
    }
  }

  /**
    The exact condition on a key that is handed over: pairs stay pairs, and the invariant holds on, if and only if
    the program has nothing at the key's metadata address. What it can have there is the data of a mint.
   */
  lemma HandoverExactly(c: Chain, w: World, k: Pubkey, data: bytes)
    requires c.Sound() && Inv(c, w) && Handing(c, w, k, data)
    ensures Inv(c, AfterHanding(w, k, data)) <==> NothingBelow(c, w, k)
    ensures Paired(c, AfterHanding(w, k, data)) <==> NothingBelow(c, w, k)
    ensures !NothingBelow(c, w, k) ==> Serves(w, c.MetadataAddress(k), MainData(FromMint(k)))
  {
    hide Inv;
    var w' := AfterHanding(w, k, data);
    if NothingBelow(c, w, k) {
      StepInv(c, w, Outside(k, Some(Account(Program, data))));
      InvPairs(c, w');
    } else {
      WhatLiesBelow(c, w, k);
      assert w'.roles[k] == Role.Handed && w'.Owned(k) && w'.Owned(c.MetadataAddress(k));
      assert !IsMain(w', k);
      if Inv(c, w') {
        InvPairs(c, w');
      }
    }
  }

  /** Below a key that is not the program's, only the data of a mint can lie. */
  lemma WhatLiesBelow(c: Chain, w: World, k: Pubkey)
    requires c.Sound() && Inv(c, w) && c.KnowsMetadata(k) && !w.Owned(k) && w.Owned(c.MetadataAddress(k))
    ensures Serves(w, c.MetadataAddress(k), MainData(FromMint(k)))
    ensures c.MetadataAddress(k) != k
  {
    hide Decode, DecodeShard, LiveEntries;
    AddressesDisjoint(c);
    var j := c.MetadataAddress(k);
    assert j in w.roles;
    assert GoodAt(c, w, j);
    match w.roles[j]
    case Metadata(d) => SameMetadataAddress(c, d, k);
    case MainData(FromMint(mint)) => SameMetadataAddress(c, mint, k);
    case _ =>
  }

  // ---------------------------------------------------------------- immutability

  /** A fair instruction takes account `d` from the program. */
  ghost predicate Closable(c: Chain, w: World, d: Pubkey) {
    exists ix, rt :: Fair(c, w, Run(ix, rt)) && Execute(c, w, ix, rt).Ok? && !Execute(c, w, ix, rt).value.Owned(d)
  }

  /** The bytes of `d` pass for the childless metadata record of `k`, with an authority that can sign. */
  ghost predicate PassesForMetadata(c: Chain, w: World, d: Pubkey, k: Pubkey) {
    && w.Record(d).Some?
    && w.Record(d).value.associatedInscriptions == []
    && w.Record(d).value.bump == c.MetadataBump(k)
    && !Sealed(c, w, d)
  }

  /** A handed key `k` lets one of the signers that `d`'s own bytes name close `d` in place of its metadata. */
  lemma HandedKeyCloses(c: Chain, w: World, k: Pubkey, data: bytes, d: Pubkey, signer: Pubkey, rt: Runtime)
    requires c.Sound() && Inv(c, w) && Handing(c, w, k, data) && c.KnowsMetadata(k)
    requires d == c.MetadataAddress(k) && w.Owned(d) && PassesForMetadata(c, w, d, k)
    requires signer in w.Record(d).value.updateAuthorities && !c.derived(signer)
    ensures var ix := Close(k, d, Caller(signer, None, {signer}, SYSTEM_PROGRAM), None);
            var w' := AfterHanding(w, k, data);
            Fair(c, w', Run(ix, rt)) && Execute(c, w', ix, rt) == Ok(w'.Close(k).Close(d))
  {
    hide Decode, DecodeShard, Inv;
    var w' := AfterHanding(w, k, data);
    assert w'.At(d) == w.At(d);
    EncodeDecode(w.Data(d));
    FixedOffsets(w.Record(d).value);
  }

  lemma ClosePasses(c: Chain, w: World, ix: Instruction, rt: Runtime)
    requires ix.Close? && Execute(c, w, ix, rt).Ok?
    ensures w.Owned(ix.inscription) && w.Record(ix.metadata).Some?
    ensures var m := w.Record(ix.metadata).value;
            && AuthorityCheck(ix.caller, m) == Pass
            && (ix.tag.None? ==> ix.metadata == c.MetadataAddress(ix.inscription)
                                 && m.bump == c.MetadataBump(ix.inscription) && m.associatedInscriptions == [])
            && (ix.tag.Some? ==> ix.inscription == c.AssociatedAddress(ix.tag.value, ix.metadata))
  {
    hide Decode, AuthorityCheck, Without, Store;
  }

  lemma CloseTakesForMetadata(c: Chain, w: World, ix: Instruction, rt: Runtime)
    requires ix.Close? && ix.tag.None? && Fair(c, w, Run(ix, rt)) && Execute(c, w, ix, rt).Ok?
    ensures w.Owned(ix.inscription) && c.KnowsMetadata(ix.inscription)
    ensures ix.metadata == c.MetadataAddress(ix.inscription)
    ensures PassesForMetadata(c, w, ix.metadata, ix.inscription)
  {
    ClosePasses(c, w, ix, rt);
    hide Decode, Execute;
    if Sealed(c, w, ix.metadata) {
      NobodyPassesSealed(c, w, ix, rt, ix.metadata);
    }
  }

  /** Handing a key over changes nothing of a frozen pair. */
  lemma FrozenPairStays(c: Chain, w: World, k: Pubkey, data: bytes, metadata: Pubkey)
    requires Inv(c, w) && Handing(c, w, k, data) && Frozen(w, metadata)
    ensures var d, w' := w.roles[metadata].inscription, AfterHanding(w, k, data);
            && w.Owned(d) && w'.At(d) == w.At(d) && w'.At(metadata) == w.At(metadata)
            && c.KnowsMetadata(d) && metadata == c.MetadataAddress(d)
            && d in w.roles && w.roles[d].MainData? && GoodMainData(c, w, d, w.roles[d].origin)
            && (forall j :: j != k ==> w'.At(j) == w.At(j))
            && RolesCoverOwned(w)
  {
    hide Decode, DecodeShard, LiveEntries;
    assert GoodAt(c, w, metadata);
    assert GoodAt(c, w, w.roles[metadata].inscription);
    assert w.Owned(metadata);
  }

  /** As the account to close, main data is out of reach: its metadata names nobody, and it is nobody's child. */
  lemma NotClosedItself(c: Chain, w: World, k: Pubkey, data: bytes, metadata: Pubkey, ix: Instruction, rt: Runtime)
    requires c.Sound() && Inv(c, w) && Handing(c, w, k, data) && Frozen(w, metadata) && ix.Close?
    requires Fair(c, AfterHanding(w, k, data), Run(ix, rt)) && Execute(c, AfterHanding(w, k, data), ix, rt).Ok?
    ensures ix.inscription != w.roles[metadata].inscription
  {
    FrozenPairStays(c, w, k, data, metadata);
    ClosePasses(c, AfterHanding(w, k, data), ix, rt);
    AddressesDisjoint(c);
    NobodyPasses(ix.caller, w.Record(metadata).value);
    hide *;
    var d := w.roles[metadata].inscription;
    if ix.inscription == d && ix.tag.Some? {
      ChildIsNotMain(c, w, d, ix.tag.value, ix.metadata);
    }
  }

  lemma ChildIsNotMain(c: Chain, w: World, d: Pubkey, t: bytes, p: Pubkey)
    requires c.Sound() && c.KnowsAssociated(t, p) && d in w.roles && w.roles[d].MainData?
    requires GoodMainData(c, w, d, w.roles[d].origin)
    ensures d != c.AssociatedAddress(t, p)
  {
    hide Decode;
    AddressesDisjoint(c);
  }

  /** Main data that lies below an account of the program lies below the key just handed over. */
  lemma LiesBelowHanded(c: Chain, w: World, k: Pubkey, data: bytes, d: Pubkey, i: Pubkey)
    requires c.Sound() && Handing(c, w, k, data) && RolesCoverOwned(w) && d in w.roles && w.roles[d].MainData?
    requires GoodMainData(c, w, d, w.roles[d].origin)
    requires c.KnowsMetadata(i) && d == c.MetadataAddress(i) && AfterHanding(w, k, data).Owned(i)
    ensures i == k
  {
    hide Decode;
    AddressesDisjoint(c);
    SameMetadataAddress(c, i, w.roles[d].origin.mint);
  }

  lemma ClosedThroughHandedKey(c: Chain, w: World, k: Pubkey, data: bytes, metadata: Pubkey, ix: Instruction,
                               rt: Runtime)
    requires c.Sound() && Inv(c, w) && Handing(c, w, k, data) && Frozen(w, metadata)
    requires var w' := AfterHanding(w, k, data);
             && Fair(c, w', Run(ix, rt)) && Execute(c, w', ix, rt).Ok?
             && !Execute(c, w', ix, rt).value.Owned(w.roles[metadata].inscription)
    ensures var d := w.roles[metadata].inscription;
            c.KnowsMetadata(k) && d == c.MetadataAddress(k) && PassesForMetadata(c, w, d, k)
  {
    FrozenPairStays(c, w, k, data, metadata);
    hide Decode, Execute, Inv, Frozen, Handing, AfterHanding, GoodMainData, RolesCoverOwned;
    var d := w.roles[metadata].inscription;
    var w' := AfterHanding(w, k, data);
    OnlyCloseFrees(c, w', ix, rt, d);
    NotClosedItself(c, w, k, data, metadata, ix, rt);
    CloseTakesForMetadata(c, w', ix, rt);
    LiesBelowHanded(c, w, k, data, d, ix.inscription);
    assert PassesForMetadata(c, w', d, k) ==> PassesForMetadata(c, w, d, k);
  }

  /**
    With any key handed over, and whether or not anything lies below it: the main data of an inscription without
    authorities can be closed by the next instruction if and only if the key is the mint it derives from, and its
    bytes pass for that key's metadata. Under the condition of HandoverExactly it cannot. What a
    longer run can do is said by FallsExactly.
   */
  lemma FrozenClosesExactly(c: Chain, w: World, k: Pubkey, data: bytes, metadata: Pubkey)
    requires c.Sound() && Inv(c, w) && Handing(c, w, k, data) && Frozen(w, metadata)
    ensures var d := w.roles[metadata].inscription;
            Closable(c, AfterHanding(w, k, data), d) <==>
              c.KnowsMetadata(k) && d == c.MetadataAddress(k) && PassesForMetadata(c, w, d, k)
    ensures NothingBelow(c, w, k) ==> !Closable(c, AfterHanding(w, k, data), w.roles[metadata].inscription)
  {
    var d := w.roles[metadata].inscription;
    var w' := AfterHanding(w, k, data);
    MainIsOwned(c, w, metadata);
    hide Decode, Inv, Fair, Execute, Handing, AfterHanding, Frozen;
    if c.KnowsMetadata(k) && d == c.MetadataAddress(k) && PassesForMetadata(c, w, d, k) {
      var signer :| signer in w.Record(d).value.updateAuthorities && !c.derived(signer);
      HandedKeyCloses(c, w, k, data, d, signer, Runtime(true, []));
      ClosedIsFree(w'.Close(k), d);
    }
    if Closable(c, w', d) {
      var ix, rt :| Fair(c, w', Run(ix, rt)) && Execute(c, w', ix, rt).Ok? && !Execute(c, w', ix, rt).value.Owned(d);
      ClosedThroughHandedKey(c, w, k, data, metadata, ix, rt);
    }
  }

  lemma MainIsOwned(c: Chain, w: World, metadata: Pubkey)
    requires Inv(c, w) && Frozen(w, metadata)
    ensures w.Owned(w.roles[metadata].inscription)
  {
    hide Decode, DecodeShard, LiveEntries;
    assert GoodAt(c, w, metadata);
  }

  lemma ClosedIsFree(w: World, d: Pubkey)
    ensures !w.Close(d).Owned(d)
  {
  }
}
