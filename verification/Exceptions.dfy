/** Exactly which accounts of an inscription without authorities can still change. */
module Exceptions {
  import opened Basics
  import opened State
  import opened Codec
  import opened Addresses
  import opened Accounts
  import opened Program
  import opened Invariant
  import opened Preservation
  import opened Frames
  import opened Authority
  import opened Registries
  import opened Success

  /** Some fair step changes account `k`. */
  ghost predicate Changeable(c: Chain, w: World, k: Pubkey) {
    exists step :: Fair(c, w, step) && Next(c, w, step).At(k) != w.At(k)
  }

  lemma ChangeableBy(c: Chain, w: World, k: Pubkey, step: Step)
    requires Fair(c, w, step) && Next(c, w, step).At(k) != w.At(k)
    ensures Changeable(c, w, k)
  {
  }

  // ---------------------------------------------------------------- data accounts

  /** A key that the bytes of an account name as an authority can remove itself from them. */
  lemma RecordLikeDataOpens(c: Chain, w: World, k: Pubkey, signer: Pubkey)
    requires c.Sound() && Inv(c, w) && IsData(w, k) && w.Record(k).Some?
    requires signer in w.Record(k).value.updateAuthorities && !c.derived(signer)
    ensures Changeable(c, w, k)
  {
    hide Decode, Encode, Execute, Inv, SwapRemove;
    var m := w.Record(k).value;
    var caller := Caller(signer, None, {signer}, SYSTEM_PROGRAM);
    var ix, rt := RemoveAuthority(k, caller), Runtime(true, []);
    ImproperSucceedsExactly(c, w, ix, rt);
    var w' := Execute(c, w, ix, rt).value;
    RemovalShrinks(c, w, ix, rt);
    ChangeableBy(c, w, k, Run(ix, rt));
  }

  lemma RemovalShrinks(c: Chain, w: World, ix: Instruction, rt: Runtime)
    requires ix.RemoveAuthority? && Execute(c, w, ix, rt).Ok?
    ensures |Execute(c, w, ix, rt).value.Data(ix.metadata)| == |w.Data(ix.metadata)| - 32
  {
    hide Decode, Encode, SwapRemove;
    var m := w.Record(ix.metadata).value;
    var i := Position(m.updateAuthorities, ix.caller.Signer().value);
    EncodeDecode(w.Data(ix.metadata));
    SwapRemoveSize(m.updateAuthorities, i);
    RecordSize(m);
    RecordSize(m.(updateAuthorities := SwapRemove(m.updateAuthorities, i)));
  }

  /**
    The authority instructions do not ask whether the account they are passed is a metadata account. So a data
    account of an inscription without authorities can change exactly when its bytes pass for a record with an
    authority that can sign.
   */
  lemma FrozenDataChangesExactly(c: Chain, w: World, metadata: Pubkey, k: Pubkey)
    requires c.Sound() && Inv(c, w) && Frozen(w, metadata) && BelongsTo(c, w, k, metadata)
    ensures Changeable(c, w, k) <==> !Sealed(c, w, k)
  {
    hide Decode, Inv, Fair, Next;
    if Sealed(c, w, k) {
      forall step | Fair(c, w, step) ensures Next(c, w, step).At(k) == w.At(k) {
        FrozenDataStep(c, w, step, metadata, k);
      }
    } else {
      var signer :| signer in w.Record(k).value.updateAuthorities && !c.derived(signer);
      RecordLikeDataOpens(c, w, k, signer);
    }
  }

  // ---------------------------------------------------------------- metadata accounts

  /** The metadata account `k` belongs to a mint that is still there, and does not record it yet. */
  ghost predicate AwaitsMint(w: World, k: Pubkey) {
    && k in w.roles && w.roles[k].Metadata? && w.Record(k).Some? && w.Record(k).value.mint == None
    && w.roles[k].inscription in w.roles
    && var role := w.roles[w.roles[k].inscription];
       role.MainData? && role.origin.FromMint? && w.At(role.origin.mint).owner == Token
  }

  lemma MintCanBeRecorded(c: Chain, w: World, k: Pubkey, payer: Pubkey)
    requires c.Sound() && Inv(c, w) && AwaitsMint(w, k) && !c.derived(payer)
    ensures Changeable(c, w, k)
  {
    hide Decode, DecodeShard, Execute, EntryOf, CounterOf, LiveEntries;
    var d := w.roles[k].inscription;
    assert GoodAt(c, w, k);
    assert GoodAt(c, w, d);
    var mint := w.roles[d].origin.mint;
    var ix := SetMint(d, k, mint, Caller(payer, None, {payer}, SYSTEM_PROGRAM));
    var rt := Runtime(true, []);
    EntryFields(c, w, k);
    hide Inv;
    SucceedsExactly(c, w, ix, rt);
    SetMintKeepsRecord(c, w, ix, rt);
    ChangeableBy(c, w, k, Run(ix, rt));
  }

  /** An edit of the record is the only way to change it without an authority: the mint is stored. */
  lemma OnlyTheMint(c: Chain, w: World, step: Step, k: Pubkey)
    requires c.Sound() && Inv(c, w) && Fair(c, w, step)
    requires k in w.roles && w.roles[k].Metadata? && w.Record(k).Some? && w.Record(k).value.updateAuthorities == []
    requires Next(c, w, step).At(k) != w.At(k)
    ensures AwaitsMint(w, k)
  {
    hide Decode, DecodeShard, Execute, AuthorityCheck, Inv, Shape;
    InvCovers(c, w);
    assert w.Owned(k);
    var ix := step.ix;
    NobodyPasses(CallerOf(ix), w.Record(k).value);
    RecordFrame(c, w, ix, step.rt, k);
    SetMintResolves(c, w, ix, step.rt);
    SetMintNeedsToken(c, w, ix, step.rt);
    SetMintKeepsRecord(c, w, ix, step.rt);
    var w' := Next(c, w, step);
    if w.Record(k).value.mint == Some(ix.mint) {
      SameRecordSameBytes(w, w', k);
      StepInv(c, w, step);
      InvCovers(c, w');
      assert false;
    }
  }

  lemma SetMintNeedsToken(c: Chain, w: World, ix: Instruction, rt: Runtime)
    requires ix.SetMint? && Execute(c, w, ix, rt).Ok?
    ensures w.At(ix.mint).owner == Token
  {
    hide Decode, Store;
  }

  /**
    The metadata of an inscription without authorities can change exactly when the mint is not recorded,
    as in a legacy record, and is still there: anyone may then record it.
   */
  lemma FrozenRecordChangesExactly(c: Chain, w: World, k: Pubkey, payer: Pubkey)
    requires c.Sound() && Inv(c, w) && !c.derived(payer)
    requires k in w.roles && w.roles[k].Metadata? && w.Record(k).Some? && w.Record(k).value.updateAuthorities == []
    ensures Changeable(c, w, k) <==> AwaitsMint(w, k)
  {
    hide Decode, Inv, Fair, Next, AwaitsMint;
    if AwaitsMint(w, k) {
      MintCanBeRecorded(c, w, k, payer);
    }
    if Changeable(c, w, k) {
      var step :| Fair(c, w, step) && Next(c, w, step).At(k) != w.At(k);
      OnlyTheMint(c, w, step, k);
    }
  }
}
