/** What lawful runs can do once a key is handed over: exactly when a rank changes, a record changes, or data falls. */
module Exposure {
  import opened Basics
  import opened State
  import opened Codec
  import opened Layout
  import opened Addresses
  import opened Accounts
  import opened Program
  import opened Invariant
  import opened Placement
  import opened Frames
  import opened Ranks
  import opened Authority
  import opened Success

  // ---------------------------------------------------------------- ranks

  /** The metadata account `k` lives on, but no longer with the rank it had. */
  ghost predicate RankLost(w: World, w': World, k: Pubkey) {
    k in w'.roles && !(w'.Record(k).Some? && RankAt(w', k) == RankAt(w, k))
  }

  lemma MiddleSpliced(a: bytes, b: bytes, b': bytes, c: bytes, rt: Runtime)
    requires |b| == |b'|
    ensures Spliced(a + b + c, |a|, b', rt) == a + b' + c
  {
  }

  /** The bytes of a record with another rank in the place of its own. */
  lemma RankSpliced(m: InscriptionMetadata, rank: u64, rt: Runtime)
    ensures |Encode(m)| >= 60
    ensures Spliced(Encode(m), 35, ToLe(rank, 8), rt) == Encode(m.(inscriptionRank := rank))
  {
    FixedOffsets(m);
    RankInTheMiddle(m);
    RankInTheMiddle(m.(inscriptionRank := rank));
    assert EncodeTail(m.(inscriptionRank := rank)) == EncodeTail(m) && Head(m.(inscriptionRank := rank)) == Head(m);
    hide *;
    MiddleSpliced(Head(m), ToLe(m.inscriptionRank, 8), ToLe(rank, 8), EncodeTail(m), rt);
  }

  function Alone(signer: Pubkey): Caller {
    Caller(signer, None, {signer}, SYSTEM_PROGRAM)
  }

  /** A write to the metadata account `k` by an authority of the record below it. */
  function Overwriting(c: Chain, k: Pubkey, signer: Pubkey, offset: u64, value: bytes): Instruction {
    WriteData(k, c.MetadataAddress(k), Alone(signer), None, offset, value)
  }

  lemma AlonePasses(c: Chain, signer: Pubkey, m: InscriptionMetadata)
    requires signer in m.updateAuthorities && !c.derived(signer)
    ensures AuthorityCheck(Alone(signer), m) == Pass && Alone(signer).Signer() == Ok(signer)
    ensures forall k :: k in Alone(signer).signers ==> !c.derived(k)
  {
  }

  lemma ExposedChecks(c: Chain, w: World, k: Pubkey, signer: Pubkey)
    requires w.Owned(k) && Exposed(c, w, k)
    requires signer in w.Record(c.MetadataAddress(k)).value.updateAuthorities && !c.derived(signer)
    ensures DataChecks(c, w, k, c.MetadataAddress(k), Alone(signer), None) == Pass
    ensures w.Data(c.MetadataAddress(k)) != []
  {
    var below := c.MetadataAddress(k);
    EncodeDecode(w.Data(below));
    FixedOffsets(w.Record(below).value);
    AlonePasses(c, signer, w.Record(below).value);
    hide Decode, Encode, AuthorityCheck;
  }

  lemma ExposedWritten(c: Chain, w: World, k: Pubkey, signer: Pubkey, offset: u64, value: bytes, rt: Runtime)
    requires w.Owned(k) && Exposed(c, w, k) && offset + |value| <= |w.Data(k)| && offset + |value| < U64_LIMIT
    requires signer in w.Record(c.MetadataAddress(k)).value.updateAuthorities && !c.derived(signer)
    ensures var ix := Overwriting(c, k, signer, offset, value);
            && Lawful(c, w, Run(ix, rt))
            && Execute(c, w, ix, rt) == Ok(w.Put(k, Spliced(w.Data(k), offset, value, rt)))
  {
    ExposedChecks(c, w, k, signer);
    hide DataChecks, Decode, Spliced, Sealed;
  }

  /** Whoever the record below names can write any rank into an exposed record. */
  lemma ExposedRankWritten(c: Chain, w: World, k: Pubkey, signer: Pubkey, rank: u64, rt: Runtime)
    requires w.Owned(k) && Exposed(c, w, k) && w.Record(k).Some?
    requires signer in w.Record(c.MetadataAddress(k)).value.updateAuthorities && !c.derived(signer)
    ensures var ix := Overwriting(c, k, signer, 35, ToLe(rank, 8));
            var w' := Next(c, w, Run(ix, rt));
            && Lawful(c, w, Run(ix, rt)) && Execute(c, w, ix, rt) == Ok(w')
            && w' == w.Put(k, Encode(w.Record(k).value.(inscriptionRank := rank)))
            && w'.Record(k) == Some(w.Record(k).value.(inscriptionRank := rank))
  {
    var m := w.Record(k).value;
    EncodeDecode(w.Data(k));
    RankSpliced(m, rank, rt);
    DecodeEncode(m.(inscriptionRank := rank));
    hide Decode, Encode, Spliced, ToLe, Exposed, Execute, Lawful;
    ExposedWritten(c, w, k, signer, 35, ToLe(rank, 8), rt);
  }

  /** A metadata account that nobody can pass for data keeps its rank at every step. */
  lemma UnexposedRankKept(c: Chain, w: World, step: Step, k: Pubkey)
    requires c.Sound() && Placed(c, w) && Lawful(c, w, step) && k in w.roles && w.roles[k].Metadata?
    requires w.Record(k).Some? && !Exposed(c, w, k)
    ensures !RankLost(w, Next(c, w, step), k)
  {
    PlacedCovers(c, w);
    assert w.Owned(k);
    hide Decode, Execute, Placed, Exposed, AuthorityCheck;
    if step.Run? && Execute(c, w, step.ix, step.rt).Ok? {
      PlacedRecordFrame(c, w, step.ix, step.rt, k);
    }
  }

  /** Some lawful step takes the rank of the metadata account `k`, which lives on. */
  ghost predicate RankChangeable(c: Chain, w: World, k: Pubkey) {
    exists step :: Lawful(c, w, step) && RankLost(w, Next(c, w, step), k)
  }

  /**
    The exact condition: the rank of a metadata account can change if and only if the program owns the account below
    it, and the record there is its record by the bump, with an authority that can sign. By RankForLife it cannot in
    the lifetime of an inscription that began with nothing below.
   */
  lemma RankChangesExactly(c: Chain, w: World, k: Pubkey)
    requires c.Sound() && Placed(c, w) && k in w.roles && w.roles[k].Metadata? && w.Record(k).Some?
    ensures RankChangeable(c, w, k) <==> Exposed(c, w, k)
  {
    PlacedCovers(c, w);
    if Exposed(c, w, k) {
      ExposedRankLost(c, w, k);
    } else {
      hide Decode, Placed, Exposed, Lawful, Next, RankLost;
      forall step | Lawful(c, w, step) ensures !RankLost(w, Next(c, w, step), k) {
        UnexposedRankKept(c, w, step, k);
      }
    }
  }

  lemma ExposedRankLost(c: Chain, w: World, k: Pubkey)
    requires w.Owned(k) && k in w.roles && Exposed(c, w, k) && w.Record(k).Some?
    ensures RankChangeable(c, w, k)
  {
    var signer :| signer in w.Record(c.MetadataAddress(k)).value.updateAuthorities && !c.derived(signer);
    var rank: u64 := if RankAt(w, k) == 0 then 1 else 0;
    var step := Run(Overwriting(c, k, signer, 35, ToLe(rank, 8)), Runtime(true, []));
    ExposedRankWritten(c, w, k, signer, rank, Runtime(true, []));
    hide Decode, Encode, Next, Lawful, Exposed;
    assert RankLost(w, Next(c, w, step), k);
  }

  // ---------------------------------------------------------------- records without authorities

  /** Some lawful step changes the bytes of account `k`, which stays the program's. */
  ghost predicate Alterable(c: Chain, w: World, k: Pubkey) {
    exists step :: Lawful(c, w, step) && k in Next(c, w, step).roles && Next(c, w, step).At(k) != w.At(k)
  }

  lemma AlterableBy(c: Chain, w: World, k: Pubkey, step: Step)
    requires Lawful(c, w, step) && k in Next(c, w, step).roles && Next(c, w, step).At(k) != w.At(k)
    ensures Alterable(c, w, k)
  {
  }

  /** The record of the metadata account `k` of `d` lacks the mint `x` that `d` derives from, and that is there. */
  ghost predicate Lacks(c: Chain, w: World, k: Pubkey, d: Pubkey, x: Pubkey) {
    && c.KnowsMetadata(x) && d == c.MetadataAddress(x) && w.Owned(d) && w.At(x).owner == Token
    && w.Record(k).Some? && w.Record(k).value.key == MintInscriptionMetadataAccount
    && w.Record(k).value.mint != Some(x)
  }

  lemma MintFits(w: World, k: Pubkey, m: InscriptionMetadata, x: Pubkey)
    requires w.Record(k) == Some(m)
    ensures var m' := m.(mint := Some(x)); Store(w, k, m', Runtime(true, [])) == Ok(w.Put(k, Encode(m')))
    ensures w.Data(k) != []
  {
    var m' := m.(mint := Some(x));
    EncodeDecode(w.Data(k));
    FixedOffsets(m);
    RecordSize(m);
    RecordSize(m');
    hide Encode, Decode, Store;
    StoreSucceeds(w, k, m, m', Runtime(true, []));
  }

  lemma LackingMintStored(c: Chain, w: World, k: Pubkey, d: Pubkey, x: Pubkey, payer: Pubkey)
    requires w.Owned(k) && c.KnowsMetadata(d) && k == c.MetadataAddress(d) && Lacks(c, w, k, d, x)
    requires !c.derived(payer)
    ensures var ix, rt := SetMint(d, k, x, Alone(payer)), Runtime(true, []);
            && Lawful(c, w, Run(ix, rt))
            && Execute(c, w, ix, rt) == Ok(w.Put(k, Encode(w.Record(k).value.(mint := Some(x)))))
  {
    hide Decode, Encode, Store;
    MintFits(w, k, w.Record(k).value, x);
  }

  lemma OnlySetMint(c: Chain, w: World, step: Step, k: Pubkey)
    requires c.Sound() && Placed(c, w) && Lawful(c, w, step) && k in w.roles && w.roles[k].Metadata?
    requires w.Record(k).Some? && w.Record(k).value.updateAuthorities == [] && !Exposed(c, w, k)
    requires k in Next(c, w, step).roles && Next(c, w, step).At(k) != w.At(k)
    ensures step.Run? && step.ix.SetMint? && step.ix.metadata == k && Execute(c, w, step.ix, step.rt).Ok?
    ensures Next(c, w, step).Record(k) == Some(w.Record(k).value.(mint := Some(step.ix.mint)))
  {
    PlacedCovers(c, w);
    assert w.Owned(k);
    hide Decode, Execute, Placed, Exposed, AuthorityCheck, MintsSign;
    NobodyPasses(CallerOf(step.ix), w.Record(k).value);
    PlacedRecordFrame(c, w, step.ix, step.rt, k);
  }

  lemma OnlyTheLackingMint(c: Chain, w: World, step: Step, k: Pubkey)
    requires c.Sound() && Placed(c, w) && Lawful(c, w, step) && k in w.roles && w.roles[k].Metadata?
    requires w.Record(k).Some? && w.Record(k).value.updateAuthorities == [] && !Exposed(c, w, k)
    requires k in Next(c, w, step).roles && Next(c, w, step).At(k) != w.At(k)
    ensures exists x :: Lacks(c, w, k, w.roles[k].inscription, x)
  {
    OnlySetMint(c, w, step, k);
    var ix, w' := step.ix, Next(c, w, step);
    SetMintChecks(c, w, ix, step.rt);
    StepPlaced(c, w, step);
    assert PlacedAt(c, w, k);
    PlacedCovers(c, w);
    PlacedCovers(c, w');
    assert w.Owned(k) && w'.Owned(k);
    hide Decode, Execute, Placed, Exposed, Lawful, Next, MintsSign;
    SameMetadataAddress(c, ix.inscription, w.roles[k].inscription);
    if w.Record(k).value.mint == Some(ix.mint) {
      assert w.Record(k).value.(mint := Some(ix.mint)) == w.Record(k).value;
      SameRecordSameBytes(w, w', k);
      assert false;
    }
    assert Lacks(c, w, k, w.roles[k].inscription, ix.mint);
  }

  lemma SetMintChecks(c: Chain, w: World, ix: Instruction, rt: Runtime)
    requires ix.SetMint? && Lawful(c, w, Run(ix, rt)) && Execute(c, w, ix, rt).Ok?
    ensures w.Owned(ix.inscription) && c.KnowsMetadata(ix.inscription) && c.KnowsMetadata(ix.mint)
    ensures ix.metadata == c.MetadataAddress(ix.inscription) && ix.inscription == c.MetadataAddress(ix.mint)
    ensures w.At(ix.mint).owner == Token
    ensures w.Record(ix.metadata).Some? && w.Record(ix.metadata).value.key == MintInscriptionMetadataAccount
  {
    hide Decode, Store;
  }

  /**
    In any lawful run: a live record without authorities can change if and only if it can be passed for data, or lacks
    the mint that its data derives from, which is there.
   */
  lemma RecordChangesExactly(c: Chain, w: World, k: Pubkey, payer: Pubkey)
    requires c.Sound() && Placed(c, w) && k in w.roles && w.roles[k].Metadata? && !c.derived(payer)
    requires w.Record(k).Some? && w.Record(k).value.updateAuthorities == []
    ensures Alterable(c, w, k) <==> Exposed(c, w, k) || exists x :: Lacks(c, w, k, w.roles[k].inscription, x)
  {
    PlacedCovers(c, w);
    assert w.Owned(k) && PlacedAt(c, w, k);
    hide Decode, Encode, Execute, Placed;
    if Exposed(c, w, k) {
      ExposedAlterable(c, w, k);
    } else if x :| Lacks(c, w, k, w.roles[k].inscription, x) {
      LackingAlterable(c, w, k, w.roles[k].inscription, x, payer);
    }
    hide Lacks, Lawful, Next, Exposed;
    if Alterable(c, w, k) && !Exposed(c, w, k) {
      var step :| Lawful(c, w, step) && k in Next(c, w, step).roles && Next(c, w, step).At(k) != w.At(k);
      OnlyTheLackingMint(c, w, step, k);
    }
  }

  lemma ExposedAlterable(c: Chain, w: World, k: Pubkey)
    requires w.Owned(k) && k in w.roles && Exposed(c, w, k) && w.Record(k).Some?
    ensures Alterable(c, w, k)
  {
    var signer :| signer in w.Record(c.MetadataAddress(k)).value.updateAuthorities && !c.derived(signer);
    var rank: u64 := if RankAt(w, k) == 0 then 1 else 0;
    var step := Run(Overwriting(c, k, signer, 35, ToLe(rank, 8)), Runtime(true, []));
    ExposedRankWritten(c, w, k, signer, rank, Runtime(true, []));
    hide Decode, Encode, Next, Lawful, Exposed;
    AlterableBy(c, w, k, step);
  }

  lemma LackingAlterable(c: Chain, w: World, k: Pubkey, d: Pubkey, x: Pubkey, payer: Pubkey)
    requires w.Owned(k) && k in w.roles && c.KnowsMetadata(d) && k == c.MetadataAddress(d) && Lacks(c, w, k, d, x)
    requires !c.derived(payer)
    ensures Alterable(c, w, k)
  {
    var m' := w.Record(k).value.(mint := Some(x));
    LackingMintStored(c, w, k, d, x, payer);
    EncodeDecode(w.Data(k));
    DecodeEncode(m');
    hide Decode, Encode, Lawful, Execute;
    AlterableBy(c, w, k, Run(SetMint(d, k, x, Alone(payer)), Runtime(true, [])));
  }
}
