/** Authorities: their list is a set, and an inscription that has none left is immutable. */
module Authority {
  import opened Basics
  import opened State
  import opened Codec
  import opened Addresses
  import opened Accounts
  import opened Program
  import opened Invariant
  import opened Placement
  import opened Preservation
  import opened Frames
  import opened Ranks
  import opened Runs

  // ---------------------------------------------------------------- adding and removing

  /** In a metadata account, adding and removing work on the set of authorities: the signer really loses its place. */
  lemma AuthoritiesAreASet(c: Chain, w: World, ix: Instruction, rt: Runtime)
    requires c.Sound() && Inv(c, w) && Execute(c, w, ix, rt).Ok?
    requires ix.AddAuthority? || ix.RemoveAuthority?
    requires ix.metadata in w.roles && w.roles[ix.metadata].Metadata?
    ensures ix.caller.Signer().Ok? && w.Record(ix.metadata).Some?
    ensures Execute(c, w, ix, rt).value.Record(ix.metadata).Some?
    ensures var signer := ix.caller.Signer().value;
            var before := w.Record(ix.metadata).value.updateAuthorities;
            var after := Execute(c, w, ix, rt).value.Record(ix.metadata).value.updateAuthorities;
            && NoDup(before) && NoDup(after) && signer in before
            && (ix.AddAuthority? ==>
                  ix.newAuthority !in before && Elements(after) == Elements(before) + {ix.newAuthority})
            && (ix.RemoveAuthority? ==> signer !in after && Elements(after) == Elements(before) - {signer}
                                        && |after| == |before| - 1)
  {
    hide Decode, DecodeShard, Encode, SwapRemove, LiveEntries;
    assert GoodAt(c, w, ix.metadata);
    var m := w.Record(ix.metadata).value;
    var ks := m.updateAuthorities;
    match ix
    case AddAuthority(_, _, k) =>
      DecodeEncode(m.(updateAuthorities := ks + [k]));
      assert Elements(ks + [k]) == Elements(ks) + {k};
    case RemoveAuthority(_, caller) =>
      var i := Position(ks, caller.Signer().value);
      SwapRemoveNoDup(ks, i);
      RemovedSigner(ks, i);
      DecodeEncode(m.(updateAuthorities := SwapRemove(ks, i)));
  }

  lemma RemovedSigner(ks: seq<Pubkey>, i: nat)
    requires i < |ks| && Elements(SwapRemove(ks, i)) == Elements(ks) - {ks[i]}
    ensures ks[i] !in SwapRemove(ks, i) && |SwapRemove(ks, i)| == |ks| - 1
  {
    assert ks[i] !in Elements(SwapRemove(ks, i));
  }

  /** The first position of a key that was just pushed is the end, where swap-remove merely pops. */
  lemma {:induction false} PushThenSwapRemove(ks: seq<Pubkey>, k: Pubkey)
    requires k !in ks
    ensures Position(ks + [k], k) == |ks| && SwapRemove(ks + [k], |ks|) == ks
  {
    var i := Position(ks + [k], k);
    assert (ks + [k])[..|ks|] == ks;
  }

  /** Whatever the account is: once `k` is added, its removing itself restores every byte of the ledger. */
  lemma AddThenRemoveSelf(c: Chain, w: World, add: Instruction, remove: Instruction, rt: Runtime, rt': Runtime)
    requires add.AddAuthority? && remove.RemoveAuthority? && remove.metadata == add.metadata
    requires Execute(c, w, add, rt).Ok? && remove.caller.Signer() == Ok(add.newAuthority)
    requires Execute(c, Execute(c, w, add, rt).value, remove, rt').Ok?
    ensures Execute(c, Execute(c, w, add, rt).value, remove, rt').value == w
  {
    hide Decode, Encode, SwapRemove, Position;
    var m := w.Record(add.metadata).value;
    EncodeDecode(w.Data(add.metadata));
    DecodeEncode(m.(updateAuthorities := m.updateAuthorities + [add.newAuthority]));
    PushThenSwapRemove(m.updateAuthorities, add.newAuthority);
  }

  // ---------------------------------------------------------------- immutability

  /** A live metadata account without authorities, whose mint, if it has one, is recorded. */
  ghost predicate Frozen(w: World, k: Pubkey) {
    && k in w.roles && w.roles[k].Metadata?
    && w.Record(k).Some? && w.Record(k).value.updateAuthorities == []
    && (w.Record(k).value.key == MintInscriptionMetadataAccount ==> w.Record(k).value.mint.Some?)
  }

  /** Equal records have equal bytes. */
  lemma SameRecordSameBytes(w: World, w': World, k: Pubkey)
    requires w.Record(k).Some? && w'.Record(k) == w.Record(k)
    ensures w'.Data(k) == w.Data(k)
  {
    EncodeDecode(w.Data(k));
    EncodeDecode(w'.Data(k));
  }

  lemma InvCovers(c: Chain, w: World)
    requires Inv(c, w)
    ensures RolesCoverOwned(w)
  {
  }

  /** SetMint stores the mint that the record's data account derives from: if one is recorded, it is that one. */
  lemma SetMintKeepsRecord(c: Chain, w: World, ix: Instruction, rt: Runtime)
    requires c.Sound() && Inv(c, w) && Fair(c, w, Run(ix, rt)) && Execute(c, w, ix, rt).Ok? && ix.SetMint?
    ensures w.Record(ix.metadata).Some?
    ensures var m := w.Record(ix.metadata).value;
            && m.key == MintInscriptionMetadataAccount
            && (m.mint == Some(ix.mint) || (c.legacy && m.mint == None))
            && Execute(c, w, ix, rt).value.Record(ix.metadata) == Some(m.(mint := Some(ix.mint)))
  {
    hide Decode, DecodeShard, Encode, LiveEntries;
    SetMintResolves(c, w, ix, rt);
    assert GoodAt(c, w, ix.metadata);
    DecodeEncode(w.Record(ix.metadata).value.(mint := Some(ix.mint)));
  }

  /** The data accounts of an inscription: the main one, and one for each tag. */
  ghost predicate BelongsTo(c: Chain, w: World, k: Pubkey, metadata: Pubkey) {
    IsData(w, k) && ParentOf(c, w, k) == metadata
  }

  /** A frozen pair with nothing below its metadata, which records the mint that its data derives from, if any. */
  ghost predicate Settled(c: Chain, w: World, k: Pubkey) {
    && k in w.roles && w.roles[k].Metadata? && NothingBelow(c, w, k)
    && w.Record(k).Some? && w.Record(k).value.updateAuthorities == []
    && w.roles[k].inscription in w.roles
    && var role := w.roles[w.roles[k].inscription];
       && role.MainData?
       && (role.origin.FromMint? && w.Record(k).value.key == MintInscriptionMetadataAccount ==>
             w.Record(k).value.mint == Some(role.origin.mint))
  }

  /** A settled pair that nobody can get at: the mint that its data derives from, if any, is not the program's. */
  ghost predicate Secure(c: Chain, w: World, k: Pubkey) {
    && Settled(c, w, k)
    && var role := w.roles[w.roles[k].inscription];
       role.origin.FromMint? ==> !w.Owned(role.origin.mint)
  }

  /** In a world that keeps the invariant, frozen is secure. */
  lemma FrozenIsSecure(c: Chain, w: World, k: Pubkey)
    requires c.Sound() && Inv(c, w) && Frozen(w, k)
    ensures Secure(c, w, k)
  {
    hide Decode, DecodeShard, LiveEntries;
    MetadataUnshadowed(c, w, k);
    assert GoodAt(c, w, k);
    assert GoodAt(c, w, w.roles[k].inscription);
  }

  /** What SetMint is given, by the addresses alone. */
  lemma SetMintPlaced(c: Chain, w: World, ix: Instruction, rt: Runtime, d: Pubkey)
    requires c.Sound() && Placed(c, w) && Lawful(c, w, Run(ix, rt)) && Execute(c, w, ix, rt).Ok? && ix.SetMint?
    requires c.KnowsMetadata(d) && ix.metadata == c.MetadataAddress(d) && d in w.roles && w.roles[d].MainData?
    ensures w.roles[d] == MainData(FromMint(ix.mint))
    ensures w.Record(ix.metadata).Some? && w.Record(ix.metadata).value.key == MintInscriptionMetadataAccount
  {
    hide Decode, DecodeShard, Encode, Store;
    assert c.KnowsMetadata(ix.inscription) && c.KnowsMetadata(ix.mint);
    SameMetadataAddress(c, ix.inscription, d);
    assert PlacedAt(c, w, d);
    AddressesDisjoint(c);
    if w.roles[d].origin.FromMint? {
      SameMetadataAddress(c, w.roles[d].origin.mint, ix.mint);
    }
  }

  lemma SettledPlaces(c: Chain, w: World, k: Pubkey)
    requires Placed(c, w) && Settled(c, w, k)
    ensures var d := w.roles[k].inscription;
            && w.Owned(k) && w.Owned(d) && c.KnowsMetadata(d) && k == c.MetadataAddress(d)
            && PlacedAt(c, w, d) && RolesCoverOwned(w)
  {
    hide Decode, DecodeShard;
    assert PlacedAt(c, w, k);
    assert PlacedAt(c, w, w.roles[k].inscription);
  }

  /** No lawful step changes the metadata of a settled pair. */
  lemma SettledMetadataStays(c: Chain, w: World, step: Step, k: Pubkey)
    requires c.Sound() && Placed(c, w) && Lawful(c, w, step) && Settled(c, w, k)
    ensures SameAt(w, Next(c, w, step), k)
  {
    SettledPlaces(c, w, k);
    assert !Exposed(c, w, k);
    hide Decode, DecodeShard, Execute, AuthorityCheck, Placed, Shape, NothingBelow, Exposed;
    if step.Run? && Execute(c, w, step.ix, step.rt).Ok? {
      var ix, w' := step.ix, Next(c, w, step);
      NobodyPasses(CallerOf(ix), w.Record(k).value);
      PlacedRecordFrame(c, w, ix, step.rt, k);
      if !SameAt(w, w', k) {
        SetMintPlaced(c, w, ix, step.rt, w.roles[k].inscription);
        var m := w.Record(k).value;
        assert m.(mint := Some(ix.mint)) == m;
        SameRecordSameBytes(w, w', k);
        StepPlaced(c, w, step);
        PlacedCovers(c, w');
      }
    }
  }

  /** Data that derives from a mint is taken for metadata only together with that mint. */
  lemma OnlyTheMintIsAbove(c: Chain, w: World, d: Pubkey, i: Pubkey)
    requires c.Sound() && d in w.roles && w.roles[d].MainData? && PlacedAt(c, w, d)
    requires c.KnowsMetadata(i) && d == c.MetadataAddress(i)
    ensures w.roles[d] == MainData(FromMint(i))
  {
    AddressesDisjoint(c);
    if w.roles[d].origin.FromMint? {
      SameMetadataAddress(c, w.roles[d].origin.mint, i);
    }
  }

  /** The main data of a secure pair is not closed. */
  lemma SecureMainStays(c: Chain, w: World, step: Step, k: Pubkey)
    requires c.Sound() && Placed(c, w) && Lawful(c, w, step) && Secure(c, w, k)
    ensures SameRole(w, Next(c, w, step), w.roles[k].inscription)
  {
    SettledPlaces(c, w, k);
    var d, w' := w.roles[k].inscription, Next(c, w, step);
    StepPlaced(c, w, step);
    PlacedCovers(c, w');
    hide Decode, DecodeShard, Execute, AuthorityCheck, Placed, NothingBelow;
    if step.Run? && Execute(c, w, step.ix, step.rt).Ok? {
      var ix := step.ix;
      if !w'.Owned(d) {
        OnlyCloseFrees(c, w, ix, step.rt, d);
        DataPlaced(c, w, ix, step.rt);
        NobodyPasses(ix.caller, w.Record(k).value);
        CloseEffect(c, w, ix, step.rt);
        AddressesDisjoint(c);
        if ix.inscription != d {
          OnlyTheMintIsAbove(c, w, d, ix.inscription);
        }
      } else {
        PlacedCovers(c, w);
        RolesFixed(c, w, ix, step.rt, d);
      }
    }
  }

  /** A mint whose data is the program's becomes the program's own only by being handed over. */
  lemma MintStaysAway(c: Chain, w: World, step: Step, d: Pubkey, x: Pubkey)
    requires c.Sound() && Placed(c, w) && Lawful(c, w, step) && !HandsOver(step, x) && !w.Owned(x)
    requires d in w.roles && w.roles[d] == MainData(FromMint(x))
    ensures !Next(c, w, step).Owned(x)
  {
    PlacedCovers(c, w);
    assert PlacedAt(c, w, d) && w.Owned(d);
    hide Decode, DecodeShard, Execute, Placed, MintsSign;
    if step.Run? && Execute(c, w, step.ix, step.rt).Ok? && Next(c, w, step).Owned(x) {
      NotBornBelow(c, w, step.ix, step.rt, d, x);
    }
  }

  lemma NotBornBelow(c: Chain, w: World, ix: Instruction, rt: Runtime, d: Pubkey, x: Pubkey)
    requires c.Sound() && Placed(c, w) && Lawful(c, w, Run(ix, rt)) && Execute(c, w, ix, rt).Ok?
    requires x !in w.roles && !c.derived(x) && c.KnowsMetadata(x) && d == c.MetadataAddress(x) && w.Owned(d)
    ensures !Execute(c, w, ix, rt).value.Owned(x)
  {
    InstructionShape(c, w, ix, rt);
    var w' := Execute(c, w, ix, rt).value;
    hide Decode, DecodeShard, Execute, Placed, MintsSign;
    if w'.Owned(x) {
      NewcomerPlaced(c, w, ix, rt, x);
      Newcomers(c, w, ix, rt, x);
      AddressesDisjoint(c);
      hide Lawful;
      if Registers(ix) {
        InitializesNewPair(c, w, ix, rt);
      }
    }
  }

  /** Whoever hands its mint over apart, no lawful step takes a secure pair's security, nor changes its metadata. */
  lemma SecureStep(c: Chain, w: World, step: Step, k: Pubkey)
    requires c.Sound() && Placed(c, w) && Lawful(c, w, step) && Secure(c, w, k)
    requires forall x :: w.roles[w.roles[k].inscription] == MainData(FromMint(x)) ==> !HandsOver(step, x)
    ensures Secure(c, Next(c, w, step), k) && SameAt(w, Next(c, w, step), k)
  {
    SettledPlaces(c, w, k);
    SettledMetadataStays(c, w, step, k);
    SecureMainStays(c, w, step, k);
    BelowStaysVacant(c, w, step, k);
    var role := w.roles[w.roles[k].inscription];
    if role.origin.FromMint? {
      MintStaysAway(c, w, step, w.roles[k].inscription, role.origin.mint);
    }
    hide Decode, Next, NothingBelow;
  }

  // ---------------------------------------------------------------- the data of a secure pair

  /** As the data of an instruction, no account of a settled pair is accepted. */
  lemma SettledNotWritten(c: Chain, w: World, ix: Instruction, rt: Runtime, k: Pubkey, j: Pubkey)
    requires c.Sound() && Placed(c, w) && Lawful(c, w, Run(ix, rt)) && Execute(c, w, ix, rt).Ok?
    requires Settled(c, w, k) && BelongsTo(c, w, j, k)
    requires ix.WriteData? || ix.ClearData? || ix.Allocate? || ix.Close?
    requires ix.ClearData? ==> w.Data(ix.inscription) != []
    ensures j != ix.inscription
  {
    SettledPlaces(c, w, k);
    DataPlaced(c, w, ix, rt);
    NobodyPasses(CallerOf(ix), w.Record(k).value);
    assert PlacedAt(c, w, j);
    hide Decode, DecodeShard, Execute, AuthorityCheck, Placed;
    AddressesDisjoint(c);
    if w.roles[j].AssociatedData? {
      NotInscribable(c, 0, w.roles[j].tag, k);
    }
  }

  /** As the metadata of an instruction, an account of a secure pair is accepted only if its bytes pass for a record. */
  lemma SecureNotAbove(c: Chain, w: World, k: Pubkey, j: Pubkey, i: Pubkey)
    requires c.Sound() && Placed(c, w) && Secure(c, w, k) && BelongsTo(c, w, j, k)
    requires c.KnowsMetadata(i) && w.Owned(i)
    ensures j != c.MetadataAddress(i)
  {
    SettledPlaces(c, w, k);
    assert PlacedAt(c, w, j);
    hide Decode, DecodeShard, Placed;
    AddressesDisjoint(c);
    if j == c.MetadataAddress(i) {
      SameMetadataAddress(c, j, w.roles[k].inscription);
      OnlyTheMintIsAbove(c, w, j, i);
    }
  }

  /** An account of a secure pair is untouched, or stays in its role with its bytes rewritten as a record. */
  ghost predicate Resists(c: Chain, w: World, w': World, j: Pubkey) {
    SameAt(w, w', j) || (SameRole(w, w', j) && !Sealed(c, w, j))
  }

  lemma DataInstructionResisted(c: Chain, w: World, ix: Instruction, rt: Runtime, k: Pubkey, j: Pubkey)
    requires c.Sound() && Placed(c, w) && Lawful(c, w, Run(ix, rt)) && Execute(c, w, ix, rt).Ok?
    requires Secure(c, w, k) && BelongsTo(c, w, j, k) && j in Writable(ix)
    requires ix.WriteData? || ix.ClearData? || ix.Allocate? || ix.Close?
    ensures Resists(c, w, Execute(c, w, ix, rt).value, j)
  {
    if ix.ClearData? && w.Data(ix.inscription) == [] {
      NothingToClear(c, w, ix, rt);
    } else {
      hide Execute, Placed, Secure, Lawful, Sealed;
      SettledNotWritten(c, w, ix, rt, k, j);
      if ix.Close? {
        ClosedAboveSecure(c, w, ix, rt, k, j);
      }
    }
  }

  lemma NothingToClear(c: Chain, w: World, ix: Instruction, rt: Runtime)
    requires ix.ClearData? && w.Data(ix.inscription) == [] && Execute(c, w, ix, rt).Ok?
    ensures Execute(c, w, ix, rt).value == w
  {
    hide DataChecks;
  }

  /** What an instruction can do to the data of a secure pair. */
  lemma SecureDataFrame(c: Chain, w: World, ix: Instruction, rt: Runtime, k: Pubkey, j: Pubkey)
    requires c.Sound() && Placed(c, w) && Lawful(c, w, Run(ix, rt)) && Execute(c, w, ix, rt).Ok?
    requires Secure(c, w, k) && BelongsTo(c, w, j, k)
    ensures Resists(c, w, Execute(c, w, ix, rt).value, j)
  {
    PlacedCovers(c, w);
    assert w.Owned(j);
    if j !in Writable(ix) {
      OnlyWritable(c, w, ix, rt, j);
    } else if ix.WriteData? || ix.ClearData? || ix.Allocate? || ix.Close? {
      DataInstructionResisted(c, w, ix, rt, k, j);
    } else if Registers(ix) {
      hide Execute, Secure, Placed;
      var m, s := Registration(c, w, ix, rt);
      InitializesNewPair(c, w, ix, rt);
    } else if ix.AddAuthority? || ix.RemoveAuthority? {
      hide Execute, Secure, Placed;
      AuthorityAboveSecure(c, w, ix, rt);
    } else {
      hide Decode, Encode, Store, Placed, Secure, AuthorityCheck, MintsSign;
      match ix {
        case InitializeAssociatedInscription(i, _, _, _, _) => SecureNotAbove(c, w, k, j, i);
        case SetMint(i, _, _, _) => SecureNotAbove(c, w, k, j, i);
        case CreateShard(_, _, _) =>
      }
    }
  }

  lemma OnlyAChildCloses(c: Chain, w: World, ix: Instruction, rt: Runtime, k: Pubkey, j: Pubkey)
    requires c.Sound() && Placed(c, w) && Lawful(c, w, Run(ix, rt)) && Execute(c, w, ix, rt).Ok? && ix.Close?
    requires Secure(c, w, k) && BelongsTo(c, w, j, k) && j == ix.metadata
    ensures ix.tag.Some?
  {
    if ix.tag.None? {
      DataPlaced(c, w, ix, rt);
      PlacedCovers(c, w);
      hide Execute, Placed, Secure, Lawful;
      SecureNotAbove(c, w, k, j, ix.inscription);
    }
  }

  lemma ClosedAboveSecure(c: Chain, w: World, ix: Instruction, rt: Runtime, k: Pubkey, j: Pubkey)
    requires c.Sound() && Placed(c, w) && Lawful(c, w, Run(ix, rt)) && Execute(c, w, ix, rt).Ok? && ix.Close?
    requires Secure(c, w, k) && BelongsTo(c, w, j, k) && j == ix.metadata && j != ix.inscription
    ensures SameRole(w, Execute(c, w, ix, rt).value, j) && !Sealed(c, w, j)
  {
    hide Execute, Placed, Secure, Lawful, Sealed;
    OnlyAChildCloses(c, w, ix, rt, k, j);
    CloseEffect(c, w, ix, rt);
    ClosingIsSigned(c, w, ix, rt);
  }

  lemma ClosingIsSigned(c: Chain, w: World, ix: Instruction, rt: Runtime)
    requires Lawful(c, w, Run(ix, rt)) && Execute(c, w, ix, rt).Ok? && ix.Close?
    ensures !Sealed(c, w, ix.metadata)
  {
    hide Decode, AuthorityCheck, TargetCheck, Store, Without;
    if Sealed(c, w, ix.metadata) {
      NobodyPassesSealed(c, w, ix, rt, ix.metadata);
    }
  }

  lemma AuthorityAboveSecure(c: Chain, w: World, ix: Instruction, rt: Runtime)
    requires Lawful(c, w, Run(ix, rt)) && Execute(c, w, ix, rt).Ok? && (ix.AddAuthority? || ix.RemoveAuthority?)
    ensures !Sealed(c, w, ix.metadata) && Execute(c, w, ix, rt).value.roles == w.roles
  {
    AuthorityKeepsRoles(c, w, ix, rt);
    hide Decode, Encode, AuthorityCheck, Position, SwapRemove;
    if Sealed(c, w, ix.metadata) {
      NobodyPassesSealed(c, w, ix, rt, ix.metadata);
    }
  }

  /** No lawful step closes a data account of a secure pair, nor changes it if it is sealed. */
  lemma SecureDataStep(c: Chain, w: World, step: Step, metadata: Pubkey, k: Pubkey)
    requires c.Sound() && Placed(c, w) && Lawful(c, w, step) && Secure(c, w, metadata) && BelongsTo(c, w, k, metadata)
    ensures BelongsTo(c, Next(c, w, step), k, metadata)
    ensures Sealed(c, w, k) ==> Next(c, w, step).At(k) == w.At(k)
  {
    PlacedCovers(c, w);
    hide Decode, DecodeShard, Execute, Placed, Secure;
    assert w.Owned(k);
    if step.Run? && Execute(c, w, step.ix, step.rt).Ok? {
      SecureDataFrame(c, w, step.ix, step.rt, metadata, k);
    }
  }

  /** No step hands over the mint that the data of metadata account `k` derives from. */
  ghost predicate MintKeptBack(w: World, steps: seq<Step>, k: Pubkey)
    requires k in w.roles && w.roles[k].Metadata? && w.roles[k].inscription in w.roles
  {
    forall s, x :: s in steps && w.roles[w.roles[k].inscription] == MainData(FromMint(x)) ==> !HandsOver(s, x)
  }

  /**
    Once an inscription has no authority left, no lawful continuation of the run changes its metadata or closes any
    of its accounts, and each data account keeps its bytes if it is sealed, as it is when they do not parse as a
    record. Whatever keys others hand over does not matter, its own mint excepted.
   */
  lemma {:induction false} ImmutableForever(c: Chain, w: World, steps: seq<Step>, metadata: Pubkey)
    requires c.Sound() && Placed(c, w) && LawfulRun(c, w, steps) && Secure(c, w, metadata)
    requires MintKeptBack(w, steps, metadata)
    ensures var w' := After(c, w, steps);
            && Secure(c, w', metadata) && SameAt(w, w', metadata)
            && forall k :: BelongsTo(c, w, k, metadata) ==>
                 && BelongsTo(c, w', k, metadata)
                 && (Sealed(c, w, k) ==> w'.At(k) == w.At(k))
    decreases |steps|
  {
    if steps != [] {
      var w1 := Next(c, w, steps[0]);
      assert steps[0] in steps && forall s :: s in steps[1..] ==> s in steps;
      StepPlaced(c, w, steps[0]);
      SecureStep(c, w, steps[0], metadata);
      SecureMainStays(c, w, steps[0], metadata);
      hide Decode, DecodeShard, Placed, Secure, Lawful, Next;
      assert MintKeptBack(w1, steps[1..], metadata);
      ImmutableForever(c, w1, steps[1..], metadata);
      forall k | BelongsTo(c, w, k, metadata)
        ensures BelongsTo(c, w1, k, metadata) && (Sealed(c, w, k) ==> w1.At(k) == w.At(k))
      {
        SecureDataStep(c, w, steps[0], metadata, k);
      }
    }
  }

  /** In fair runs it goes without saying that the mint is kept back. */
  lemma {:induction false} FairlyKeptBack(c: Chain, w: World, steps: seq<Step>, k: Pubkey)
    requires c.Sound() && Inv(c, w) && FairRun(c, w, steps) && Secure(c, w, k)
    ensures MintKeptBack(w, steps, k)
    decreases |steps|
  {
    if steps != [] {
      var w1 := Next(c, w, steps[0]);
      InvPlaced(c, w);
      SettledPlaces(c, w, k);
      assert forall x :: w.roles[w.roles[k].inscription] == MainData(FromMint(x)) ==> !HandsOver(steps[0], x);
      SecureStep(c, w, steps[0], k);
      SecureMainStays(c, w, steps[0], k);
      StepInv(c, w, steps[0]);
      hide Decode, Inv, Placed, Secure, Fair, Next;
      FairlyKeptBack(c, w1, steps[1..], k);
      assert forall s :: s in steps ==> s == steps[0] || s in steps[1..];
    }
  }

  // ---------------------------------------------------------------- the same in fair runs

  /** No fair step closes a data account of a frozen inscription, nor changes it if it is sealed. */
  lemma FrozenDataStep(c: Chain, w: World, step: Step, metadata: Pubkey, k: Pubkey)
    requires c.Sound() && Inv(c, w) && Fair(c, w, step) && Frozen(w, metadata) && BelongsTo(c, w, k, metadata)
    ensures BelongsTo(c, Next(c, w, step), k, metadata)
    ensures Sealed(c, w, k) ==> Next(c, w, step).At(k) == w.At(k)
  {
    hide Decode, Inv, Secure, Frozen, Next;
    InvPlaced(c, w);
    FrozenIsSecure(c, w, metadata);
    SecureDataStep(c, w, step, metadata, k);
  }

  /** Where no legacy record can be, an empty list of authorities is all it takes. */
  lemma EmptyListFreezes(c: Chain, w: World, k: Pubkey)
    requires Inv(c, w) && !c.legacy && k in w.roles && w.roles[k].Metadata?
    requires w.Record(k).Some? && w.Record(k).value.updateAuthorities == []
    ensures Frozen(w, k)
  {
    hide Decode, DecodeShard, LiveEntries;
    assert GoodAt(c, w, k);
  }

  // ---------------------------------------------------------------- recording the mint

  /** Without legacy records, SetMint, which anyone may send, changes nothing at all. */
  lemma SetMintIsIdentity(c: Chain, w: World, ix: Instruction, rt: Runtime)
    requires c.Sound() && Inv(c, w) && Fair(c, w, Run(ix, rt)) && Execute(c, w, ix, rt).Ok? && ix.SetMint?
    requires !c.legacy
    ensures Execute(c, w, ix, rt).value == w
  {
    hide Decode, Encode, DecodeShard, Inv;
    SetMintKeepsRecord(c, w, ix, rt);
    EncodeDecode(w.Data(ix.metadata));
    var m := w.Record(ix.metadata).value;
    assert m.(mint := Some(ix.mint)) == m;
  }

  /** Every recorded mint, over any run and from legacy records too, is the one the data account derives from. */
  lemma RecordedMintIsTheMint(c: Chain, w: World, steps: seq<Step>, k: Pubkey)
    requires c.Sound() && Inv(c, w) && FairRun(c, w, steps)
    requires var w' := After(c, w, steps); k in w'.roles && w'.roles[k].Metadata?
    ensures var w' := After(c, w, steps);
            var d := w'.roles[k].inscription;
            && w'.Record(k).Some? && w'.Record(k).value.inscriptionAccount == d
            && (w'.Record(k).value.mint.Some? ==>
                  d in w'.roles && w'.roles[d] == MainData(FromMint(w'.Record(k).value.mint.value))
                  && d == c.MetadataAddress(w'.Record(k).value.mint.value))
  {
    hide Decode, DecodeShard, After, FairRun, LiveEntries;
    RunInv(c, w, steps);
    var w' := After(c, w, steps);
    assert GoodAt(c, w', k);
    assert GoodAt(c, w', w'.roles[k].inscription);
  }
}
