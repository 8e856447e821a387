/** Lawful runs that the conditions on handing over rule out, and what they lead to. */
module Shadows {
  import opened Basics
  import opened State
  import opened Codec
  import opened Addresses
  import opened Accounts
  import opened Program
  import opened Invariant
  import opened Placement
  import opened Frames
  import opened Ranks
  import opened Lifecycles
  import opened Authority
  import opened Success
  import opened Handovers
  import opened Exposure
  import opened Collapse
  import opened Witnesses

  // ---------------------------------------------------------------- a listed entry is no protection

  /** The bait for the mint, with an entry in its list. */
  function ListedBait(c: Chain, s: Cast): InscriptionMetadata {
    Bait(c, s, s.mint).(associatedInscriptions := [Entry(c, c.MetadataAddress(s.mint), s.tag)])
  }

  lemma ListedBaitBaits(c: Chain, s: Cast)
    requires Staged(c, s)
    ensures Baits(s, ListedBait(c, s))
    ensures Emptiable(c, c.MetadataAddress(s.mint), ListedBait(c, s).associatedInscriptions)
  {
    RecordSize(ListedBait(c, s));
    assert [] + [Entry(c, c.MetadataAddress(s.mint), s.tag)] == [Entry(c, c.MetadataAddress(s.mint), s.tag)];
    MoreSize([], Entry(c, c.MetadataAddress(s.mint), s.tag));
    assert EncodeAssociations([]) == [];
    hide Encode;
  }

  /**
    An inscription without authorities, reached from an empty ledger, whose data lists a child that does not exist. Once
    its mint is handed over, no next instruction can close the data; but a run of several can.
   */
  lemma ListedEntryFalls(c: Chain, s: Cast) returns (w: World)
    requires Staged(c, s)
    ensures var d := c.MetadataAddress(s.mint);
            && Reachable(c, w) && Frozen(w, c.MetadataAddress(d)) && w.roles[c.MetadataAddress(d)] == Metadata(d)
            && Handing(c, w, s.mint, []) && !Closable(c, AfterHanding(w, s.mint, []), d)
            && Falls(c, w, d)
  {
    hide Decode, DecodeShard, Execute, Reachable, Inv, Ranked, Fair, Closable, Falls, Emptiable;
    var d := c.MetadataAddress(s.mint);
    var k := c.MetadataAddress(d);
    var w1 := MintInscribed(c, s);
    MintApart(c, s);
    ListedBaitBaits(c, s);
    w := BaitedAndFrozen(c, s, w1, d, k, FreshRecord(c, d, s.payer, FromMint(s.mint), 0), ListedBait(c, s));
    ReachableHolds(c, w);
    OwnedHasRole(c, w);
    assert w.At(s.mint) == w1.At(s.mint);
    FrozenClosesExactly(c, w, s.mint, [], k);
    FallsExactly(c, w, k);
  }

  // ---------------------------------------------------------------- a shadowed inscription

  /** The metadata of the mint's inscription, as it was made, and the shard that counted it. */
  ghost predicate MintMetadata(c: Chain, s: Cast, w: World) {
    var d := c.MetadataAddress(s.mint);
    var k := c.MetadataAddress(d);
    && CountsTo(c, w, 0, 1)
    && k in w.roles && w.roles[k] == Metadata(d)
    && w.Record(k) == Some(FreshRecord(c, d, s.payer, FromMint(s.mint), 0))
  }

  /** The mint is inscribed, and its data baited by the payer, who keeps its authority. */
  lemma BaitedMint(c: Chain, s: Cast) returns (w: World)
    requires Staged(c, s)
    ensures var d := c.MetadataAddress(s.mint);
            && Reachable(c, w) && w.At(s.mint).owner == Token && MintMetadata(c, s, w)
            && d in w.roles && w.roles[d] == MainData(FromMint(s.mint)) && w.Record(d) == Some(Bait(c, s, s.mint))
  {
    hide Decode, DecodeShard, Execute, Reachable, Placed, FreshRecord;
    var d := c.MetadataAddress(s.mint);
    var k := c.MetadataAddress(d);
    var w1 := MintInscribed(c, s);
    MintApart(c, s);
    BaitBaits(c, s, s.mint);
    ReachableIsPlaced(c, w1);
    BaitWritten(c, s, w1, d, k, FreshRecord(c, d, s.payer, FromMint(s.mint), 0), Bait(c, s, s.mint));
    var write := Run(WriteData(d, k, By(s), None, 0, Encode(Bait(c, s, s.mint))), GRANT);
    ReachableNext(c, w1, write);
    w := Next(c, w1, write);
    DecodeEncode(Bait(c, s, s.mint));
    assert w == w1.Put(d, Encode(Bait(c, s, s.mint)));
  }

  /** The mint is closed by its own program. */
  lemma BaitedMintDrained(c: Chain, s: Cast) returns (w: World)
    requires Staged(c, s)
    ensures var d := c.MetadataAddress(s.mint);
            && Reachable(c, w) && Handing(c, w, s.mint, []) && MintMetadata(c, s, w)
            && d in w.roles && w.roles[d] == MainData(FromMint(s.mint)) && w.Record(d) == Some(Bait(c, s, s.mint))
  {
    hide Decode, DecodeShard, Execute, Reachable, Fair, FreshRecord;
    var d := c.MetadataAddress(s.mint);
    var k := c.MetadataAddress(d);
    var w1 := BaitedMint(c, s);
    MintApart(c, s);
    MintDrained(c, s, w1);
    ReachableNext(c, w1, Outside(s.mint, None));
    w := Next(c, w1, Outside(s.mint, None));
    assert w.At(d) == w1.At(d) && w.At(k) == w1.At(k) && w.At(c.ShardAddress(0)) == w1.At(c.ShardAddress(0));
  }

  /** One hands over the key, and one whom the bait names closes the data in place of its metadata. */
  lemma HandedAndClosed(c: Chain, w: World, x: Pubkey, d: Pubkey, signer: Pubkey)
    requires c.Sound() && Reachable(c, w) && Handing(c, w, x, []) && c.KnowsMetadata(x) && d == c.MetadataAddress(x)
    requires w.Owned(d) && PassesForMetadata(c, w, d, x)
    requires signer in w.Record(d).value.updateAuthorities && !c.derived(signer)
    ensures LawfullyReachable(c, AfterHanding(w, x, []).Close(x).Close(d))
  {
    hide Decode, Reachable, LawfullyReachable, Inv, Ranked, PassesForMetadata;
    ReachableHolds(c, w);
    HandedKeyCloses(c, w, x, [], d, signer, GRANT);
    ReachableLawfully(c, w);
    LawfullyReachableNext(c, w, Outside(x, Some(Account(Program, []))));
    hide Execute, Fair;
    var w1 := AfterHanding(w, x, []);
    var close := Run(Close(x, d, Caller(signer, None, {signer}, SYSTEM_PROGRAM), None), GRANT);
    FairStepIsLawful(c, w1, close);
    LawfullyReachableNext(c, w1, close);
  }

  lemma WithoutPair(c: Chain, s: Cast, w: World)
    requires Staged(c, s) && MintMetadata(c, s, w)
    ensures var d := c.MetadataAddress(s.mint);
            var w' := AfterHanding(w, s.mint, []).Close(s.mint).Close(d);
            w'.Vacant(s.mint) && w'.Vacant(d) && MintMetadata(c, s, w')
  {
    MintApart(c, s);
    hide Decode, DecodeShard, FreshRecord, Staged;
    var d := c.MetadataAddress(s.mint);
    var w' := AfterHanding(w, s.mint, []).Close(s.mint).Close(d);
    assert w'.At(c.MetadataAddress(d)) == w.At(c.MetadataAddress(d));
    assert w'.At(c.ShardAddress(0)) == w.At(c.ShardAddress(0));
  }

  /** The mint's key is handed over, and the data closed in place of its metadata. */
  lemma MintPairClosed(c: Chain, s: Cast) returns (w: World)
    requires Staged(c, s)
    ensures var d := c.MetadataAddress(s.mint);
            LawfullyReachable(c, w) && MintMetadata(c, s, w) && w.Vacant(s.mint) && w.Vacant(d)
  {
    var d := c.MetadataAddress(s.mint);
    MintApart(c, s);
    PayerSigns(c, s);
    hide Decode, DecodeShard, Reachable, LawfullyReachable, Inv, Ranked, MintMetadata, Handing;
    var w2 := BaitedMintDrained(c, s);
    ReachableHolds(c, w2);
    OwnedHasRole(c, w2);
    BaitPasses(c, s, w2, d);
    WithoutPair(c, s, w2);
    hide Staged, PassesForMetadata, AfterHanding;
    HandedAndClosed(c, w2, s.mint, d, s.payer);
    w := AfterHanding(w2, s.mint, []).Close(s.mint).Close(d);
  }

  lemma FairStepIsLawful(c: Chain, w: World, step: Step)
    requires Fair(c, w, step)
    ensures Lawful(c, w, step)
  {
  }

  lemma BaitPasses(c: Chain, s: Cast, w: World, d: Pubkey)
    requires Staged(c, s) && w.Record(d) == Some(Bait(c, s, s.mint))
    ensures PassesForMetadata(c, w, d, s.mint) && s.payer in w.Record(d).value.updateAuthorities
  {
    hide Decode;
    assert s.payer in Bait(c, s, s.mint).updateAuthorities;
  }

  /**
    The key is inscribed anew, with its metadata where the data of its mint was. The old metadata, below that, still
    speaks for it as for data: the new inscription is exposed.
   */
  lemma Shadowed(c: Chain, s: Cast) returns (w: World)
    requires Staged(c, s)
    ensures var d := c.MetadataAddress(s.mint);
            var k := c.MetadataAddress(d);
            && LawfullyReachable(c, w) && d != k
            && d in w.roles && w.roles[d] == Metadata(s.mint)
            && w.Record(d) == Some(FreshRecord(c, s.mint, s.payer, Keypair, 32))
            && k in w.roles && w.roles[k] == Metadata(d)
            && w.Record(k) == Some(FreshRecord(c, d, s.payer, FromMint(s.mint), 0))
            && Exposed(c, w, d) && s.payer in w.Record(k).value.updateAuthorities && !c.derived(s.payer)
  {
    hide Decode, DecodeShard, Execute, LawfullyReachable, Placed, Ranked, Lawful;
    var d := c.MetadataAddress(s.mint);
    var k := c.MetadataAddress(d);
    MintApart(c, s);
    PayerSigns(c, s);
    var w1 := MintPairClosed(c, s);
    LawfullyReachableHolds(c, w1);
    var ix := Initialize(s.mint, d, c.ShardAddress(0), By(s));
    AnewLawful(c, s, w1);
    LawfullyReachableNext(c, w1, Run(ix, GRANT));
    w := Enrolled(c, w1, ix, 0, 1);
    assert w.At(k) == w1.At(k);
    LawfullyReachableHolds(c, w);
    PlacedCovers(c, w);
    assert s.payer in FreshRecord(c, d, s.payer, FromMint(s.mint), 0).updateAuthorities;
  }

  lemma AnewLawful(c: Chain, s: Cast, w: World)
    requires Staged(c, s)
    requires w.Vacant(s.mint) && w.Vacant(c.MetadataAddress(s.mint))
    ensures var ix := Initialize(s.mint, c.MetadataAddress(s.mint), c.ShardAddress(0), By(s));
            Lawful(c, w, Run(ix, GRANT)) && Addressed(c, w, ix) && ix.caller.Signer() == Ok(s.payer)
  {
  }

  /**
    Ranks are shared: by a lawful run from an empty ledger, two live metadata accounts have the same rank, and one of
    them had another rank just before.
   */
  lemma RankShared(c: Chain, s: Cast) returns (w: World, step: Step)
    requires Staged(c, s)
    ensures var d := c.MetadataAddress(s.mint);
            var k := c.MetadataAddress(d);
            var w' := Next(c, w, step);
            && LawfullyReachable(c, w) && Lawful(c, w, step) && d != k
            && IsMetadata(w, d) && IsMetadata(w', d) && IsMetadata(w', k)
            && RankAt(w, d) == 32 && RankAt(w', d) == 0 && RankAt(w', k) == 0
            && w'.Record(d).Some? && w'.Record(k).Some?
  {
    hide Decode, Encode, Execute, LawfullyReachable, Placed, Ranked, Lawful, Exposed, Next;
    var d := c.MetadataAddress(s.mint);
    w := Shadowed(c, s);
    PayerSigns(c, s);
    LawfullyReachableHolds(c, w);
    PlacedCovers(c, w);
    assert w.Owned(d);
    step := Run(Overwriting(c, d, s.payer, 35, ToLe(0, 8)), GRANT);
    ExposedRankWritten(c, w, d, s.payer, 0, GRANT);
  }

  /**
    Frozen is not enough: by a lawful run from an empty ledger, the metadata of an inscription without authorities,
    with no mint to record, can change, because it is exposed.
   */
  lemma FrozenAltered(c: Chain, s: Cast) returns (w: World)
    requires Staged(c, s)
    ensures var d := c.MetadataAddress(s.mint);
            LawfullyReachable(c, w) && Frozen(w, d) && Exposed(c, w, d) && Alterable(c, w, d)
  {
    hide Decode, Encode, Execute, LawfullyReachable, Placed, Ranked, Alterable;
    var d := c.MetadataAddress(s.mint);
    var m := FreshRecord(c, s.mint, s.payer, Keypair, 32);
    var w1 := Shadowed(c, s);
    PayerSigns(c, s);
    LawfullyReachableHolds(c, w1);
    PlacedCovers(c, w1);
    LastAuthorityLeaves(c, s, w1, d, m);
    var remove := Run(RemoveAuthority(d, By(s)), GRANT);
    FairStepIsLawful(c, w1, remove);
    LawfullyReachableNext(c, w1, remove);
    w := Next(c, w1, remove);
    DecodeEncode(m.(updateAuthorities := []));
    assert w == w1.Put(d, Encode(m.(updateAuthorities := [])));
    ExposedAlterable(c, w, d);
  }
}
