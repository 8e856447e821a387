/** What the addresses alone ensure: it holds in every lawful run, whatever keys others hand to the program. */
module Placement {
  import opened Basics
  import opened State
  import opened Addresses
  import opened Accounts
  import opened Program
  import opened Invariant

  /** `d` can be inscribed: it can sign, or it derives from a mint, which can. */
  ghost predicate Inscribable(c: Chain, d: Pubkey) {
    !c.derived(d) || exists x :: c.KnowsMetadata(x) && !c.derived(x) && d == c.MetadataAddress(x)
  }

  /** The account is at an address of its role; a shard besides holds what a shard holds. */
  ghost predicate PlacedAt(c: Chain, w: World, k: Pubkey)
    requires k in w.roles
  {
    match w.roles[k]
    case Shard(number) => GoodShard(c, w, k, number)
    case Metadata(d) => c.KnowsMetadata(d) && k == c.MetadataAddress(d) && Inscribable(c, d)
    case MainData(Keypair) => !c.derived(k) && c.KnowsMetadata(k)
    case MainData(FromMint(x)) =>
      c.KnowsMetadata(k) && c.KnowsMetadata(x) && !c.derived(x) && k == c.MetadataAddress(x)
    case AssociatedData(t, p) =>
      && c.KnowsAssociated(t, p) && k == c.AssociatedAddress(t, p)
      && exists i :: c.KnowsMetadata(i) && p == c.MetadataAddress(i)
    case Handed => !c.derived(k)
  }

  ghost predicate Placed(c: Chain, w: World) {
    && Shape(c, w)
    && forall k {:trigger PlacedAt(c, w, k)} :: k in w.roles ==> PlacedAt(c, w, k)
  }

  /** In a world that keeps the invariant, every account is in its place. */
  lemma InvPlaced(c: Chain, w: World)
    requires Inv(c, w)
    ensures Placed(c, w)
  {
    hide Decode, DecodeShard, LiveEntries, Shape;
    forall k | k in w.roles ensures PlacedAt(c, w, k) {
      assert GoodAt(c, w, k);
      match w.roles[k]
      case Metadata(d) => assert GoodAt(c, w, d);
      case AssociatedData(t, p) => assert GoodAt(c, w, p);
      case _ =>
    }
  }

  lemma InvLawful(c: Chain, w: World, step: Step)
    requires Inv(c, w) && Fair(c, w, step)
    ensures Placed(c, w) && Lawful(c, w, step)
  {
    InvPlaced(c, w);
  }

  /** The metadata address of `i` holds the metadata of `i`, or the data of the mint `i`. */
  lemma MetadataPlaced(c: Chain, w: World, i: Pubkey)
    requires c.Sound() && Placed(c, w) && c.KnowsMetadata(i) && w.Owned(c.MetadataAddress(i))
    ensures var k := c.MetadataAddress(i);
            k in w.roles && (w.roles[k] == Metadata(i) || w.roles[k] == MainData(FromMint(i)))
    ensures Inscribable(c, i)
  {
    hide DecodeShard;
    AddressesDisjoint(c);
    var k := c.MetadataAddress(i);
    assert k in w.roles;
    assert PlacedAt(c, w, k);
    match w.roles[k]
    case Metadata(d) => SameMetadataAddress(c, d, i);
    case MainData(FromMint(x)) => SameMetadataAddress(c, x, i);
    case _ =>
  }

  /** Neither a shard nor a child can be inscribed. */
  lemma NotInscribable(c: Chain, n: byte, t: bytes, p: Pubkey)
    requires c.Sound()
    ensures !Inscribable(c, c.ShardAddress(n))
    ensures c.KnowsAssociated(t, p) ==> !Inscribable(c, c.AssociatedAddress(t, p))
  {
    AddressesDisjoint(c);
  }

  /** An owned account at the address of a tag is that child. */
  lemma AssociatedPlaced(c: Chain, w: World, t: bytes, p: Pubkey)
    requires c.Sound() && Placed(c, w) && c.KnowsAssociated(t, p) && w.Owned(c.AssociatedAddress(t, p))
    ensures var k := c.AssociatedAddress(t, p); k in w.roles && w.roles[k] == AssociatedData(t, p)
    ensures exists i :: c.KnowsMetadata(i) && p == c.MetadataAddress(i)
  {
    hide DecodeShard;
    AddressesDisjoint(c);
    var k := c.AssociatedAddress(t, p);
    assert k in w.roles;
    assert PlacedAt(c, w, k);
    match w.roles[k]
    case AssociatedData(u, q) => SameAssociatedAddress(c, u, q, t, p);
    case _ =>
  }

  /** An owned account that loads as a shard is a shard. */
  lemma ShardPlaced(c: Chain, w: World, k: Pubkey)
    requires c.Sound() && Placed(c, w) && w.Owned(k) && LoadShard(c, w, k).Ok?
    ensures k in w.roles && w.roles[k] == Shard(LoadShard(c, w, k).value.shardNumber)
  {
    hide DecodeShard;
    AddressesDisjoint(c);
    var n := LoadShard(c, w, k).value.shardNumber;
    assert k in w.roles;
    assert PlacedAt(c, w, k);
    match w.roles[k]
    case Shard(m) => SameShardAddress(c, m, n);
    case _ =>
  }

  /** What a passed target check still means: no shard is involved, and the metadata lies where metadata can lie. */
  lemma TargetPlaced(c: Chain, w: World, inscription: Pubkey, metadata: Pubkey, m: InscriptionMetadata,
                     tag: Option<Tag>)
    requires c.Sound() && Placed(c, w) && DataHashes(inscription, metadata, tag) <= c.known
    requires w.Owned(inscription) && w.Owned(metadata)
    requires TargetCheck(c, inscription, metadata, m, tag) == Pass
    ensures exists i :: c.KnowsMetadata(i) && metadata == c.MetadataAddress(i)
    ensures inscription in w.roles && inscription != metadata
    ensures tag.None? ==> metadata == c.MetadataAddress(inscription) && c.KnowsMetadata(inscription)
                          && m.bump == c.MetadataBump(inscription) && Inscribable(c, inscription)
    ensures tag.Some? ==> w.roles[inscription] == AssociatedData(tag.value, metadata)
                          && inscription == c.AssociatedAddress(tag.value, metadata)
                          && c.KnowsAssociated(tag.value, metadata)
  {
    hide Placed;
    AddressesDisjoint(c);
    match tag
    case None =>
      MetadataPlaced(c, w, inscription);
      PlacedCovers(c, w);
      NotItsOwnMetadata(c, inscription);
    case Some(t) => AssociatedPlaced(c, w, t, metadata);
  }

  lemma PlacedCovers(c: Chain, w: World)
    requires Placed(c, w)
    ensures Shape(c, w) && RolesCoverOwned(w)
  {
  }

  /** Derivation goes up no further than from a key to its mint's data and to that data's metadata. */
  lemma NotItsOwnMetadata(c: Chain, i: Pubkey)
    requires c.Sound() && c.KnowsMetadata(i) && Inscribable(c, i)
    ensures c.MetadataAddress(i) != i
  {
    AddressesDisjoint(c);
    if c.MetadataAddress(i) == i {
      var x :| c.KnowsMetadata(x) && !c.derived(x) && i == c.MetadataAddress(x);
      SameMetadataAddress(c, x, i);
    }
  }
}
