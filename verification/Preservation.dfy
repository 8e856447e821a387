/** Every step keeps the invariant. */
module Preservation {
  import opened Basics
  import opened State
  import opened Codec
  import opened Addresses
  import opened Accounts
  import opened Program
  import opened Invariant
  import opened Placement

  // ---------------------------------------------------------------- what the checks establish

  /** An owned account at the metadata address of an owned account is that account's metadata. */
  lemma MetadataResolves(c: Chain, w: World, inscription: Pubkey, metadata: Pubkey)
    requires c.Sound() && Inv(c, w) && c.KnowsMetadata(inscription)
    requires w.Owned(inscription) && w.Owned(metadata) && metadata == c.MetadataAddress(inscription)
    ensures metadata in w.roles && w.roles[metadata] == Metadata(inscription)
    ensures inscription in w.roles && w.roles[inscription].MainData?
  {
    hide Decode, DecodeShard;
    AddressesDisjoint(c);
    assert metadata in w.roles && inscription in w.roles;
    assert GoodAt(c, w, metadata);
    match w.roles[metadata]
    case Shard(_) =>
    case Metadata(d) => SameMetadataAddress(c, d, inscription);
    case MainData(Keypair) =>
    case MainData(FromMint(mint)) => SameMetadataAddress(c, mint, inscription);
    case AssociatedData(_, _) =>
    case Handed =>
  }

  /** An owned account at the address of a tag belongs to the metadata account the tag was derived with. */
  lemma AssociatedResolves(c: Chain, w: World, tag: bytes, child: Pubkey, metadata: Pubkey)
    requires c.Sound() && Inv(c, w) && c.KnowsAssociated(tag, metadata)
    requires w.Owned(child) && child == c.AssociatedAddress(tag, metadata)
    ensures child in w.roles && w.roles[child] == AssociatedData(tag, metadata)
    ensures metadata in w.roles && w.roles[metadata].Metadata?
  {
    hide Decode, DecodeShard;
    AddressesDisjoint(c);
    assert child in w.roles;
    assert GoodAt(c, w, child);
    match w.roles[child]
    case Shard(_) =>
    case Metadata(_) =>
    case MainData(_) =>
    case AssociatedData(t, m) => SameAssociatedAddress(c, t, m, tag, metadata);
    case Handed =>
  }

  ghost predicate IsData(w: World, k: Pubkey) {
    k in w.roles && (w.roles[k].MainData? || w.roles[k].AssociatedData?)
  }

  /** What a passed target check means: the pair of accounts really belong together. */
  lemma TargetResolves(c: Chain, w: World, inscription: Pubkey, metadata: Pubkey, m: InscriptionMetadata,
                       tag: Option<Tag>)
    requires c.Sound() && Inv(c, w) && DataHashes(inscription, metadata, tag) <= c.known
    requires w.Owned(inscription) && w.Owned(metadata)
    requires TargetCheck(c, inscription, metadata, m, tag) == Pass
    ensures IsData(w, inscription)
    ensures metadata in w.roles && w.roles[metadata].Metadata?
    ensures tag.None? ==> w.roles[metadata] == Metadata(inscription) && w.roles[inscription].MainData?
    ensures tag.Some? ==> w.roles[inscription] == AssociatedData(tag.value, metadata)
  {
    hide Decode, DecodeShard, Inv;
    match tag
    case None => MetadataResolves(c, w, inscription, metadata);
    case Some(t) => AssociatedResolves(c, w, t, inscription, metadata);
  }

  // ---------------------------------------------------------------- changes that keep the invariant

  /** Between two worlds, account `k` keeps its role. */
  ghost predicate SameRole(w: World, w': World, k: Pubkey) {
    k in w.roles && k in w'.roles && w'.roles[k] == w.roles[k]
  }

  /** What an account's being good rests on beside its role: its own bytes, or the accounts it is bound to. */
  ghost predicate Kept(c: Chain, w: World, w': World, k: Pubkey)
    requires k in w.roles
  {
    match w.roles[k]
    case Shard(_) => w'.Data(k) == w.Data(k)
    case Metadata(d) =>
      && w'.Data(k) == w.Data(k)
      && SameRole(w, w', d)
      && (w.Record(k).Some? ==> LiveEntries(c, w', k, w.Record(k).value.associatedInscriptions))
    case MainData(origin) =>
      && SameRole(w, w', c.MetadataAddress(k))
      && (origin.FromMint? ==> origin.mint !in w'.roles)
    case AssociatedData(tag, p) =>
      && SameRole(w, w', p)
      && w'.Record(p).Some? && HasTag(w'.Record(p).value.associatedInscriptions, tag)
    case Handed => w'.Data(k) == w.Data(k) && (c.KnowsMetadata(k) ==> c.MetadataAddress(k) !in w'.roles)
  }

  lemma Carry(c: Chain, w: World, w': World, k: Pubkey)
    requires SameRole(w, w', k) && GoodAt(c, w, k) && Kept(c, w, w', k)
    ensures GoodAt(c, w', k)
  {
    hide Decode, DecodeShard;
  }

  lemma PutShape(c: Chain, w: World, k: Pubkey, data: bytes)
    requires Shape(c, w) && k in w.roles
    ensures Shape(c, w.Put(k, data))
  {
    var w' := w.Put(k, data);
    assert w.Owned(k);
    assert forall j :: j != k ==> w'.At(j) == w.At(j);
  }

  lemma CreateShape(c: Chain, w: World, k: Pubkey, data: bytes, role: Role)
    requires Shape(c, w) && w.Vacant(k)
    ensures Shape(c, w.Create(k, data, role))
  {
    var w' := w.Create(k, data, role);
    assert forall j :: j != k ==> w'.At(j) == w.At(j);
  }

  lemma CloseShape(c: Chain, w: World, k: Pubkey)
    requires Shape(c, w)
    ensures Shape(c, w.Close(k))
  {
    var w' := w.Close(k);
    assert forall j :: j != k ==> w'.At(j) == w.At(j);
  }

  /** The bytes of a data account are of no concern to the invariant. */
  lemma PutData(c: Chain, w: World, k: Pubkey, data: bytes)
    requires Inv(c, w) && IsData(w, k)
    ensures Inv(c, w.Put(k, data))
  {
    hide Decode, DecodeShard;
    var w' := w.Put(k, data);
    forall j | j in w'.roles ensures GoodAt(c, w', j) {
      assert GoodAt(c, w, j);
      match w.roles[j]
      case Shard(_) =>
      case Metadata(d) => assert w'.Record(j) == w.Record(j);
      case MainData(_) =>
      case AssociatedData(_, m) =>
        assert GoodAt(c, w, m);
        assert w'.Record(m) == w.Record(m);
      case Handed =>
    }
  }

  /** A metadata account may take any record that is good and keeps the tags. */
  lemma PutRecord(c: Chain, w: World, k: Pubkey, m: InscriptionMetadata, data: bytes)
    requires Inv(c, w) && k in w.roles && w.roles[k].Metadata?
    requires Decode(data) == Some(m)
    requires GoodRecord(c, w, k, w.roles[k].inscription, m)
    requires w.Record(k).Some? && m.associatedInscriptions == w.Record(k).value.associatedInscriptions
    ensures Inv(c, w.Put(k, data))
  {
    hide Decode, DecodeShard;
    var w' := w.Put(k, data);
    forall j | j in w'.roles ensures GoodAt(c, w', j) {
      assert GoodAt(c, w, j);
      match w.roles[j]
      case Shard(_) =>
      case Metadata(d) => assert j != k ==> w'.Record(j) == w.Record(j);
      case MainData(_) =>
      case AssociatedData(_, p) => assert p != k ==> w'.Record(p) == w.Record(p);
      case Handed =>
    }
  }

  /** `Without` drops the entries with this tag when tags are distinct, and keeps the rest in order. */
  lemma {:induction false} WithoutKeepsOthers(l: seq<AssociatedInscription>, tag: bytes, bump: byte)
    requires DistinctTags(l) && Lists(l, tag, bump)
    ensures !HasTag(Without(l, tag, bump), tag)
    ensures forall t :: t != tag ==> (HasTag(Without(l, tag, bump), t) <==> HasTag(l, t))
    ensures forall a :: a in Without(l, tag, bump) ==> a in l
    ensures DistinctTags(Without(l, tag, bump))
  {
    var i :| 0 <= i < |l| && l[i].tag == tag && l[i].bump == bump;
    WithoutIsDrop(l, i);
    var r := l[..i] + l[i + 1..];
    forall t | t != tag && HasTag(l, t) ensures HasTag(r, t) {
      var j :| 0 <= j < |l| && l[j].tag == t;
      assert r[if j < i then j else j - 1].tag == t;
    }
  }

  lemma {:induction false} WithoutIsDrop(l: seq<AssociatedInscription>, i: nat)
    requires DistinctTags(l) && i < |l|
    ensures Without(l, l[i].tag, l[i].bump) == l[..i] + l[i + 1..]
  {
    if i > 0 {
      WithoutIsDrop(l[1..], i - 1);
      assert l[..i] == [l[0]] + l[1..][..i - 1];
    } else {
      WithoutAbsent(l[1..], l[0].tag, l[0].bump);
    }
  }

  lemma {:induction false} WithoutAbsent(l: seq<AssociatedInscription>, tag: bytes, bump: byte)
    requires !HasTag(l, tag)
    ensures Without(l, tag, bump) == l
  {
    if l != [] {
      assert l[0].tag != tag;
      assert forall i :: 0 <= i < |l[1..]| ==> l[1..][i] == l[i + 1];
      WithoutAbsent(l[1..], tag, bump);
    }
  }

  /** Record `m` of metadata account `k` gains entry `a`, whose account does not exist yet. */
  ghost predicate GainsChild(c: Chain, w: World, k: Pubkey, m: InscriptionMetadata, a: AssociatedInscription,
                             data: bytes) {
    && c.Sound() && Inv(c, w) && k in w.roles && w.roles[k].Metadata?
    && w.Record(k) == Some(m)
    && 1 <= |a.tag| <= 32 && c.KnowsAssociated(a.tag, k) && a.bump == c.AssociatedBump(a.tag, k)
    && w.Vacant(c.AssociatedAddress(a.tag, k))
    && Decode(data) == Some(m.(associatedInscriptions := m.associatedInscriptions + [a]))
  }

  lemma NewTagIsFresh(c: Chain, w: World, k: Pubkey, m: InscriptionMetadata, a: AssociatedInscription, data: bytes)
    requires GainsChild(c, w, k, m, a, data)
    ensures !HasTag(m.associatedInscriptions, a.tag)
    ensures HasTag(m.associatedInscriptions + [a], a.tag)
    ensures forall t :: HasTag(m.associatedInscriptions, t) ==> HasTag(m.associatedInscriptions + [a], t)
    ensures c.derived(c.AssociatedAddress(a.tag, k))
  {
    hide Decode, DecodeShard;
    var l := m.associatedInscriptions;
    AddressesDisjoint(c);
    assert GoodAt(c, w, k);
    assert forall i :: 0 <= i < |l| ==> LiveEntry(c, w, k, l[i]);
    assert (l + [a])[|l|] == a;
    assert forall i :: 0 <= i < |l| ==> (l + [a])[i] == l[i];
  }

  lemma AddChildAt(c: Chain, w: World, k: Pubkey, m: InscriptionMetadata, a: AssociatedInscription, data: bytes,
                   j: Pubkey)
    requires GainsChild(c, w, k, m, a, data) && j in w.roles
    ensures var w' := w.Create(c.AssociatedAddress(a.tag, k), [], AssociatedData(a.tag, k)).Put(k, data);
            SameRole(w, w', j) && GoodAt(c, w', j)
  {
    hide Decode, DecodeShard;
    var child := c.AssociatedAddress(a.tag, k);
    var w' := w.Create(child, [], AssociatedData(a.tag, k)).Put(k, data);
    NewTagIsFresh(c, w, k, m, a, data);
    assert child !in w.roles;
    assert GoodAt(c, w, j);
    assert j != k ==> w'.At(j) == w.At(j);
    if j == k {
      EntriesOfMore(c, w, w', k, m.associatedInscriptions, a);
    } else {
      if w.roles[j].AssociatedData? {
        var p := w.roles[j].metadata;
        assert p != k ==> w'.At(p) == w.At(p);
      } else if w.roles[j].Metadata? {
        EntriesStayLive(c, w, w', j, w.Record(j).value.associatedInscriptions);
      } else if w.roles[j].Handed? {
        AddressesDisjoint(c);
      }
      hide Inv, GoodAt, LiveEntries, HasTag;
      Carry(c, w, w', j);
    }
  }

  lemma EntriesStayLive(c: Chain, w: World, w': World, k: Pubkey, l: seq<AssociatedInscription>)
    requires LiveEntries(c, w, k, l)
    requires forall j :: j in w.roles ==> SameRole(w, w', j)
    ensures LiveEntries(c, w', k, l)
  {
    forall i | 0 <= i < |l| ensures LiveEntry(c, w', k, l[i]) {
      assert LiveEntry(c, w, k, l[i]);
    }
  }

  lemma EntriesOfMore(c: Chain, w: World, w': World, k: Pubkey, l: seq<AssociatedInscription>, a: AssociatedInscription)
    requires LiveEntries(c, w, k, l) && LiveEntry(c, w', k, a)
    requires DistinctTags(l) && !HasTag(l, a.tag)
    requires forall j :: j in w.roles ==> SameRole(w, w', j)
    ensures LiveEntries(c, w', k, l + [a]) && DistinctTags(l + [a])
  {
    EntriesStayLive(c, w, w', k, l);
    forall i | 0 <= i < |l + [a]| ensures LiveEntry(c, w', k, (l + [a])[i]) {
      assert i < |l| ==> LiveEntry(c, w', k, l[i]);
    }
  }

  lemma ChildShape(c: Chain, w: World, child: Pubkey, role: Role, k: Pubkey, data: bytes)
    requires Shape(c, w) && w.Vacant(child) && k in w.roles
    ensures Shape(c, w.Create(child, [], role).Put(k, data))
    ensures child !in w.roles && child != k
  {
    CreateShape(c, w, child, [], role);
    PutShape(c, w.Create(child, [], role), k, data);
  }

  /** A metadata account gains a child: the account and its list entry appear together. */
  lemma AddChild(c: Chain, w: World, k: Pubkey, m: InscriptionMetadata, a: AssociatedInscription, data: bytes)
    requires GainsChild(c, w, k, m, a, data)
    ensures Inv(c, w.Create(c.AssociatedAddress(a.tag, k), [], AssociatedData(a.tag, k)).Put(k, data))
  {
    hide Decode, DecodeShard, Shape, LiveEntries, HasTag;
    var child := c.AssociatedAddress(a.tag, k);
    var w' := w.Create(child, [], AssociatedData(a.tag, k)).Put(k, data);
    ChildShape(c, w, child, AssociatedData(a.tag, k), k, data);
    NewTagIsFresh(c, w, k, m, a, data);
    assert GoodAssociatedData(c, w', child, a.tag, k);
    assert GoodAt(c, w', child);
    hide GoodAt, GoodAssociatedData;
    forall j | j in w'.roles && j != child ensures GoodAt(c, w', j) {
      AddChildAt(c, w, k, m, a, data, j);
    }
  }

  /** The entries of another metadata account do not mind that child `gone` of `w.roles[gone].metadata` is closed. */
  lemma DropChildEntries(c: Chain, w: World, w': World, j: Pubkey, gone: Pubkey)
    requires j in w.roles && GoodAt(c, w, j) && w.roles[j].Metadata?
    requires gone in w.roles && w.roles[gone].AssociatedData? && w.roles[gone].metadata != j
    requires w'.roles == w.roles - {gone}
    ensures LiveEntries(c, w', j, w.Record(j).value.associatedInscriptions)
  {
    hide Decode, DecodeShard;
    var l := w.Record(j).value.associatedInscriptions;
    forall i | 0 <= i < |l| ensures LiveEntry(c, w', j, l[i]) {
      assert LiveEntry(c, w, j, l[i]);
    }
  }

  /** Record `m` of metadata account `k` loses its entry for `tag`, whose account is there. */
  ghost predicate LosesChild(c: Chain, w: World, k: Pubkey, m: InscriptionMetadata, tag: bytes, data: bytes) {
    && Inv(c, w) && k in w.roles && w.roles[k].Metadata?
    && w.Record(k) == Some(m)
    && c.KnowsAssociated(tag, k)
    && Lists(m.associatedInscriptions, tag, c.AssociatedBump(tag, k))
    && Decode(data) == Some(m.(associatedInscriptions :=
                                 Without(m.associatedInscriptions, tag, c.AssociatedBump(tag, k))))
    && c.AssociatedAddress(tag, k) in w.roles && w.roles[c.AssociatedAddress(tag, k)] == AssociatedData(tag, k)
  }

  lemma RemainingEntriesLive(c: Chain, w: World, k: Pubkey, m: InscriptionMetadata, tag: bytes, data: bytes, w': World)
    requires LosesChild(c, w, k, m, tag, data)
    requires w'.roles == w.roles - {c.AssociatedAddress(tag, k)}
    ensures LiveEntries(c, w', k, Without(m.associatedInscriptions, tag, c.AssociatedBump(tag, k)))
  {
    hide Decode, DecodeShard, Without;
    var l := m.associatedInscriptions;
    var l' := Without(l, tag, c.AssociatedBump(tag, k));
    assert GoodAt(c, w, k);
    WithoutKeepsOthers(l, tag, c.AssociatedBump(tag, k));
    forall i | 0 <= i < |l'| ensures LiveEntry(c, w', k, l'[i]) {
      assert l'[i] in l;
      var n :| 0 <= n < |l| && l[n] == l'[i];
      assert LiveEntry(c, w, k, l[n]);
      assert HasTag(l', l'[i].tag);
    }
  }

  lemma DropChildAt(c: Chain, w: World, k: Pubkey, m: InscriptionMetadata, tag: bytes, data: bytes, j: Pubkey)
    requires LosesChild(c, w, k, m, tag, data) && j in w.roles && j != c.AssociatedAddress(tag, k)
    ensures var w' := w.Put(k, data).Close(c.AssociatedAddress(tag, k));
            SameRole(w, w', j) && GoodAt(c, w', j)
  {
    hide Decode, DecodeShard, Without;
    var child := c.AssociatedAddress(tag, k);
    var w' := w.Put(k, data).Close(child);
    assert GoodAt(c, w, j);
    assert j != k ==> w'.At(j) == w.At(j);
    match w.roles[j] {
      case Shard(_) =>
      case Metadata(d) =>
        if j == k {
          WithoutKeepsOthers(m.associatedInscriptions, tag, c.AssociatedBump(tag, k));
          RemainingEntriesLive(c, w, k, m, tag, data, w');
        } else {
          DropChildEntries(c, w, w', j, child);
        }
      case MainData(_) =>
      case AssociatedData(t, p) =>
        assert GoodAt(c, w, k);
        assert p != k ==> w'.At(p) == w.At(p);
        WithoutKeepsOthers(m.associatedInscriptions, tag, c.AssociatedBump(tag, k));
      case Handed =>
    }
    if j != k {
      Carry(c, w, w', j);
    }
  }

  /** A child account and its list entry disappear together. */
  lemma DropChild(c: Chain, w: World, k: Pubkey, m: InscriptionMetadata, tag: bytes, data: bytes)
    requires LosesChild(c, w, k, m, tag, data)
    ensures Inv(c, w.Put(k, data).Close(c.AssociatedAddress(tag, k)))
  {
    var child := c.AssociatedAddress(tag, k);
    var w' := w.Put(k, data).Close(child);
    PutShape(c, w, k, data);
    CloseShape(c, w.Put(k, data), child);
    hide Decode, DecodeShard, Without, Shape, LiveEntries, GoodAt;
    forall j | j in w'.roles ensures GoodAt(c, w', j) {
      DropChildAt(c, w, k, m, tag, data, j);
    }
  }

  ghost predicate ChildlessPair(c: Chain, w: World, d: Pubkey, k: Pubkey) {
    && Inv(c, w) && d in w.roles && w.roles[d].MainData? && k in w.roles && w.roles[k] == Metadata(d)
    && w.Record(k).Some? && w.Record(k).value.associatedInscriptions == []
  }

  lemma DropPairAt(c: Chain, w: World, d: Pubkey, k: Pubkey, j: Pubkey)
    requires ChildlessPair(c, w, d, k) && j in w.roles && j != d && j != k
    ensures var w' := w.Close(d).Close(k); SameRole(w, w', j) && GoodAt(c, w', j)
  {
    hide Decode, DecodeShard;
    var w' := w.Close(d).Close(k);
    assert GoodAt(c, w, k);
    assert GoodAt(c, w, j);
    assert w'.At(j) == w.At(j);
    match w.roles[j] {
      case Shard(_) =>
      case Metadata(e) => assert e != d && e != k;
      case MainData(_) =>
      case AssociatedData(t, p) => assert p != d && p != k;
      case Handed =>
    }
    Carry(c, w, w', j);
  }

  /** A pair without children is closed together. */
  lemma DropPair(c: Chain, w: World, d: Pubkey, k: Pubkey)
    requires ChildlessPair(c, w, d, k)
    ensures Inv(c, w.Close(d).Close(k))
  {
    hide Decode, DecodeShard, GoodAt;
    var w' := w.Close(d).Close(k);
    CloseShape(c, w, d);
    CloseShape(c, w.Close(d), k);
    forall j | j in w'.roles ensures GoodAt(c, w', j) {
      DropPairAt(c, w, d, k, j);
    }
  }

  /** New accounts at derived or vacant addresses, in a world `w'` that keeps the others, disturb none of them. */
  lemma GrowAt(c: Chain, w: World, w': World, j: Pubkey)
    requires Inv(c, w) && j in w.roles
    requires forall k :: k in w.roles ==> SameRole(w, w', k)
    requires forall k :: k in w.roles && !w.roles[k].Shard? ==> w'.At(k) == w.At(k)
    requires w.roles[j].Shard? ==> j in w'.roles && GoodAt(c, w', j)
    requires w.roles[j].MainData? && w.roles[j].origin.FromMint? ==> w.roles[j].origin.mint !in w'.roles
    requires w.roles[j].Handed? && c.KnowsMetadata(j) ==> c.MetadataAddress(j) !in w'.roles
    ensures j in w'.roles && GoodAt(c, w', j)
  {
    hide Decode, DecodeShard, Shape;
    assert GoodAt(c, w, j);
    match w.roles[j] {
      case Shard(_) =>
      case Metadata(e) =>
        var l := w.Record(j).value.associatedInscriptions;
        forall i | 0 <= i < |l| ensures LiveEntry(c, w', j, l[i]) {
          assert LiveEntry(c, w, j, l[i]);
        }
        Carry(c, w, w', j);
      case MainData(_) =>
        Carry(c, w, w', j);
      case AssociatedData(t, p) =>
        assert w'.Record(p) == w.Record(p);
        Carry(c, w, w', j);
      case Handed =>
        Carry(c, w, w', j);
    }
  }

  /** A shard account is created once, on its own. */
  lemma AddShard(c: Chain, w: World, number: byte, data: bytes)
    requires c.Sound() && Inv(c, w) && number < SHARD_COUNT && w.Vacant(c.ShardAddress(number))
    requires DecodeShard(data) == Some(InscriptionShard(InscriptionShardAccount, c.ShardBump(number), number, 0))
    ensures Inv(c, w.Create(c.ShardAddress(number), data, Shard(number)))
  {
    hide Decode, DecodeShard;
    var k := c.ShardAddress(number);
    var w' := w.Create(k, data, Shard(number));
    CreateShape(c, w, k, data, Shard(number));
    AddressesDisjoint(c);
    assert k !in w.roles;
    assert GoodAt(c, w', k);
    forall j | j in w.roles ensures GoodAt(c, w', j) {
      assert GoodAt(c, w, j);
      GrowAt(c, w, w', j);
    }
  }

  // ---------------------------------------------------------------- initialisation

  /** The two vacant accounts of a new inscription, whose address is a signing key or derives from a live mint. */
  ghost predicate NewPair(c: Chain, w: World, d: Pubkey, k: Pubkey, origin: Origin) {
    && d != k && w.Vacant(d) && w.Vacant(k)
    && c.KnowsMetadata(d) && k == c.MetadataAddress(d)
    && match origin
       case Keypair => !c.derived(d)
       case FromMint(mint) => c.KnowsMetadata(mint) && d == c.MetadataAddress(mint) && w.At(mint).owner == Token
  }

  lemma FreshRecordGood(c: Chain, w: World, d: Pubkey, k: Pubkey, authority: Pubkey, origin: Origin, rank: u64)
    requires d in w.roles && w.roles[d] == MainData(origin)
    ensures GoodRecord(c, w, k, d, FreshRecord(c, d, authority, origin, rank))
  {
  }

  lemma RegisteredShape(c: Chain, w: World, d: Pubkey, k: Pubkey, m: InscriptionMetadata, origin: Origin,
                        shard: Pubkey, s: InscriptionShard)
    requires Shape(c, w) && w.Vacant(d) && w.Vacant(k) && d != k && shard in w.roles
    requires s.count + 1 < U64_LIMIT
    ensures Shape(c, Registered(w, d, k, m, origin, shard, s))
    ensures d !in w.roles && k !in w.roles && shard != d && shard != k
  {
    hide Encode, EncodeShard;
    var w1 := w.Create(d, [], MainData(origin));
    var w2 := w1.Create(k, Encode(m), Metadata(d));
    assert w.Owned(shard);
    CreateShape(c, w, d, [], MainData(origin));
    CreateShape(c, w1, k, Encode(m), Metadata(d));
    PutShape(c, w2, shard, EncodeShard(s.(count := s.count + 1)));
    assert Registered(w, d, k, m, origin, shard, s)
        == w2.Put(shard, EncodeShard(s.(count := s.count + 1))).(issued := w.issued + [m.inscriptionRank]);
  }

  /** Account by account, what a registration leaves. */
  lemma RegisteredAccounts(c: Chain, w: World, d: Pubkey, k: Pubkey, m: InscriptionMetadata, origin: Origin,
                           shard: Pubkey, s: InscriptionShard)
    requires Shape(c, w) && w.Vacant(d) && w.Vacant(k) && d != k && shard in w.roles
    requires s.count + 1 < U64_LIMIT && Fits(m)
    ensures var w' := Registered(w, d, k, m, origin, shard, s);
            && Shape(c, w')
            && w'.roles == w.roles[d := MainData(origin)][k := Metadata(d)]
            && w'.Data(d) == []
            && w'.Record(k) == Some(m)
            && DecodeShard(w'.Data(shard)) == Some(s.(count := s.count + 1))
            && w'.issued == w.issued + [m.inscriptionRank]
            && forall j :: j != d && j != k && j != shard ==> w'.At(j) == w.At(j)
    ensures d !in w.roles && k !in w.roles
  {
    hide Decode, DecodeShard, Encode, EncodeShard, Shape;
    RegisteredShape(c, w, d, k, m, origin, shard, s);
    ShardDecodeEncode(s.(count := s.count + 1));
    DecodeEncode(m);
  }

  lemma RegisteredGood(c: Chain, w: World, w': World, d: Pubkey, k: Pubkey, m: InscriptionMetadata, origin: Origin,
                       shard: Pubkey, s: InscriptionShard)
    requires c.Sound() && Inv(c, w) && NewPair(c, w, d, k, origin)
    requires Shape(c, w') && w'.roles == w.roles[d := MainData(origin)][k := Metadata(d)]
    requires w'.Record(k) == Some(m) && GoodRecord(c, w', k, d, m)
    requires shard in w.roles && w.roles[shard] == Shard(s.shardNumber) && LoadShard(c, w, shard) == Ok(s)
    requires s.count + 1 < U64_LIMIT && DecodeShard(w'.Data(shard)) == Some(s.(count := s.count + 1))
    requires forall j :: j != d && j != k && j != shard ==> w'.At(j) == w.At(j)
    requires d !in w.roles && k !in w.roles
    requires origin.FromMint? ==> origin.mint !in w.roles
    ensures Inv(c, w')
  {
    hide Decode, DecodeShard;
    AddressesDisjoint(c);
    assert GoodAt(c, w, shard);
    assert GoodAt(c, w', shard);
    assert GoodAt(c, w', k);
    assert GoodAt(c, w', d);
    hide LoadShard;
    forall j | j in w.roles ensures GoodAt(c, w', j) {
      assert GoodAt(c, w, j);
      if w.roles[j].Handed? && c.KnowsMetadata(j) {
        NewPairApart(c, w, d, k, origin, j);
      }
      GrowAt(c, w, w', j);
    }
  }

  /** A new pair does not lie below an account that was handed to the program before. */
  lemma NewPairApart(c: Chain, w: World, d: Pubkey, k: Pubkey, origin: Origin, j: Pubkey)
    requires c.Sound() && NewPair(c, w, d, k, origin) && c.KnowsMetadata(j)
    requires j != d && (origin.FromMint? ==> j != origin.mint)
    ensures c.MetadataAddress(j) != k && c.MetadataAddress(j) != d
  {
    AddressesDisjoint(c);
    if c.MetadataAddress(j) == k {
      SameMetadataAddress(c, j, d);
    }
    if origin.FromMint? && c.MetadataAddress(j) == d {
      SameMetadataAddress(c, j, origin.mint);
    }
  }

  // ---------------------------------------------------------------- the instructions

  /** The new pair of an initialisation, however it is done. */
  function OriginOf(ix: Instruction): Origin
    requires ix.Initialize? || ix.InitializeFromMint?
  {
    if ix.Initialize? then Keypair else FromMint(ix.mint)
  }

  lemma InitializesNewPair(c: Chain, w: World, ix: Instruction, rt: Runtime)
    requires c.Sound() && Lawful(c, w, Run(ix, rt)) && Execute(c, w, ix, rt).Ok?
    requires ix.Initialize? || ix.InitializeFromMint?
    ensures NewPair(c, w, ix.inscription, ix.metadata, OriginOf(ix))
    ensures Execute(c, w, ix, rt)
         == Register(c, w, ix.inscription, ix.metadata, ix.caller.Signer().value, OriginOf(ix), ix.shard)
  {
    hide Decode, DecodeShard, Register;
    AddressesDisjoint(c);
    match ix
    case Initialize(i, m, s, caller) =>
      assert c.KnowsMetadata(i) && !c.derived(i);
    case InitializeFromMint(i, m, mint, tm, s, caller) =>
      assert c.KnowsMetadata(i) && c.KnowsMetadata(mint);
      if i == m {
        SameMetadataAddress(c, mint, i);
      }
  }

  /** What a successful initialisation comes to: the shard it counted on, and the record it stored. */
  lemma Registration(c: Chain, w: World, ix: Instruction, rt: Runtime)
    returns (m: InscriptionMetadata, s: InscriptionShard)
    requires c.Sound() && Placed(c, w) && Lawful(c, w, Run(ix, rt)) && Execute(c, w, ix, rt).Ok?
    requires ix.Initialize? || ix.InitializeFromMint?
    ensures LoadShard(c, w, ix.shard) == Ok(s) && NextRank(s) == Ok(m.inscriptionRank)
    ensures ix.shard in w.roles && w.roles[ix.shard] == Shard(s.shardNumber)
    ensures ix.caller.Signer().Ok?
    ensures m == FreshRecord(c, ix.inscription, ix.caller.Signer().value, OriginOf(ix), m.inscriptionRank)
    ensures Execute(c, w, ix, rt).value
         == Registered(w, ix.inscription, ix.metadata, m, OriginOf(ix), ix.shard, s)
  {
    hide Decode, DecodeShard, Registered, FreshRecord, Placed;
    InitializesNewPair(c, w, ix, rt);
    s := LoadShard(c, w, ix.shard).value;
    m := FreshRecord(c, ix.inscription, ix.caller.Signer().value, OriginOf(ix), NextRank(s).value);
    ShardPlaced(c, w, ix.shard);
  }

  lemma MintNotOwned(c: Chain, w: World, d: Pubkey, k: Pubkey, origin: Origin)
    requires Inv(c, w) && NewPair(c, w, d, k, origin) && origin.FromMint?
    ensures origin.mint !in w.roles
  {
    hide Decode, DecodeShard, GoodAt;
  }

  lemma InitializeInv(c: Chain, w: World, ix: Instruction, rt: Runtime)
    requires c.Sound() && Inv(c, w) && Fair(c, w, Run(ix, rt)) && Execute(c, w, ix, rt).Ok?
    requires ix.Initialize? || ix.InitializeFromMint?
    ensures Inv(c, Execute(c, w, ix, rt).value)
  {
    hide Decode, DecodeShard, Execute, Registered, Shape;
    var d, k := ix.inscription, ix.metadata;
    var w' := Execute(c, w, ix, rt).value;
    InitializesNewPair(c, w, ix, rt);
    InvPlaced(c, w);
    var m, s := Registration(c, w, ix, rt);
    RegisteredAccounts(c, w, d, k, m, OriginOf(ix), ix.shard, s);
    FreshRecordGood(c, w', d, k, ix.caller.Signer().value, OriginOf(ix), m.inscriptionRank);
    if ix.InitializeFromMint? {
      MintNotOwned(c, w, d, k, OriginOf(ix));
    }
    RegisteredGood(c, w, w', d, k, m, OriginOf(ix), ix.shard, s);
  }

  lemma DataInv(c: Chain, w: World, ix: Instruction, rt: Runtime)
    requires c.Sound() && Inv(c, w) && Fair(c, w, Run(ix, rt)) && Execute(c, w, ix, rt).Ok?
    requires ix.WriteData? || ix.ClearData? || ix.Allocate?
    ensures Inv(c, Execute(c, w, ix, rt).value)
  {
    hide Decode, DecodeShard, Inv, TargetCheck, AuthorityCheck;
    var w' := Execute(c, w, ix, rt).value;
    if w' != w {
      TargetResolves(c, w, ix.inscription, ix.metadata, w.Record(ix.metadata).value, ix.tag);
      PutData(c, w, ix.inscription, w'.Data(ix.inscription));
    }
  }

  lemma CloseInv(c: Chain, w: World, ix: Instruction, rt: Runtime)
    requires c.Sound() && Inv(c, w) && Fair(c, w, Run(ix, rt)) && Execute(c, w, ix, rt).Ok?
    requires ix.Close?
    ensures Inv(c, Execute(c, w, ix, rt).value)
  {
    hide Decode, DecodeShard, Encode, Inv, AuthorityCheck, Without;
    var m := w.Record(ix.metadata).value;
    TargetResolves(c, w, ix.inscription, ix.metadata, m, ix.tag);
    match ix.tag
    case None =>
      DropPair(c, w, ix.inscription, ix.metadata);
    case Some(tag) =>
      var bump := c.AssociatedBump(tag, ix.metadata);
      var m' := m.(associatedInscriptions := Without(m.associatedInscriptions, tag, bump));
      DecodeEncode(m');
      DropChild(c, w, ix.metadata, m, tag, Encode(m'));
  }

  /** A record that parses is never a shard's. */
  lemma RecordsAreNotShards(b: bytes)
    ensures Decode(b) == None || DecodeShard(b) == None
  {
    if Decode(b).Some? && DecodeShard(b).Some? {
      EncodeDecode(b);
      FixedOffsets(Decode(b).value);
      ShardEncodeDecode(b);
      ShardDecodeEncode(DecodeShard(b).value);
    }
  }

  lemma {:induction false} SwapRemoveNoDup(ks: seq<Pubkey>, i: nat)
    requires i < |ks| && NoDup(ks)
    ensures NoDup(SwapRemove(ks, i))
    ensures Elements(SwapRemove(ks, i)) == Elements(ks) - {ks[i]}
  {
    var r := SwapRemove(ks, i);
    forall k | k in Elements(ks) - {ks[i]} ensures k in r {
      var j :| 0 <= j < |ks| && ks[j] == k;
      assert r[if j == |ks| - 1 then i else j] == k;
    }
  }

  /** Zeros name no authority, also where they pass for a record. */
  lemma ZerosNameNobody(b: bytes)
    requires Zeroed(b) && Decode(b).Some?
    ensures Decode(b).value.updateAuthorities == []
  {
    EncodeDecode(b);
    var m := Decode(b).value;
    FixedOffsets(m);
    assert b[43] == 0;
    AuthorityCountOffset(m);
    hide Encode, Decode;
    FromLeToLe(|m.updateAuthorities|, 4);
    Pow256Widths();
    assert b[44..48] == [0, 0, 0, 0];
    assert FromLe([0, 0, 0, 0]) == 0;
  }

  /** New authorities in the record of an account that may or may not be a metadata account. */
  lemma PutAuthorities(c: Chain, w: World, k: Pubkey, m: InscriptionMetadata, ks: seq<Pubkey>)
    requires Inv(c, w) && w.Owned(k) && w.Record(k) == Some(m)
    requires NoDup(m.updateAuthorities) ==> NoDup(ks)
    requires m.updateAuthorities != []
    requires Fits(m.(updateAuthorities := ks))
    ensures Inv(c, w.Put(k, Encode(m.(updateAuthorities := ks))))
  {
    hide Decode, DecodeShard, Encode;
    var m' := m.(updateAuthorities := ks);
    RecordsAreNotShards(w.Data(k));
    DecodeEncode(m');
    assert k in w.roles;
    assert GoodAt(c, w, k);
    if w.roles[k].Metadata? {
      PutRecord(c, w, k, m', Encode(m'));
    } else {
      if w.roles[k].Handed? {
        ZerosNameNobody(w.Data(k));
      }
      PutData(c, w, k, Encode(m'));
    }
  }

  lemma AuthorityInv(c: Chain, w: World, ix: Instruction, rt: Runtime)
    requires c.Sound() && Inv(c, w) && Fair(c, w, Run(ix, rt)) && Execute(c, w, ix, rt).Ok?
    requires ix.AddAuthority? || ix.RemoveAuthority?
    ensures Inv(c, Execute(c, w, ix, rt).value)
  {
    hide Decode, Encode, Inv;
    var m := w.Record(ix.metadata).value;
    match ix
    case AddAuthority(k, _, newAuthority) =>
      PutAuthorities(c, w, k, m, m.updateAuthorities + [newAuthority]);
    case RemoveAuthority(k, caller) =>
      var i := Position(m.updateAuthorities, caller.Signer().value);
      if NoDup(m.updateAuthorities) {
        SwapRemoveNoDup(m.updateAuthorities, i);
      }
      PutAuthorities(c, w, k, m, SwapRemove(m.updateAuthorities, i));
  }

  lemma CreateShardInv(c: Chain, w: World, ix: Instruction, rt: Runtime)
    requires c.Sound() && Inv(c, w) && Fair(c, w, Run(ix, rt)) && Execute(c, w, ix, rt).Ok?
    requires ix.CreateShard?
    ensures Inv(c, Execute(c, w, ix, rt).value)
  {
    hide DecodeShard, EncodeShard, Inv;
    var s := InscriptionShard(InscriptionShardAccount, c.ShardBump(ix.number), ix.number, 0);
    ShardDecodeEncode(s);
    AddShard(c, w, ix.number, EncodeShard(s));
  }

  lemma AssociateInv(c: Chain, w: World, ix: Instruction, rt: Runtime)
    requires c.Sound() && Inv(c, w) && Fair(c, w, Run(ix, rt)) && Execute(c, w, ix, rt).Ok?
    requires ix.InitializeAssociatedInscription?
    ensures Inv(c, Execute(c, w, ix, rt).value)
  {
    hide Decode, Encode, Inv, AuthorityCheck;
    var k := ix.metadata;
    var m := w.Record(k).value;
    var a := AssociatedInscription(ix.newTag, c.AssociatedBump(ix.newTag, k), DataType.Uninitialized);
    var m' := m.(associatedInscriptions := m.associatedInscriptions + [a]);
    MetadataResolves(c, w, ix.inscription, k);
    DecodeEncode(m');
    AddChild(c, w, k, m, a, Encode(m'));
  }

  /** The pair that SetMint is given belongs to the mint that it stores. */
  lemma SetMintResolves(c: Chain, w: World, ix: Instruction, rt: Runtime)
    requires c.Sound() && Inv(c, w) && Fair(c, w, Run(ix, rt)) && Execute(c, w, ix, rt).Ok?
    requires ix.SetMint?
    ensures ix.metadata in w.roles && w.roles[ix.metadata] == Metadata(ix.inscription)
    ensures ix.inscription in w.roles && w.roles[ix.inscription] == MainData(FromMint(ix.mint))
  {
    hide Decode, Encode, DecodeShard, Store;
    MetadataResolves(c, w, ix.inscription, ix.metadata);
    assert GoodAt(c, w, ix.metadata);
    assert GoodAt(c, w, ix.inscription);
    match w.roles[ix.inscription].origin
    case Keypair =>
    case FromMint(mint) => SameMetadataAddress(c, mint, ix.mint);
  }

  lemma SetMintInv(c: Chain, w: World, ix: Instruction, rt: Runtime)
    requires c.Sound() && Inv(c, w) && Fair(c, w, Run(ix, rt)) && Execute(c, w, ix, rt).Ok?
    requires ix.SetMint?
    ensures Inv(c, Execute(c, w, ix, rt).value)
  {
    hide Decode, Encode, DecodeShard;
    SetMintResolves(c, w, ix, rt);
    var m' := w.Record(ix.metadata).value.(mint := Some(ix.mint));
    assert GoodAt(c, w, ix.metadata);
    DecodeEncode(m');
    PutRecord(c, w, ix.metadata, m', Encode(m'));
  }

  lemma OutsideShape(c: Chain, w: World, k: Pubkey, account: Option<Account>)
    requires Shape(c, w) && LawfulChange(c, w, k, account)
    ensures Shape(c, w.Outside(k, account))
    ensures var w' := w.Outside(k, account);
            && (forall j :: j != k ==> w'.At(j) == w.At(j))
            && k !in w.roles
            && (forall j :: j in w.roles ==> SameRole(w, w', j))
            && (forall j :: j in w'.roles && j !in w.roles ==>
                  j == k && w'.roles[k] == Handed && !c.derived(k) && Zeroed(w'.Data(k)))
  {
    var w' := w.Outside(k, account);
    assert forall j :: j != k ==> w'.At(j) == w.At(j);
  }

  lemma OutsideInv(c: Chain, w: World, step: Step)
    requires c.Sound() && Inv(c, w) && step.Outside? && Fair(c, w, step)
    ensures Inv(c, Next(c, w, step))
  {
    var w' := Next(c, w, step);
    OutsideShape(c, w, step.k, step.account);
    AddressesDisjoint(c);
    hide Decode, DecodeShard, Shape;
    forall j | j in w'.roles ensures GoodAt(c, w', j) {
      if j in w.roles {
        assert GoodAt(c, w, j);
        GrowAt(c, w, w', j);
      } else {
        assert GoodHanded(c, w', j);
      }
    }
  }

  /** Every step of every instruction, and of everyone else, keeps the invariant. */
  lemma StepInv(c: Chain, w: World, step: Step)
    requires c.Sound() && Inv(c, w) && Fair(c, w, step)
    ensures Inv(c, Next(c, w, step))
  {
    hide Inv, Fair, Execute;
    match step
    case Outside(_, _) => OutsideInv(c, w, step);
    case Run(ix, rt) =>
      if Execute(c, w, ix, rt).Ok? {
        match ix {
          case Initialize(_, _, _, _) => InitializeInv(c, w, ix, rt);
          case InitializeFromMint(_, _, _, _, _, _) => InitializeInv(c, w, ix, rt);
          case Close(_, _, _, _) => CloseInv(c, w, ix, rt);
          case WriteData(_, _, _, _, _, _) => DataInv(c, w, ix, rt);
          case ClearData(_, _, _, _) => DataInv(c, w, ix, rt);
          case Allocate(_, _, _, _, _) => DataInv(c, w, ix, rt);
          case AddAuthority(_, _, _) => AuthorityInv(c, w, ix, rt);
          case RemoveAuthority(_, _) => AuthorityInv(c, w, ix, rt);
          case CreateShard(_, _, _) => CreateShardInv(c, w, ix, rt);
          case InitializeAssociatedInscription(_, _, _, _, _) => AssociateInv(c, w, ix, rt);
          case SetMint(_, _, _, _) => SetMintInv(c, w, ix, rt);
        }
      }
  }
}
