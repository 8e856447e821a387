/** What each successful instruction leaves, spelled out. */
module Effects {
  import opened Basics
  import opened State
  import opened Codec
  import opened Addresses
  import opened Accounts
  import opened Program
  import opened Invariant
  import opened Preservation
  import opened Frames

  /** All accounts but these are as they were. */
  ghost predicate Else(w: World, w': World, touched: set<Pubkey>) {
    forall j :: j !in touched ==> w'.At(j) == w.At(j)
  }

  /** The program has `data` at `k`. */
  ghost predicate Holds(w: World, k: Pubkey, data: bytes) {
    w.At(k) == Account(Program, data)
  }

  /** The program has at `k` just the bytes of this record, which read as the record. */
  ghost predicate HoldsRecord(w: World, k: Pubkey, m: InscriptionMetadata) {
    Holds(w, k, Encode(m)) && w.Record(k) == Some(m)
  }

  /** Accounts that do not exist are vacant, and so are empty ones of the system program. */
  lemma VacantExactly(w: World, k: Pubkey)
    ensures w.Vacant(k) <==> w.At(k).owner == System && w.At(k).data == []
    ensures k !in w.accounts ==> w.Vacant(k)
  {
  }

  // ---------------------------------------------------------------- initialisation

  lemma VacantIsNoShard(w: World, k: Pubkey)
    requires w.Vacant(k)
    ensures DecodeShard(w.Data(k)) == None
  {
  }

  /** The record of a new inscription, field by field. */
  lemma InitializeLeaves(c: Chain, w: World, ix: Instruction, rt: Runtime)
    requires Execute(c, w, ix, rt).Ok? && ix.Initialize?
    ensures DecodeShard(w.Data(ix.shard)).Some?
    ensures var s, w' := DecodeShard(w.Data(ix.shard)).value, Execute(c, w, ix, rt).value;
            var rank := 32 * s.count + s.shardNumber;
            var authority := match ix.caller.authority case Some(a) => a case None => ix.caller.payer;
            && rank < 0x1_0000_0000_0000_0000
            && HoldsRecord(w', ix.metadata,
                 InscriptionMetadata(InscriptionMetadataAccount, ix.inscription, c.bump(MetadataSeeds(ix.inscription)),
                                     DataType.Uninitialized, rank, None, [authority], [], None, [0, 0, 0, 0, 0, 0, 0]))
            && Holds(w', ix.inscription, [])
            && Holds(w', ix.shard, EncodeShard(InscriptionShard(s.key, s.bump, s.shardNumber, s.count + 1)))
            && Else(w, w', {ix.inscription, ix.metadata, ix.shard})
            && w'.issued == w.issued + [rank]
  {
    hide Decode, DecodeShard, Encode, EncodeShard;
    VacantIsNoShard(w, ix.inscription);
    VacantIsNoShard(w, ix.metadata);
    var s := DecodeShard(w.Data(ix.shard)).value;
    var authority := match ix.caller.authority case Some(a) => a case None => ix.caller.payer;
    var m := FreshRecord(c, ix.inscription, authority, Keypair, 32 * s.count + s.shardNumber);
    DecodeEncode(m);
    assert Zeros(7) == [0, 0, 0, 0, 0, 0, 0];
  }

  /** The record of a new inscription of a mint, field by field. */
  lemma InitializeFromMintLeaves(c: Chain, w: World, ix: Instruction, rt: Runtime)
    requires Execute(c, w, ix, rt).Ok? && ix.InitializeFromMint?
    ensures DecodeShard(w.Data(ix.shard)).Some?
    ensures var s, w' := DecodeShard(w.Data(ix.shard)).value, Execute(c, w, ix, rt).value;
            var rank := 32 * s.count + s.shardNumber;
            var authority := match ix.caller.authority case Some(a) => a case None => ix.caller.payer;
            && rank < 0x1_0000_0000_0000_0000
            && HoldsRecord(w', ix.metadata,
                 InscriptionMetadata(MintInscriptionMetadataAccount, ix.inscription,
                                     c.bump(MetadataSeeds(ix.inscription)), DataType.Uninitialized, rank,
                                     Some(c.bump(MetadataSeeds(ix.mint))), [authority], [], Some(ix.mint),
                                     [0, 0, 0, 0, 0, 0, 0]))
            && Holds(w', ix.inscription, [])
            && Holds(w', ix.shard, EncodeShard(InscriptionShard(s.key, s.bump, s.shardNumber, s.count + 1)))
            && Else(w, w', {ix.inscription, ix.metadata, ix.shard})
            && w'.issued == w.issued + [rank]
  {
    hide Decode, DecodeShard, Encode, EncodeShard;
    VacantIsNoShard(w, ix.inscription);
    VacantIsNoShard(w, ix.metadata);
    var s := DecodeShard(w.Data(ix.shard)).value;
    var authority := match ix.caller.authority case Some(a) => a case None => ix.caller.payer;
    var m := FreshRecord(c, ix.inscription, authority, FromMint(ix.mint), 32 * s.count + s.shardNumber);
    DecodeEncode(m);
    assert Zeros(7) == [0, 0, 0, 0, 0, 0, 0];
  }

  /** A new shard, field by field. */
  lemma CreateShardLeaves(c: Chain, w: World, ix: Instruction, rt: Runtime)
    requires Execute(c, w, ix, rt).Ok? && ix.CreateShard?
    ensures var w' := Execute(c, w, ix, rt).value;
            && Holds(w', ix.shard, EncodeShard(InscriptionShard(InscriptionShardAccount, c.bump(ShardSeeds(ix.number)),
                                                                ix.number, 0)))
            && ix.number < 32 && Else(w, w', {ix.shard})
  {
    hide EncodeShard;
  }

  // ---------------------------------------------------------------- records rewritten

  /** The new authority comes last, and nothing else changes. */
  lemma AddAuthorityLeaves(c: Chain, w: World, ix: Instruction, rt: Runtime)
    requires Execute(c, w, ix, rt).Ok? && ix.AddAuthority?
    ensures w.Record(ix.metadata).Some?
    ensures var m, w' := w.Record(ix.metadata).value, Execute(c, w, ix, rt).value;
            && HoldsRecord(w', ix.metadata, m.(updateAuthorities := m.updateAuthorities + [ix.newAuthority]))
            && Else(w, w', {ix.metadata})
  {
    hide Decode, Encode, AuthorityCheck;
    var m := w.Record(ix.metadata).value;
    DecodeEncode(m.(updateAuthorities := m.updateAuthorities + [ix.newAuthority]));
  }

  /** The first `k` of the list goes, the last entry takes its place, and all others stay where they are. */
  ghost predicate FirstReplacedByLast(before: seq<Pubkey>, after: seq<Pubkey>, k: Pubkey) {
    && |after| == |before| - 1
    && exists i :: 0 <= i < |before| && before[i] == k && k !in before[..i]
         && (forall j :: 0 <= j < |after| && j != i ==> after[j] == before[j])
         && (i < |after| ==> after[i] == before[|before| - 1])
  }

  /** The signer's key goes from the list in this way, and nothing else changes. */
  lemma RemoveAuthorityLeaves(c: Chain, w: World, ix: Instruction, rt: Runtime)
    requires Execute(c, w, ix, rt).Ok? && ix.RemoveAuthority?
    ensures w.Record(ix.metadata).Some? && Execute(c, w, ix, rt).value.Record(ix.metadata).Some?
    ensures var m, w' := w.Record(ix.metadata).value, Execute(c, w, ix, rt).value;
            var after := w'.Record(ix.metadata).value.updateAuthorities;
            var signer := match ix.caller.authority case Some(a) => a case None => ix.caller.payer;
            && HoldsRecord(w', ix.metadata, m.(updateAuthorities := after))
            && Else(w, w', {ix.metadata})
            && FirstReplacedByLast(m.updateAuthorities, after, signer)
  {
    hide Decode, Encode, SwapRemove, Position, FirstReplacedByLast;
    var m := w.Record(ix.metadata).value;
    var signer := match ix.caller.authority case Some(a) => a case None => ix.caller.payer;
    assert ix.caller.Signer() == Ok(signer) && signer in m.updateAuthorities;
    hide AuthorityCheck;
    Swapped(m.updateAuthorities, signer);
    DecodeEncode(m.(updateAuthorities := SwapRemove(m.updateAuthorities, Position(m.updateAuthorities, signer))));
  }

  lemma Swapped(ks: seq<Pubkey>, k: Pubkey)
    requires k in ks
    ensures FirstReplacedByLast(ks, SwapRemove(ks, Position(ks, k)), k)
  {
    hide Position;
  }

  /** The new entry comes last, its account is empty, and nothing else changes. */
  lemma AssociateLeaves(c: Chain, w: World, ix: Instruction, rt: Runtime)
    requires Execute(c, w, ix, rt).Ok? && ix.InitializeAssociatedInscription?
    ensures w.Record(ix.metadata).Some?
    ensures var m, w' := w.Record(ix.metadata).value, Execute(c, w, ix, rt).value;
            var e := AssociatedInscription(ix.newTag, c.bump(AssociatedSeeds(ix.newTag, ix.metadata)),
                                           DataType.Uninitialized);
            && HoldsRecord(w', ix.metadata, m.(associatedInscriptions := m.associatedInscriptions + [e]))
            && Holds(w', ix.associated, [])
            && Else(w, w', {ix.metadata, ix.associated})
  {
    hide Decode, Encode, AuthorityCheck;
    var m := w.Record(ix.metadata).value;
    var e := AssociatedInscription(ix.newTag, c.AssociatedBump(ix.newTag, ix.metadata), DataType.Uninitialized);
    assert w.Owned(ix.metadata);
    DecodeEncode(m.(associatedInscriptions := m.associatedInscriptions + [e]));
  }

  /** The mint is stored, and nothing else changes. */
  lemma SetMintLeaves(c: Chain, w: World, ix: Instruction, rt: Runtime)
    requires Execute(c, w, ix, rt).Ok? && ix.SetMint?
    ensures w.Record(ix.metadata).Some?
    ensures var m, w' := w.Record(ix.metadata).value, Execute(c, w, ix, rt).value;
            HoldsRecord(w', ix.metadata, m.(mint := Some(ix.mint))) && Else(w, w', {ix.metadata})
  {
    hide Decode, Encode;
    DecodeEncode(w.Record(ix.metadata).value.(mint := Some(ix.mint)));
  }

  // ---------------------------------------------------------------- closing

  /** Both accounts of the pair cease to exist. */
  lemma ClosePairLeaves(c: Chain, w: World, ix: Instruction, rt: Runtime)
    requires Execute(c, w, ix, rt).Ok? && ix.Close? && ix.tag.None?
    ensures var w' := Execute(c, w, ix, rt).value;
            && ix.inscription !in w'.accounts && ix.metadata !in w'.accounts
            && Else(w, w', {ix.inscription, ix.metadata})
  {
    CloseEffect(c, w, ix, rt);
    hide Execute;
  }

  lemma ChildClosed(c: Chain, w: World, ix: Instruction, rt: Runtime)
    requires Execute(c, w, ix, rt).Ok? && ix.Close? && ix.tag.Some?
    ensures w.Record(ix.metadata).Some?
    ensures var m, t := w.Record(ix.metadata).value, ix.tag.value;
            var b := c.AssociatedBump(t, ix.metadata);
            && Lists(m.associatedInscriptions, t, b)
            && Execute(c, w, ix, rt).value
               == w.Put(ix.metadata, Encode(m.(associatedInscriptions := Without(m.associatedInscriptions, t, b))))
                   .Close(ix.inscription)
  {
    hide Decode, Encode, AuthorityCheck, Without, Lists;
  }

  /** Of the entries, those with the tag and the bump go, and the others stay as often as they are there. */
  lemma {:induction false} WithoutExactly(l: seq<AssociatedInscription>, t: bytes, b: byte, e: AssociatedInscription)
    ensures multiset(Without(l, t, b))[e] == if e.tag == t && e.bump == b then 0 else multiset(l)[e]
  {
    if l != [] {
      WithoutExactly(l[1..], t, b, e);
      assert l == [l[0]] + l[1..];
    }
  }

  /** One entry with the tag goes, and the others keep their order. */
  ghost predicate EntryDropped(l: seq<AssociatedInscription>, l': seq<AssociatedInscription>, t: bytes) {
    exists i :: 0 <= i < |l| && l[i].tag == t && l' == l[..i] + l[i + 1..]
  }

  lemma EntryGone(c: Chain, w: World, k: Pubkey, t: bytes, b: byte)
    requires Inv(c, w) && k in w.roles && w.roles[k].Metadata? && w.Record(k).Some?
    requires Lists(w.Record(k).value.associatedInscriptions, t, b)
    ensures var m := w.Record(k).value;
            var l := m.associatedInscriptions;
            && Decode(Encode(m.(associatedInscriptions := Without(l, t, b))))
               == Some(m.(associatedInscriptions := Without(l, t, b)))
            && EntryDropped(l, Without(l, t, b), t)
  {
    hide Decode, DecodeShard, Encode, Without;
    assert GoodAt(c, w, k);
    var m := w.Record(k).value;
    var l := m.associatedInscriptions;
    EncodeDecode(w.Data(k));
    var i :| 0 <= i < |l| && l[i].tag == t && l[i].bump == b;
    WithoutIsDrop(l, i);
    DecodeEncode(m.(associatedInscriptions := Without(l, t, b)));
  }

  /** The child ceases to exist and its entry goes; nothing else changes. */
  lemma CloseChildLeaves(c: Chain, w: World, ix: Instruction, rt: Runtime)
    requires c.Sound() && Inv(c, w) && Fair(c, w, Run(ix, rt)) && Execute(c, w, ix, rt).Ok?
    requires ix.Close? && ix.tag.Some?
    ensures w.Record(ix.metadata).Some? && Execute(c, w, ix, rt).value.Record(ix.metadata).Some?
    ensures var m, w' := w.Record(ix.metadata).value, Execute(c, w, ix, rt).value;
            var l' := w'.Record(ix.metadata).value.associatedInscriptions;
            && ix.inscription !in w'.accounts
            && Else(w, w', {ix.inscription, ix.metadata})
            && HoldsRecord(w', ix.metadata, m.(associatedInscriptions := l'))
            && EntryDropped(m.associatedInscriptions, l', ix.tag.value)
  {
    var k, t := ix.metadata, ix.tag.value;
    var b := c.AssociatedBump(t, k);
    DataResolves(c, w, ix, rt);
    assert k != ix.inscription;
    ChildClosed(c, w, ix, rt);
    EntryGone(c, w, k, t, b);
    var m := w.Record(k).value;
    PutThenClosed(w, k, m.(associatedInscriptions := Without(m.associatedInscriptions, t, b)), ix.inscription);
    hide *;
  }

  lemma PutThenClosed(w: World, k: Pubkey, m: InscriptionMetadata, i: Pubkey)
    requires i != k && Decode(Encode(m)) == Some(m)
    ensures var w' := w.Put(k, Encode(m)).Close(i);
            i !in w'.accounts && Else(w, w', {i, k}) && HoldsRecord(w', k, m) && w'.Record(k) == Some(m)
  {
    hide Decode, Encode;
  }

  // ---------------------------------------------------------------- data

  /** The value is where it was written, whatever is new beside it is the runtime's, and the rest is as it was. */
  lemma WriteDataLeaves(c: Chain, w: World, ix: Instruction, rt: Runtime)
    requires Execute(c, w, ix, rt).Ok? && ix.WriteData?
    ensures var w' := Execute(c, w, ix, rt).value;
            var d, d', end := w.Data(ix.inscription), w'.Data(ix.inscription), ix.offset + |ix.value|;
            && Holds(w', ix.inscription, d') && Else(w, w', {ix.inscription})
            && |d'| == (if end > |d| then end else |d|)
            && d'[ix.offset..end] == ix.value
            && (forall i :: 0 <= i < |d| && !(ix.offset <= i < end) ==> d'[i] == d[i])
  {
    hide DataChecks, Spliced;
    var d := w.Data(ix.inscription);
    assert Execute(c, w, ix, rt).value.Data(ix.inscription) == Spliced(d, ix.offset, ix.value, rt);
  }

  lemma ClearDataLeaves(c: Chain, w: World, ix: Instruction, rt: Runtime)
    requires Execute(c, w, ix, rt).Ok? && ix.ClearData?
    ensures var w' := Execute(c, w, ix, rt).value; Holds(w', ix.inscription, []) && Else(w, w', {ix.inscription})
  {
    hide DataChecks;
  }

  lemma AllocateLeaves(c: Chain, w: World, ix: Instruction, rt: Runtime)
    requires Execute(c, w, ix, rt).Ok? && ix.Allocate?
    ensures var w' := Execute(c, w, ix, rt).value;
            var d, d' := w.Data(ix.inscription), w'.Data(ix.inscription);
            && Holds(w', ix.inscription, d') && Else(w, w', {ix.inscription})
            && |d'| == (if ix.targetSize < |d| + 10240 then ix.targetSize else |d| + 10240)
            && (forall i :: 0 <= i < |d| && i < |d'| ==> d'[i] == d[i])
  {
    hide DataChecks;
  }
}
