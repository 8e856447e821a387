/** Program-derived addresses: the three seed layouts and what keeps them apart. */
module Addresses {
  import opened Basics

  const PREFIX: bytes := [73, 110, 115, 99, 114, 105, 112, 116, 105, 111, 110]        // "Inscription"
  const ASSOCIATION: bytes := [65, 115, 115, 111, 99, 105, 97, 116, 105, 111, 110]    // "Association"
  const SHARD_PREFIX: bytes := [83, 104, 97, 114, 100]                                // "Shard"

  /** The program's own address, 1NSCRfGeyo7wPUazGbaPBUsTM49e1k2aXewHGARfzSo. */
  const ID: Pubkey := Digest([0, 24, 60, 105, 184, 73, 7, 199, 252, 7, 108, 251, 155, 83, 161, 83,
                       167, 102, 226, 68, 184, 31, 248, 62, 238, 178, 79, 87, 120, 228, 126, 172])

  const SYSTEM_PROGRAM: Pubkey := Digest(Zeros(32))

  /** Seeds of the metadata of the data account `k`, and also of the data account of the mint `k`. */
  function MetadataSeeds(k: Pubkey): bytes {
    PREFIX + ID.raw + k.raw
  }

  function AssociatedSeeds(tag: bytes, metadata: Pubkey): bytes {
    PREFIX + ASSOCIATION + tag + metadata.raw
  }

  function ShardSeeds(number: byte): bytes {
    PREFIX + SHARD_PREFIX + ID.raw + [number]
  }

  lemma MetadataSeedsInjective(a: Pubkey, b: Pubkey)
    requires MetadataSeeds(a) == MetadataSeeds(b)
    ensures a == b
  {
    assert a.raw == MetadataSeeds(a)[43..] && b.raw == MetadataSeeds(b)[43..];
  }

  /** The tag has no delimiter, but the key that follows it has a fixed length. */
  lemma AssociatedSeedsInjective(s: bytes, a: Pubkey, t: bytes, b: Pubkey)
    requires AssociatedSeeds(s, a) == AssociatedSeeds(t, b)
    ensures s == t && a == b
  {
    assert |s| == |t|;
    assert s == AssociatedSeeds(s, a)[22..][..|s|] && t == AssociatedSeeds(t, b)[22..][..|t|];
    assert a.raw == AssociatedSeeds(s, a)[22 + |s|..] && b.raw == AssociatedSeeds(t, b)[22 + |s|..];
  }

  lemma ShardSeedsInjective(m: byte, n: byte)
    requires ShardSeeds(m) == ShardSeeds(n)
    ensures m == n
  {
    assert ShardSeeds(m)[48] == m && ShardSeeds(n)[48] == n;
  }

  /** The seeds in letters: the constants, and the order of the parts. */
  lemma MetadataSeedsSpelled(k: Pubkey)
    ensures |MetadataSeeds(k)| == 75 && forall i :: 0 <= i < 11 ==> MetadataSeeds(k)[i] == "Inscription"[i] as int
    ensures MetadataSeeds(k)[11..43] == ID.raw && MetadataSeeds(k)[43..] == k.raw
  {
  }

  lemma AssociatedSeedsSpelled(tag: bytes, k: Pubkey)
    ensures var s, n := AssociatedSeeds(tag, k), |tag|;
            && |s| == 22 + n + 32
            && (forall i :: 0 <= i < 22 ==> s[i] == "InscriptionAssociation"[i] as int)
            && s[22..22 + n] == tag && s[22 + n..] == k.raw
  {
    var s := AssociatedSeeds(tag, k);
    assert s[..22] == PREFIX + ASSOCIATION;
    forall i | 0 <= i < 22 ensures s[i] == "InscriptionAssociation"[i] as int {
      assert s[..22][i] == (PREFIX + ASSOCIATION)[i];
    }
  }

  lemma ShardSeedsSpelled(number: byte)
    ensures |ShardSeeds(number)| == 49
    ensures forall i :: 0 <= i < 16 ==> ShardSeeds(number)[i] == "InscriptionShard"[i] as int
    ensures ShardSeeds(number)[16..48] == ID.raw && ShardSeeds(number)[48] == number
  {
  }

  /**
    No two layouts meet, whatever the tag: the byte after the prefix is the program id's leading zero,
    the 'A' of "Association" or the 'S' of "Shard". That byte is what separates the layouts when the
    lengths agree, as they do for a 21-byte tag.
   */
  lemma LayoutsDisjoint(k: Pubkey, tag: bytes, metadata: Pubkey, number: byte)
    ensures MetadataSeeds(k) != AssociatedSeeds(tag, metadata)
    ensures MetadataSeeds(k) != ShardSeeds(number)
    ensures AssociatedSeeds(tag, metadata) != ShardSeeds(number)
    ensures |tag| == 21 <==> |MetadataSeeds(k)| == |AssociatedSeeds(tag, metadata)|
  {
    assert MetadataSeeds(k)[11] == 0;
    assert AssociatedSeeds(tag, metadata)[11] == 65;
    assert ShardSeeds(number)[11] == 83;
  }

  // ---------------------------------------------------------------- the chain's services

  datatype TokenMetadataRecord = TokenMetadataRecord(mint: Pubkey, updateAuthority: Pubkey)

  /**
    What the runtime and the other programs provide. `hash` is the digest of seeds and bump, `bump` the
    canonical bump of a seed string, and `tokenMetadata` the parser of Token Metadata records. `derived`
    tells program-derived addresses from keys that can sign. `known` holds the seed strings in play.
    `legacy` says whether mint inscriptions made before the mint was recorded may be present.
   */
  datatype Chain = Chain(
    hash: bytes -> Pubkey,
    bump: bytes -> byte,
    tokenMetadata: bytes -> Option<TokenMetadataRecord>,
    derived: Pubkey -> bool,
    known: set<bytes>,
    legacy: bool
  ) {
    function Address(seeds: bytes): Pubkey {
      hash(seeds + [bump(seeds)])
    }

    function MetadataAddress(k: Pubkey): Pubkey {
      Address(MetadataSeeds(k))
    }

    function MetadataBump(k: Pubkey): byte {
      bump(MetadataSeeds(k))
    }

    function AssociatedAddress(tag: bytes, metadata: Pubkey): Pubkey {
      Address(AssociatedSeeds(tag, metadata))
    }

    function AssociatedBump(tag: bytes, metadata: Pubkey): byte {
      bump(AssociatedSeeds(tag, metadata))
    }

    function ShardAddress(number: byte): Pubkey {
      Address(ShardSeeds(number))
    }

    function ShardBump(number: byte): byte {
      bump(ShardSeeds(number))
    }

    ghost predicate KnowsMetadata(k: Pubkey) {
      MetadataSeeds(k) in known
    }

    ghost predicate KnowsAssociated(tag: bytes, metadata: Pubkey) {
      AssociatedSeeds(tag, metadata) in known
    }

    /**
      No two known seed strings collide under the hash, and what they derive never signs. Collision
      freedom is asked of the finite set `known` only: no function is injective from all seed strings
      into 32 bytes.
     */
    ghost predicate Sound() {
      && (forall s, t :: s in known && t in known && Address(s) == Address(t)
            ==> s + [bump(s)] == t + [bump(t)])
      && (forall s :: s in known ==> derived(Address(s)))
      && (forall n: byte :: ShardSeeds(n) in known)
    }
  }

  lemma AddressInjective(c: Chain, s: bytes, t: bytes)
    requires c.Sound() && s in c.known && t in c.known && c.Address(s) == c.Address(t)
    ensures s == t
  {
    assert (s + [c.bump(s)])[..|s|] == s;
    assert (t + [c.bump(t)])[..|t|] == t;
  }

  lemma SameMetadataAddress(c: Chain, a: Pubkey, b: Pubkey)
    requires c.Sound() && c.KnowsMetadata(a) && c.KnowsMetadata(b)
    requires c.MetadataAddress(a) == c.MetadataAddress(b)
    ensures a == b
  {
    AddressInjective(c, MetadataSeeds(a), MetadataSeeds(b));
    MetadataSeedsInjective(a, b);
  }

  lemma SameAssociatedAddress(c: Chain, s: bytes, a: Pubkey, t: bytes, b: Pubkey)
    requires c.Sound() && c.KnowsAssociated(s, a) && c.KnowsAssociated(t, b)
    requires c.AssociatedAddress(s, a) == c.AssociatedAddress(t, b)
    ensures s == t && a == b
  {
    AddressInjective(c, AssociatedSeeds(s, a), AssociatedSeeds(t, b));
    AssociatedSeedsInjective(s, a, t, b);
  }

  lemma SameShardAddress(c: Chain, m: byte, n: byte)
    requires c.Sound() && c.ShardAddress(m) == c.ShardAddress(n)
    ensures m == n
  {
    AddressInjective(c, ShardSeeds(m), ShardSeeds(n));
    ShardSeedsInjective(m, n);
  }

  /** One formula serves metadata accounts and mint data accounts, but the three kinds of address never meet. */
  lemma AddressesDisjoint(c: Chain)
    requires c.Sound()
    ensures forall k, t, m :: c.KnowsMetadata(k) && c.KnowsAssociated(t, m)
              ==> c.MetadataAddress(k) != c.AssociatedAddress(t, m)
    ensures forall k, n: byte :: c.KnowsMetadata(k) ==> c.MetadataAddress(k) != c.ShardAddress(n)
    ensures forall t, m, n: byte :: c.KnowsAssociated(t, m) ==> c.AssociatedAddress(t, m) != c.ShardAddress(n)
    ensures forall k :: c.KnowsMetadata(k) ==> c.derived(c.MetadataAddress(k))
    ensures forall t, m :: c.KnowsAssociated(t, m) ==> c.derived(c.AssociatedAddress(t, m))
    ensures forall n: byte :: c.derived(c.ShardAddress(n))
  {
    forall k, t, m | c.KnowsMetadata(k) && c.KnowsAssociated(t, m)
      ensures c.MetadataAddress(k) != c.AssociatedAddress(t, m)
    {
      LayoutsDisjoint(k, t, m, 0);
      if c.MetadataAddress(k) == c.AssociatedAddress(t, m) {
        AddressInjective(c, MetadataSeeds(k), AssociatedSeeds(t, m));
      }
    }
    forall k, n: byte | c.KnowsMetadata(k) ensures c.MetadataAddress(k) != c.ShardAddress(n) {
      LayoutsDisjoint(k, [], k, n);
      if c.MetadataAddress(k) == c.ShardAddress(n) {
        AddressInjective(c, MetadataSeeds(k), ShardSeeds(n));
      }
    }
    forall t, m, n: byte | c.KnowsAssociated(t, m) ensures c.AssociatedAddress(t, m) != c.ShardAddress(n) {
      LayoutsDisjoint(m, t, m, n);
      if c.AssociatedAddress(t, m) == c.ShardAddress(n) {
        AddressInjective(c, AssociatedSeeds(t, m), ShardSeeds(n));
      }
    }
  }
}
