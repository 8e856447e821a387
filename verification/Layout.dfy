/** The bytes of the records in numbers: what the readers and writers, whatever they agree on, have to agree with. */
module Layout {
  import opened Basics
  import opened State
  import opened Codec

  // ---------------------------------------------------------------- integers

  /** Four bytes and eight bytes as numbers, the least significant first. */
  function Word(b: seq<int>): int
    requires |b| == 4
  {
    b[0] + 0x100 * b[1] + 0x1_0000 * b[2] + 0x100_0000 * b[3]
  }

  function LongWord(b: seq<int>): int
    requires |b| == 8
  {
    b[0] + 0x100 * b[1] + 0x1_0000 * b[2] + 0x100_0000 * b[3] + 0x1_0000_0000 * b[4] + 0x100_0000_0000 * b[5]
    + 0x1_0000_0000_0000 * b[6] + 0x100_0000_0000_0000 * b[7]
  }

  lemma LittleEndian(n: nat)
    ensures n < U32_LIMIT ==> n == Word(ToLe(n, 4))
    ensures n < U64_LIMIT ==> n == LongWord(ToLe(n, 8))
  {
    Pow256Widths();
    if n < U32_LIMIT {
      FromLeToLe(n, 4);
      FourWeights(ToLe(n, 4));
    }
    if n < U64_LIMIT {
      FromLeToLe(n, 8);
      FourMore(ToLe(n, 8));
      FourWeights(ToLe(n, 8)[4..]);
    }
  }

  lemma FourWeights(b: bytes)
    requires |b| == 4
    ensures FromLe(b) == Word(b)
  {
    assert b[2..][1..] == b[3..] && b[1..][1..] == b[2..] && b[3..][1..] == [];
    assert FromLe(b[3..]) == b[3] + 256 * FromLe(b[3..][1..]);
    assert FromLe(b[2..]) == b[2] + 256 * FromLe(b[3..]);
    assert FromLe(b[1..]) == b[1] + 256 * FromLe(b[2..]);
  }

  lemma FourMore(b: bytes)
    requires |b| == 8
    ensures FromLe(b) == Word(b[..4]) + 0x1_0000_0000 * FromLe(b[4..])
  {
    assert b[3..][1..] == b[4..] && b[2..][1..] == b[3..] && b[1..][1..] == b[2..];
    assert FromLe(b[3..]) == b[3] + 256 * FromLe(b[4..]);
    assert FromLe(b[2..]) == b[2] + 256 * FromLe(b[3..]);
    assert FromLe(b[1..]) == b[1] + 256 * FromLe(b[2..]);
  }

  // ---------------------------------------------------------------- shards

  /** A shard in its eleven bytes: key, bump, number, count. */
  lemma ShardBytes(s: InscriptionShard)
    ensures var e := EncodeShard(s);
            && |e| == 11
            && e[0] == (match s.key
                        case Uninitialized => 0
                        case InscriptionMetadataAccount => 1
                        case MintInscriptionMetadataAccount => 2
                        case InscriptionShardAccount => 3)
            && e[1] == s.bump
            && e[2] == s.shardNumber
            && s.count == LongWord(e[3..])
  {
    LittleEndian(s.count);
    hide ToLe;
  }

  // ---------------------------------------------------------------- metadata

  /** A list entry: the length of the tag, the tag, the bump, the data type. */
  lemma EntryBytes(a: AssociatedInscription)
    ensures var e, n := EncodeAssociated(a), |a.tag|;
            && |e| == n + 6
            && n == Word(e[..4])
            && e[4..4 + n] == a.tag
            && e[4 + n] == a.bump
            && e[5 + n] == (match a.dataType
                            case Uninitialized => 0
                            case Binary => 1
                            case Json => 2)
  {
    LittleEndian(|a.tag|);
    hide ToLe;
  }

  /** Where entry `i` of a list starts. */
  function EntryStart(l: seq<AssociatedInscription>, i: nat): nat
    requires i <= |l|
  {
    if i == 0 then 0 else EntryStart(l, i - 1) + |l[i - 1].tag| + 6
  }

  lemma {:induction false} EntriesEnd(l: seq<AssociatedInscription>)
    ensures EntryStart(l, |l|) == |EncodeAssociations(l)|
  {
    if l != [] {
      EntryBytes(l[0]);
      StartShifts(l, |l|);
      EntriesEnd(l[1..]);
      hide EncodeAssociated;
    }
  }

  /** The entries follow each other in the order of the list. */
  lemma {:induction false} EntriesInOrder(l: seq<AssociatedInscription>, i: nat)
    requires i < |l|
    ensures EncodeAssociations(l)
         == EncodeAssociations(l[..i]) + EncodeAssociated(l[i]) + EncodeAssociations(l[i + 1..])
    ensures |EncodeAssociations(l[..i])| == EntryStart(l, i)
  {
    EntriesEnd(l[..i]);
    StartOfFront(l, i, i);
    if i == 0 {
      assert l[..0] == [];
      Regroup([], EncodeAssociated(l[0]), EncodeAssociations(l[1..]));
    } else {
      EntriesInOrder(l[1..], i - 1);
      assert l[1..][..i - 1] == l[..i][1..] && l[1..][i - 1] == l[i] && l[1..][i..] == l[i + 1..];
      assert l[..i][0] == l[0];
      var head, front := EncodeAssociated(l[0]), EncodeAssociations(l[..i][1..]);
      assert EncodeAssociations(l) == head + EncodeAssociations(l[1..]) && EncodeAssociations(l[..i]) == head + front;
      hide *;
      Grouped(head, front, EncodeAssociated(l[i]), EncodeAssociations(l[i + 1..]));
    }
  }

  lemma Grouped(a: bytes, b: bytes, c: bytes, d: bytes)
    ensures a + (b + c + d) == (a + b) + c + d
  {
  }

  lemma {:induction false} StartOfFront(l: seq<AssociatedInscription>, i: nat, n: nat)
    requires i <= n <= |l|
    ensures EntryStart(l[..n], i) == EntryStart(l, i)
  {
    if i > 0 {
      StartOfFront(l, i - 1, n);
    }
  }

  lemma Beyond(head: bytes, rest: bytes, o: nat, n: nat)
    requires o + n <= |rest|
    ensures (head + rest)[|head| + o..|head| + o + n] == rest[o..o + n]
  {
  }

  lemma {:induction false} StartShifts(l: seq<AssociatedInscription>, i: nat)
    requires 0 < |l| && i <= |l|
    ensures i > 0 ==> EntryStart(l, i) == |l[0].tag| + 6 + EntryStart(l[1..], i - 1)
  {
    if i > 1 {
      StartShifts(l, i - 1);
    }
  }

  lemma {:induction false} KeysInOrder(ks: seq<Pubkey>, i: nat)
    requires i < |ks|
    ensures |EncodeKeys(ks)| == 32 * |ks| && EncodeKeys(ks)[32 * i..32 * i + 32] == ks[i].raw
  {
    KeysTake32(ks);
    KeysTake32(ks[1..]);
    if i > 0 {
      KeysInOrder(ks[1..], i - 1);
      var head, rest := ks[0].raw, EncodeKeys(ks[1..]);
      Beyond(head, rest, 32 * (i - 1), 32);
    }
  }

  lemma {:induction false} KeysTake32(ks: seq<Pubkey>)
    ensures |EncodeKeys(ks)| == 32 * |ks|
  {
    if ks != [] {
      KeysTake32(ks[1..]);
    }
  }

  /** What precedes the rank. */
  function Head(m: InscriptionMetadata): bytes {
    [KeyByte(m.key)] + (m.inscriptionAccount.raw + ([m.bump] + [DataTypeByte(m.dataType)]))
  }

  lemma RankInTheMiddle(m: InscriptionMetadata)
    ensures Encode(m) == Head(m) + ToLe(m.inscriptionRank, 8) + EncodeTail(m) && |Head(m)| == 35
  {
    hide ToLe, EncodeTail;
  }

  /** Where the parts of variable length start, after the option at byte 43. */
  function AuthoritiesStart(m: InscriptionMetadata): nat {
    if m.inscriptionBump.Some? then 45 else 44
  }

  function EntriesStart(m: InscriptionMetadata): nat {
    AuthoritiesStart(m) + 4 + 32 * |m.updateAuthorities|
  }

  function MintStart(m: InscriptionMetadata): nat {
    EntriesStart(m) + 4 + |EncodeAssociations(m.associatedInscriptions)|
  }

  lemma Parts(e: bytes, h: bytes, r: bytes, o: bytes, n: bytes, k: bytes, l: bytes, a: bytes, g: bytes, p: bytes,
              i: nat, x: nat, z: nat)
    requires e == h + r + (o + (n + (k + (l + (a + (g + p)))))) && |h| == 35 && |r| == 8
    requires i == 43 + |o| && |n| == 4 && x == i + 4 + |k| && |l| == 4 && z == x + 4 + |a|
    ensures |e| == z + |g| + |p| && e[35..43] == r && e[43..i] == o && e[i..i + 4] == n && e[i + 4..x] == k
    ensures e[x..x + 4] == l && e[x + 4..z] == a && e[z..z + |g|] == g && e[z + |g|..] == p
  {
    var back := l + (a + (g + p));
    var front := h + r + (o + (n + k));
    assert e == front + back && |front| == x;
    assert e[x..] == back && e[..x] == front;
    assert back[..4] == l && back[4..4 + |a|] == a && back[4 + |a|..][..|g|] == g && back[4 + |a| + |g|..] == p;
  }

  /** The parts of the record, each where it starts. */
  lemma PartsInPlace(m: InscriptionMetadata)
    ensures var e, a, b, g := Encode(m), AuthoritiesStart(m), EntriesStart(m), MintStart(m);
            var q := |EncodeOptionalKey(m.mint)|;
            && |e| == g + q + 7
            && e[35..43] == ToLe(m.inscriptionRank, 8)
            && e[43..a] == EncodeOptionalByte(m.inscriptionBump)
            && e[a..a + 4] == ToLe(|m.updateAuthorities|, 4)
            && e[a + 4..b] == EncodeKeys(m.updateAuthorities)
            && e[b..b + 4] == ToLe(|m.associatedInscriptions|, 4)
            && e[b + 4..g] == EncodeAssociations(m.associatedInscriptions)
            && e[g..g + q] == EncodeOptionalKey(m.mint)
            && e[g + q..] == m.padding
  {
    RankInTheMiddle(m);
    KeysTake32(m.updateAuthorities);
    hide Encode, EncodeKeys, EncodeAssociations, EncodeOptionalKey, ToLe, Head;
    assert |EncodeOptionalByte(m.inscriptionBump)| == AuthoritiesStart(m) - 43;
    assert EncodeTail(m)
        == EncodeOptionalByte(m.inscriptionBump) + (ToLe(|m.updateAuthorities|, 4) + (EncodeKeys(m.updateAuthorities)
           + (ToLe(|m.associatedInscriptions|, 4) + (EncodeAssociations(m.associatedInscriptions)
           + (EncodeOptionalKey(m.mint) + m.padding)))));
    assert EntriesStart(m) == AuthoritiesStart(m) + 4 + |EncodeKeys(m.updateAuthorities)|;
    assert MintStart(m) == EntriesStart(m) + 4 + |EncodeAssociations(m.associatedInscriptions)|;
    hide *;
    Parts(Encode(m), Head(m), ToLe(m.inscriptionRank, 8), EncodeOptionalByte(m.inscriptionBump),
          ToLe(|m.updateAuthorities|, 4), EncodeKeys(m.updateAuthorities), ToLe(|m.associatedInscriptions|, 4),
          EncodeAssociations(m.associatedInscriptions), EncodeOptionalKey(m.mint), m.padding,
          AuthoritiesStart(m), EntriesStart(m), MintStart(m));
  }

  /** A metadata record from its first byte to its last; the bytes before the rank are those of FixedOffsets. */
  lemma RecordBytes(m: InscriptionMetadata)
    requires Fits(m)
    ensures var e, a, b, g := Encode(m), AuthoritiesStart(m), EntriesStart(m), MintStart(m);
            var n, l := |m.updateAuthorities|, m.associatedInscriptions;
            && |e| == g + (if m.mint.Some? then 33 else 1) + 7
            && m.inscriptionRank == LongWord(e[35..43])
            && (m.inscriptionBump == None ==> e[43] == 0)
            && (m.inscriptionBump.Some? ==> e[43] == 1 && e[44] == m.inscriptionBump.value)
            && n == Word(e[a..a + 4])
            && (forall i :: 0 <= i < n ==> e[a + 4 + 32 * i..a + 4 + 32 * i + 32] == m.updateAuthorities[i].raw)
            && |l| == Word(e[b..b + 4])
            && e[b + 4..g] == EncodeAssociations(l)
            && (m.mint == None ==> e[g] == 0)
            && (m.mint.Some? ==> e[g] == 1 && e[g + 1..g + 33] == m.mint.value.raw)
            && e[|e| - 7..] == m.padding
  {
    PartsInPlace(m);
    RecordWords(m);
    RecordKeys(m);
    RecordOptions(m);
    hide *;
  }

  lemma RecordWords(m: InscriptionMetadata)
    requires Fits(m)
    ensures var e, a, b := Encode(m), AuthoritiesStart(m), EntriesStart(m);
            && 43 <= a && a + 4 <= b && b + 4 <= |e|
            && m.inscriptionRank == LongWord(e[35..43])
            && |m.updateAuthorities| == Word(e[a..a + 4])
            && |m.associatedInscriptions| == Word(e[b..b + 4])
  {
    PartsInPlace(m);
    LittleEndian(m.inscriptionRank);
    LittleEndian(|m.updateAuthorities|);
    LittleEndian(|m.associatedInscriptions|);
    hide Encode, ToLe, EncodeKeys, EncodeAssociations, EncodeOptionalByte, EncodeOptionalKey, Word, LongWord;
  }

  lemma RecordOptions(m: InscriptionMetadata)
    ensures var e, g, q := Encode(m), MintStart(m), if m.mint.Some? then 33 else 1;
            && 45 <= g && |e| == g + q + 7
            && (m.inscriptionBump == None ==> e[43] == 0)
            && (m.inscriptionBump.Some? ==> e[43] == 1 && e[44] == m.inscriptionBump.value)
            && (m.mint == None ==> e[g] == 0)
            && (m.mint.Some? ==> e[g] == 1 && e[g + 1..g + 33] == m.mint.value.raw)
            && e[|e| - 7..] == m.padding
  {
    PartsInPlace(m);
    BumpPicked(Encode(m), m.inscriptionBump);
    OptionPicked(Encode(m), MintStart(m), m.mint);
    hide Encode, ToLe, EncodeKeys, EncodeAssociations, EncodeOptionalByte;
  }

  lemma RecordKeys(m: InscriptionMetadata)
    ensures var e, a := Encode(m), AuthoritiesStart(m);
            a + 4 + 32 * |m.updateAuthorities| <= |e|
            && forall i :: 0 <= i < |m.updateAuthorities| ==>
                 e[a + 4 + 32 * i..a + 4 + 32 * i + 32] == m.updateAuthorities[i].raw
  {
    PartsInPlace(m);
    hide Encode, EncodeKeys;
    var e, a, b := Encode(m), AuthoritiesStart(m), EntriesStart(m);
    forall i | 0 <= i < |m.updateAuthorities|
      ensures e[a + 4 + 32 * i..a + 4 + 32 * i + 32] == m.updateAuthorities[i].raw
    {
      KeysInOrder(m.updateAuthorities, i);
      Within(e, a + 4, b, 32 * i);
    }
  }

  lemma Within(e: bytes, i: nat, j: nat, k: nat)
    requires i + k + 32 <= j <= |e|
    ensures e[i..j][k..k + 32] == e[i + k..i + k + 32]
  {
    var s, t := e[i..j][k..k + 32], e[i + k..i + k + 32];
    forall n | 0 <= n < 32 ensures s[n] == t[n] {
      assert e[i..j][k + n] == e[i + k + n];
    }
  }

  lemma BumpPicked(e: bytes, bump: Option<byte>)
    requires |e| >= 45 && e[43..if bump.Some? then 45 else 44] == EncodeOptionalByte(bump)
    ensures bump == None ==> e[43] == 0
    ensures bump.Some? ==> e[43] == 1 && e[44] == bump.value
  {
    assert e[43..44][0] == e[43];
    assert e[43..45][0] == e[43] && e[43..45][1] == e[44];
  }

  lemma OptionPicked(e: bytes, g: nat, mint: Option<Pubkey>)
    requires g + |EncodeOptionalKey(mint)| <= |e| && e[g..g + |EncodeOptionalKey(mint)|] == EncodeOptionalKey(mint)
    ensures mint == None ==> |EncodeOptionalKey(mint)| == 1 && e[g] == 0
    ensures mint.Some? ==> |EncodeOptionalKey(mint)| == 33 && e[g] == 1 && e[g + 1..g + 33] == mint.value.raw
  {
    assert e[g..g + |EncodeOptionalKey(mint)|][0] == e[g];
    if mint.Some? {
      assert e[g + 1..g + 33] == e[g..g + 33][1..];
    }
  }
}
