/** The Borsh layout of the records round-trips in both directions. */
module Codec {
  import opened Basics
  import opened State

  // ---------------------------------------------------------------- fields, written then read

  lemma IntWriteRead(n: nat, rest: bytes)
    ensures n < U32_LIMIT ==> ReadU32(ToLe(n, 4) + rest) == Read(n, rest)
    ensures n < U64_LIMIT ==> ReadU64(ToLe(n, 8) + rest) == Read(n, rest)
  {
    Pow256Widths();
    assert (ToLe(n, 4) + rest)[..4] == ToLe(n, 4) && (ToLe(n, 4) + rest)[4..] == rest;
    assert (ToLe(n, 8) + rest)[..8] == ToLe(n, 8) && (ToLe(n, 8) + rest)[8..] == rest;
    if n < U32_LIMIT { FromLeToLe(n, 4); }
    if n < U64_LIMIT { FromLeToLe(n, 8); }
  }

  lemma FixedWriteRead(k: Pubkey, p: Padding, rest: bytes)
    ensures ReadPubkey(k.raw + rest) == Read(k, rest)
    ensures ReadPadding(p + rest) == Read(p, rest)
  {
    assert (k.raw + rest)[..32] == k.raw && (k.raw + rest)[32..] == rest;
    assert (p + rest)[..7] == p && (p + rest)[7..] == rest;
  }

  lemma OptionalWriteRead(o: Option<byte>, k: Option<Pubkey>, rest: bytes)
    ensures ReadOptionalByte(EncodeOptionalByte(o) + rest) == Read(o, rest)
    ensures ReadOptionalKey(EncodeOptionalKey(k) + rest) == Read(k, rest)
  {
    if o.Some? {
      assert (EncodeOptionalByte(o) + rest)[2..] == rest;
    } else {
      assert (EncodeOptionalByte(o) + rest)[1..] == rest;
    }
    var w := EncodeOptionalKey(k) + rest;
    if k.Some? {
      assert w[1..33] == k.value.raw && w[33..] == rest;
    } else {
      assert w[1..] == rest;
    }
  }

  lemma EnumWriteRead(k: Key, d: DataType, x: byte, rest: bytes)
    ensures ReadKey([KeyByte(k)] + rest) == Read(k, rest)
    ensures ReadDataType([DataTypeByte(d)] + rest) == Read(d, rest)
    ensures ReadByte([x] + rest) == Read(x, rest)
  {
    assert forall y: byte :: ([y] + rest)[1..] == rest;
  }

  lemma {:induction false} KeysWriteRead(ks: seq<Pubkey>, rest: bytes)
    ensures ReadKeys(|ks|, EncodeKeys(ks) + rest) == Read(ks, rest)
  {
    hide ReadPubkey;
    if ks == [] {
      assert EncodeKeys(ks) + rest == rest;
    } else {
      var tail := EncodeKeys(ks[1..]) + rest;
      assert EncodeKeys(ks) + rest == ks[0].raw + tail;
      FixedWriteRead(ks[0], Zeros(7), tail);
      KeysWriteRead(ks[1..], rest);
      assert [ks[0]] + ks[1..] == ks;
    }
  }

  lemma AssociatedWriteRead(a: AssociatedInscription, rest: bytes)
    ensures ReadAssociated(EncodeAssociated(a) + rest) == Read(a, rest)
  {
    var b3 := [DataTypeByte(a.dataType)] + rest;
    var b2 := [a.bump] + b3;
    var b1 := a.tag + b2;
    assert EncodeAssociated(a) + rest == ToLe(|a.tag|, 4) + b1;
    IntWriteRead(|a.tag|, b1);
    assert b1[..|a.tag|] == a.tag && b1[|a.tag|..] == b2;
    assert ReadTag(EncodeAssociated(a) + rest) == Read(a.tag, b2);
    EnumWriteRead(Key.Uninitialized, a.dataType, a.bump, b3);
    EnumWriteRead(Key.Uninitialized, a.dataType, a.bump, rest);
  }

  lemma {:induction false} AssociationsWriteRead(l: seq<AssociatedInscription>, rest: bytes)
    ensures ReadAssociations(|l|, EncodeAssociations(l) + rest) == Read(l, rest)
  {
    hide ReadAssociated, EncodeAssociated;
    if l == [] {
      assert EncodeAssociations(l) + rest == rest;
    } else {
      var tail := EncodeAssociations(l[1..]) + rest;
      assert EncodeAssociations(l) + rest == EncodeAssociated(l[0]) + tail;
      AssociatedWriteRead(l[0], tail);
      AssociationsWriteRead(l[1..], rest);
      assert [l[0]] + l[1..] == l;
    }
  }

  // ---------------------------------------------------------------- fields, read then written

  lemma IntReadWrite(b: bytes)
    ensures ReadU32(b).Read? ==> b == ToLe(ReadU32(b).value, 4) + ReadU32(b).rest
    ensures ReadU64(b).Read? ==> b == ToLe(ReadU64(b).value, 8) + ReadU64(b).rest
  {
    if |b| >= 4 { ToLeFromLe(b[..4]); }
    if |b| >= 8 { ToLeFromLe(b[..8]); }
  }

  lemma OptionalReadWrite(b: bytes)
    ensures var p := ReadOptionalByte(b); p.Read? ==> b == EncodeOptionalByte(p.value) + p.rest
    ensures var p := ReadOptionalKey(b); p.Read? ==> b == EncodeOptionalKey(p.value) + p.rest
  {
    if b != [] && b[0] == 1 && |b| >= 33 {
      assert b == [b[0]] + b[1..33] + b[33..];
    }
  }

  lemma EnumReadWrite(b: bytes)
    ensures var p := ReadKey(b); p.Read? ==> b == [KeyByte(p.value)] + p.rest
    ensures var p := ReadDataType(b); p.Read? ==> b == [DataTypeByte(p.value)] + p.rest
    ensures var p := ReadByte(b); p.Read? ==> b == [p.value] + p.rest
    ensures var p := ReadPubkey(b); p.Read? ==> b == p.value.raw + p.rest
    ensures var p := ReadPadding(b); p.Read? ==> b == p.value + p.rest
  {
  }

  lemma {:induction false} KeysReadWrite(n: nat, b: bytes)
    ensures var p := ReadKeys(n, b); p.Read? ==> b == EncodeKeys(p.value) + p.rest
  {
    var p := ReadKeys(n, b);
    if n > 0 && p.Read? {
      var b1 := ReadPubkey(b).rest;
      EnumReadWrite(b);
      KeysReadWrite(n - 1, b1);
      assert p.value[1..] == ReadKeys(n - 1, b1).value;
    }
  }

  lemma Regroup(a: bytes, b: bytes, c: bytes)
    ensures a + (b + c) == (a + b) + c
  {
  }

  lemma TagReadWrite(b: bytes)
    ensures var p := ReadTag(b); p.Read? ==> b == ToLe(|p.value|, 4) + (p.value + p.rest)
  {
    hide Utf8, ToLe, FromLe;
    IntReadWrite(b);
    var b0 := ReadU32(b);
    if b0.Read? && ReadTag(b).Read? {
      assert b0.rest == ReadTag(b).value + ReadTag(b).rest;
    }
  }

  lemma RegroupFields(n: bytes, t: bytes, x: bytes, d: bytes, rest: bytes)
    ensures n + (t + (x + (d + rest))) == (n + (t + (x + d))) + rest
  {
    Regroup(x, d, rest);
    Regroup(t, x + d, rest);
    Regroup(n, t + (x + d), rest);
  }

  lemma AssociatedReadWrite(b: bytes)
    ensures var p := ReadAssociated(b); p.Read? ==> b == EncodeAssociated(p.value) + p.rest
  {
    hide ReadTag, ToLe, DataTypeByte, ReadByte, ReadDataType;
    match ReadTag(b)
    case Stuck =>
    case Read(t, b1) =>
      TagReadWrite(b);
      match ReadByte(b1)
      case Stuck =>
      case Read(x, b2) =>
        EnumReadWrite(b1);
        EnumReadWrite(b2);
        match ReadDataType(b2)
        case Stuck =>
        case Read(d, b3) =>
          RegroupFields(ToLe(|t|, 4), t, [x], [DataTypeByte(d)], b3);
          assert [x] + [DataTypeByte(d)] == [x, DataTypeByte(d)];
  }

  lemma {:induction false} AssociationsReadWrite(n: nat, b: bytes)
    ensures var p := ReadAssociations(n, b); p.Read? ==> b == EncodeAssociations(p.value) + p.rest
  {
    hide ReadAssociated, EncodeAssociated;
    if n > 0 {
      match ReadAssociated(b)
      case Stuck =>
      case Read(a, b1) =>
        AssociatedReadWrite(b);
        AssociationsReadWrite(n - 1, b1);
        match ReadAssociations(n - 1, b1)
        case Stuck =>
        case Read(l, b2) =>
          assert ([a] + l)[1..] == l;
          Regroup(EncodeAssociated(a), EncodeAssociations(l), b2);
    }
  }

  // ---------------------------------------------------------------- whole records

  lemma TailWriteRead(head: InscriptionMetadata, m: InscriptionMetadata)
    requires Fits(m)
    ensures DecodeTail(head, EncodeTail(m))
            == Some(head.(inscriptionBump := m.inscriptionBump, updateAuthorities := m.updateAuthorities,
                          associatedInscriptions := m.associatedInscriptions, mint := m.mint, padding := m.padding))
  {
    var b5 := m.padding + [];
    var b4 := EncodeOptionalKey(m.mint) + b5;
    var b3' := EncodeAssociations(m.associatedInscriptions) + b4;
    var b3 := ToLe(|m.associatedInscriptions|, 4) + b3';
    var b2' := EncodeKeys(m.updateAuthorities) + b3;
    var b2 := ToLe(|m.updateAuthorities|, 4) + b2';
    assert m.padding == b5;
    OptionalWriteRead(m.inscriptionBump, None, b2);
    IntWriteRead(|m.updateAuthorities|, b2');
    KeysWriteRead(m.updateAuthorities, b3);
    IntWriteRead(|m.associatedInscriptions|, b3');
    AssociationsWriteRead(m.associatedInscriptions, b4);
    OptionalWriteRead(None, m.mint, b5);
    FixedWriteRead(Digest(Zeros(32)), m.padding, []);
  }

  /** Decoding an encoded record gives the record back. */
  lemma DecodeEncode(m: InscriptionMetadata)
    requires Fits(m)
    ensures Decode(Encode(m)) == Some(m)
  {
    var b5 := EncodeTail(m);
    var b4 := ToLe(m.inscriptionRank, 8) + b5;
    var b3 := [DataTypeByte(m.dataType)] + b4;
    var b2 := [m.bump] + b3;
    var b1 := m.inscriptionAccount.raw + b2;
    EnumWriteRead(m.key, m.dataType, m.bump, b1);
    FixedWriteRead(m.inscriptionAccount, Zeros(7), b2);
    EnumWriteRead(m.key, m.dataType, m.bump, b3);
    EnumWriteRead(m.key, m.dataType, m.bump, b4);
    IntWriteRead(m.inscriptionRank, b5);
    hide EncodeTail, DecodeTail;
    var head := InscriptionMetadata(m.key, m.inscriptionAccount, m.bump, m.dataType, m.inscriptionRank,
                                    None, [], [], None, Zeros(7));
    assert Decode(Encode(m)) == DecodeTail(head, b5);
    TailWriteRead(head, m);
  }

  lemma TailReadWrite(head: InscriptionMetadata, b: bytes)
    requires DecodeTail(head, b).Some?
    ensures var m := DecodeTail(head, b).value;
            EncodeTail(m) == b && Fits(m)
            && m == head.(inscriptionBump := m.inscriptionBump, updateAuthorities := m.updateAuthorities,
                          associatedInscriptions := m.associatedInscriptions, mint := m.mint, padding := m.padding)
  {
    var b1 := ReadOptionalByte(b).rest;
    var b1' := ReadU32(b1).rest;
    var b2 := ReadKeyList(b1).rest;
    var b2' := ReadU32(b2).rest;
    var b3 := ReadAssociationList(b2).rest;
    var b4 := ReadOptionalKey(b3).rest;
    OptionalReadWrite(b);
    IntReadWrite(b1);
    KeysReadWrite(ReadU32(b1).value, b1');
    IntReadWrite(b2);
    AssociationsReadWrite(ReadU32(b2).value, b2');
    OptionalReadWrite(b3);
    EnumReadWrite(b4);
    hide ReadOptionalByte, ReadU32, ReadKeys, ReadAssociations, ReadOptionalKey, ReadPadding, ToLe, EncodeKeys,
         EncodeAssociations, EncodeOptionalByte, EncodeOptionalKey;
    assert ReadPadding(b4).rest == [];
    var m := DecodeTail(head, b).value;
    assert b4 == m.padding;
  }

  /** Encoding a decoded record gives the bytes back: no spare byte and no second spelling is accepted. */
  lemma EncodeDecode(b: bytes)
    requires Decode(b).Some?
    ensures Encode(Decode(b).value) == b
    ensures Fits(Decode(b).value)
  {
    var b1 := ReadKey(b).rest;
    var b2 := ReadPubkey(b1).rest;
    var b3 := ReadByte(b2).rest;
    var b4 := ReadDataType(b3).rest;
    var b5 := ReadU64(b4).rest;
    EnumReadWrite(b);
    EnumReadWrite(b1);
    EnumReadWrite(b2);
    EnumReadWrite(b3);
    IntReadWrite(b4);
    var head := InscriptionMetadata(ReadKey(b).value, ReadPubkey(b1).value, ReadByte(b2).value, ReadDataType(b3).value,
                                    ReadU64(b4).value, None, [], [], None, Zeros(7));
    hide EncodeTail, DecodeTail, EncodeKeys, EncodeAssociations;
    assert Decode(b) == DecodeTail(head, b5);
    TailReadWrite(head, b5);
  }

  lemma ShardDecodeEncode(s: InscriptionShard)
    ensures DecodeShard(EncodeShard(s)) == Some(s)
    ensures |EncodeShard(s)| == 11
  {
    var b4 := ToLe(s.count, 8) + [];
    var b3 := [s.shardNumber] + b4;
    var b2 := [s.bump] + b3;
    assert EncodeShard(s) == [KeyByte(s.key)] + b2;
    EnumWriteRead(s.key, Binary, 0, b2);
    EnumWriteRead(s.key, Binary, s.bump, b3);
    EnumWriteRead(s.key, Binary, s.shardNumber, b4);
    IntWriteRead(s.count, []);
  }

  lemma ShardEncodeDecode(b: bytes)
    requires DecodeShard(b).Some?
    ensures EncodeShard(DecodeShard(b).value) == b
  {
    var b1 := ReadKey(b).rest;
    var b2 := ReadByte(b1).rest;
    var b3 := ReadByte(b2).rest;
    EnumReadWrite(b);
    EnumReadWrite(b1);
    EnumReadWrite(b2);
    IntReadWrite(b3);
  }

  /** The fixed offsets that the account queries of the clients rely on. */
  lemma FixedOffsets(m: InscriptionMetadata)
    ensures var e := Encode(m);
            |e| >= 60
            && e[0] == (match m.key
                        case Uninitialized => 0
                        case InscriptionMetadataAccount => 1
                        case MintInscriptionMetadataAccount => 2
                        case InscriptionShardAccount => 3)
            && e[1..33] == m.inscriptionAccount.raw
            && e[33] == m.bump
            && e[34] == (match m.dataType
                         case Uninitialized => 0
                         case Binary => 1
                         case Json => 2)
            && FromLe(e[35..43]) == m.inscriptionRank
            && e[43] == (if m.inscriptionBump.Some? then 1 else 0)
  {
    Pow256Widths();
    FromLeToLe(m.inscriptionRank, 8);
    var tail := EncodeTail(m);
    assert |tail| >= 17 && tail[0] == (if m.inscriptionBump.Some? then 1 else 0);
    hide EncodeTail, ToLe;
    var e := Encode(m);
    assert e[35..43] == ToLe(m.inscriptionRank, 8);
  }

  /** Where no inscription bump precedes it, the number of authorities has a fixed offset too. */
  lemma AuthorityCountOffset(m: InscriptionMetadata)
    requires m.inscriptionBump == None
    ensures |Encode(m)| >= 60 && Encode(m)[44..48] == ToLe(|m.updateAuthorities|, 4)
  {
    var tail := EncodeTail(m);
    assert |tail| >= 17 && tail[1..5] == ToLe(|m.updateAuthorities|, 4);
    hide EncodeTail, ToLe;
    var e := Encode(m);
    assert e[43..] == tail;
    assert e[44..48] == e[43..][1..5];
  }
}
