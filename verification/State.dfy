/** The account records of state.rs and their Borsh layout. */
module State {
  import opened Basics

  const SHARD_COUNT: nat := 32

  // ---------------------------------------------------------------- UTF-8 tags

  predicate Continuation(x: byte) {
    0x80 <= x <= 0xBF
  }

  /** The number of bytes of the well-formed UTF-8 scalar at the front of `b`, or 0 when there is none. */
  function ScalarLength(b: bytes): (n: nat)
    requires b != []
    ensures n <= |b|
  {
    var x := b[0];
    if x < 0x80 then 1
    else if 0xC2 <= x <= 0xDF then
      if |b| >= 2 && Continuation(b[1]) then 2 else 0
    else if 0xE0 <= x <= 0xEF then
      if |b| >= 3 && Continuation(b[1]) && Continuation(b[2])
         && (x == 0xE0 ==> b[1] >= 0xA0) && (x == 0xED ==> b[1] <= 0x9F) then 3 else 0
    else if 0xF0 <= x <= 0xF4 then
      if |b| >= 4 && Continuation(b[1]) && Continuation(b[2]) && Continuation(b[3])
         && (x == 0xF0 ==> b[1] >= 0x90) && (x == 0xF4 ==> b[1] <= 0x8F) then 4 else 0
    else 0
  }

  predicate Utf8(b: bytes) {
    b == [] || (ScalarLength(b) > 0 && Utf8(b[ScalarLength(b)..]))
  }

  /** A Rust `String` that Borsh can carry. */
  type Tag = t: bytes | |t| < U32_LIMIT && Utf8(t)

  // ---------------------------------------------------------------- records

  datatype Key =
    | Uninitialized
    | InscriptionMetadataAccount
    | MintInscriptionMetadataAccount
    | InscriptionShardAccount

  datatype DataType = Uninitialized | Binary | Json

  datatype AssociatedInscription = AssociatedInscription(tag: Tag, bump: byte, dataType: DataType)

  type Padding = p: bytes | |p| == 7 witness Zeros(7)

  datatype InscriptionMetadata = InscriptionMetadata(
    key: Key,
    inscriptionAccount: Pubkey,
    bump: byte,
    dataType: DataType,
    inscriptionRank: u64,
    inscriptionBump: Option<byte>,
    updateAuthorities: seq<Pubkey>,
    associatedInscriptions: seq<AssociatedInscription>,
    mint: Option<Pubkey>,
    padding: Padding
  )

  datatype InscriptionShard = InscriptionShard(key: Key, bump: byte, shardNumber: byte, count: u64)

  /** The list lengths Borsh can write; `try_to_vec` fails on the other records. */
  predicate Fits(m: InscriptionMetadata) {
    |m.updateAuthorities| < U32_LIMIT && |m.associatedInscriptions| < U32_LIMIT
  }

  // ---------------------------------------------------------------- writing

  function KeyByte(k: Key): byte {
    match k
    case Uninitialized => 0
    case InscriptionMetadataAccount => 1
    case MintInscriptionMetadataAccount => 2
    case InscriptionShardAccount => 3
  }

  function DataTypeByte(d: DataType): byte {
    match d
    case Uninitialized => 0
    case Binary => 1
    case Json => 2
  }

  function EncodeOptionalByte(o: Option<byte>): bytes {
    match o
    case None => [0]
    case Some(x) => [1, x]
  }

  function EncodeOptionalKey(o: Option<Pubkey>): bytes {
    match o
    case None => [0]
    case Some(k) => [1] + k.raw
  }

  function EncodeKeys(ks: seq<Pubkey>): bytes {
    if ks == [] then [] else ks[0].raw + EncodeKeys(ks[1..])
  }

  function EncodeAssociated(a: AssociatedInscription): bytes {
    ToLe(|a.tag|, 4) + (a.tag + [a.bump, DataTypeByte(a.dataType)])
  }

  function EncodeAssociations(l: seq<AssociatedInscription>): bytes {
    if l == [] then [] else EncodeAssociated(l[0]) + EncodeAssociations(l[1..])
  }

  /** The part of the record that follows the rank. */
  function EncodeTail(m: InscriptionMetadata): bytes {
    EncodeOptionalByte(m.inscriptionBump)
    + (ToLe(|m.updateAuthorities|, 4) + (EncodeKeys(m.updateAuthorities)
    + (ToLe(|m.associatedInscriptions|, 4) + (EncodeAssociations(m.associatedInscriptions)
    + (EncodeOptionalKey(m.mint) + m.padding)))))
  }

  function Encode(m: InscriptionMetadata): bytes {
    [KeyByte(m.key)] + (m.inscriptionAccount.raw + ([m.bump] + ([DataTypeByte(m.dataType)]
    + (ToLe(m.inscriptionRank, 8) + EncodeTail(m)))))
  }

  function EncodeShard(s: InscriptionShard): bytes {
    [KeyByte(s.key), s.bump, s.shardNumber] + ToLe(s.count, 8)
  }

  // ---------------------------------------------------------------- reading

  /** What a reader took from the front of its input, and what it left. */
  datatype Parsed<+T> = Stuck | Read(value: T, rest: bytes)

  function ReadByte(b: bytes): Parsed<byte> {
    if b == [] then Stuck else Read(b[0], b[1..])
  }

  function ReadBytes(n: nat, b: bytes): (p: Parsed<bytes>)
    ensures p.Read? ==> |p.value| == n
  {
    if |b| < n then Stuck else Read(b[..n], b[n..])
  }

  function ReadPubkey(b: bytes): Parsed<Pubkey> {
    if |b| < 32 then Stuck else Read(Digest(b[..32]), b[32..])
  }

  function ReadPadding(b: bytes): Parsed<Padding> {
    if |b| < 7 then Stuck else Read(b[..7], b[7..])
  }

  function ReadU32(b: bytes): (p: Parsed<nat>)
    ensures p.Read? ==> p.value < U32_LIMIT
  {
    if |b| < 4 then Stuck
    else
      ToLeFromLe(b[..4]); Pow256Widths();
      Read(FromLe(b[..4]), b[4..])
  }

  function ReadU64(b: bytes): Parsed<u64> {
    if |b| < 8 then Stuck
    else
      ToLeFromLe(b[..8]); Pow256Widths();
      Read(FromLe(b[..8]), b[8..])
  }

  function ReadKey(b: bytes): Parsed<Key> {
    if b == [] then Stuck
    else if b[0] == 0 then Read(Key.Uninitialized, b[1..])
    else if b[0] == 1 then Read(InscriptionMetadataAccount, b[1..])
    else if b[0] == 2 then Read(MintInscriptionMetadataAccount, b[1..])
    else if b[0] == 3 then Read(InscriptionShardAccount, b[1..])
    else Stuck
  }

  function ReadDataType(b: bytes): Parsed<DataType> {
    if b == [] then Stuck
    else if b[0] == 0 then Read(DataType.Uninitialized, b[1..])
    else if b[0] == 1 then Read(Binary, b[1..])
    else if b[0] == 2 then Read(Json, b[1..])
    else Stuck
  }

  function ReadOptionalByte(b: bytes): Parsed<Option<byte>> {
    if b == [] then Stuck
    else if b[0] == 0 then Read(None, b[1..])
    else if b[0] == 1 && |b| >= 2 then Read(Some(b[1]), b[2..])
    else Stuck
  }

  function ReadOptionalKey(b: bytes): Parsed<Option<Pubkey>> {
    if b == [] then Stuck
    else if b[0] == 0 then Read(None, b[1..])
    else if b[0] == 1 && |b| >= 33 then Read(Some(Digest(b[1..33])), b[33..])
    else Stuck
  }

  function ReadKeys(n: nat, b: bytes): (p: Parsed<seq<Pubkey>>)
    ensures p.Read? ==> |p.value| == n
  {
    if n == 0 then Read([], b)
    else
      match ReadPubkey(b)
      case Stuck => Stuck
      case Read(k, b1) =>
        match ReadKeys(n - 1, b1)
        case Stuck => Stuck
        case Read(ks, b2) => Read([k] + ks, b2)
  }

  function ReadTag(b: bytes): Parsed<Tag> {
    match ReadU32(b)
    case Stuck => Stuck
    case Read(n, b1) =>
      match ReadBytes(n, b1)
      case Stuck => Stuck
      case Read(t, b2) => if Utf8(t) then Read(t, b2) else Stuck
  }

  function ReadAssociated(b: bytes): Parsed<AssociatedInscription> {
    match ReadTag(b)
    case Stuck => Stuck
    case Read(t, b1) =>
      match ReadByte(b1)
      case Stuck => Stuck
      case Read(bump, b2) =>
        match ReadDataType(b2)
        case Stuck => Stuck
        case Read(d, b3) => Read(AssociatedInscription(t, bump, d), b3)
  }

  function ReadAssociations(n: nat, b: bytes): (p: Parsed<seq<AssociatedInscription>>)
    ensures p.Read? ==> |p.value| == n
  {
    if n == 0 then Read([], b)
    else
      match ReadAssociated(b)
      case Stuck => Stuck
      case Read(a, b1) =>
        match ReadAssociations(n - 1, b1)
        case Stuck => Stuck
        case Read(l, b2) => Read([a] + l, b2)
  }

  function ReadKeyList(b: bytes): Parsed<seq<Pubkey>> {
    match ReadU32(b)
    case Stuck => Stuck
    case Read(n, b1) => ReadKeys(n, b1)
  }

  function ReadAssociationList(b: bytes): Parsed<seq<AssociatedInscription>> {
    match ReadU32(b)
    case Stuck => Stuck
    case Read(n, b1) => ReadAssociations(n, b1)
  }

  /** `try_from_slice`: the whole input must be read. */
  function Decode(b: bytes): Option<InscriptionMetadata> {
    match ReadKey(b)
    case Stuck => None
    case Read(key, b1) =>
      match ReadPubkey(b1)
      case Stuck => None
      case Read(account, b2) =>
        match ReadByte(b2)
        case Stuck => None
        case Read(bump, b3) =>
          match ReadDataType(b3)
          case Stuck => None
          case Read(dataType, b4) =>
            match ReadU64(b4)
            case Stuck => None
            case Read(rank, b5) =>
              DecodeTail(InscriptionMetadata(key, account, bump, dataType, rank, None, [], [], None, Zeros(7)), b5)
  }

  /** Reads what follows the rank, to the end of the input. */
  function DecodeTail(head: InscriptionMetadata, b: bytes): Option<InscriptionMetadata> {
    match ReadOptionalByte(b)
    case Stuck => None
    case Read(inscriptionBump, b1) =>
      match ReadKeyList(b1)
      case Stuck => None
      case Read(authorities, b2) =>
        match ReadAssociationList(b2)
        case Stuck => None
        case Read(associations, b3) =>
          match ReadOptionalKey(b3)
          case Stuck => None
          case Read(mint, b4) =>
            match ReadPadding(b4)
            case Stuck => None
            case Read(padding, b5) =>
              if b5 != [] then None
              else Some(head.(inscriptionBump := inscriptionBump, updateAuthorities := authorities,
                              associatedInscriptions := associations, mint := mint, padding := padding))
  }

  function DecodeShard(b: bytes): Option<InscriptionShard> {
    match ReadKey(b)
    case Stuck => None
    case Read(key, b1) =>
      match ReadByte(b1)
      case Stuck => None
      case Read(bump, b2) =>
        match ReadByte(b2)
        case Stuck => None
        case Read(number, b3) =>
          match ReadU64(b3)
          case Stuck => None
          case Read(count, b4) => if b4 != [] then None else Some(InscriptionShard(key, bump, number, count))
  }
}
