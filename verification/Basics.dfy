/** Bytes, fixed-width integers and the result types the other modules share. */
module Basics {

  type byte = x: int | 0 <= x < 256
  type bytes = seq<byte>

  const U32_LIMIT: nat := 0x1_0000_0000
  const U64_LIMIT: nat := 0x1_0000_0000_0000_0000

  type u64 = x: int | 0 <= x < 0x1_0000_0000_0000_0000

  /** A 32-byte account address. */
  datatype Digest = Digest(raw: bytes)
  type Pubkey = k: Digest | |k.raw| == 32 witness Digest(Zeros(32))

  datatype Option<+T> = None | Some(value: T)

  /** The program's error codes, followed by the failures of the libraries and the runtime. */
  datatype Error =
    | AlreadyInitialized
    | NotInitialized
    | DerivedKeyInvalid
    | InvalidSystemProgram
    | InvalidAuthority
    | NumericalOverflow
    | IncorrectOwner
    | MintMismatch
    | InvalidShardAccount
    | AssociationTagCannotBeBlank
    | AssociationTagTooLong
    | AuthorityAlreadyExists
    | RemainingAssociatedInscriptionAccounts
    | InvalidInscriptionMetadataAccount
    | BorshIo
    | MissingRequiredSignature
    | RuntimeFailure

  datatype Result<+T> = Ok(value: T) | Err(error: Error)

  datatype Check = Pass | Fail(error: Error) {
    /** The first of two checks to fail decides. */
    function Then(next: Check): Check {
      if Pass? then next else this
    }
  }

  function Zeros(n: nat): (z: bytes)
    ensures |z| == n
  {
    seq(n, _ => 0)
  }

  function Min(a: int, b: int): int {
    if a <= b then a else b
  }

  function Max(a: int, b: int): int {
    if a <= b then b else a
  }

  ghost predicate NoDup<T>(s: seq<T>) {
    forall i, j :: 0 <= i < j < |s| ==> s[i] != s[j]
  }

  /** The elements of a sequence, as a set. */
  function Elements<T>(s: seq<T>): set<T> {
    set x | x in s
  }

  // ---------------------------------------------------------------- little-endian integers

  function Pow256(n: nat): (p: nat)
    ensures p > 0
  {
    if n == 0 then 1 else 256 * Pow256(n - 1)
  }

  /** The `width` low-order bytes of `n`, least significant first. */
  function ToLe(n: nat, width: nat): (b: bytes)
    ensures |b| == width
  {
    if width == 0 then [] else [n % 256] + ToLe(n / 256, width - 1)
  }

  function FromLe(b: bytes): nat {
    if b == [] then 0 else b[0] + 256 * FromLe(b[1..])
  }

  lemma {:induction false} FromLeToLe(n: nat, width: nat)
    requires n < Pow256(width)
    ensures FromLe(ToLe(n, width)) == n
  {
    if width > 0 {
      FromLeToLe(n / 256, width - 1);
      assert ToLe(n, width)[1..] == ToLe(n / 256, width - 1);
    }
  }

  lemma {:induction false} ToLeFromLe(b: bytes)
    ensures FromLe(b) < Pow256(|b|)
    ensures ToLe(FromLe(b), |b|) == b
  {
    if b != [] {
      ToLeFromLe(b[1..]);
    }
  }

  lemma Pow256Widths()
    ensures Pow256(4) == U32_LIMIT
    ensures Pow256(8) == U64_LIMIT
  {
    assert Pow256(2) == 65536;
    assert Pow256(3) == 16777216;
    assert Pow256(6) == 281474976710656;
  }
}
