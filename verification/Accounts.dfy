/** The account store, with the ghost role of each account the program owns and the history of issued ranks. */
module Accounts {
  import opened Basics
  import opened State

  /** The most bytes one instruction may add to an account. */
  const MAX_PERMITTED_DATA_INCREASE: nat := 10240

  datatype Owner = System | Program | Token | TokenMetadata | Other

  datatype Account = Account(owner: Owner, data: bytes)

  /** How a main data account got its address: it is a key that signed, or it derives from a mint. */
  datatype Origin = Keypair | FromMint(mint: Pubkey)

  /** What an account of the program is for. `Handed` accounts were assigned to it by somebody else. */
  datatype Role =
    | Shard(number: byte)
    | Metadata(inscription: Pubkey)
    | MainData(origin: Origin)
    | AssociatedData(tag: bytes, metadata: Pubkey)
    | Handed

  /** New accounts, and those that change hands, hold zeros only. */
  predicate Zeroed(b: bytes) {
    forall i :: 0 <= i < |b| ==> b[i] == 0
  }

  /** What the runtime decides for one instruction: whether its transfers succeed, and what new bytes hold. */
  datatype Runtime = Runtime(grants: bool, fill: bytes) {
    function Fill(i: nat): byte {
      if i < |fill| then fill[i] else 0
    }
  }

  datatype Caller = Caller(payer: Pubkey, authority: Option<Pubkey>, signers: set<Pubkey>, systemProgram: Pubkey)
  {
    /** The key whose authority is claimed: the authority account when there is one, else the payer. */
    function Signer(): Result<Pubkey> {
      if authority.Some? && authority.value !in signers then Err(MissingRequiredSignature)
      else if payer !in signers then Err(MissingRequiredSignature)
      else Ok(if authority.Some? then authority.value else payer)
    }
  }

  function Vacancy(): Account {
    Account(System, [])
  }

  function Lookup(accounts: map<Pubkey, Account>, k: Pubkey): Account {
    if k in accounts then accounts[k] else Vacancy()
  }

  /** `data` cut or extended to `n` bytes; the runtime chooses the new ones. */
  function Resized(data: bytes, n: nat, rt: Runtime): (r: bytes)
    ensures |r| == n
    ensures forall i :: 0 <= i < Min(n, |data|) ==> r[i] == data[i]
  {
    seq(n, i requires 0 <= i < n => if i < |data| then data[i] else rt.Fill(i))
  }

  /** `data` with `value` laid over it from `offset` on. */
  function Spliced(data: bytes, offset: nat, value: bytes, rt: Runtime): (r: bytes)
    ensures |r| == Max(|data|, offset + |value|)
    ensures forall i :: offset <= i < offset + |value| ==> r[i] == value[i - offset]
    ensures forall i :: 0 <= i < |data| && !(offset <= i < offset + |value|) ==> r[i] == data[i]
  {
    seq(Max(|data|, offset + |value|), i requires 0 <= i =>
      if offset <= i < offset + |value| then value[i - offset]
      else if i < |data| then data[i]
      else rt.Fill(i))
  }

  datatype World = World(accounts: map<Pubkey, Account>, roles: map<Pubkey, Role>, issued: seq<u64>) {
    function At(k: Pubkey): Account {
      Lookup(accounts, k)
    }

    function Data(k: Pubkey): bytes {
      At(k).data
    }

    predicate Owned(k: Pubkey) {
      At(k).owner == Program
    }

    predicate Vacant(k: Pubkey) {
      At(k) == Vacancy()
    }

    function Record(k: Pubkey): Option<InscriptionMetadata> {
      Decode(Data(k))
    }

    function Put(k: Pubkey, data: bytes): World {
      this.(accounts := accounts[k := Account(Program, data)])
    }

    /** A new account of `role` holding `data`. */
    function Create(k: Pubkey, data: bytes, role: Role): World {
      Put(k, data).(roles := roles[k := role])
    }

    /** The account is emptied and, with no lamports left, ceases to exist. */
    function Close(k: Pubkey): World {
      this.(accounts := accounts - {k}, roles := roles - {k})
    }

    /** Somebody else changes account `k`, hands it to the program, or drains it so that it ceases to exist. */
    function Outside(k: Pubkey, account: Option<Account>): World {
      match account
      case None => this.(accounts := accounts - {k})
      case Some(a) =>
        this.(accounts := accounts[k := a], roles := if a.owner == Program then roles[k := Handed] else roles)
    }
  }
}
