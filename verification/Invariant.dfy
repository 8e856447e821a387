/** What holds of every reachable world, account by account. */
module Invariant {
  import opened Basics
  import opened State
  import opened Addresses
  import opened Accounts
  import opened Program

  // ---------------------------------------------------------------- steps

  /**
    One step of a run: an instruction of this program, or a change someone else makes to one account. There,
    `None` is an account that was drained and ceases to exist.
   */
  datatype Step =
    | Run(ix: Instruction, rt: Runtime)
    | Outside(k: Pubkey, account: Option<Account>)

  /** The seed strings an instruction hashes, besides those of the shards. */
  function Hashes(ix: Instruction): set<bytes> {
    match ix
    case Initialize(i, _, _, _) => {MetadataSeeds(i)}
    case InitializeFromMint(i, _, mint, _, _, _) => {MetadataSeeds(mint), MetadataSeeds(i)}
    case Close(i, m, _, tag) => DataHashes(i, m, tag)
    case WriteData(i, m, _, tag, _, _) => DataHashes(i, m, tag)
    case ClearData(i, m, _, tag) => DataHashes(i, m, tag)
    case Allocate(i, m, _, tag, _) => DataHashes(i, m, tag)
    case InitializeAssociatedInscription(i, m, _, _, tag) => {MetadataSeeds(i), AssociatedSeeds(tag, m)}
    case SetMint(i, _, mint, _) => {MetadataSeeds(mint), MetadataSeeds(i)}
    case _ => {}
  }

  function DataHashes(inscription: Pubkey, metadata: Pubkey, tag: Option<Tag>): set<bytes> {
    if tag.None? then {MetadataSeeds(inscription)} else {AssociatedSeeds(tag.value, metadata)}
  }

  function CallerOf(ix: Instruction): Caller {
    ix.caller
  }

  /**
    What the runtime itself sees to when somebody else changes an account: it is not the program's yet, its key
    signed if it becomes a mint or is handed to the program, and what changes hands is zeroed.
   */
  predicate LawfulChange(c: Chain, w: World, k: Pubkey, account: Option<Account>) {
    && !w.Owned(k)
    && (account.Some? && account.value.owner == Token ==> !c.derived(k))
    && (account.Some? && account.value.owner == Program ==> !c.derived(k) && Zeroed(account.value.data))
  }

  /** The one condition that is not the runtime's: the program has nothing yet at the metadata address of `k`. */
  predicate NothingBelow(c: Chain, w: World, k: Pubkey) {
    MetadataSeeds(k) in c.known ==> !w.Owned(c.MetadataAddress(k))
  }

  /** All that the runtime allows: an instruction hashes known seeds only, and derived addresses never sign. */
  ghost predicate Lawful(c: Chain, w: World, step: Step) {
    match step
    case Run(ix, _) =>
      && Hashes(ix) <= c.known
      && forall k :: k in CallerOf(ix).signers ==> !c.derived(k)
    case Outside(k, account) => LawfulChange(c, w, k, account)
  }

  /** The step hands account `k` to the program. */
  predicate HandsOver(step: Step, k: Pubkey) {
    step.Outside? && step.k == k && step.account.Some? && step.account.value.owner == Program
  }

  /** A lawful step, where a key that is handed to the program has nothing below it. */
  ghost predicate Fair(c: Chain, w: World, step: Step) {
    Lawful(c, w, step) && (step.Outside? && HandsOver(step, step.k) ==> NothingBelow(c, w, step.k))
  }

  /** The world after a step. A failing instruction changes nothing. */
  function Next(c: Chain, w: World, step: Step): World {
    match step
    case Run(ix, rt) =>
      (match Execute(c, w, ix, rt)
       case Ok(w') => w'
       case Err(_) => w)
    case Outside(k, account) => w.Outside(k, account)
  }

  // ---------------------------------------------------------------- the invariant

  ghost predicate HasTag(l: seq<AssociatedInscription>, tag: bytes) {
    exists i :: 0 <= i < |l| && l[i].tag == tag
  }

  ghost predicate DistinctTags(l: seq<AssociatedInscription>) {
    forall i, j :: 0 <= i < j < |l| ==> l[i].tag != l[j].tag
  }

  /** The list entry `a` of metadata account `k` belongs to a live child account. */
  ghost predicate LiveEntry(c: Chain, w: World, k: Pubkey, a: AssociatedInscription) {
    && 1 <= |a.tag| <= 32
    && c.KnowsAssociated(a.tag, k)
    && a.bump == c.AssociatedBump(a.tag, k)
    && c.AssociatedAddress(a.tag, k) in w.roles
    && w.roles[c.AssociatedAddress(a.tag, k)] == AssociatedData(a.tag, k)
  }

  ghost predicate LiveEntries(c: Chain, w: World, k: Pubkey, l: seq<AssociatedInscription>) {
    forall i :: 0 <= i < |l| ==> LiveEntry(c, w, k, l[i])
  }

  /** A record agrees with how its data account came about. */
  ghost predicate MatchesOrigin(c: Chain, m: InscriptionMetadata, origin: Origin) {
    match origin
    case Keypair => m.key == InscriptionMetadataAccount && m.mint == None && m.inscriptionBump == None
    case FromMint(mint) =>
      && m.key == MintInscriptionMetadataAccount
      && m.inscriptionBump == Some(c.MetadataBump(mint))
      && (m.mint == Some(mint) || (c.legacy && m.mint == None))
  }

  ghost predicate GoodRecord(c: Chain, w: World, k: Pubkey, d: Pubkey, m: InscriptionMetadata) {
    && m.inscriptionAccount == d
    && m.bump == c.MetadataBump(d)
    && d in w.roles && w.roles[d].MainData? && MatchesOrigin(c, m, w.roles[d].origin)
    && NoDup(m.updateAuthorities)
    && DistinctTags(m.associatedInscriptions)
    && LiveEntries(c, w, k, m.associatedInscriptions)
  }

  ghost predicate GoodShard(c: Chain, w: World, k: Pubkey, number: byte) {
    && number < SHARD_COUNT
    && k == c.ShardAddress(number)
    && var s := DecodeShard(w.Data(k));
       s.Some? && s.value.key == InscriptionShardAccount && s.value.bump == c.ShardBump(number)
       && s.value.shardNumber == number
  }

  ghost predicate GoodMetadata(c: Chain, w: World, k: Pubkey, d: Pubkey) {
    && c.KnowsMetadata(d)
    && k == c.MetadataAddress(d)
    && w.Record(k).Some?
    && GoodRecord(c, w, k, d, w.Record(k).value)
  }

  ghost predicate GoodMainData(c: Chain, w: World, k: Pubkey, origin: Origin) {
    && c.KnowsMetadata(k)
    && c.MetadataAddress(k) in w.roles && w.roles[c.MetadataAddress(k)] == Metadata(k)
    && match origin
       case Keypair => !c.derived(k)
       case FromMint(mint) =>
         c.KnowsMetadata(mint) && k == c.MetadataAddress(mint) && mint !in w.roles && !c.derived(mint)
  }

  ghost predicate GoodAssociatedData(c: Chain, w: World, k: Pubkey, tag: bytes, metadata: Pubkey) {
    && c.KnowsAssociated(tag, metadata)
    && k == c.AssociatedAddress(tag, metadata)
    && metadata in w.roles && w.roles[metadata].Metadata?
    && w.Record(metadata).Some? && HasTag(w.Record(metadata).value.associatedInscriptions, tag)
  }

  /** Zeros are all a handed account ever holds; its metadata address stays vacant, so no check can take it for data. */
  ghost predicate GoodHanded(c: Chain, w: World, k: Pubkey) {
    && !c.derived(k)
    && Zeroed(w.Data(k))
    && (c.KnowsMetadata(k) ==> c.MetadataAddress(k) !in w.roles)
  }

  ghost predicate GoodAt(c: Chain, w: World, k: Pubkey)
    requires k in w.roles
  {
    match w.roles[k]
    case Shard(number) => GoodShard(c, w, k, number)
    case Metadata(d) => GoodMetadata(c, w, k, d)
    case MainData(origin) => GoodMainData(c, w, k, origin)
    case AssociatedData(tag, metadata) => GoodAssociatedData(c, w, k, tag, metadata)
    case Handed => GoodHanded(c, w, k)
  }

  /** The program owns exactly the accounts that have a role. */
  ghost predicate RolesCoverOwned(w: World) {
    forall k :: k in w.roles <==> w.Owned(k)
  }

  ghost predicate MintsSign(c: Chain, w: World) {
    forall k :: w.At(k).owner == Token ==> !c.derived(k)
  }

  ghost predicate Shape(c: Chain, w: World) {
    RolesCoverOwned(w) && MintsSign(c, w)
  }

  ghost predicate Inv(c: Chain, w: World) {
    && Shape(c, w)
    && forall k {:trigger GoodAt(c, w, k)} :: k in w.roles ==> GoodAt(c, w, k)
  }

  // ---------------------------------------------------------------- initial worlds

  /** No account belongs to the program yet, and no rank was issued. */
  ghost predicate Init(c: Chain, w: World) {
    && (forall k :: !w.Owned(k))
    && MintsSign(c, w)
    && w.roles == map[]
    && w.issued == []
  }

  lemma InitInv(c: Chain, w: World)
    requires Init(c, w)
    ensures Inv(c, w)
  {
  }
}
