/** The ledger of bytes refines a registry of inscriptions. */
module Registries {
  import opened Basics
  import opened State
  import opened Codec
  import opened Addresses
  import opened Accounts
  import opened Program
  import opened Invariant
  import opened Placement
  import opened Preservation
  import opened Frames
  import opened Ranks
  import opened Runs
  import opened Authority

  /** An inscription as its users know it. */
  datatype Entry = Entry(
    account: Pubkey,
    rank: u64,
    authorities: set<Pubkey>,
    mint: Option<Pubkey>,
    data: bytes,
    children: map<bytes, bytes>
  ) {
    /** The bytes under a tag, or the main ones. */
    predicate Holds(tag: Option<bytes>) {
      tag.None? || tag.value in children
    }

    function Bytes(tag: Option<bytes>): bytes
      requires Holds(tag)
    {
      if tag.None? then data else children[tag.value]
    }

    function SetBytes(tag: Option<bytes>, b: bytes): Entry {
      if tag.None? then this.(data := b) else this.(children := children[tag.value := b])
    }
  }

  datatype Counter = Counter(number: byte, count: nat)

  /** Inscriptions by the address of their metadata, and the rank counters by theirs. */
  datatype Registry = Registry(entries: map<Pubkey, Entry>, counters: map<Pubkey, Counter>) {
    function Set(k: Pubkey, e: Entry): Registry {
      this.(entries := entries[k := e])
    }
  }

  // ---------------------------------------------------------------- the registry's own rules

  /** The entry an instruction is about exists and has the signer among its authorities. */
  predicate Authorised(reg: Registry, ix: Instruction)
    requires !ix.CreateShard?
  {
    && ix.metadata in reg.entries
    && CallerOf(ix).Signer().Ok?
    && CallerOf(ix).Signer().value in reg.entries[ix.metadata].authorities
  }

  /** Authorised, and about bytes that the entry holds; main bytes are named by their account. */
  predicate AuthorisedBytes(reg: Registry, ix: Instruction)
    requires ix.WriteData? || ix.ClearData? || ix.Allocate? || ix.Close?
  {
    && Authorised(reg, ix)
    && reg.entries[ix.metadata].Holds(ix.tag)
    && (ix.tag.None? ==> reg.entries[ix.metadata].account == ix.inscription)
  }

  predicate Permitted(reg: Registry, ix: Instruction) {
    match ix
    case Initialize(i, m, s, caller) =>
      m !in reg.entries && s in reg.counters && reg.counters[s].count < COUNT_LIMIT
      && reg.counters[s].number < SHARD_COUNT && caller.Signer().Ok?
    case InitializeFromMint(i, m, mint, _, s, caller) =>
      m !in reg.entries && s in reg.counters && reg.counters[s].count < COUNT_LIMIT
      && reg.counters[s].number < SHARD_COUNT && caller.Signer().Ok?
    case Close(_, m, _, tag) =>
      AuthorisedBytes(reg, ix) && (tag.None? ==> reg.entries[m].children == map[])
    case WriteData(_, _, _, _, _, _) => AuthorisedBytes(reg, ix)
    case ClearData(_, _, _, _) => AuthorisedBytes(reg, ix)
    case Allocate(_, _, _, _, _) => AuthorisedBytes(reg, ix)
    case AddAuthority(m, _, k) => Authorised(reg, ix) && k !in reg.entries[m].authorities
    case RemoveAuthority(_, _) => Authorised(reg, ix)
    case CreateShard(s, _, number) =>
      s !in reg.counters && number < SHARD_COUNT && forall t :: t in reg.counters ==> reg.counters[t].number != number
    case InitializeAssociatedInscription(i, m, _, _, tag) =>
      Authorised(reg, ix) && reg.entries[m].account == i && tag !in reg.entries[m].children && 1 <= |tag| <= 32
    case SetMint(i, m, mint, _) =>
      m in reg.entries && reg.entries[m].account == i
      && (reg.entries[m].mint == None || reg.entries[m].mint == Some(mint))
  }

  /** A new inscription takes the next rank of its counter. */
  function Enrolled(reg: Registry, m: Pubkey, account: Pubkey, authority: Pubkey, mint: Option<Pubkey>,
                    s: Pubkey): Registry
    requires s in reg.counters && reg.counters[s].count < COUNT_LIMIT && reg.counters[s].number < SHARD_COUNT
  {
    var n := reg.counters[s];
    Registry(reg.entries[m := Entry(account, SHARD_COUNT * n.count + n.number, {authority}, mint, [], map[])],
             reg.counters[s := n.(count := n.count + 1)])
  }

  function Applied(reg: Registry, ix: Instruction, rt: Runtime): Registry
    requires Permitted(reg, ix)
  {
    match ix
    case Initialize(i, m, s, caller) => Enrolled(reg, m, i, caller.Signer().value, None, s)
    case InitializeFromMint(i, m, mint, _, s, caller) => Enrolled(reg, m, i, caller.Signer().value, Some(mint), s)
    case Close(_, m, _, tag) =>
      if tag.None? then reg.(entries := reg.entries - {m})
      else reg.Set(m, reg.entries[m].(children := reg.entries[m].children - {tag.value}))
    case WriteData(_, m, _, tag, offset, value) =>
      var e := reg.entries[m];
      reg.Set(m, e.SetBytes(tag, Spliced(e.Bytes(tag), offset, value, rt)))
    case ClearData(_, m, _, tag) =>
      reg.Set(m, reg.entries[m].SetBytes(tag, []))
    case Allocate(_, m, _, tag, size) =>
      var e := reg.entries[m];
      reg.Set(m, e.SetBytes(tag,
        Resized(e.Bytes(tag), Min(size, |e.Bytes(tag)| + MAX_PERMITTED_DATA_INCREASE), rt)))
    case AddAuthority(m, _, k) =>
      reg.Set(m, reg.entries[m].(authorities := reg.entries[m].authorities + {k}))
    case RemoveAuthority(m, caller) =>
      reg.Set(m, reg.entries[m].(authorities := reg.entries[m].authorities - {caller.Signer().value}))
    case CreateShard(s, _, number) => reg.(counters := reg.counters[s := Counter(number, 0)])
    case InitializeAssociatedInscription(_, m, _, _, tag) =>
      reg.Set(m, reg.entries[m].(children := reg.entries[m].children[tag := []]))
    case SetMint(_, m, mint, _) => reg.Set(m, reg.entries[m].(mint := Some(mint)))
  }

  // ---------------------------------------------------------------- from bytes to the registry

  function Tags(l: seq<AssociatedInscription>): set<bytes> {
    set a | a in l :: a.tag
  }

  /** The bytes of the child accounts that list `l` of metadata account `k` names. */
  function Children(c: Chain, w: World, k: Pubkey, l: seq<AssociatedInscription>): map<bytes, bytes> {
    map t | t in Tags(l) :: w.Data(c.AssociatedAddress(t, k))
  }

  function EntryFor(c: Chain, w: World, k: Pubkey, m: InscriptionMetadata): Entry {
    Entry(m.inscriptionAccount, m.inscriptionRank, Elements(m.updateAuthorities), m.mint, w.Data(m.inscriptionAccount),
          Children(c, w, k, m.associatedInscriptions))
  }

  function EntryOf(c: Chain, w: World, k: Pubkey): Entry {
    match w.Record(k)
    case Some(m) => EntryFor(c, w, k, m)
    case None => Entry(k, 0, {}, None, [], map[])
  }

  function CounterOf(w: World, k: Pubkey): Counter {
    match DecodeShard(w.Data(k))
    case Some(s) => Counter(s.shardNumber, s.count)
    case None => Counter(0, 0)
  }

  /** The registry that a ledger stands for. */
  function Abstract(c: Chain, w: World): Registry {
    Registry(map k | k in w.roles && w.roles[k].Metadata? :: EntryOf(c, w, k),
             map k | k in w.roles && w.roles[k].Shard? :: CounterOf(w, k))
  }

  // ---------------------------------------------------------------- what an entry rests on

  lemma TagsAreTags(l: seq<AssociatedInscription>, t: bytes)
    ensures t in Tags(l) <==> HasTag(l, t)
  {
    if HasTag(l, t) {
      var i :| 0 <= i < |l| && l[i].tag == t;
      assert l[i] in l;
    }
  }

  /** The accounts behind an entry are its own. */
  lemma EntryAccounts(c: Chain, w: World, k: Pubkey)
    requires Inv(c, w) && k in w.roles && w.roles[k].Metadata?
    ensures w.Record(k).Some?
    ensures var m := w.Record(k).value;
            && m.inscriptionAccount == w.roles[k].inscription
            && m.inscriptionAccount in w.roles && w.roles[m.inscriptionAccount].MainData?
            && c.MetadataAddress(m.inscriptionAccount) == k
            && (forall t :: t in Tags(m.associatedInscriptions) ==>
                  && c.KnowsAssociated(t, k)
                  && c.AssociatedAddress(t, k) in w.roles
                  && w.roles[c.AssociatedAddress(t, k)] == AssociatedData(t, k))
            && NoDup(m.updateAuthorities)
  {
    hide Decode, DecodeShard;
    assert GoodAt(c, w, k);
    var l := w.Record(k).value.associatedInscriptions;
    forall t | t in Tags(l)
      ensures c.KnowsAssociated(t, k) && c.AssociatedAddress(t, k) in w.roles
              && w.roles[c.AssociatedAddress(t, k)] == AssociatedData(t, k)
    {
      TagsAreTags(l, t);
      var i :| 0 <= i < |l| && l[i].tag == t;
      assert LiveEntry(c, w, k, l[i]);
    }
  }

  /** An entry changes only if its record or one of its data accounts does. */
  lemma EntryKept(c: Chain, w: World, w': World, k: Pubkey)
    requires Inv(c, w) && k in w.roles && w.roles[k].Metadata?
    requires w'.Data(k) == w.Data(k)
    requires forall j :: BelongsTo(c, w, j, k) ==> w'.Data(j) == w.Data(j)
    ensures EntryOf(c, w', k) == EntryOf(c, w, k)
  {
    hide Decode, DecodeShard, Inv;
    EntryAccounts(c, w, k);
    var m := w.Record(k).value;
    assert BelongsTo(c, w, m.inscriptionAccount, k);
    forall t | t in Tags(m.associatedInscriptions)
      ensures w'.Data(c.AssociatedAddress(t, k)) == w.Data(c.AssociatedAddress(t, k))
    {
      assert BelongsTo(c, w, c.AssociatedAddress(t, k), k);
    }
  }

  /** Children change one by one: `t` is the only one whose bytes may differ. */
  lemma ChildSet(c: Chain, w: World, w': World, k: Pubkey, l: seq<AssociatedInscription>,
                 l': seq<AssociatedInscription>, t: bytes)
    requires Tags(l') == Tags(l) + {t}
    requires forall u :: u in Tags(l) && u != t
               ==> w'.Data(c.AssociatedAddress(u, k)) == w.Data(c.AssociatedAddress(u, k))
    ensures Children(c, w', k, l') == Children(c, w, k, l)[t := w'.Data(c.AssociatedAddress(t, k))]
  {
    hide Tags;
  }

  lemma ChildUnset(c: Chain, w: World, w': World, k: Pubkey, l: seq<AssociatedInscription>,
                   l': seq<AssociatedInscription>, t: bytes)
    requires Tags(l') == Tags(l) - {t}
    requires forall u :: u in Tags(l) && u != t
               ==> w'.Data(c.AssociatedAddress(u, k)) == w.Data(c.AssociatedAddress(u, k))
    ensures Children(c, w', k, l') == Children(c, w, k, l) - {t}
  {
    hide Tags;
  }

  lemma ChildrenSame(c: Chain, w: World, w': World, k: Pubkey, l: seq<AssociatedInscription>)
    requires forall u :: u in Tags(l) ==> w'.Data(c.AssociatedAddress(u, k)) == w.Data(c.AssociatedAddress(u, k))
    ensures Children(c, w', k, l) == Children(c, w, k, l)
  {
    hide Tags;
  }

  /** Besides its metadata account, an instruction writes to nothing of another inscription. */
  lemma WritableRoles(c: Chain, w: World, ix: Instruction, rt: Runtime, j: Pubkey)
    requires c.Sound() && Inv(c, w) && Fair(c, w, Run(ix, rt)) && Execute(c, w, ix, rt).Ok?
    requires j in Writable(ix) && j in w.roles
    ensures || Execute(c, w, ix, rt).value == w
            || w.roles[j].Shard?
            || (!ix.CreateShard? && BelongsTo(c, w, j, ix.metadata))
            || (!ix.CreateShard? && j == ix.metadata
                && (w.roles[j].Metadata? || ix.AddAuthority? || ix.RemoveAuthority?))
  {
    hide Decode, DecodeShard, Encode, AuthorityCheck, Register, Store, TargetCheck;
    assert w.Owned(j);
    match ix {
      case Initialize(_, _, _, _) =>
        InvPlaced(c, w);
        var m, s := Registration(c, w, ix, rt);
      case InitializeFromMint(_, _, _, _, _, _) =>
        InvPlaced(c, w);
        var m, s := Registration(c, w, ix, rt);
      case Close(_, _, _, _) => DataResolves(c, w, ix, rt); ParentIsMetadata(c, w, ix, ix.inscription);
      case WriteData(_, _, _, _, _, _) => DataResolves(c, w, ix, rt); ParentIsMetadata(c, w, ix, ix.inscription);
      case Allocate(_, _, _, _, _) => DataResolves(c, w, ix, rt); ParentIsMetadata(c, w, ix, ix.inscription);
      case ClearData(i, _, _, _) =>
        if w.Data(i) != [] {
          DataResolves(c, w, ix, rt);
          ParentIsMetadata(c, w, ix, ix.inscription);
        }
      case InitializeAssociatedInscription(i, m, _, _, _) => MetadataResolves(c, w, i, m);
      case SetMint(_, _, _, _) => SetMintResolves(c, w, ix, rt);
      case _ =>
    }
  }

  /** Every other entry stays as it is. */
  lemma OtherEntries(c: Chain, w: World, ix: Instruction, rt: Runtime, k: Pubkey)
    requires c.Sound() && Inv(c, w) && Fair(c, w, Run(ix, rt)) && Execute(c, w, ix, rt).Ok?
    requires k in w.roles && w.roles[k].Metadata? && (ix.CreateShard? || k != ix.metadata)
    requires (ix.AddAuthority? || ix.RemoveAuthority?) ==> ix.metadata in w.roles && w.roles[ix.metadata].Metadata?
    ensures SameRole(w, Execute(c, w, ix, rt).value, k)
    ensures EntryOf(c, Execute(c, w, ix, rt).value, k) == EntryOf(c, w, k)
  {
    hide Decode, DecodeShard, Execute, Inv, Fair;
    var w' := Execute(c, w, ix, rt).value;
    if k in Writable(ix) {
      WritableRoles(c, w, ix, rt, k);
    } else {
      OnlyWritable(c, w, ix, rt, k);
    }
    forall j | BelongsTo(c, w, j, k) ensures w'.Data(j) == w.Data(j) {
      if j in Writable(ix) {
        WritableRoles(c, w, ix, rt, j);
      } else {
        OnlyWritable(c, w, ix, rt, j);
      }
    }
    EntryKept(c, w, w', k);
  }

  /** Which entries there are after an instruction. */
  lemma EntryDomain(c: Chain, w: World, ix: Instruction, rt: Runtime)
    requires c.Sound() && Inv(c, w) && Fair(c, w, Run(ix, rt)) && Execute(c, w, ix, rt).Ok?
    ensures var a, a' := Abstract(c, w), Abstract(c, Execute(c, w, ix, rt).value);
            a'.entries.Keys ==
              if Registers(ix) then a.entries.Keys + {ix.metadata}
              else if ix.Close? && ix.tag.None? then a.entries.Keys - {ix.metadata}
              else a.entries.Keys
    ensures Registers(ix) ==> ix.metadata !in w.roles
  {
    hide Decode, DecodeShard, Execute, Inv, Fair, EntryOf, CounterOf, AuthorityCheck, Registered;
    var w' := Execute(c, w, ix, rt).value;
    forall k ensures (k in w'.roles && w'.roles[k].Metadata?) <==>
      (if Registers(ix) then (k in w.roles && w.roles[k].Metadata?) || k == ix.metadata
       else (k in w.roles && w.roles[k].Metadata?) && !(ix.Close? && ix.tag.None? && k == ix.metadata))
    {
      EntryStays(c, w, ix, rt, k);
    }
    if Registers(ix) {
      NewEntry(c, w, ix, rt);
    }
  }

  lemma NewEntry(c: Chain, w: World, ix: Instruction, rt: Runtime)
    requires c.Sound() && Inv(c, w) && Fair(c, w, Run(ix, rt)) && Execute(c, w, ix, rt).Ok? && Registers(ix)
    ensures ix.metadata !in w.roles && ix.inscription !in w.roles
    ensures var w' := Execute(c, w, ix, rt).value;
            ix.metadata in w'.roles && w'.roles[ix.metadata] == Metadata(ix.inscription)
  {
    InvLawful(c, w, Run(ix, rt));
    hide Decode, DecodeShard, Execute, Fair, Registered, FreshRecord;
    InitializesNewPair(c, w, ix, rt);
    var m, s := Registration(c, w, ix, rt);
    RegisteredAccounts(c, w, ix.inscription, ix.metadata, m, OriginOf(ix), ix.shard, s);
  }

  lemma EntryStays(c: Chain, w: World, ix: Instruction, rt: Runtime, k: Pubkey)
    requires c.Sound() && Inv(c, w) && Fair(c, w, Run(ix, rt)) && Execute(c, w, ix, rt).Ok?
    ensures var w' := Execute(c, w, ix, rt).value;
            (k in w'.roles && w'.roles[k].Metadata?) <==>
              (if Registers(ix) then (k in w.roles && w.roles[k].Metadata?) || k == ix.metadata
               else (k in w.roles && w.roles[k].Metadata?) && !(ix.Close? && ix.tag.None? && k == ix.metadata))
  {
    InvLawful(c, w, Run(ix, rt));
    hide Decode, DecodeShard, Execute, Inv, Fair, AuthorityCheck, Placed, Lawful;
    var w' := Execute(c, w, ix, rt).value;
    if Registers(ix) {
      NewEntry(c, w, ix, rt);
    }
    if k in w.roles {
      if w.roles[k].Metadata? {
        RecordFrame(c, w, ix, rt, k);
        if ix.Close? && ix.tag.None? && k == ix.metadata {
          ClosedPairGone(c, w, ix, rt);
        }
      } else if k in w'.roles {
        OwnedHasRole(c, w);
        RolesFixed(c, w, ix, rt, k);
      }
    } else if k in w'.roles {
      Newcomers(c, w, ix, rt, k);
    }
  }

  lemma ClosedPairGone(c: Chain, w: World, ix: Instruction, rt: Runtime)
    requires Execute(c, w, ix, rt).Ok? && ix.Close? && ix.tag.None?
    ensures ix.metadata !in Execute(c, w, ix, rt).value.roles
  {
    hide Decode, AuthorityCheck, TargetCheck;
  }

  /** Shards stay, and CreateShard alone makes one. */
  lemma ShardStays(c: Chain, w: World, ix: Instruction, rt: Runtime, k: Pubkey)
    requires c.Sound() && Inv(c, w) && Fair(c, w, Run(ix, rt)) && Execute(c, w, ix, rt).Ok?
    ensures var w' := Execute(c, w, ix, rt).value;
            (k in w'.roles && w'.roles[k].Shard?) <==>
              (k in w.roles && w.roles[k].Shard?) || (ix.CreateShard? && k == ix.shard)
  {
    InvLawful(c, w, Run(ix, rt));
    OwnedHasRole(c, w);
    hide Decode, DecodeShard, Execute, Inv, Fair, AuthorityCheck, Placed, Lawful, Shape;
    var w' := Execute(c, w, ix, rt).value;
    if ix.CreateShard? && k == ix.shard {
      ShardIsNew(c, w, ix, rt);
    }
    if k in w.roles {
      if w.roles[k].Shard? {
        ShardFrame(c, w, ix, rt, k);
      } else if k in w'.roles {
        RolesFixed(c, w, ix, rt, k);
      }
    } else if k in w'.roles {
      Newcomers(c, w, ix, rt, k);
    }
  }

  /** The counters after an instruction that neither creates one nor counts on one. */
  lemma CountersKept(c: Chain, w: World, ix: Instruction, rt: Runtime)
    requires c.Sound() && Inv(c, w) && Fair(c, w, Run(ix, rt)) && Execute(c, w, ix, rt).Ok?
    ensures var a, a' := Abstract(c, w), Abstract(c, Execute(c, w, ix, rt).value);
            && (ix.CreateShard? ==> ix.shard !in w.roles)
            && a'.counters.Keys == a.counters.Keys + (if ix.CreateShard? then {ix.shard} else {})
            && forall k :: k in a.counters && !(Registers(ix) && k == ix.shard) ==> a'.counters[k] == a.counters[k]
  {
    hide Decode, DecodeShard, Execute, Inv, Fair, EntryOf, CounterOf;
    var w' := Execute(c, w, ix, rt).value;
    if ix.CreateShard? {
      ShardIsNew(c, w, ix, rt);
    }
    forall k ensures (k in w'.roles && w'.roles[k].Shard?) <==>
                     (k in w.roles && w.roles[k].Shard?) || (ix.CreateShard? && k == ix.shard)
    {
      ShardStays(c, w, ix, rt, k);
    }
    forall k | k in w.roles && w.roles[k].Shard? && !(Registers(ix) && k == ix.shard)
      ensures CounterOf(w', k) == CounterOf(w, k)
    {
      CounterStays(c, w, ix, rt, k);
    }
  }

  lemma CounterStays(c: Chain, w: World, ix: Instruction, rt: Runtime, k: Pubkey)
    requires c.Sound() && Inv(c, w) && Fair(c, w, Run(ix, rt)) && Execute(c, w, ix, rt).Ok?
    requires k in w.roles && w.roles[k].Shard? && !(Registers(ix) && k == ix.shard)
    ensures CounterOf(Execute(c, w, ix, rt).value, k) == CounterOf(w, k)
  {
    InvLawful(c, w, Run(ix, rt));
    hide DecodeShard, Execute, Inv, Fair, Placed, Lawful;
    ShardFrame(c, w, ix, rt, k);
  }

  lemma ShardIsNew(c: Chain, w: World, ix: Instruction, rt: Runtime)
    requires Inv(c, w) && ix.CreateShard? && Execute(c, w, ix, rt).Ok?
    ensures ix.shard !in w.roles
    ensures var w' := Execute(c, w, ix, rt).value;
            && ix.shard in w'.roles && w'.roles[ix.shard] == Shard(ix.number)
            && CounterOf(w', ix.shard) == Counter(ix.number, 0)
            && ix.number < SHARD_COUNT && ix.shard == c.ShardAddress(ix.number)
  {
    hide Decode, DecodeShard, EncodeShard;
    assert !w.Owned(ix.shard);
    ShardDecodeEncode(InscriptionShard(InscriptionShardAccount, c.ShardBump(ix.number), ix.number, 0));
  }

  // ---------------------------------------------------------------- the entry an instruction is about

  /** Main data or child data, a data account is the bytes of one slot of its entry. */
  lemma SlotOf(c: Chain, w: World, k: Pubkey, j: Pubkey, tag: Option<bytes>)
    requires c.Sound() && Inv(c, w) && k in w.roles && w.roles[k].Metadata? && j in w.roles
    requires tag.None? ==> w.roles[k] == Metadata(j)
    requires tag.Some? ==> w.roles[j] == AssociatedData(tag.value, k)
    ensures EntryOf(c, w, k).Holds(tag) && EntryOf(c, w, k).Bytes(tag) == w.Data(j)
    ensures tag.None? ==> EntryOf(c, w, k).account == j
    ensures tag.Some? ==> j == c.AssociatedAddress(tag.value, k)
  {
    hide Decode, DecodeShard;
    EntryAccounts(c, w, k);
    if tag.Some? {
      assert GoodAt(c, w, j);
      TagsAreTags(w.Record(k).value.associatedInscriptions, tag.value);
    }
  }

  /** Writing a data account sets its slot and no other. */
  lemma SlotWritten(c: Chain, w: World, w': World, k: Pubkey, j: Pubkey, tag: Option<bytes>)
    requires c.Sound() && Inv(c, w) && k in w.roles && w.roles[k].Metadata? && j in w.roles
    requires tag.None? ==> w.roles[k] == Metadata(j)
    requires tag.Some? ==> w.roles[j] == AssociatedData(tag.value, k)
    requires w' == w.Put(j, w'.Data(j)) && j != k
    ensures EntryOf(c, w', k) == EntryOf(c, w, k).SetBytes(tag, w'.Data(j))
  {
    hide Decode, DecodeShard, Inv, Children, Tags;
    EntryAccounts(c, w, k);
    SlotOf(c, w, k, j, tag);
    assert w'.Record(k) == w.Record(k);
    var l := w.Record(k).value.associatedInscriptions;
    match tag
    case None =>
      ChildrenSame(c, w, w', k, l);
    case Some(t) =>
      SlotTag(c, w, k, t);
      assert Tags(l) + {t} == Tags(l);
      ChildSet(c, w, w', k, l, l, t);
  }

  lemma SlotTag(c: Chain, w: World, k: Pubkey, t: bytes)
    requires w.Record(k).Some? && t in EntryOf(c, w, k).children
    ensures t in Tags(w.Record(k).value.associatedInscriptions)
  {
  }

  lemma DataPermitted(c: Chain, w: World, ix: Instruction, rt: Runtime)
    requires c.Sound() && Inv(c, w) && Fair(c, w, Run(ix, rt)) && Execute(c, w, ix, rt).Ok?
    requires ix.WriteData? || ix.ClearData? || ix.Allocate?
    requires ix.ClearData? ==> w.Data(ix.inscription) != []
    ensures Permitted(Abstract(c, w), ix)
    ensures EntryOf(c, w, ix.metadata).Bytes(ix.tag) == w.Data(ix.inscription)
  {
    hide Decode, DecodeShard, Inv, TargetCheck, AuthorityCheck, EntryOf, Execute, Fair;
    var k := ix.metadata;
    DataResolves(c, w, ix, rt);
    AuthorityPassed(ix.caller, w.Record(k).value);
    SignerInEntry(c, w, k, ix.caller.Signer().value);
    SlotOf(c, w, k, ix.inscription, ix.tag);
  }

  lemma DataEntry(c: Chain, w: World, ix: Instruction, rt: Runtime)
    requires c.Sound() && Inv(c, w) && Fair(c, w, Run(ix, rt)) && Execute(c, w, ix, rt).Ok?
    requires ix.WriteData? || ix.ClearData? || ix.Allocate?
    requires ix.ClearData? ==> w.Data(ix.inscription) != []
    ensures Permitted(Abstract(c, w), ix)
    ensures EntryOf(c, Execute(c, w, ix, rt).value, ix.metadata)
         == Applied(Abstract(c, w), ix, rt).entries[ix.metadata]
  {
    hide Decode, DecodeShard, Inv, TargetCheck, AuthorityCheck, EntryOf, Fair;
    var k, w' := ix.metadata, Execute(c, w, ix, rt).value;
    DataResolves(c, w, ix, rt);
    DataPermitted(c, w, ix, rt);
    SlotWritten(c, w, w', k, ix.inscription, ix.tag);
  }

  lemma SignerInEntry(c: Chain, w: World, k: Pubkey, signer: Pubkey)
    requires w.Record(k).Some? && signer in w.Record(k).value.updateAuthorities
    ensures signer in EntryOf(c, w, k).authorities
  {
  }

  /** A metadata account's new record shows in its entry, whose bytes stay. */
  lemma RecordEntry(c: Chain, w: World, w': World, k: Pubkey, m': InscriptionMetadata)
    requires Inv(c, w) && k in w.roles && w.roles[k].Metadata?
    requires w.Record(k).Some? && w'.Record(k) == Some(m')
    requires forall j :: BelongsTo(c, w, j, k) ==> w'.Data(j) == w.Data(j)
    requires SameIdentity(w.Record(k).value, m')
    requires m'.associatedInscriptions == w.Record(k).value.associatedInscriptions
    ensures EntryOf(c, w', k)
         == EntryOf(c, w, k).(authorities := Elements(m'.updateAuthorities), mint := m'.mint)
  {
    hide Decode, DecodeShard, Inv, Elements;
    EntryAccounts(c, w, k);
    var m := w.Record(k).value;
    assert BelongsTo(c, w, m.inscriptionAccount, k);
    forall t | t in Tags(m.associatedInscriptions)
      ensures w'.Data(c.AssociatedAddress(t, k)) == w.Data(c.AssociatedAddress(t, k))
    {
      assert BelongsTo(c, w, c.AssociatedAddress(t, k), k);
    }
  }

  lemma EntryFields(c: Chain, w: World, k: Pubkey)
    requires w.Record(k).Some?
    ensures var m := w.Record(k).value;
            && EntryOf(c, w, k).authorities == Elements(m.updateAuthorities)
            && EntryOf(c, w, k).mint == m.mint
            && EntryOf(c, w, k).account == m.inscriptionAccount
  {
  }

  lemma AuthorityEntry(c: Chain, w: World, ix: Instruction, rt: Runtime)
    requires c.Sound() && Inv(c, w) && Fair(c, w, Run(ix, rt)) && Execute(c, w, ix, rt).Ok?
    requires ix.AddAuthority? || ix.RemoveAuthority?
    requires ix.metadata in w.roles && w.roles[ix.metadata].Metadata?
    ensures Permitted(Abstract(c, w), ix)
    ensures EntryOf(c, Execute(c, w, ix, rt).value, ix.metadata)
         == Applied(Abstract(c, w), ix, rt).entries[ix.metadata]
  {
    hide Decode, DecodeShard, Encode, Inv, SwapRemove, EntryOf, AuthorityCheck;
    var k, w' := ix.metadata, Execute(c, w, ix, rt).value;
    var m := w.Record(k).value;
    AuthoritiesAreASet(c, w, ix, rt);
    EntryFields(c, w, k);
    AuthorityPassed(ix.caller, m);
    DecodeEncode(if ix.AddAuthority? then m.(updateAuthorities := m.updateAuthorities + [ix.newAuthority])
                 else m.(updateAuthorities :=
                   SwapRemove(m.updateAuthorities, Position(m.updateAuthorities, ix.caller.Signer().value))));
    assert w' == w.Put(k, w'.Data(k));
    RecordEntry(c, w, w', k, w'.Record(k).value);
    SignerInEntry(c, w, k, ix.caller.Signer().value);
  }

  lemma MintEntry(c: Chain, w: World, ix: Instruction, rt: Runtime)
    requires c.Sound() && Inv(c, w) && Fair(c, w, Run(ix, rt)) && Execute(c, w, ix, rt).Ok? && ix.SetMint?
    ensures Permitted(Abstract(c, w), ix)
    ensures EntryOf(c, Execute(c, w, ix, rt).value, ix.metadata)
         == Applied(Abstract(c, w), ix, rt).entries[ix.metadata]
  {
    hide Decode, DecodeShard, Encode, Inv, EntryOf;
    var k, w' := ix.metadata, Execute(c, w, ix, rt).value;
    SetMintResolves(c, w, ix, rt);
    SetMintKeepsRecord(c, w, ix, rt);
    EntryFields(c, w, k);
    EntryAccounts(c, w, k);
    assert w' == w.Put(k, w'.Data(k));
    RecordEntry(c, w, w', k, w'.Record(k).value);
  }

  lemma AssociateEntry(c: Chain, w: World, ix: Instruction, rt: Runtime)
    requires c.Sound() && Inv(c, w) && Fair(c, w, Run(ix, rt)) && Execute(c, w, ix, rt).Ok?
    requires ix.InitializeAssociatedInscription?
    ensures Permitted(Abstract(c, w), ix)
    ensures EntryOf(c, Execute(c, w, ix, rt).value, ix.metadata)
         == Applied(Abstract(c, w), ix, rt).entries[ix.metadata]
  {
    hide Decode, DecodeShard, Encode, Inv, AuthorityCheck, EntryOf;
    var k := ix.metadata;
    var m := w.Record(k).value;
    var a := AssociatedInscription(ix.newTag, c.AssociatedBump(ix.newTag, k), DataType.Uninitialized);
    MetadataResolves(c, w, ix.inscription, k);
    AuthorityPassed(ix.caller, m);
    SignerInEntry(c, w, k, ix.caller.Signer().value);
    OwnedHasRole(c, w);
    DecodeEncode(m.(associatedInscriptions := m.associatedInscriptions + [a]));
    SlotOf(c, w, k, ix.inscription, None);
    SlotAdded(c, w, Execute(c, w, ix, rt).value, k, m, a);
  }

  lemma SlotAdded(c: Chain, w: World, w': World, k: Pubkey, m: InscriptionMetadata, a: AssociatedInscription)
    requires Inv(c, w) && k in w.roles && w.roles[k].Metadata? && w.Record(k) == Some(m)
    requires c.AssociatedAddress(a.tag, k) !in w.roles
    requires forall j :: j != k && j != c.AssociatedAddress(a.tag, k) ==> w'.At(j) == w.At(j)
    requires w'.Data(c.AssociatedAddress(a.tag, k)) == []
    requires w'.Record(k) == Some(m.(associatedInscriptions := m.associatedInscriptions + [a]))
    ensures a.tag !in EntryOf(c, w, k).children
    ensures EntryOf(c, w', k) == EntryOf(c, w, k).(children := EntryOf(c, w, k).children[a.tag := []])
  {
    hide Decode, DecodeShard, Inv, Tags;
    EntryAccounts(c, w, k);
    TagsOfMore(m.associatedInscriptions, a);
    hide Children;
    ChildSet(c, w, w', k, m.associatedInscriptions, m.associatedInscriptions + [a], a.tag);
  }

  lemma TagsOfMore(l: seq<AssociatedInscription>, a: AssociatedInscription)
    ensures Tags(l + [a]) == Tags(l) + {a.tag}
  {
    forall t | t in Tags(l) + {a.tag} ensures t in Tags(l + [a]) {
      if t != a.tag {
        var b :| b in l && b.tag == t;
        assert b in l + [a];
      } else {
        assert a in l + [a];
      }
    }
  }

  lemma CloseEntry(c: Chain, w: World, ix: Instruction, rt: Runtime)
    requires c.Sound() && Inv(c, w) && Fair(c, w, Run(ix, rt)) && Execute(c, w, ix, rt).Ok? && ix.Close?
    ensures Permitted(Abstract(c, w), ix)
    ensures ix.tag.Some? ==>
              EntryOf(c, Execute(c, w, ix, rt).value, ix.metadata)
                  == Applied(Abstract(c, w), ix, rt).entries[ix.metadata]
  {
    hide Decode, DecodeShard, Encode, Inv, AuthorityCheck, Tags, TargetCheck, Without, EntryOf;
    var k := ix.metadata;
    var m := w.Record(k).value;
    DataResolves(c, w, ix, rt);
    AuthorityPassed(ix.caller, m);
    SignerInEntry(c, w, k, ix.caller.Signer().value);
    SlotOf(c, w, k, ix.inscription, ix.tag);
    if ix.tag.Some? {
      ChildDropped(c, w, ix, rt);
    } else {
      NoChildren(c, w, k);
    }
  }

  lemma NoChildren(c: Chain, w: World, k: Pubkey)
    requires w.Record(k).Some? && w.Record(k).value.associatedInscriptions == []
    ensures EntryOf(c, w, k).children == map[]
  {
  }

  lemma ChildDropped(c: Chain, w: World, ix: Instruction, rt: Runtime)
    requires c.Sound() && Inv(c, w) && Fair(c, w, Run(ix, rt)) && Execute(c, w, ix, rt).Ok?
    requires ix.Close? && ix.tag.Some?
    ensures EntryOf(c, Execute(c, w, ix, rt).value, ix.metadata)
         == EntryOf(c, w, ix.metadata).(children := EntryOf(c, w, ix.metadata).children - {ix.tag.value})
  {
    hide Decode, DecodeShard, Encode, Inv, AuthorityCheck, Tags, Without, Children;
    var m := w.Record(ix.metadata).value;
    var l := Without(m.associatedInscriptions, ix.tag.value, c.AssociatedBump(ix.tag.value, ix.metadata));
    DataResolves(c, w, ix, rt);
    DecodeEncode(m.(associatedInscriptions := l));
    SlotDropped(c, w, Execute(c, w, ix, rt).value, ix.metadata, m, ix.tag.value, l);
  }

  lemma SlotDropped(c: Chain, w: World, w': World, k: Pubkey, m: InscriptionMetadata, t: bytes,
                    l: seq<AssociatedInscription>)
    requires Inv(c, w) && k in w.roles && w.roles[k].Metadata? && w.Record(k) == Some(m)
    requires Lists(m.associatedInscriptions, t, c.AssociatedBump(t, k))
    requires l == Without(m.associatedInscriptions, t, c.AssociatedBump(t, k))
    requires c.AssociatedAddress(t, k) in w.roles && w.roles[c.AssociatedAddress(t, k)] == AssociatedData(t, k)
    requires forall j :: j != k && j != c.AssociatedAddress(t, k) ==> w'.At(j) == w.At(j)
    requires w'.Record(k) == Some(m.(associatedInscriptions := l))
    ensures EntryOf(c, w', k) == EntryOf(c, w, k).(children := EntryOf(c, w, k).children - {t})
  {
    hide Decode, DecodeShard, Inv, Tags, Without, Children;
    EntryAccounts(c, w, k);
    TagsDistinct(c, w, k);
    TagsOfLess(m.associatedInscriptions, t, c.AssociatedBump(t, k));
    ChildUnset(c, w, w', k, m.associatedInscriptions, l, t);
  }

  lemma TagsDistinct(c: Chain, w: World, k: Pubkey)
    requires Inv(c, w) && k in w.roles && w.roles[k].Metadata?
    ensures w.Record(k).Some? && DistinctTags(w.Record(k).value.associatedInscriptions)
  {
    hide Decode, DecodeShard;
    assert GoodAt(c, w, k);
  }

  lemma TagsOfLess(l: seq<AssociatedInscription>, tag: bytes, bump: byte)
    requires DistinctTags(l) && Lists(l, tag, bump)
    ensures Tags(Without(l, tag, bump)) == Tags(l) - {tag}
  {
    hide Without, Tags;
    WithoutKeepsOthers(l, tag, bump);
    forall t ensures t in Tags(Without(l, tag, bump)) <==> t in Tags(l) - {tag} {
      TagsAreTags(l, t);
      TagsAreTags(Without(l, tag, bump), t);
    }
  }

  lemma EnrolEntry(c: Chain, w: World, ix: Instruction, rt: Runtime)
    requires c.Sound() && Inv(c, w) && Fair(c, w, Run(ix, rt)) && Execute(c, w, ix, rt).Ok? && Registers(ix)
    ensures Permitted(Abstract(c, w), ix)
    ensures var w' := Execute(c, w, ix, rt).value;
            && EntryOf(c, w', ix.metadata) == Applied(Abstract(c, w), ix, rt).entries[ix.metadata]
            && CounterOf(w', ix.shard) == Applied(Abstract(c, w), ix, rt).counters[ix.shard]
  {
    hide Decode, DecodeShard, Execute, Inv, Registered, FreshRecord, Shape, EntryOf;
    var k, w' := ix.metadata, Execute(c, w, ix, rt).value;
    InitializesNewPair(c, w, ix, rt);
    InvPlaced(c, w);
    var m, s := Registration(c, w, ix, rt);
    OwnedHasRole(c, w);
    RegisteredAccounts(c, w, ix.inscription, k, m, OriginOf(ix), ix.shard, s);
    ShardNumberSmall(c, w, ix.shard);
    IssueFailsAtLimit(s);
    assert CounterOf(w, ix.shard) == Counter(s.shardNumber, s.count);
    FreshEntry(c, w', ix, m);
  }

  lemma FreshEntry(c: Chain, w': World, ix: Instruction, m: InscriptionMetadata)
    requires Registers(ix) && ix.caller.Signer().Ok?
    requires m == FreshRecord(c, ix.inscription, ix.caller.Signer().value, OriginOf(ix), m.inscriptionRank)
    requires w'.Record(ix.metadata) == Some(m) && w'.Data(ix.inscription) == []
    ensures EntryOf(c, w', ix.metadata)
         == Entry(ix.inscription, m.inscriptionRank, {ix.caller.Signer().value},
                  if ix.Initialize? then None else Some(ix.mint), [], map[])
  {
    hide Decode;
  }

  lemma ShardNumberSmall(c: Chain, w: World, k: Pubkey)
    requires Inv(c, w) && k in w.roles && w.roles[k].Shard?
    ensures w.roles[k].number < SHARD_COUNT && k == c.ShardAddress(w.roles[k].number)
    ensures CounterOf(w, k).number == w.roles[k].number
  {
    hide Decode, DecodeShard;
    assert GoodAt(c, w, k);
  }

  lemma ShardPermitted(c: Chain, w: World, ix: Instruction, rt: Runtime)
    requires c.Sound() && Inv(c, w) && ix.CreateShard? && Execute(c, w, ix, rt).Ok?
    ensures Permitted(Abstract(c, w), ix)
  {
    hide Decode, DecodeShard, Execute, Inv, EntryOf, CounterOf;
    ShardIsNew(c, w, ix, rt);
    forall k | k in w.roles && w.roles[k].Shard? ensures CounterOf(w, k).number != ix.number {
      ShardNumberSmall(c, w, k);
    }
  }

  // ---------------------------------------------------------------- refinement

  /** An instruction whose effect is one the registry knows: ClearData has bytes to clear, and the authority
      instructions are passed a metadata account. */
  ghost predicate Proper(w: World, ix: Instruction) {
    && (ix.ClearData? ==> w.Data(ix.inscription) != [])
    && (ix.AddAuthority? || ix.RemoveAuthority? ==> ix.metadata in w.roles && w.roles[ix.metadata].Metadata?)
  }

  lemma SubjectEntry(c: Chain, w: World, ix: Instruction, rt: Runtime)
    requires c.Sound() && Inv(c, w) && Fair(c, w, Run(ix, rt)) && Execute(c, w, ix, rt).Ok? && Proper(w, ix)
    ensures Permitted(Abstract(c, w), ix)
    ensures var a, a' := Applied(Abstract(c, w), ix, rt), Abstract(c, Execute(c, w, ix, rt).value);
            (!ix.CreateShard? && ix.metadata in a'.entries ==>
              ix.metadata in a.entries && a'.entries[ix.metadata] == a.entries[ix.metadata])
  {
    hide Decode, DecodeShard, Execute, Inv, Fair, EntryOf;
    match ix {
      case Initialize(_, _, _, _) => EnrolEntry(c, w, ix, rt);
      case InitializeFromMint(_, _, _, _, _, _) => EnrolEntry(c, w, ix, rt);
      case Close(_, _, _, _) =>
        CloseEntry(c, w, ix, rt);
        EntryDomain(c, w, ix, rt);
      case WriteData(_, _, _, _, _, _) => DataEntry(c, w, ix, rt);
      case ClearData(_, _, _, _) => DataEntry(c, w, ix, rt);
      case Allocate(_, _, _, _, _) => DataEntry(c, w, ix, rt);
      case AddAuthority(_, _, _) => AuthorityEntry(c, w, ix, rt);
      case RemoveAuthority(_, _) => AuthorityEntry(c, w, ix, rt);
      case CreateShard(_, _, _) => ShardPermitted(c, w, ix, rt);
      case InitializeAssociatedInscription(_, _, _, _, _) => AssociateEntry(c, w, ix, rt);
      case SetMint(_, _, _, _) => MintEntry(c, w, ix, rt);
    }
  }

  lemma SameMaps<K, V>(m: map<K, V>, n: map<K, V>)
    requires m.Keys == n.Keys && forall k :: k in m ==> m[k] == n[k]
    ensures m == n
  {
    assert forall k :: k in m <==> k in m.Keys;
    assert forall k :: k in n <==> k in n.Keys;
  }

  lemma EntriesRefine(c: Chain, w: World, ix: Instruction, rt: Runtime)
    requires c.Sound() && Inv(c, w) && Fair(c, w, Run(ix, rt)) && Execute(c, w, ix, rt).Ok? && Proper(w, ix)
    requires Permitted(Abstract(c, w), ix)
    ensures Abstract(c, Execute(c, w, ix, rt).value).entries == Applied(Abstract(c, w), ix, rt).entries
  {
    hide Decode, DecodeShard, Execute, Inv, Fair, EntryOf, CounterOf, Applied, Permitted;
    var a, b := Abstract(c, w), Applied(Abstract(c, w), ix, rt);
    var a' := Abstract(c, Execute(c, w, ix, rt).value);
    SubjectEntry(c, w, ix, rt);
    EntryDomain(c, w, ix, rt);
    AppliedElsewhere(a, ix, rt);
    forall k | k in a'.entries ensures a'.entries[k] == b.entries[k] {
      if ix.CreateShard? || k != ix.metadata {
        assert k in a.entries;
        OtherEntries(c, w, ix, rt, k);
      }
    }
    hide Abstract;
    SameMaps(a'.entries, b.entries);
  }

  lemma CountersRefine(c: Chain, w: World, ix: Instruction, rt: Runtime)
    requires c.Sound() && Inv(c, w) && Fair(c, w, Run(ix, rt)) && Execute(c, w, ix, rt).Ok?
    requires Permitted(Abstract(c, w), ix)
    ensures Abstract(c, Execute(c, w, ix, rt).value).counters == Applied(Abstract(c, w), ix, rt).counters
  {
    hide Decode, DecodeShard, Execute, Inv, Fair, EntryOf, CounterOf, Applied, Permitted;
    CountersKept(c, w, ix, rt);
    AppliedElsewhere(Abstract(c, w), ix, rt);
    if Registers(ix) {
      EnrolEntry(c, w, ix, rt);
    }
    if ix.CreateShard? {
      ShardIsNew(c, w, ix, rt);
    }
  }

  /**
    Refinement. Every successful instruction on the bytes is one permitted step of the registry, and the
    bytes it leaves stand for the registry that the step leaves.
   */
  lemma LedgerRefinesRegistry(c: Chain, w: World, ix: Instruction, rt: Runtime)
    requires c.Sound() && Inv(c, w) && Fair(c, w, Run(ix, rt)) && Execute(c, w, ix, rt).Ok? && Proper(w, ix)
    ensures Permitted(Abstract(c, w), ix)
    ensures Abstract(c, Execute(c, w, ix, rt).value) == Applied(Abstract(c, w), ix, rt)
  {
    hide Execute, Inv, Fair, Abstract, Applied, Permitted;
    SubjectEntry(c, w, ix, rt);
    EntriesRefine(c, w, ix, rt);
    CountersRefine(c, w, ix, rt);
  }

  /** The registry's steps touch one entry and one counter. */
  lemma AppliedElsewhere(reg: Registry, ix: Instruction, rt: Runtime)
    requires Permitted(reg, ix)
    ensures var b := Applied(reg, ix, rt);
            && b.entries.Keys ==
                 (if Registers(ix) then reg.entries.Keys + {ix.metadata}
                  else if ix.Close? && ix.tag.None? then reg.entries.Keys - {ix.metadata}
                  else reg.entries.Keys)
            && (forall k :: k in reg.entries && (ix.CreateShard? || k != ix.metadata)
                 ==> b.entries[k] == reg.entries[k])
            && b.counters.Keys == reg.counters.Keys + (if ix.CreateShard? then {ix.shard} else {})
            && (ix.CreateShard? ==> b.counters[ix.shard] == Counter(ix.number, 0))
            && (forall k :: k in reg.counters && !((Registers(ix) || ix.CreateShard?) && k == ix.shard)
                  ==> b.counters[k] == reg.counters[k])
  {
  }

  // ---------------------------------------------------------------- every step

  /** The slot of the registry that a data account stands for. */
  function SlotTagOf(w: World, k: Pubkey): Option<bytes>
    requires k in w.roles
  {
    if w.roles[k].AssociatedData? then Some(w.roles[k].tag) else None
  }

  /** Two worlds with the same roles that differ in one data account differ in one slot. */
  lemma OneSlot(c: Chain, w: World, w': World, j: Pubkey)
    requires c.Sound() && Inv(c, w) && IsData(w, j) && w' == w.Put(j, w'.Data(j))
    ensures var k, a := ParentOf(c, w, j), Abstract(c, w);
            && k in a.entries && a.entries[k].Holds(SlotTagOf(w, j)) && a.entries[k].Bytes(SlotTagOf(w, j)) == w.Data(j)
            && Abstract(c, w') == a.Set(k, a.entries[k].SetBytes(SlotTagOf(w, j), w'.Data(j)))
  {
    hide Decode, DecodeShard, EntryOf, CounterOf;
    var k := ParentOf(c, w, j);
    assert GoodAt(c, w, j);
    SlotOf(c, w, k, j, SlotTagOf(w, j));
    SlotWritten(c, w, w', k, j, SlotTagOf(w, j));
    hide Inv;
    forall i | i in w.roles && w.roles[i].Metadata? && i != k ensures EntryOf(c, w', i) == EntryOf(c, w, i) {
      EntryKept(c, w, w', i);
    }
    forall i | i in w.roles && w.roles[i].Shard? ensures CounterOf(w', i) == CounterOf(w, i) {
      CounterKept(w, w', i);
    }
  }

  lemma CounterKept(w: World, w': World, i: Pubkey)
    requires w'.Data(i) == w.Data(i)
    ensures CounterOf(w', i) == CounterOf(w, i)
  {
  }

  /** Bytes that pass for a record are edited in its list of authorities. */
  ghost predicate ListEdited(b: bytes, b': bytes) {
    && Decode(b).Some? && Decode(b').Some?
    && Decode(b').value == Decode(b).value.(updateAuthorities := Decode(b').value.updateAuthorities)
    && Decode(b).value.updateAuthorities != []
  }

  /** An authority instruction that is passed a data account, whose bytes pass for a record, edits its list only. */
  lemma AuthorityOnDataAccount(c: Chain, w: World, ix: Instruction, rt: Runtime)
    requires c.Sound() && Inv(c, w) && Fair(c, w, Run(ix, rt)) && Execute(c, w, ix, rt).Ok?
    requires (ix.AddAuthority? || ix.RemoveAuthority?) && !Proper(w, ix)
    ensures var w' := Execute(c, w, ix, rt).value;
            && IsData(w, ix.metadata) && w.Record(ix.metadata).Some?
            && w' == w.Put(ix.metadata, w'.Data(ix.metadata))
            && ListEdited(w.Data(ix.metadata), w'.Data(ix.metadata))
  {
    hide Decode, DecodeShard, Encode, AuthorityCheck, SwapRemove;
    assert w.Owned(ix.metadata);
    RecordsAreNotShards(w.Data(ix.metadata));
    assert GoodAt(c, w, ix.metadata);
    var m := w.Record(ix.metadata).value;
    if w.roles[ix.metadata].Handed? {
      HandedRefuses(w, ix.metadata, ix.caller);
    }
    AuthorityPassed(ix.caller, m);
    DecodeEncode(if ix.AddAuthority? then m.(updateAuthorities := m.updateAuthorities + [ix.newAuthority])
                 else m.(updateAuthorities :=
                   SwapRemove(m.updateAuthorities, Position(m.updateAuthorities, ix.caller.Signer().value))));
  }

  /**
    What the registry may do in one step: nothing, a permitted instruction, or a list edit in the bytes of one
    slot.
   */
  ghost predicate RegistryStep(reg: Registry, reg': Registry) {
    || reg' == reg
    || (exists ix, rt :: Permitted(reg, ix) && reg' == Applied(reg, ix, rt))
    || (exists k, tag, b {:trigger reg.entries[k].SetBytes(tag, b)} ::
          && k in reg.entries && reg.entries[k].Holds(tag) && ListEdited(reg.entries[k].Bytes(tag), b)
          && reg' == reg.Set(k, reg.entries[k].SetBytes(tag, b)))
  }

  /** Whatever happens on the chain, the registry sees a step of its own. */
  lemma StepRefines(c: Chain, w: World, step: Step)
    requires c.Sound() && Inv(c, w) && Fair(c, w, step)
    ensures RegistryStep(Abstract(c, w), Abstract(c, Next(c, w, step)))
  {
    hide Decode, DecodeShard, Execute, Inv, Abstract, Permitted, Applied;
    match step
    case Outside(_, _) => OutsideIsInvisible(c, w, step);
    case Run(ix, rt) =>
      if Execute(c, w, ix, rt).Ok? {
        if Proper(w, ix) {
          LedgerRefinesRegistry(c, w, ix, rt);
        } else if ix.ClearData? {
          NothingToClear(c, w, ix, rt);
        } else {
          AuthorityOnDataAccount(c, w, ix, rt);
          OneSlot(c, w, Next(c, w, step), ix.metadata);
        }
      }
  }

  lemma OutsideIsInvisible(c: Chain, w: World, step: Step)
    requires Inv(c, w) && Fair(c, w, step) && step.Outside?
    ensures Abstract(c, Next(c, w, step)) == Abstract(c, w)
  {
    OutsideShape(c, w, step.k, step.account);
    hide Decode, DecodeShard, EntryOf, CounterOf, GoodAt, Shape, LawfulChange, NothingBelow;
    var w' := Next(c, w, step);
    forall i | i in w.roles && w.roles[i].Metadata? ensures EntryOf(c, w', i) == EntryOf(c, w, i) {
      EntryKept(c, w, w', i);
    }
    forall i | i in w.roles && w.roles[i].Shard? ensures CounterOf(w', i) == CounterOf(w, i) {
      CounterKept(w, w', i);
    }
    hide Inv;
    SameMaps(Abstract(c, w').entries, Abstract(c, w).entries);
    SameMaps(Abstract(c, w').counters, Abstract(c, w).counters);
  }

  // ---------------------------------------------------------------- every run

  /** The registries that a run passes through. */
  function History(c: Chain, w: World, steps: seq<Step>): (h: seq<Registry>)
    ensures |h| == |steps| + 1
    decreases |steps|
  {
    [Abstract(c, w)] + (if steps == [] then [] else History(c, Next(c, w, steps[0]), steps[1..]))
  }

  /** Every run of the chain is a run of the registry, which starts empty when the ledger does. */
  lemma {:induction false} RunRefines(c: Chain, w: World, steps: seq<Step>)
    requires c.Sound() && Inv(c, w) && FairRun(c, w, steps)
    ensures var h := History(c, w, steps);
            && h[0] == Abstract(c, w)
            && h[|steps|] == Abstract(c, After(c, w, steps))
            && (forall i :: 0 <= i < |steps| ==> RegistryStep(h[i], h[i + 1]))
    ensures Init(c, w) ==> Abstract(c, w) == Registry(map[], map[])
    decreases |steps|
  {
    hide Inv, Fair, Next, RegistryStep, EntryOf, CounterOf;
    if steps != [] {
      StepRefines(c, w, steps[0]);
      StepInv(c, w, steps[0]);
      RunRefines(c, Next(c, w, steps[0]), steps[1..]);
    }
  }
}
