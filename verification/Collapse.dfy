/** When a lawful run can close the data of an inscription without authorities: if and only if its bytes invite it. */
module Collapse {
  import opened Basics
  import opened State
  import opened Codec
  import opened Addresses
  import opened Accounts
  import opened Program
  import opened Invariant
  import opened Placement
  import opened Preservation
  import opened Frames
  import opened Runs
  import opened Authority
  import opened Success
  import opened Exposure

  const GRANTED: Runtime := Runtime(true, [])

  /** Some lawful run takes account `d` from the program. */
  ghost predicate Falls(c: Chain, w: World, d: Pubkey) {
    exists steps :: LawfulRun(c, w, steps) && !After(c, w, steps).Owned(d)
  }

  /** A list entry of metadata account `d` that a tagged close can remove. */
  ghost predicate Droppable(c: Chain, d: Pubkey, a: AssociatedInscription) {
    1 <= |a.tag| <= 32 && c.KnowsAssociated(a.tag, d) && a.bump == c.AssociatedBump(a.tag, d)
  }

  /** Every entry can be removed; for each a child is created first, which takes room for one entry more. */
  ghost predicate Emptiable(c: Chain, d: Pubkey, l: seq<AssociatedInscription>) {
    l == [] || (|l| + 1 < U32_LIMIT && forall a :: a in l ==> Droppable(c, d, a))
  }

  /** The bytes of `d` pass for the metadata record of `x`, with a possible signer, and its list can be emptied. */
  ghost predicate Inviting(c: Chain, w: World, d: Pubkey, x: Pubkey) {
    && w.Record(d).Some?
    && w.Record(d).value.bump == c.MetadataBump(x)
    && !Sealed(c, w, d)
    && Emptiable(c, d, w.Record(d).value.associatedInscriptions)
  }

  /** No account derived from `d` and a tag is the program's. */
  ghost predicate Childless(c: Chain, w: World, d: Pubkey) {
    forall t :: c.KnowsAssociated(t, d) ==> !w.Owned(c.AssociatedAddress(t, d))
  }

  // ---------------------------------------------------------------- emptying the list

  /** The key `x` is the program's as well as `d`, whose bytes are taken for its metadata with `s` for an authority. */
  ghost predicate Ajar(c: Chain, w: World, x: Pubkey, d: Pubkey, s: Pubkey) {
    && c.Sound() && c.KnowsMetadata(x) && d == c.MetadataAddress(x) && !c.derived(x) && !c.derived(s)
    && w.Owned(x) && w.Owned(d) && w.Record(d).Some?
    && s in w.Record(d).value.updateAuthorities && w.Record(d).value.bump == c.MetadataBump(x)
    && Emptiable(c, d, w.Record(d).value.associatedInscriptions)
    && Childless(c, w, d)
  }

  lemma AjarLoads(c: Chain, w: World, x: Pubkey, d: Pubkey, s: Pubkey)
    requires Ajar(c, w, x, d, s)
    ensures Load(w, d) == Ok(w.Record(d).value) && Fits(w.Record(d).value) && w.Data(d) == Encode(w.Record(d).value)
    ensures AuthorityCheck(Alone(s), w.Record(d).value) == Pass
    ensures forall k :: k in Alone(s).signers ==> !c.derived(k)
    ensures x != d
  {
    EncodeDecode(w.Data(d));
    FixedOffsets(w.Record(d).value);
    AlonePasses(c, s, w.Record(d).value);
    AddressesDisjoint(c);
    hide Decode, Encode;
  }

  lemma AloneLawful(c: Chain, w: World, ix: Instruction, s: Pubkey)
    requires CallerOf(ix) == Alone(s) && !c.derived(s) && Hashes(ix) <= c.known
    ensures Lawful(c, w, Run(ix, GRANTED))
  {
  }

  lemma AjarCloses(c: Chain, w: World, x: Pubkey, d: Pubkey, s: Pubkey)
    requires Ajar(c, w, x, d, s) && w.Record(d).value.associatedInscriptions == []
    ensures var step := Run(Close(x, d, Alone(s), None), GRANTED);
            Lawful(c, w, step) && Next(c, w, step) == w.Close(x).Close(d)
  {
    AjarLoads(c, w, x, d, s);
    AloneLawful(c, w, Close(x, d, Alone(s), None), s);
    hide Decode, Encode, AuthorityCheck, Load, Childless, Emptiable, Alone, Lawful, Fits, Store, Without;
    assert TargetCheck(c, x, d, w.Record(d).value, None) == Pass;
    hide TargetCheck;
  }

  lemma {:induction false} WithoutPushed(l: seq<AssociatedInscription>, e: AssociatedInscription)
    ensures Without(l + [e], e.tag, e.bump) == Without(l, e.tag, e.bump)
  {
    if l == [] {
      assert l + [e] == [e];
      assert [e][1..] == [];
    } else {
      assert (l + [e])[1..] == l[1..] + [e];
      WithoutPushed(l[1..], e);
    }
  }

  lemma {:induction false} WithoutShrinks(l: seq<AssociatedInscription>, t: bytes, b: byte)
    ensures |Without(l, t, b)| <= |l|
    ensures l != [] && l[0].tag == t && l[0].bump == b ==> |Without(l, t, b)| < |l|
    ensures forall a :: a in Without(l, t, b) ==> a in l
    ensures forall a :: a in l && !(a.tag == t && a.bump == b) ==> a in Without(l, t, b)
  {
    if l != [] {
      WithoutShrinks(l[1..], t, b);
      assert l == [l[0]] + l[1..];
    }
  }

  lemma PushFits(w: World, d: Pubkey, m: InscriptionMetadata, e: AssociatedInscription)
    requires w.Record(d) == Some(m) && Fits(m) && |m.associatedInscriptions| + 1 < U32_LIMIT && |e.tag| <= 32
    ensures var m' := m.(associatedInscriptions := m.associatedInscriptions + [e]);
            Store(w, d, m', GRANTED) == Ok(w.Put(d, Encode(m'))) && Decode(Encode(m')) == Some(m')
  {
    var m' := m.(associatedInscriptions := m.associatedInscriptions + [e]);
    MoreSize(m.associatedInscriptions, e);
    RecordSize(m);
    RecordSize(m');
    StoreSucceeds(w, d, m, m', GRANTED);
    DecodeEncode(m');
  }

  lemma DropFits(w: World, d: Pubkey, m: InscriptionMetadata, t: bytes, b: byte)
    requires w.Record(d) == Some(m) && Fits(m)
    ensures var m' := m.(associatedInscriptions := Without(m.associatedInscriptions, t, b));
            Store(w, d, m', GRANTED) == Ok(w.Put(d, Encode(m'))) && Decode(Encode(m')) == Some(m')
  {
    var m' := m.(associatedInscriptions := Without(m.associatedInscriptions, t, b));
    WithoutSize(m.associatedInscriptions, t, b);
    RecordSize(m);
    RecordSize(m');
    StoreSucceeds(w, d, m, m', GRANTED);
    DecodeEncode(m');
  }

  function Entry(c: Chain, d: Pubkey, t: Tag): AssociatedInscription {
    AssociatedInscription(t, c.AssociatedBump(t, d), DataType.Uninitialized)
  }

  /** With the child's account vacant, it is created, and its entry pushed. */
  lemma ChildAdded(c: Chain, w: World, x: Pubkey, d: Pubkey, s: Pubkey, t: Tag)
    requires Ajar(c, w, x, d, s) && 1 <= |t| <= 32 && c.KnowsAssociated(t, d) && w.Vacant(c.AssociatedAddress(t, d))
    requires |w.Record(d).value.associatedInscriptions| + 1 < U32_LIMIT
    ensures var child, m := c.AssociatedAddress(t, d), w.Record(d).value;
            var step := Run(InitializeAssociatedInscription(x, d, child, Alone(s), t), GRANTED);
            var m' := m.(associatedInscriptions := m.associatedInscriptions + [Entry(c, d, t)]);
            && Lawful(c, w, step)
            && Next(c, w, step) == w.Create(child, [], AssociatedData(t, d)).Put(d, Encode(m'))
            && Decode(Encode(m')) == Some(m')
  {
    var child, m := c.AssociatedAddress(t, d), w.Record(d).value;
    AjarApart(c, w, x, d, s, t);
    AjarLoads(c, w, x, d, s);
    AddLawful(c, w, x, d, s, t);
    assert w.Owned(x) && d == c.MetadataAddress(x);
    var w1 := w.Create(child, [], AssociatedData(t, d));
    assert w1.At(d) == w.At(d);
    PushFits(w1, d, m, Entry(c, d, t));
    hide *;
    PushRuns(c, w, x, d, Alone(s), t, m);
  }

  lemma AddLawful(c: Chain, w: World, x: Pubkey, d: Pubkey, s: Pubkey, t: Tag)
    requires !c.derived(s) && c.KnowsMetadata(x) && c.KnowsAssociated(t, d)
    ensures Lawful(c, w, Run(InitializeAssociatedInscription(x, d, c.AssociatedAddress(t, d), Alone(s), t), GRANTED))
  {
  }

  lemma PushRuns(c: Chain, w: World, x: Pubkey, d: Pubkey, caller: Caller, t: Tag, m: InscriptionMetadata)
    requires w.Owned(x) && w.Vacant(c.AssociatedAddress(t, d)) && Load(w, d) == Ok(m) && d == c.MetadataAddress(x)
    requires 1 <= |t| <= 32 && AuthorityCheck(caller, m) == Pass
    requires var w1 := w.Create(c.AssociatedAddress(t, d), [], AssociatedData(t, d));
             var m' := m.(associatedInscriptions := m.associatedInscriptions + [Entry(c, d, t)]);
             Store(w1, d, m', GRANTED) == Ok(w1.Put(d, Encode(m')))
    ensures var child := c.AssociatedAddress(t, d);
            var m' := m.(associatedInscriptions := m.associatedInscriptions + [Entry(c, d, t)]);
            Next(c, w, Run(InitializeAssociatedInscription(x, d, child, caller, t), GRANTED))
              == w.Create(child, [], AssociatedData(t, d)).Put(d, Encode(m'))
  {
    hide Store, Load, AuthorityCheck, Encode;
  }

  /** With the child there, it is closed, and every entry with its tag and bump is dropped. */
  lemma ChildRemoved(c: Chain, w: World, d: Pubkey, s: Pubkey, t: Tag, m: InscriptionMetadata)
    requires w.Owned(d) && w.Record(d) == Some(m) && s in m.updateAuthorities && !c.derived(s)
    requires 1 <= |t| <= 32 && c.KnowsAssociated(t, d) && w.Owned(c.AssociatedAddress(t, d))
    requires Lists(m.associatedInscriptions, t, c.AssociatedBump(t, d))
    ensures var child := c.AssociatedAddress(t, d);
            var step := Run(Close(child, d, Alone(s), Some(t)), GRANTED);
            var m' := m.(associatedInscriptions := Without(m.associatedInscriptions, t, c.AssociatedBump(t, d)));
            && Lawful(c, w, step)
            && Next(c, w, step) == w.Put(d, Encode(m')).Close(child)
            && Decode(Encode(m')) == Some(m')
  {
    hide *;
    var child, b := c.AssociatedAddress(t, d), c.AssociatedBump(t, d);
    ChildCloseLawful(c, w, d, s, t);
    RecordLoads(w, d, m);
    AlonePasses(c, s, m);
    DropFits(w, d, m, t, b);
    ChildTargeted(c, d, t, m);
    TaggedCloseRuns(c, w, child, d, Alone(s), t, m);
  }

  lemma TaggedCloseRuns(c: Chain, w: World, child: Pubkey, d: Pubkey, caller: Caller, t: Tag, m: InscriptionMetadata)
    requires w.Owned(child) && Load(w, d) == Ok(m) && AuthorityCheck(caller, m) == Pass
    requires TargetCheck(c, child, d, m, Some(t)) == Pass
    requires var m' := m.(associatedInscriptions := Without(m.associatedInscriptions, t, c.AssociatedBump(t, d)));
             Store(w, d, m', GRANTED) == Ok(w.Put(d, Encode(m')))
    ensures var m' := m.(associatedInscriptions := Without(m.associatedInscriptions, t, c.AssociatedBump(t, d)));
            Next(c, w, Run(Close(child, d, caller, Some(t)), GRANTED)) == w.Put(d, Encode(m')).Close(child)
  {
    hide Store, Load, AuthorityCheck, TargetCheck, Encode, Without;
  }

  lemma ChildCloseLawful(c: Chain, w: World, d: Pubkey, s: Pubkey, t: Tag)
    requires !c.derived(s) && c.KnowsAssociated(t, d)
    ensures Lawful(c, w, Run(Close(c.AssociatedAddress(t, d), d, Alone(s), Some(t)), GRANTED))
  {
  }

  lemma ChildTargeted(c: Chain, d: Pubkey, t: Tag, m: InscriptionMetadata)
    requires 1 <= |t| <= 32 && Lists(m.associatedInscriptions, t, c.AssociatedBump(t, d))
    ensures TargetCheck(c, c.AssociatedAddress(t, d), d, m, Some(t)) == Pass
  {
  }

  lemma RecordLoads(w: World, d: Pubkey, m: InscriptionMetadata)
    requires w.Owned(d) && w.Record(d) == Some(m)
    ensures Load(w, d) == Ok(m) && Fits(m)
  {
    EncodeDecode(w.Data(d));
    FixedOffsets(m);
  }

  // ---------------------------------------------------------------- an inviting account falls

  lemma RunCons(c: Chain, w: World, step: Step, rest: seq<Step>)
    requires Lawful(c, w, step) && LawfulRun(c, Next(c, w, step), rest)
    ensures LawfulRun(c, w, [step] + rest) && After(c, w, [step] + rest) == After(c, Next(c, w, step), rest)
  {
    hide Lawful, Next;
    assert ([step] + rest)[1..] == rest;
  }

  lemma RemainsEmptiable(c: Chain, d: Pubkey, l: seq<AssociatedInscription>, t: bytes)
    requires Emptiable(c, d, l)
    ensures Emptiable(c, d, Without(l, t, c.AssociatedBump(t, d)))
  {
    WithoutShrinks(l, t, c.AssociatedBump(t, d));
    hide Without;
  }

  /** Closing a child that was added just before leaves the rest as it was. */
  lemma StillChildless(c: Chain, w: World, w': World, d: Pubkey, x: Pubkey, child: Pubkey)
    requires c.Sound() && c.KnowsMetadata(x) && d == c.MetadataAddress(x) && Childless(c, w, d)
    requires forall j :: j != child && j != d ==> w'.At(j) == w.At(j)
    requires !w'.Owned(child)
    ensures Childless(c, w', d)
  {
    AddressesDisjoint(c);
  }

  /** A child comes and goes, and takes the entries of its tag along. */
  lemma AddedAndRemoved(c: Chain, w: World, x: Pubkey, d: Pubkey, s: Pubkey, t: Tag) returns (w1: World, w2: World)
    requires Ajar(c, w, x, d, s) && 1 <= |t| <= 32 && c.KnowsAssociated(t, d) && w.Vacant(c.AssociatedAddress(t, d))
    requires |w.Record(d).value.associatedInscriptions| + 1 < U32_LIMIT
    requires c.AssociatedAddress(t, d) != d
    ensures var child, m := c.AssociatedAddress(t, d), w.Record(d).value;
            var add := Run(InitializeAssociatedInscription(x, d, child, Alone(s), t), GRANTED);
            var remove := Run(Close(child, d, Alone(s), Some(t)), GRANTED);
            var l := Without(m.associatedInscriptions, t, c.AssociatedBump(t, d));
            && Lawful(c, w, add) && Next(c, w, add) == w1 && Lawful(c, w1, remove) && Next(c, w1, remove) == w2
            && w2.Record(d) == Some(m.(associatedInscriptions := l)) && w2.Owned(d) && !w2.Owned(child)
            && (forall j :: j != child && j != d ==> w2.At(j) == w.At(j))
  {
    var child, m := c.AssociatedAddress(t, d), w.Record(d).value;
    var e, b := Entry(c, d, t), c.AssociatedBump(t, d);
    var m1 := m.(associatedInscriptions := m.associatedInscriptions + [e]);
    var m2 := m.(associatedInscriptions := Without(m.associatedInscriptions, t, b));
    assert s in m1.updateAuthorities && !c.derived(s);
    assert Lists(m1.associatedInscriptions, t, b) by {
      assert m1.associatedInscriptions[|m.associatedInscriptions|] == e;
    }
    ChildAdded(c, w, x, d, s, t);
    WithoutPushed(m.associatedInscriptions, e);
    ThereAndBack(w, child, d, AssociatedData(t, d), Encode(m1), Encode(m2));
    assert m1.(associatedInscriptions := Without(m1.associatedInscriptions, t, b)) == m2;
    hide *;
    w1 := Next(c, w, Run(InitializeAssociatedInscription(x, d, child, Alone(s), t), GRANTED));
    ChildRemoved(c, w1, d, s, t, m1);
    w2 := Next(c, w1, Run(Close(child, d, Alone(s), Some(t)), GRANTED));
  }

  lemma ThereAndBack(w: World, child: Pubkey, d: Pubkey, role: Role, data: bytes, data': bytes)
    requires child != d
    ensures var w1 := w.Create(child, [], role).Put(d, data);
            var w2 := w1.Put(d, data').Close(child);
            && w1.Owned(child) && w1.Owned(d) && w1.Record(d) == Decode(data)
            && w2.Owned(d) && w2.Record(d) == Decode(data') && !w2.Owned(child)
            && (forall j :: j != child && j != d ==> w2.At(j) == w.At(j))
  {
    hide Decode;
  }

  lemma AjarAgain(c: Chain, w: World, w': World, x: Pubkey, d: Pubkey, s: Pubkey, t: bytes)
    requires Ajar(c, w, x, d, s) && c.KnowsAssociated(t, d) && w.Record(d).value.associatedInscriptions != []
    requires w.Record(d).value.associatedInscriptions[0].tag == t
    requires c.AssociatedAddress(t, d) != x && x != d
    requires var m := w.Record(d).value;
             var l := Without(m.associatedInscriptions, t, c.AssociatedBump(t, d));
             w'.Record(d) == Some(m.(associatedInscriptions := l)) && w'.Owned(d)
    requires !w'.Owned(c.AssociatedAddress(t, d))
    requires forall j :: j != c.AssociatedAddress(t, d) && j != d ==> w'.At(j) == w.At(j)
    ensures Ajar(c, w', x, d, s)
    ensures |w'.Record(d).value.associatedInscriptions| < |w.Record(d).value.associatedInscriptions|
  {
    var l := w.Record(d).value.associatedInscriptions;
    assert l[0] in l;
    WithoutShrinks(l, t, c.AssociatedBump(t, d));
    RemainsEmptiable(c, d, l, t);
    StillChildless(c, w, w', d, x, c.AssociatedAddress(t, d));
    hide Decode, Without, Childless;
  }

  /** With the room made, the first entry goes: its child is added and closed. */
  lemma FirstGone(c: Chain, w: World, x: Pubkey, d: Pubkey, s: Pubkey) returns (w': World, steps: seq<Step>)
    requires Ajar(c, w, x, d, s) && w.Record(d).value.associatedInscriptions != []
    requires w.Vacant(c.AssociatedAddress(w.Record(d).value.associatedInscriptions[0].tag, d))
    ensures Ajar(c, w', x, d, s)
    ensures |w'.Record(d).value.associatedInscriptions| < |w.Record(d).value.associatedInscriptions|
    ensures forall rest :: LawfulRun(c, w', rest) ==>
              LawfulRun(c, w, steps + rest) && After(c, w, steps + rest) == After(c, w', rest)
  {
    var t: Tag := w.Record(d).value.associatedInscriptions[0].tag;
    var child := c.AssociatedAddress(t, d);
    AjarFirst(c, w, x, d, s);
    AjarApart(c, w, x, d, s, t);
    hide *;
    var w1;
    w1, w' := AddedAndRemoved(c, w, x, d, s, t);
    AjarAgain(c, w, w', x, d, s, t);
    steps := [Run(InitializeAssociatedInscription(x, d, child, Alone(s), t), GRANTED),
              Run(Close(child, d, Alone(s), Some(t)), GRANTED)];
    TwoSteps(c, w, w1, w', steps);
  }

  lemma TwoSteps(c: Chain, w: World, w1: World, w2: World, steps: seq<Step>)
    requires |steps| == 2
    requires Lawful(c, w, steps[0]) && Next(c, w, steps[0]) == w1
    requires Lawful(c, w1, steps[1]) && Next(c, w1, steps[1]) == w2
    ensures forall rest :: LawfulRun(c, w2, rest) ==>
              LawfulRun(c, w, steps + rest) && After(c, w, steps + rest) == After(c, w2, rest)
  {
    hide Next, Lawful;
    forall rest | LawfulRun(c, w2, rest)
      ensures LawfulRun(c, w, steps + rest) && After(c, w, steps + rest) == After(c, w2, rest)
    {
      RunCons(c, w1, steps[1], rest);
      RunCons(c, w, steps[0], [steps[1]] + rest);
      assert steps + rest == [steps[0]] + ([steps[1]] + rest);
    }
  }

  /** The first entry goes, once its child's address is vacated. */
  lemma FirstDropped(c: Chain, w: World, x: Pubkey, d: Pubkey, s: Pubkey) returns (w': World, steps: seq<Step>)
    requires Ajar(c, w, x, d, s) && w.Record(d).value.associatedInscriptions != []
    ensures Ajar(c, w', x, d, s)
    ensures |w'.Record(d).value.associatedInscriptions| < |w.Record(d).value.associatedInscriptions|
    ensures forall rest :: LawfulRun(c, w', rest) ==>
              LawfulRun(c, w, steps + rest) && After(c, w, steps + rest) == After(c, w', rest)
  {
    assert w.Record(d).Some?;
    hide Ajar, Next, Lawful, Decode;
    var t: Tag := w.Record(d).value.associatedInscriptions[0].tag;
    var child := c.AssociatedAddress(t, d);
    AjarFirst(c, w, x, d, s);
    AjarApart(c, w, x, d, s, t);
    Vacated(c, w, x, d, s, child);
    OutsideNext(c, w, child, None);
    var vacate, w1 := Outside(child, None), w.Outside(child, None);
    assert w1.Record(d) == w.Record(d);
    hide *;
    var back;
    w', back := FirstGone(c, w1, x, d, s);
    steps := [vacate] + back;
    forall rest | LawfulRun(c, w', rest)
      ensures LawfulRun(c, w, steps + rest) && After(c, w, steps + rest) == After(c, w', rest)
    {
      RunCons(c, w, vacate, back + rest);
      assert steps + rest == [vacate] + (back + rest);
    }
  }

  lemma AjarFirst(c: Chain, w: World, x: Pubkey, d: Pubkey, s: Pubkey)
    requires Ajar(c, w, x, d, s) && w.Record(d).value.associatedInscriptions != []
    ensures var l := w.Record(d).value.associatedInscriptions;
            |l| + 1 < U32_LIMIT && 1 <= |l[0].tag| <= 32 && c.KnowsAssociated(l[0].tag, d)
  {
    hide Decode, Childless;
    assert w.Record(d).value.associatedInscriptions[0] in w.Record(d).value.associatedInscriptions;
  }

  lemma OutsideNext(c: Chain, w: World, k: Pubkey, account: Option<Account>)
    ensures Next(c, w, Outside(k, account)) == w.Outside(k, account)
  {
  }

  lemma AjarApart(c: Chain, w: World, x: Pubkey, d: Pubkey, s: Pubkey, t: bytes)
    requires Ajar(c, w, x, d, s) && c.KnowsAssociated(t, d)
    ensures var child := c.AssociatedAddress(t, d);
            child != x && child != d && x != d && !w.Owned(child) && Lawful(c, w, Outside(child, None))
  {
    hide Decode;
    AddressesDisjoint(c);
  }

  lemma Vacated(c: Chain, w: World, x: Pubkey, d: Pubkey, s: Pubkey, child: Pubkey)
    requires Ajar(c, w, x, d, s) && child != x && child != d
    ensures Ajar(c, w.Outside(child, None), x, d, s) && w.Outside(child, None).Vacant(child)
  {
    hide Decode, Emptiable;
    var w' := w.Outside(child, None);
    assert forall j :: j != child ==> w'.At(j) == w.At(j);
  }

  /** One entry after the other goes, and then the account itself. */
  lemma {:induction false} AjarFalls(c: Chain, w: World, x: Pubkey, d: Pubkey, s: Pubkey) returns (steps: seq<Step>)
    requires Ajar(c, w, x, d, s)
    ensures LawfulRun(c, w, steps) && !After(c, w, steps).Owned(d)
    decreases |w.Record(d).value.associatedInscriptions|
  {
    if w.Record(d).value.associatedInscriptions == [] {
      var last := Run(Close(x, d, Alone(s), None), GRANTED);
      AjarCloses(c, w, x, d, s);
      hide Decode, Ajar, Next, Lawful;
      assert LawfulRun(c, Next(c, w, last), []) && After(c, Next(c, w, last), []) == Next(c, w, last);
      RunCons(c, w, last, []);
      steps := [last] + [];
    } else {
      hide Decode, Ajar, Next, Lawful;
      var w', front := FirstDropped(c, w, x, d, s);
      var rest := AjarFalls(c, w', x, d, s);
      steps := front + rest;
    }
  }

  /** Whoever hands over the mint that an inviting account derives from opens it to those its bytes name. */
  lemma InvitingFalls(c: Chain, w: World, d: Pubkey, x: Pubkey)
    requires c.Sound() && Inv(c, w) && d in w.roles && w.roles[d] == MainData(FromMint(x)) && Inviting(c, w, d, x)
    ensures Falls(c, w, d)
  {
    var s :| s in w.Record(d).value.updateAuthorities && !c.derived(s);
    var hand := Outside(x, Some(Account(Program, [])));
    var w1 := Next(c, w, hand);
    assert Lawful(c, w, hand) && Ajar(c, w1, x, d, s) by { HandedIsAjar(c, w, d, x, s); }
    hide Decode, Ajar, Next, Lawful, Inviting, Inv;
    var rest := AjarFalls(c, w1, x, d, s);
    RunCons(c, w, hand, rest);
  }

  lemma HandedIsAjar(c: Chain, w: World, d: Pubkey, x: Pubkey, s: Pubkey)
    requires c.Sound() && Inv(c, w) && d in w.roles && w.roles[d] == MainData(FromMint(x)) && Inviting(c, w, d, x)
    requires s in w.Record(d).value.updateAuthorities && !c.derived(s)
    ensures var hand := Outside(x, Some(Account(Program, [])));
            Lawful(c, w, hand) && Ajar(c, Next(c, w, hand), x, d, s)
  {
    var w1 := Next(c, w, Outside(x, Some(Account(Program, []))));
    MainIsChildless(c, w, d, x);
    hide Decode, Emptiable, Inv;
    AddressesDisjoint(c);
    assert forall j :: j != x ==> w1.At(j) == w.At(j);
  }

  /** In a world that keeps the invariant, main data has no children of its own. */
  lemma MainIsChildless(c: Chain, w: World, d: Pubkey, x: Pubkey)
    requires c.Sound() && Inv(c, w) && d in w.roles && w.roles[d] == MainData(FromMint(x))
    ensures Childless(c, w, d)
    ensures w.Owned(d) && !w.Owned(x) && !c.derived(x) && c.KnowsMetadata(x) && d == c.MetadataAddress(x)
  {
    hide Decode, DecodeShard, LiveEntries;
    assert GoodAt(c, w, d);
    forall t | c.KnowsAssociated(t, d) ensures !w.Owned(c.AssociatedAddress(t, d)) {
      if w.Owned(c.AssociatedAddress(t, d)) {
        AssociatedResolves(c, w, t, c.AssociatedAddress(t, d), d);
      }
    }
  }

  // ---------------------------------------------------------------- and no other

  /** What keeps `d` from ever being taken for the metadata of `x` and closed. */
  ghost predicate Stuck(c: Chain, w: World, d: Pubkey, x: Pubkey) {
    w.Record(d).Some? && w.Record(d).value.bump == c.MetadataBump(x) && !Sealed(c, w, d) ==>
      var l := w.Record(d).value.associatedInscriptions;
      || (exists a :: a in l && !Droppable(c, d, a))
      || (l != [] && |l| + 1 >= U32_LIMIT && Childless(c, w, d))
  }

  /** The main data `d` of a settled pair, which derives from the mint `x`, and which is stuck. */
  ghost predicate Held(c: Chain, w: World, k: Pubkey, d: Pubkey, x: Pubkey) {
    && Settled(c, w, k) && w.roles[k] == Metadata(d) && w.roles[d] == MainData(FromMint(x))
    && Stuck(c, w, d, x)
  }

  /** A step rewrites the record in `d` on the authority of one it names. */
  ghost predicate Edited(c: Chain, w: World, w': World, d: Pubkey) {
    && w.Record(d).Some? && w'.Record(d).Some? && !Sealed(c, w, d)
    && var m, m' := w.Record(d).value, w'.Record(d).value;
       var l := m.associatedInscriptions;
       || m' == m.(updateAuthorities := m'.updateAuthorities)
       || (|l| + 1 < U32_LIMIT && exists a :: m' == m.(associatedInscriptions := l + [a]))
       || (exists t: bytes {:trigger c.KnowsAssociated(t, d)} ::
             && c.KnowsAssociated(t, d) && 1 <= |t| <= 32 && w.Owned(c.AssociatedAddress(t, d))
             && m' == m.(associatedInscriptions := Without(l, t, c.AssociatedBump(t, d))))
  }

  /** Editing gets rid of no entry that cannot be dropped. */
  lemma EditedStaysStuck(c: Chain, w: World, w': World, d: Pubkey, x: Pubkey)
    requires Stuck(c, w, d, x) && Edited(c, w, w', d)
    requires Childless(c, w, d) && |w.Record(d).value.associatedInscriptions| + 1 >= U32_LIMIT ==> Childless(c, w', d)
    ensures Stuck(c, w', d, x)
  {
    hide Decode, Sealed, Childless;
    var m, m' := w.Record(d).value, w'.Record(d).value;
    var l, l' := m.associatedInscriptions, m'.associatedInscriptions;
    if a :| a in l && !Droppable(c, d, a) {
      if t: bytes :| c.KnowsAssociated(t, d) && 1 <= |t| <= 32
                     && m' == m.(associatedInscriptions := Without(l, t, c.AssociatedBump(t, d)))
      {
        WithoutShrinks(l, t, c.AssociatedBump(t, d));
      }
      assert a in l';
    } else if m.bump == c.MetadataBump(x) {
      FullStaysFull(c, w, w', d);
    }
  }

  lemma FullStaysFull(c: Chain, w: World, w': World, d: Pubkey)
    requires Edited(c, w, w', d) && Childless(c, w, d)
    requires |w.Record(d).value.associatedInscriptions| + 1 >= U32_LIMIT
    ensures w'.Record(d).value.associatedInscriptions == w.Record(d).value.associatedInscriptions
  {
    hide Decode, Sealed, Without;
  }

  /** Nothing of a stuck account's surroundings lets an instruction close it. */
  lemma HeldNotClosed(c: Chain, w: World, ix: Instruction, rt: Runtime, k: Pubkey, d: Pubkey, x: Pubkey)
    requires c.Sound() && Placed(c, w) && Lawful(c, w, Run(ix, rt)) && Execute(c, w, ix, rt).Ok? && ix.Close?
    requires Held(c, w, k, d, x) && ix.metadata == d
    ensures ix.tag.Some?
  {
    if ix.tag.None? {
      SettledPlaces(c, w, k);
      DataPlaced(c, w, ix, rt);
      ClosingIsSigned(c, w, ix, rt);
      ClosesEmpty(c, w, ix, rt);
      hide Decode, Execute, Placed, Lawful, Settled, Sealed, AuthorityCheck;
      OnlyTheMintIsAbove(c, w, d, ix.inscription);
    }
  }

  lemma ClosesEmpty(c: Chain, w: World, ix: Instruction, rt: Runtime)
    requires ix.Close? && Execute(c, w, ix, rt).Ok? && ix.tag.None?
    ensures w.Record(ix.metadata).Some? && w.Record(ix.metadata).value.associatedInscriptions == []
  {
    hide Decode, AuthorityCheck, TargetCheck;
  }

  lemma MainBelongs(c: Chain, w: World, k: Pubkey, d: Pubkey)
    requires Placed(c, w) && Settled(c, w, k) && w.roles[k] == Metadata(d)
    ensures BelongsTo(c, w, d, k)
  {
    SettledPlaces(c, w, k);
  }

  /** No lawful step closes the main data of a settled pair while it is stuck. */
  lemma HeldStays(c: Chain, w: World, step: Step, k: Pubkey, d: Pubkey, x: Pubkey)
    requires c.Sound() && Placed(c, w) && Lawful(c, w, step) && Held(c, w, k, d, x)
    ensures SameRole(w, Next(c, w, step), d)
  {
    SettledPlaces(c, w, k);
    MainBelongs(c, w, k, d);
    StepPlaced(c, w, step);
    PlacedCovers(c, w);
    PlacedCovers(c, Next(c, w, step));
    hide Decode, DecodeShard, Execute, Placed, Settled, Stuck;
    var w' := Next(c, w, step);
    if step.Run? && Execute(c, w, step.ix, step.rt).Ok? {
      var ix := step.ix;
      if !w'.Owned(d) {
        OnlyCloseFrees(c, w, ix, step.rt, d);
        SettledNotWritten(c, w, ix, step.rt, k, d);
        HeldNotClosed(c, w, ix, step.rt, k, d, x);
      } else {
        RolesFixed(c, w, ix, step.rt, d);
      }
    }
  }

  lemma TaggedCloseStores(c: Chain, w: World, ix: Instruction, rt: Runtime)
    requires Execute(c, w, ix, rt).Ok? && ix.Close? && ix.tag.Some? && ix.inscription != ix.metadata
    ensures w.Owned(ix.inscription) && w.Record(ix.metadata).Some? && 1 <= |ix.tag.value| <= 32
    ensures var m, t := w.Record(ix.metadata).value, ix.tag.value;
            var l := Without(m.associatedInscriptions, t, c.AssociatedBump(t, ix.metadata));
            Execute(c, w, ix, rt).value.Record(ix.metadata) == Some(m.(associatedInscriptions := l))
  {
    hide Decode, Encode, AuthorityCheck, Without, Lists;
    var m, t := w.Record(ix.metadata).value, ix.tag.value;
    DecodeEncode(m.(associatedInscriptions :=
      Without(m.associatedInscriptions, t, c.AssociatedBump(t, ix.metadata))));
  }

  lemma TaggedCloseEdits(c: Chain, w: World, ix: Instruction, rt: Runtime, d: Pubkey)
    requires c.Sound() && Placed(c, w) && Lawful(c, w, Run(ix, rt)) && Execute(c, w, ix, rt).Ok? && ix.Close?
    requires ix.metadata == d && ix.tag.Some?
    ensures Edited(c, w, Execute(c, w, ix, rt).value, d)
  {
    DataPlaced(c, w, ix, rt);
    ClosingIsSigned(c, w, ix, rt);
    TaggedCloseStores(c, w, ix, rt);
    hide Decode, Execute, AuthorityCheck, Without, Placed, Lawful, Sealed, Inscribable;
  }

  lemma AuthorityStores(c: Chain, w: World, ix: Instruction, rt: Runtime)
    requires Execute(c, w, ix, rt).Ok? && (ix.AddAuthority? || ix.RemoveAuthority?)
    ensures var w' := Execute(c, w, ix, rt).value;
            && w.Record(ix.metadata).Some? && w'.Record(ix.metadata).Some?
            && w'.Record(ix.metadata).value
               == w.Record(ix.metadata).value.(updateAuthorities := w'.Record(ix.metadata).value.updateAuthorities)
  {
    hide Decode, Encode, AuthorityCheck, SwapRemove, Position;
    var m := w.Record(ix.metadata).value;
    AuthorityPassed(ix.caller, m);
    DecodeEncode(m.(updateAuthorities :=
      if ix.AddAuthority? then m.updateAuthorities + [ix.newAuthority]
      else SwapRemove(m.updateAuthorities, Position(m.updateAuthorities, ix.caller.Signer().value))));
  }

  lemma AuthorityEdits(c: Chain, w: World, ix: Instruction, rt: Runtime, d: Pubkey)
    requires Lawful(c, w, Run(ix, rt)) && Execute(c, w, ix, rt).Ok? && (ix.AddAuthority? || ix.RemoveAuthority?)
    requires ix.metadata == d
    ensures Edited(c, w, Execute(c, w, ix, rt).value, d)
  {
    AuthorityAboveSecure(c, w, ix, rt);
    AuthorityStores(c, w, ix, rt);
    hide Decode, Execute, Sealed, Lawful;
  }

  lemma AssociationEdits(c: Chain, w: World, ix: Instruction, rt: Runtime, d: Pubkey)
    requires c.Sound() && Lawful(c, w, Run(ix, rt)) && Execute(c, w, ix, rt).Ok? && ix.InitializeAssociatedInscription?
    requires ix.metadata == d
    ensures Edited(c, w, Execute(c, w, ix, rt).value, d)
  {
    hide Decode, Encode, AuthorityCheck, Sealed;
    var m := w.Record(d).value;
    var a := AssociatedInscription(ix.newTag, c.AssociatedBump(ix.newTag, d), DataType.Uninitialized);
    assert w.Owned(d);
    if Sealed(c, w, d) {
      NobodyPassesSealed(c, w, ix, rt, d);
    }
    DecodeEncode(m.(associatedInscriptions := m.associatedInscriptions + [a]));
  }

  /** What a lawful step can do to the bytes of such an account. */
  lemma HeldEdited(c: Chain, w: World, ix: Instruction, rt: Runtime, k: Pubkey, d: Pubkey, x: Pubkey)
    requires c.Sound() && Placed(c, w) && Lawful(c, w, Run(ix, rt)) && Execute(c, w, ix, rt).Ok?
    requires Held(c, w, k, d, x)
    ensures var w' := Execute(c, w, ix, rt).value; w'.At(d) == w.At(d) || Edited(c, w, w', d)
  {
    SettledPlaces(c, w, k);
    MainBelongs(c, w, k, d);
    hide Placed, Settled, Stuck, Edited, Decode;
    if d !in Writable(ix) {
      OnlyWritable(c, w, ix, rt, d);
    } else if ix.WriteData? || ix.ClearData? || ix.Allocate? || ix.Close? {
      HeldData(c, w, ix, rt, k, d, x);
    } else if Registers(ix) {
      hide Execute;
      var m, s := Registration(c, w, ix, rt);
      InitializesNewPair(c, w, ix, rt);
    } else if ix.AddAuthority? || ix.RemoveAuthority? {
      hide Execute;
      AuthorityEdits(c, w, ix, rt, d);
    } else if ix.SetMint? {
      SetMintPasses(c, w, ix, rt, d, x);
    } else {
      HeldCreation(c, w, ix, rt, d);
    }
  }

  lemma HeldCreation(c: Chain, w: World, ix: Instruction, rt: Runtime, d: Pubkey)
    requires c.Sound() && Lawful(c, w, Run(ix, rt)) && Execute(c, w, ix, rt).Ok? && d in Writable(ix) && w.Owned(d)
    requires ix.InitializeAssociatedInscription? || ix.CreateShard?
    ensures Edited(c, w, Execute(c, w, ix, rt).value, d)
  {
    if ix.InitializeAssociatedInscription? && ix.metadata == d {
      AssociationEdits(c, w, ix, rt, d);
    }
    hide Decode, Encode, AuthorityCheck, Store, Edited;
  }

  lemma SetMintPasses(c: Chain, w: World, ix: Instruction, rt: Runtime, d: Pubkey, x: Pubkey)
    requires c.Sound() && Lawful(c, w, Run(ix, rt)) && Execute(c, w, ix, rt).Ok? && ix.SetMint?
    requires c.KnowsMetadata(x) && d == c.MetadataAddress(x) && !c.derived(x)
    ensures ix.metadata != d
  {
    SetMintChecks(c, w, ix, rt);
    AddressesDisjoint(c);
    hide Execute;
    if ix.metadata == d {
      SameMetadataAddress(c, ix.inscription, x);
    }
  }

  lemma HeldData(c: Chain, w: World, ix: Instruction, rt: Runtime, k: Pubkey, d: Pubkey, x: Pubkey)
    requires c.Sound() && Placed(c, w) && Lawful(c, w, Run(ix, rt)) && Execute(c, w, ix, rt).Ok?
    requires Held(c, w, k, d, x) && BelongsTo(c, w, d, k) && d in Writable(ix)
    requires ix.WriteData? || ix.ClearData? || ix.Allocate? || ix.Close?
    ensures var w' := Execute(c, w, ix, rt).value; w' == w || Edited(c, w, w', d)
  {
    if ix.ClearData? && w.Data(ix.inscription) == [] {
      NothingToClear(c, w, ix, rt);
    } else {
      hide Execute, Placed, Lawful, Settled, Stuck, Edited;
      SettledNotWritten(c, w, ix, rt, k, d);
      if ix.Close? {
        HeldNotClosed(c, w, ix, rt, k, d, x);
        TaggedCloseEdits(c, w, ix, rt, d);
      }
    }
  }

  /** With a full list no child can be added. */
  lemma FullStaysChildless(c: Chain, w: World, step: Step, d: Pubkey)
    requires c.Sound() && Placed(c, w) && Lawful(c, w, step) && Childless(c, w, d)
    requires w.Record(d).Some? && |w.Record(d).value.associatedInscriptions| + 1 >= U32_LIMIT
    ensures Childless(c, Next(c, w, step), d)
  {
    var w' := Next(c, w, step);
    StepPlaced(c, w, step);
    PlacedCovers(c, w);
    hide Decode, DecodeShard, Execute, Placed, Lawful;
    forall t | c.KnowsAssociated(t, d) ensures !w'.Owned(c.AssociatedAddress(t, d)) {
      if w'.Owned(c.AssociatedAddress(t, d)) {
        AssociatedPlaced(c, w', t, d);
        BornByPush(c, w, step, t, d);
      }
    }
  }

  lemma BornByPush(c: Chain, w: World, step: Step, t: bytes, d: Pubkey)
    requires c.Sound() && Placed(c, w) && Lawful(c, w, step) && c.KnowsAssociated(t, d)
    requires var j := c.AssociatedAddress(t, d);
             !w.Owned(j) && j in Next(c, w, step).roles && Next(c, w, step).roles[j] == AssociatedData(t, d)
    ensures w.Record(d).Some? && |w.Record(d).value.associatedInscriptions| + 1 < U32_LIMIT
  {
    PlacedCovers(c, w);
    hide Decode, DecodeShard, Placed, Execute, MintsSign;
    match step
    case Outside(_, _) =>
    case Run(ix, rt) =>
      Newcomers(c, w, ix, rt, c.AssociatedAddress(t, d));
      PushTakesRoom(c, w, ix, rt);
  }

  lemma PushTakesRoom(c: Chain, w: World, ix: Instruction, rt: Runtime)
    requires ix.InitializeAssociatedInscription? && Execute(c, w, ix, rt).Ok?
    ensures w.Record(ix.metadata).Some? && |w.Record(ix.metadata).value.associatedInscriptions| + 1 < U32_LIMIT
  {
    hide Decode, Encode, AuthorityCheck;
  }

  lemma SettledStays(c: Chain, w: World, step: Step, k: Pubkey)
    requires c.Sound() && Placed(c, w) && Lawful(c, w, step) && Settled(c, w, k)
    requires SameRole(w, Next(c, w, step), w.roles[k].inscription)
    ensures Settled(c, Next(c, w, step), k) && SameAt(w, Next(c, w, step), k)
  {
    SettledPlaces(c, w, k);
    SettledMetadataStays(c, w, step, k);
    BelowStaysVacant(c, w, step, k);
    hide Decode, Next, NothingBelow;
  }

  /** Every lawful step leaves it stuck. */
  lemma HeldStep(c: Chain, w: World, step: Step, k: Pubkey, d: Pubkey, x: Pubkey)
    requires c.Sound() && Placed(c, w) && Lawful(c, w, step) && Held(c, w, k, d, x)
    ensures Held(c, Next(c, w, step), k, d, x)
  {
    var w' := Next(c, w, step);
    SettledPlaces(c, w, k);
    HeldStays(c, w, step, k, d, x);
    SettledStays(c, w, step, k);
    assert w'.At(d) == w.At(d) || Edited(c, w, w', d) by {
      if step.Run? && Execute(c, w, step.ix, step.rt).Ok? {
        HeldEdited(c, w, step.ix, step.rt, k, d, x);
      }
    }
    hide Decode, Next, Settled, Placed, Lawful, Edited, Childless;
    if w.Record(d).Some? && |w.Record(d).value.associatedInscriptions| + 1 >= U32_LIMIT && Childless(c, w, d) {
      FullStaysChildless(c, w, step, d);
    }
    if w'.At(d) != w.At(d) {
      EditedHasRecord(c, w, w', d);
      EditedStaysStuck(c, w, w', d, x);
    }
  }

  lemma EditedHasRecord(c: Chain, w: World, w': World, d: Pubkey)
    requires Edited(c, w, w', d)
    ensures w.Record(d).Some?
  {
  }

  lemma {:induction false} HeldForever(c: Chain, w: World, steps: seq<Step>, k: Pubkey, d: Pubkey, x: Pubkey)
    requires c.Sound() && Placed(c, w) && LawfulRun(c, w, steps) && Held(c, w, k, d, x)
    ensures After(c, w, steps).Owned(d)
    decreases |steps|
  {
    SettledPlaces(c, w, k);
    hide Decode, Placed, Held, Lawful, Next;
    if steps != [] {
      StepPlaced(c, w, steps[0]);
      HeldStep(c, w, steps[0], k, d, x);
      HeldForever(c, Next(c, w, steps[0]), steps[1..], k, d, x);
    }
  }

  lemma UninvitingIsStuck(c: Chain, w: World, d: Pubkey, x: Pubkey)
    requires Childless(c, w, d) && !Inviting(c, w, d, x)
    ensures Stuck(c, w, d, x)
  {
    hide Decode, Sealed;
  }

  /**
    The exact condition, over whole runs and whatever keys are handed over: the main data of an inscription without
    authorities can be closed if and only if it derives from a mint, its bytes pass for the mint's metadata record with
    a possible signer, and every entry that record lists can be dropped. ImmutableForever adds that nobody can while
    the mint is kept back.
   */
  lemma FallsExactly(c: Chain, w: World, k: Pubkey)
    requires c.Sound() && Inv(c, w) && Frozen(w, k)
    ensures var d := w.roles[k].inscription;
            d in w.roles && w.roles[d].MainData?
            && (Falls(c, w, d) <==>
                  w.roles[d].origin.FromMint? && Inviting(c, w, d, w.roles[d].origin.mint))
  {
    InvPlaced(c, w);
    FrozenIsSecure(c, w, k);
    var d := w.roles[k].inscription;
    hide Decode, Inv, Placed, Inviting;
    if w.roles[d].origin.FromMint? {
      var x := w.roles[d].origin.mint;
      MainIsChildless(c, w, d, x);
      if Inviting(c, w, d, x) {
        InvitingFalls(c, w, d, x);
      } else {
        UninvitingIsStuck(c, w, d, x);
        assert Held(c, w, k, d, x);
        forall steps | LawfulRun(c, w, steps) ensures After(c, w, steps).Owned(d) {
          HeldForever(c, w, steps, k, d, x);
        }
      }
    } else {
      forall steps | LawfulRun(c, w, steps) ensures After(c, w, steps).Owned(d) {
        KeypairStands(c, w, steps, k, d);
      }
    }
  }

  lemma KeypairStands(c: Chain, w: World, steps: seq<Step>, k: Pubkey, d: Pubkey)
    requires c.Sound() && Placed(c, w) && Secure(c, w, k) && LawfulRun(c, w, steps)
    requires w.roles[k] == Metadata(d) && w.roles[d] == MainData(Keypair)
    ensures After(c, w, steps).Owned(d)
  {
    MainBelongs(c, w, k, d);
    ImmutableForever(c, w, steps, k);
    RunPlaced(c, w, steps);
    PlacedCovers(c, After(c, w, steps));
  }
}
