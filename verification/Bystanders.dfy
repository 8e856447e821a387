/** An upload among other parties: whoever has no authority over the target does not matter to it. */
module Bystanders {
  import opened Basics
  import opened State
  import opened Addresses
  import opened Accounts
  import opened Program
  import opened Invariant
  import opened Preservation
  import opened Frames
  import opened Runs
  import opened Authority
  import opened Upload

  /**
    A fair step of somebody who is not an authority of the target: not by its metadata, nor by its own bytes, should
    what is uploaded pass for a record.
   */
  ghost predicate Bystands(c: Chain, w: World, t: Target, step: Step)
    requires w.Record(t.metadata).Some?
  {
    && Fair(c, w, step)
    && (step.Run? ==>
          && AuthorityCheck(CallerOf(step.ix), w.Record(t.metadata).value) != Pass
          && (w.Record(t.inscription).Some? ==>
                AuthorityCheck(CallerOf(step.ix), w.Record(t.inscription).value) != Pass))
  }

  /** Each step is a call of the upload or a bystander's. */
  ghost predicate Mingled(c: Chain, w: World, t: Target, steps: seq<Step>)
    decreases |steps|
  {
    steps != [] ==>
      && (if Own(t, steps[0]) then Fair(c, w, steps[0])
          else w.Record(t.metadata).Some? && Bystands(c, w, t, steps[0]))
      && Mingled(c, Next(c, w, steps[0]), t, steps[1..])
  }

  /** The calls of the upload, in their order. */
  function OwnCalls(t: Target, steps: seq<Step>): seq<Step> {
    if steps == [] then []
    else (if Own(t, steps[0]) then [steps[0]] else []) + OwnCalls(t, steps[1..])
  }

  // ---------------------------------------------------------------- one step

  /** The target's metadata keeps all that the checks look at: at most its mint is recorded meanwhile. */
  lemma MetadataStays(c: Chain, w: World, t: Target, step: Step)
    requires c.Sound() && Inv(c, w) && w.Record(t.metadata).Some? && Bystands(c, w, t, step)
    requires t.metadata in w.roles && w.roles[t.metadata].Metadata?
    ensures var w' := Next(c, w, step);
            && w'.Owned(t.metadata) && w'.Record(t.metadata).Some?
            && w'.Record(t.metadata).value == w.Record(t.metadata).value.(mint := w'.Record(t.metadata).value.mint)
  {
    hide Decode, DecodeShard, Execute, AuthorityCheck, Inv, Shape;
    InvCovers(c, w);
    assert w.Owned(t.metadata);
    if step.Run? && Execute(c, w, step.ix, step.rt).Ok? {
      RecordFrame(c, w, step.ix, step.rt, t.metadata);
      StepInv(c, w, step);
      InvCovers(c, Next(c, w, step));
    }
  }

  /** The target's bytes stay. */
  lemma TargetStays(c: Chain, w: World, t: Target, step: Step)
    requires c.Sound() && Inv(c, w) && w.Record(t.metadata).Some? && Bystands(c, w, t, step)
    requires BelongsTo(c, w, t.inscription, t.metadata)
    ensures Next(c, w, step).At(t.inscription) == w.At(t.inscription)
  {
    hide Decode, DecodeShard, Execute, AuthorityCheck, Inv, Shape;
    InvCovers(c, w);
    assert w.Owned(t.inscription);
    if step.Run? && Execute(c, w, step.ix, step.rt).Ok? {
      DataFrame(c, w, step.ix, step.rt, t.inscription);
    }
  }

  /** A target that is ready is a data account of the metadata it is uploaded under. */
  lemma ReadyBelongs(c: Chain, w: World, t: Target)
    requires c.Sound() && Inv(c, w) && Ready(c, w, t)
    requires DataHashes(t.inscription, t.metadata, t.tag) <= c.known
    ensures w.Record(t.metadata).Some? && t.metadata in w.roles && w.roles[t.metadata].Metadata?
    ensures BelongsTo(c, w, t.inscription, t.metadata)
  {
    hide Decode, DecodeShard, Inv, AuthorityCheck, TargetCheck;
    TargetResolves(c, w, t.inscription, t.metadata, w.Record(t.metadata).value, t.tag);
    if t.tag.None? {
      RoleMeansAddress(c, w, t.metadata);
    }
  }

  lemma RoleMeansAddress(c: Chain, w: World, k: Pubkey)
    requires Inv(c, w) && k in w.roles && w.roles[k].Metadata?
    ensures k == c.MetadataAddress(w.roles[k].inscription)
  {
    hide Decode, DecodeShard, LiveEntries;
    assert GoodAt(c, w, k);
  }

  lemma SameMetadataReady(c: Chain, w: World, w': World, t: Target)
    requires Ready(c, w, t) && w'.At(t.inscription) == w.At(t.inscription)
    requires w.Record(t.metadata).Some? && w'.Owned(t.metadata) && w'.Record(t.metadata).Some?
    requires w'.Record(t.metadata).value == w.Record(t.metadata).value.(mint := w'.Record(t.metadata).value.mint)
    ensures Ready(c, w', t)
  {
    assert Decode([]) == None;
    hide Decode;
  }

  /** After a bystander's step the target is as it was. */
  lemma BystanderStep(c: Chain, w: World, t: Target, step: Step)
    requires c.Sound() && Inv(c, w) && Ready(c, w, t) && DataHashes(t.inscription, t.metadata, t.tag) <= c.known
    requires w.Record(t.metadata).Some? && Bystands(c, w, t, step)
    ensures Ready(c, Next(c, w, step), t) && Next(c, w, step).Data(t.inscription) == w.Data(t.inscription)
  {
    hide Decode, Inv, Ready, Bystands, Next;
    ReadyBelongs(c, w, t);
    MetadataStays(c, w, t, step);
    TargetStays(c, w, t, step);
    SameMetadataReady(c, w, Next(c, w, step), t);
  }

  /** A call of the upload does the same to the same bytes, whatever else the two worlds hold. */
  lemma OwnStep(c: Chain, w: World, v: World, t: Target, step: Step)
    requires Ready(c, w, t) && Ready(c, v, t) && w.Data(t.inscription) == v.Data(t.inscription) && Own(t, step)
    ensures var w', v' := Next(c, w, step), Next(c, v, step);
            Ready(c, w', t) && Ready(c, v', t) && w'.Data(t.inscription) == v'.Data(t.inscription)
  {
    OwnEffect(c, w, t, step);
    OwnEffect(c, v, t, step);
    hide Ready, Next;
    StaysReady(c, w, t, Next(c, w, step).Data(t.inscription));
    StaysReady(c, v, t, Next(c, v, step).Data(t.inscription));
  }

  /** What a call of the upload makes of the target's bytes. */
  function Effect(data: bytes, step: Step): bytes
    requires step.Run? && (step.ix.WriteData? || step.ix.Allocate?)
  {
    if step.ix.WriteData? then
      var end := step.ix.offset + |step.ix.value|;
      if end < U64_LIMIT && (end <= |data| || (step.rt.grants && end <= |data| + MAX_PERMITTED_DATA_INCREASE))
      then Spliced(data, step.ix.offset, step.ix.value, step.rt) else data
    else
      if |data| + MAX_PERMITTED_DATA_INCREASE < U64_LIMIT && step.rt.grants
      then Resized(data, Min(step.ix.targetSize, |data| + MAX_PERMITTED_DATA_INCREASE), step.rt) else data
  }

  lemma OwnEffect(c: Chain, w: World, t: Target, step: Step)
    requires Ready(c, w, t) && Own(t, step)
    ensures var w' := Next(c, w, step);
            w' == w.Put(t.inscription, w'.Data(t.inscription))
            && w'.Data(t.inscription) == Effect(w.Data(t.inscription), step)
  {
    PutSame(c, w, t);
    hide DataChecks, Spliced, Resized;
  }

  // ---------------------------------------------------------------- every interleaving

  /**
    Other parties do not disturb an upload: after any interleaving of its calls with steps of bystanders, the target
    holds the bytes that the calls alone would have left, and is ready for more.
   */
  lemma {:induction false} Undisturbed(c: Chain, w: World, v: World, t: Target, steps: seq<Step>)
    requires c.Sound() && Inv(c, w) && DataHashes(t.inscription, t.metadata, t.tag) <= c.known
    requires Ready(c, w, t) && Ready(c, v, t) && w.Data(t.inscription) == v.Data(t.inscription)
    requires Mingled(c, w, t, steps)
    ensures var w', v' := After(c, w, steps), After(c, v, OwnCalls(t, steps));
            && Inv(c, w') && Ready(c, w', t) && Ready(c, v', t)
            && w'.Data(t.inscription) == v'.Data(t.inscription)
    decreases |steps|
  {
    hide Decode, Inv, Ready, Fair, Next, Bystands, Own;
    if steps != [] {
      var w1 := Next(c, w, steps[0]);
      if Own(t, steps[0]) {
        var v1 := Next(c, v, steps[0]);
        OwnStep(c, w, v, t, steps[0]);
        StepInv(c, w, steps[0]);
        Undisturbed(c, w1, v1, t, steps[1..]);
        assert OwnCalls(t, steps)[1..] == OwnCalls(t, steps[1..]);
      } else {
        BystanderStep(c, w, t, steps[0]);
        assert Fair(c, w, steps[0]) by { BystandersAreFair(c, w, t, steps[0]); }
        StepInv(c, w, steps[0]);
        Undisturbed(c, w1, v, t, steps[1..]);
        assert OwnCalls(t, steps) == OwnCalls(t, steps[1..]);
      }
    }
  }

  lemma BystandersAreFair(c: Chain, w: World, t: Target, step: Step)
    requires w.Record(t.metadata).Some? && Bystands(c, w, t, step)
    ensures Fair(c, w, step)
  {
  }

  /**
    What an upload on its own achieves with the calls it `sent`, it achieves with the same calls among bystanders,
    up to every point on the way: also what it reads in between is what it would have read.
   */
  lemma UploadAmongBystanders(c: Chain, w: World, alone: World, t: Target, sent: seq<Step>, steps: seq<Step>)
    requires c.Sound() && Inv(c, w) && DataHashes(t.inscription, t.metadata, t.tag) <= c.known && Ready(c, w, t)
    requires Sent(c, w, alone, t, sent) && Mingled(c, w, t, steps) && OwnCalls(t, steps) == sent
    ensures After(c, w, steps).Data(t.inscription) == alone.Data(t.inscription)
    ensures forall n :: 0 <= n <= |steps| ==>
              After(c, w, steps[..n]).Data(t.inscription) == After(c, w, OwnCalls(t, steps[..n])).Data(t.inscription)
              && OwnCalls(t, steps[..n]) <= sent
  {
    hide Decode, Inv, Ready, Fair, Next, Own, Mingled;
    Undisturbed(c, w, w, t, steps);
    forall n | 0 <= n <= |steps|
      ensures After(c, w, steps[..n]).Data(t.inscription) == After(c, w, OwnCalls(t, steps[..n])).Data(t.inscription)
              && OwnCalls(t, steps[..n]) <= sent
    {
      MingledPrefix(c, w, t, steps, n);
      Undisturbed(c, w, w, t, steps[..n]);
      OwnPrefix(t, steps, n);
    }
  }

  lemma {:induction false} MingledPrefix(c: Chain, w: World, t: Target, steps: seq<Step>, n: nat)
    requires Mingled(c, w, t, steps) && n <= |steps|
    ensures Mingled(c, w, t, steps[..n])
    decreases |steps|
  {
    hide Decode, Fair, Next, Bystands, Own;
    if n > 0 {
      MingledPrefix(c, Next(c, w, steps[0]), t, steps[1..], n - 1);
      assert steps[..n][1..] == steps[1..][..n - 1];
    }
  }

  lemma {:induction false} OwnPrefix(t: Target, steps: seq<Step>, n: nat)
    requires n <= |steps|
    ensures OwnCalls(t, steps[..n]) <= OwnCalls(t, steps)
  {
    hide Own;
    if n > 0 {
      OwnPrefix(t, steps[1..], n - 1);
      assert steps[..n][1..] == steps[1..][..n - 1];
    }
  }
}
