/** The chunked upload of the command line client, run against the ledger. */
module Upload {
  import opened Basics
  import opened State
  import opened Addresses
  import opened Accounts
  import opened Program
  import opened Invariant
  import opened Preservation
  import opened Runs
  import opened Ledgers
  import opened Chunking

  // ---------------------------------------------------------------- writes in any order

  datatype Write = Write(offset: nat, value: bytes, rt: Runtime)

  /** The bytes after the writes, first to last. */
  function ApplyWrites(data: bytes, ws: seq<Write>): bytes {
    if ws == [] then data
    else
      var w := ws[|ws| - 1];
      Spliced(ApplyWrites(data, ws[..|ws| - 1]), w.offset, w.value, w.rt)
  }

  /** The write puts a part of `input` where it belongs. */
  predicate PartOf(w: Write, input: bytes) {
    w.offset + |w.value| <= |input| && input[w.offset..w.offset + |w.value|] == w.value
  }

  predicate Reaches(w: Write, i: nat) {
    w.offset <= i < w.offset + |w.value|
  }

  ghost predicate ReachedBy(ws: seq<Write>, i: nat) {
    exists w :: w in ws && Reaches(w, i)
  }

  predicate RightAt(data: bytes, input: bytes, i: nat) {
    i < |data| && i < |input| && data[i] == input[i]
  }

  /** One write: what was right stays right, and what it reaches becomes right. */
  lemma SpliceRights(data: bytes, input: bytes, w: Write, i: nat)
    requires PartOf(w, input) && i < |input|
    ensures RightAt(data, input, i) || Reaches(w, i) ==> RightAt(Spliced(data, w.offset, w.value, w.rt), input, i)
  {
    if Reaches(w, i) {
      assert input[i] == input[w.offset..w.offset + |w.value|][i - w.offset];
    }
  }

  lemma {:induction false} WritesRight(data: bytes, input: bytes, ws: seq<Write>, i: nat)
    requires forall w :: w in ws ==> PartOf(w, input)
    requires i < |input|
    requires RightAt(data, input, i) || ReachedBy(ws, i)
    ensures RightAt(ApplyWrites(data, ws), input, i)
  {
    if ws != [] {
      var front, w := ws[..|ws| - 1], ws[|ws| - 1];
      assert ws == front + [w];
      SpliceRights(ApplyWrites(data, front), input, w, i);
      if !Reaches(w, i) {
        WritesRight(data, input, front, i);
      }
    }
  }

  lemma {:induction false} WritesLength(data: bytes, input: bytes, ws: seq<Write>)
    requires forall w :: w in ws ==> PartOf(w, input)
    requires |data| <= |input|
    ensures |ApplyWrites(data, ws)| <= |input|
  {
    if ws != [] {
      WritesLength(data, input, ws[..|ws| - 1]);
      assert PartOf(ws[|ws| - 1], input);
    }
  }

  /**
    Writes of parts of an input that together reach every place not right already, in any order and with any
    repetitions, leave exactly the input, although a gap may hold arbitrary bytes in between.
   */
  lemma WritesConverge(data: bytes, input: bytes, ws: seq<Write>)
    requires |data| <= |input|
    requires forall w :: w in ws ==> PartOf(w, input)
    requires forall i: nat :: i < |input| ==> RightAt(data, input, i) || ReachedBy(ws, i)
    ensures ApplyWrites(data, ws) == input
  {
    var r := ApplyWrites(data, ws);
    WritesLength(data, input, ws);
    forall i: nat | i < |input| ensures RightAt(r, input, i) && i < |r| && r[i] == input[i] {
      WritesRight(data, input, ws, i);
    }
    assert |input| > 0 ==> RightAt(r, input, |input| - 1);
  }

  // ---------------------------------------------------------------- the account being uploaded to

  /** Where an upload goes, and who signs for it. */
  datatype Target = Target(inscription: Pubkey, metadata: Pubkey, tag: Option<Tag>, caller: Caller)

  /** The account is there and the caller may write to it. */
  ghost predicate Ready(c: Chain, w: World, t: Target) {
    && DataChecks(c, w, t.inscription, t.metadata, t.caller, t.tag) == Pass
    && t.inscription != t.metadata
    && w.Data(t.metadata) != []
  }

  /** In a reachable world, passing the checks is all it takes. */
  lemma ChecksMakeReady(c: Chain, w: World, t: Target)
    requires c.Sound() && Inv(c, w) && DataHashes(t.inscription, t.metadata, t.tag) <= c.known
    requires DataChecks(c, w, t.inscription, t.metadata, t.caller, t.tag) == Pass
    ensures Ready(c, w, t)
  {
    hide AuthorityCheck, TargetCheck;
    assert Decode([]) == None;
    hide Decode, Inv;
    TargetResolves(c, w, t.inscription, t.metadata, w.Record(t.metadata).value, t.tag);
  }

  function WriteIx(t: Target, offset: u64, value: bytes): Instruction {
    WriteData(t.inscription, t.metadata, t.caller, t.tag, offset, value)
  }

  function AllocateIx(t: Target, size: u64): Instruction {
    Allocate(t.inscription, t.metadata, t.caller, t.tag, size)
  }

  lemma StaysReady(c: Chain, w: World, t: Target, data: bytes)
    requires Ready(c, w, t)
    ensures Ready(c, w.Put(t.inscription, data), t)
  {
    hide Decode, AuthorityCheck, TargetCheck;
  }

  /** A write to a ready account: it succeeds, or it had to grow the account and was not granted it. */
  lemma ReadyWrite(c: Chain, w: World, t: Target, offset: u64, value: bytes, rt: Runtime)
    requires Ready(c, w, t) && offset + |value| < U64_LIMIT
    ensures Execute(c, w, WriteIx(t, offset, value), rt)
         == if offset + |value| <= |w.Data(t.inscription)| || CanResize(w, t.inscription, offset + |value|, rt)
            then Ok(w.Put(t.inscription, Spliced(w.Data(t.inscription), offset, value, rt)))
            else Err(RuntimeFailure)
  {
    hide DataChecks;
  }

  /** An allocation towards a target no smaller than the account: granted, it grows it by at most one quantum. */
  lemma ReadyAllocate(c: Chain, w: World, t: Target, size: u64, rt: Runtime)
    requires Ready(c, w, t) && |w.Data(t.inscription)| <= size && size + MAX_PERMITTED_DATA_INCREASE < U64_LIMIT
    ensures Execute(c, w, AllocateIx(t, size), rt)
         == if rt.grants
            then Ok(w.Put(t.inscription, Resized(w.Data(t.inscription),
                      Min(size, |w.Data(t.inscription)| + MAX_PERMITTED_DATA_INCREASE), rt)))
            else Err(RuntimeFailure)
  {
    hide DataChecks;
  }

  /** Allocate keeps every byte exactly when its target is no smaller than the account; otherwise it truncates. */
  lemma AllocateKeepsExactly(c: Chain, w: World, t: Target, size: u64, rt: Runtime)
    requires Execute(c, w, AllocateIx(t, size), rt).Ok?
    ensures var d, d' := w.Data(t.inscription), Execute(c, w, AllocateIx(t, size), rt).value.Data(t.inscription);
            && |d'| == Min(size, |d| + MAX_PERMITTED_DATA_INCREASE)
            && (d <= d' <==> |d| <= size)
            && (size < |d| ==> d' == d[..size])
  {
    hide DataChecks;
  }

  /** And it does truncate: towards any lower target, and to exactly that, if the runtime grants it. */
  lemma AllocateTruncates(c: Chain, w: World, t: Target, size: u64, rt: Runtime)
    requires Ready(c, w, t) && size < |w.Data(t.inscription)|
    requires |w.Data(t.inscription)| + MAX_PERMITTED_DATA_INCREASE < U64_LIMIT
    ensures Execute(c, w, AllocateIx(t, size), rt)
         == if rt.grants then Ok(w.Put(t.inscription, w.Data(t.inscription)[..size])) else Err(RuntimeFailure)
  {
    hide DataChecks, Resized;
    Truncated(w.Data(t.inscription), size, rt);
  }

  lemma Truncated(data: bytes, size: nat, rt: Runtime)
    requires size <= |data|
    ensures Resized(data, size, rt) == data[..size]
  {
  }

  // ---------------------------------------------------------------- a run of writes on the ledger

  predicate SmallOffsets(ws: seq<Write>) {
    forall x :: x in ws ==> x.offset + |x.value| < U64_LIMIT
  }

  /** The world after attempting these writes one by one; those that fail change nothing. */
  function AfterWrites(c: Chain, w: World, t: Target, ws: seq<Write>): World
    requires SmallOffsets(ws)
  {
    if ws == [] then w
    else
      var x := ws[|ws| - 1];
      Next(c, AfterWrites(c, w, t, ws[..|ws| - 1]), Run(WriteIx(t, x.offset, x.value), x.rt))
  }

  /** The attempts that succeed. */
  function Succeeding(c: Chain, w: World, t: Target, ws: seq<Write>): seq<Write>
    requires SmallOffsets(ws)
  {
    if ws == [] then []
    else
      var front, x := ws[..|ws| - 1], ws[|ws| - 1];
      Succeeding(c, w, t, front)
      + (if Execute(c, AfterWrites(c, w, t, front), WriteIx(t, x.offset, x.value), x.rt).Ok? then [x] else [])
  }

  lemma LastWrite(d: bytes, s: seq<Write>, x: Write)
    ensures ApplyWrites(d, s + [x]) == Spliced(ApplyWrites(d, s), x.offset, x.value, x.rt)
  {
    assert (s + [x])[..|s|] == s;
  }

  lemma {:induction false} WritesOnLedger(c: Chain, w: World, t: Target, ws: seq<Write>)
    requires SmallOffsets(ws) && Ready(c, w, t)
    ensures Ready(c, AfterWrites(c, w, t, ws), t)
    ensures AfterWrites(c, w, t, ws).Data(t.inscription) == ApplyWrites(w.Data(t.inscription), Succeeding(c, w, t, ws))
    ensures forall x :: x in Succeeding(c, w, t, ws) ==> x in ws
  {
    hide Execute, Ready, Spliced;
    if ws != [] {
      var front, x := ws[..|ws| - 1], ws[|ws| - 1];
      WritesOnLedger(c, w, t, front);
      var w1 := AfterWrites(c, w, t, front);
      ReadyWrite(c, w1, t, x.offset, x.value, x.rt);
      StaysReady(c, w1, t, Spliced(w1.Data(t.inscription), x.offset, x.value, x.rt));
      var s := Succeeding(c, w, t, front);
      var d := w.Data(t.inscription);
      LastWrite(d, s, x);
      assert Succeeding(c, w, t, ws) == if Execute(c, w1, WriteIx(t, x.offset, x.value), x.rt).Ok? then s + [x] else s;
    }
  }

  /** Without any allocation: successful writes that cover an input end in the input, in every order. */
  lemma WritesWithoutAllocation(c: Chain, w: World, t: Target, ws: seq<Write>, input: bytes)
    requires SmallOffsets(ws) && Ready(c, w, t) && |w.Data(t.inscription)| <= |input|
    requires forall x :: x in ws ==> PartOf(x, input)
    requires forall i: nat :: i < |input| ==> ReachedBy(Succeeding(c, w, t, ws), i)
    ensures AfterWrites(c, w, t, ws).Data(t.inscription) == input
  {
    hide Execute, Ready, AfterWrites;
    WritesOnLedger(c, w, t, ws);
    WritesConverge(w.Data(t.inscription), input, Succeeding(c, w, t, ws));
  }

  // ---------------------------------------------------------------- allocation

  /** Math.ceil((length - size) / 10240), or zero when nothing is missing. */
  function AllocationsNeeded(length: nat, size: nat): nat {
    if length <= size then 0
    else (length - size + MAX_PERMITTED_DATA_INCREASE - 1) / MAX_PERMITTED_DATA_INCREASE
  }

  lemma NeededBound(length: nat, size: nat)
    ensures AllocationsNeeded(length, size) > 0 <==> length > size
    ensures size + MAX_PERMITTED_DATA_INCREASE * AllocationsNeeded(length, size) >= length
  {
  }

  /** The bytes after `rts` successful allocations towards `target`. */
  function AfterAllocations(data: bytes, target: nat, rts: seq<Runtime>): bytes {
    if rts == [] then data
    else
      var d := AfterAllocations(data, target, rts[..|rts| - 1]);
      Resized(d, Min(target, |d| + MAX_PERMITTED_DATA_INCREASE), rts[|rts| - 1])
  }

  /** So many successful allocations give exactly that size, and keep what was there. */
  lemma {:induction false} AllocationsGrow(data: bytes, target: nat, rts: seq<Runtime>)
    requires |data| <= target
    ensures var d := AfterAllocations(data, target, rts);
            && |d| == Min(target, |data| + MAX_PERMITTED_DATA_INCREASE * |rts|)
            && d[..|data|] == data
  {
    if rts != [] {
      var front := rts[..|rts| - 1];
      AllocationsGrow(data, target, front);
      var d := AfterAllocations(data, target, front);
      var d' := AfterAllocations(data, target, rts);
      forall i | 0 <= i < |data| ensures d'[i] == data[i] {
        assert d[..|data|][i] == data[i];
      }
    }
  }

  /** The estimate is exact: that many successful allocations reach the target, and one fewer does not. */
  lemma EstimateIsExact(data: bytes, target: nat, rts: seq<Runtime>)
    requires |data| <= target
    ensures |AfterAllocations(data, target, rts)| == target <==> |rts| >= AllocationsNeeded(target, |data|)
  {
    AllocationsGrow(data, target, rts);
  }

  /** An allocation towards the size the account already has changes nothing. */
  lemma ExtraAllocationIsIdle(c: Chain, w: World, t: Target, rt: Runtime)
    requires Ready(c, w, t) && |w.Data(t.inscription)| + MAX_PERMITTED_DATA_INCREASE < U64_LIMIT
    ensures Next(c, w, Run(AllocateIx(t, |w.Data(t.inscription)|), rt)) == w
  {
    var d := w.Data(t.inscription);
    ReadyAllocate(c, w, t, |d|, rt);
    assert Resized(d, |d|, rt) == d;
    PutSame(c, w, t);
    hide Execute;
  }

  lemma PutSame(c: Chain, w: World, t: Target)
    requires Ready(c, w, t)
    ensures w.Put(t.inscription, w.Data(t.inscription)) == w
  {
    hide Decode, AuthorityCheck, TargetCheck;
  }

  /** The ledger differs in the bytes of the target only. */
  ghost predicate OnlyTargetChanged(w: World, w': World, t: Target) {
    w' == w.Put(t.inscription, w'.Data(t.inscription))
  }

  // ---------------------------------------------------------------- what the client sends

  /** A call of the upload to `t`. */
  predicate Own(t: Target, step: Step) {
    && step.Run?
    && match step.ix
       case WriteData(_, _, _, _, offset, value) => step.ix == WriteIx(t, offset, value)
       case Allocate(_, _, _, _, size) => step.ix == AllocateIx(t, size)
       case _ => false
  }

  /** From `w` to `w'` nothing happened but these calls of the upload. */
  ghost predicate Sent(c: Chain, w: World, w': World, t: Target, sent: seq<Step>) {
    After(c, w, sent) == w' && forall s :: s in sent ==> Own(t, s)
  }

  lemma SentNothing(c: Chain, w: World, t: Target)
    ensures Sent(c, w, w, t, [])
  {
  }

  lemma SentOne(c: Chain, w: World, t: Target, step: Step)
    requires Own(t, step)
    ensures Sent(c, w, Next(c, w, step), t, [step])
  {
    hide Next;
    var w1 := Next(c, w, step);
    assert [step][1..] == [];
    assert After(c, w1, []) == w1;
    assert After(c, w, [step]) == After(c, w1, [step][1..]);
  }

  lemma SentMore(c: Chain, w: World, w1: World, w2: World, t: Target, a: seq<Step>, b: seq<Step>)
    requires Sent(c, w, w1, t, a) && Sent(c, w1, w2, t, b)
    ensures Sent(c, w, w2, t, a + b)
  {
    hide Next;
    AfterConcat(c, w, a, b);
  }

  lemma {:induction false} AfterConcat(c: Chain, w: World, a: seq<Step>, b: seq<Step>)
    ensures After(c, w, a + b) == After(c, After(c, w, a), b)
    decreases |a|
  {
    hide Next;
    if a == [] {
      assert a + b == b;
    } else {
      AfterConcat(c, Next(c, w, a[0]), a[1..], b);
      assert (a + b)[1..] == a[1..] + b;
    }
  }

  /** One allocation call from the client: delivered and granted, or without effect. */
  method AllocateOnce(l: Ledger, t: Target, length: u64, rt: Runtime)
    returns (landed: bool, ghost sent: seq<Step>)
    requires Ready(l.chain, l.Now(), t)
    requires |l.Now().Data(t.inscription)| <= length && length + MAX_PERMITTED_DATA_INCREASE < U64_LIMIT
    modifies l
    ensures Ready(l.chain, l.Now(), t) && OnlyTargetChanged(old(l.Now()), l.Now(), t)
    ensures landed == rt.grants
    ensures Sent(l.chain, old(l.Now()), l.Now(), t, sent) && sent == [Run(AllocateIx(t, length), rt)]
    ensures var d := old(l.Now()).Data(t.inscription);
            l.Now().Data(t.inscription)
              == if landed then Resized(d, Min(length, |d| + MAX_PERMITTED_DATA_INCREASE), rt) else d
  {
    hide Execute, Ready, Inv, Fair;
    ghost var w := l.Now();
    ReadyAllocate(l.chain, w, t, length, rt);
    var r := l.Process(AllocateIx(t, length), rt);
    landed := r.Ok?;
    sent := [Run(AllocateIx(t, length), rt)];
    SentOne(l.chain, w, t, sent[0]);
    StaysReady(l.chain, w, t, l.Now().Data(t.inscription));
    PutSame(l.chain, w, t);
  }

  /** How call j of allocation round r fares. */
  type Outcome = (nat, nat) -> Runtime

  /** Of every round's calls, at least the first succeeds. */
  ghost predicate OneLands(outcome: Outcome) {
    forall r: nat :: outcome(r, 0).grants
  }

  ghost predicate AllLand(outcome: Outcome) {
    forall r: nat, j: nat :: outcome(r, j).grants
  }

  /** How many of the first `calls` calls of a round succeed. */
  ghost function Landings(outcome: Outcome, round: nat, calls: nat): nat {
    if calls == 0 then 0 else Landings(outcome, round, calls - 1) + (if outcome(round, calls - 1).grants then 1 else 0)
  }

  /** The calls of a round, each for the whole length. */
  ghost function RoundCalls(t: Target, length: u64, outcome: Outcome, round: nat, calls: nat): seq<Step> {
    if calls == 0 then []
    else RoundCalls(t, length, outcome, round, calls - 1) + [Run(AllocateIx(t, length), outcome(round, calls - 1))]
  }

  /** One round of the allocation loop: so many concurrent calls, each for the whole length. */
  method AllocateRound(l: Ledger, t: Target, length: u64, calls: nat, outcome: Outcome, round: nat)
    returns (ghost landed: seq<Runtime>, ghost sent: seq<Step>)
    requires Ready(l.chain, l.Now(), t)
    requires |l.Now().Data(t.inscription)| <= length && length + MAX_PERMITTED_DATA_INCREASE < U64_LIMIT
    modifies l
    ensures Ready(l.chain, l.Now(), t) && OnlyTargetChanged(old(l.Now()), l.Now(), t)
    ensures l.Now().Data(t.inscription) == AfterAllocations(old(l.Now()).Data(t.inscription), length, landed)
    ensures Sent(l.chain, old(l.Now()), l.Now(), t, sent)
    ensures sent == RoundCalls(t, length, outcome, round, calls)
    ensures |landed| == Landings(outcome, round, calls)
    ensures calls > 0 && OneLands(outcome) ==> landed != []
    ensures AllLand(outcome) ==> |landed| == calls
  {
    hide Ready, Resized, Sent, OneLands, AllLand;
    landed, sent := [], [];
    ghost var w := l.Now();
    PutSame(l.chain, w, t);
    SentNothing(l.chain, w, t);
    assert AfterAllocations(w.Data(t.inscription), length, []) == w.Data(t.inscription);
    hide AfterAllocations;
    for j := 0 to calls
      invariant Ready(l.chain, l.Now(), t) && OnlyTargetChanged(w, l.Now(), t)
      invariant l.Now().Data(t.inscription) == AfterAllocations(w.Data(t.inscription), length, landed)
      invariant |l.Now().Data(t.inscription)| <= length
      invariant Sent(l.chain, w, l.Now(), t, sent)
      invariant sent == RoundCalls(t, length, outcome, round, j)
      invariant |landed| == Landings(outcome, round, j)
    {
      ghost var before := l.Now();
      ghost var call;
      var once;
      once, call := AllocateOnce(l, t, length, outcome(round, j));
      SentMore(l.chain, w, before, l.Now(), t, sent, call);
      sent := sent + call;
      ghost var front := landed;
      if once {
        landed := landed + [outcome(round, j)];
        OneMoreAllocation(w.Data(t.inscription), length, front, outcome(round, j));
      }
      AllocationsGrow(w.Data(t.inscription), length, landed);
      PutTwice(w, t.inscription, AfterAllocations(w.Data(t.inscription), length, front), l.Now().Data(t.inscription));
    }
    LandingsBounds(outcome, round, calls);
  }

  lemma OneMoreAllocation(data: bytes, target: nat, rts: seq<Runtime>, rt: Runtime)
    ensures var d := AfterAllocations(data, target, rts);
            AfterAllocations(data, target, rts + [rt]) == Resized(d, Min(target, |d| + MAX_PERMITTED_DATA_INCREASE), rt)
  {
    assert (rts + [rt])[..|rts|] == rts;
    hide Resized;
  }

  lemma {:induction false} LandingsBounds(outcome: Outcome, round: nat, calls: nat)
    ensures OneLands(outcome) && calls > 0 ==> Landings(outcome, round, calls) >= 1
    ensures AllLand(outcome) ==> Landings(outcome, round, calls) == calls
  {
    if calls > 0 {
      LandingsBounds(outcome, round, calls - 1);
    }
  }

  function Total(ns: seq<nat>): nat {
    if ns == [] then 0 else Total(ns[..|ns| - 1]) + ns[|ns| - 1]
  }

  ghost predicate NoneEmpty(ns: seq<nat>) {
    forall n :: n in ns ==> n >= 1
  }

  lemma {:induction false} TotalAtLeast(ns: seq<nat>)
    requires NoneEmpty(ns)
    ensures Total(ns) >= |ns|
  {
    if ns != [] {
      assert forall i :: 0 <= i < |ns| ==> ns[i] in ns;
      TotalAtLeast(ns[..|ns| - 1]);
    }
  }

  /** After rounds with so many successes, `d0` has grown to `d` towards `length`. */
  ghost predicate Grown(d0: bytes, d: bytes, length: nat, successes: seq<nat>) {
    && d0 <= d
    && |d| == Max(|d0|, Min(length, |d0| + MAX_PERMITTED_DATA_INCREASE * Total(successes)))
  }

  lemma RoundGrows(d0: bytes, d: bytes, length: nat, rts: seq<Runtime>, successes: seq<nat>)
    requires Grown(d0, d, length, successes) && |d| < length
    ensures Grown(d0, AfterAllocations(d, length, rts), length, successes + [|rts|])
  {
    AllocationsGrow(d, length, rts);
    hide AfterAllocations;
    var d' := AfterAllocations(d, length, rts);
    assert Total(successes + [|rts|]) == Total(successes) + |rts| by {
      assert (successes + [|rts|])[..|successes|] == successes;
    }
    hide Total;
    assert d0 <= d' by {
      assert d[..|d0|] == d0;
      assert d'[..|d|][..|d0|] == d0;
    }
  }

  lemma RoundCounts(d: bytes, length: nat, rts: seq<Runtime>, successes: seq<nat>)
    requires |d| < length
    ensures NoneEmpty(successes) && rts != [] ==> NoneEmpty(successes + [|rts|])
    ensures |AfterAllocations(d, length, rts)| <= length
    ensures |rts| == AllocationsNeeded(length, |d|)
        ==> AllocationsNeeded(length, |AfterAllocations(d, length, rts)|) == 0
  {
    EstimateIsExact(d, length, rts);
    AllocationsGrow(d, length, rts);
    hide AfterAllocations;
  }

  lemma EnoughRounds(d0: bytes, d: bytes, length: nat, successes: seq<nat>)
    requires Grown(d0, d, length, successes) && NoneEmpty(successes)
    requires |successes| >= AllocationsNeeded(length, |d0|)
    ensures |d| >= length
  {
    TotalAtLeast(successes);
    NeededBound(length, |d0|);
  }

  /** The size of the account when round `r` starts. */
  ghost function SizeBefore(outcome: Outcome, length: nat, size: nat, r: nat): nat {
    if r == 0 then size
    else
      var n := SizeBefore(outcome, length, size, r - 1);
      Max(n, Min(length, n + MAX_PERMITTED_DATA_INCREASE * Landings(outcome, r - 1, AllocationsNeeded(length, n))))
  }

  /** The calls of the first `rounds` rounds: in each as many as the estimate says for the size it starts with. */
  ghost function AllocationCalls(t: Target, outcome: Outcome, length: u64, size: nat, rounds: nat): seq<Step> {
    if rounds == 0 then []
    else
      AllocationCalls(t, outcome, length, size, rounds - 1)
      + RoundCalls(t, length, outcome, rounds - 1,
                   AllocationsNeeded(length, SizeBefore(outcome, length, size, rounds - 1)))
  }

  /** Every round starts with something missing; its successes are those of the calls it sends. */
  ghost predicate Rounds(outcome: Outcome, length: nat, size: nat, successes: seq<nat>) {
    forall r :: 0 <= r < |successes| ==>
      var n := SizeBefore(outcome, length, size, r);
      n < length && successes[r] == Landings(outcome, r, AllocationsNeeded(length, n))
  }

  lemma OneMoreRoundOfCalls(t: Target, outcome: Outcome, length: u64, size: nat, rounds: nat, n: nat)
    requires n == SizeBefore(outcome, length, size, rounds)
    ensures AllocationCalls(t, outcome, length, size, rounds + 1)
         == AllocationCalls(t, outcome, length, size, rounds)
            + RoundCalls(t, length, outcome, rounds, AllocationsNeeded(length, n))
  {
  }

  lemma OneMoreRound(outcome: Outcome, length: nat, size: nat, successes: seq<nat>, landed: nat)
    requires Rounds(outcome, length, size, successes)
    requires var n := SizeBefore(outcome, length, size, |successes|);
             n < length && landed == Landings(outcome, |successes|, AllocationsNeeded(length, n))
    ensures Rounds(outcome, length, size, successes + [landed])
  {
    hide AllocationsNeeded, Landings, SizeBefore;
  }

  lemma SizeGrows(outcome: Outcome, length: nat, size: nat, r: nat, d: bytes, landed: seq<Runtime>)
    requires |d| == SizeBefore(outcome, length, size, r) && |d| < length
    requires |landed| == Landings(outcome, r, AllocationsNeeded(length, |d|))
    ensures |AfterAllocations(d, length, landed)| == SizeBefore(outcome, length, size, r + 1)
  {
    AllocationsGrow(d, length, landed);
    hide AfterAllocations, AllocationsNeeded, Landings;
  }

  /**
    The allocation loop, watched for at most `patience` rounds. Each round sends as many calls as the estimate
    says and then looks at the size again, until nothing is missing.
   */
  method AllocateSpace(l: Ledger, t: Target, length: u64, outcome: Outcome, patience: nat)
    returns (rounds: nat, ghost successes: seq<nat>, ghost sent: seq<Step>)
    requires Ready(l.chain, l.Now(), t) && length + MAX_PERMITTED_DATA_INCREASE < U64_LIMIT
    modifies l
    ensures Ready(l.chain, l.Now(), t) && OnlyTargetChanged(old(l.Now()), l.Now(), t)
    ensures |successes| == rounds <= patience
    ensures Grown(old(l.Now()).Data(t.inscription), l.Now().Data(t.inscription), length, successes)
    ensures |l.Now().Data(t.inscription)| >= length || rounds == patience
    ensures |old(l.Now()).Data(t.inscription)| >= length ==> rounds == 0 && sent == [] && l.Now() == old(l.Now())
    ensures rounds > 0 ==> |l.Now().Data(t.inscription)| <= length
    ensures Sent(l.chain, old(l.Now()), l.Now(), t, sent)
    // the calls are those of the rounds, and nothing else is sent
    ensures var size := |old(l.Now()).Data(t.inscription)|;
            && sent == AllocationCalls(t, outcome, length, size, rounds)
            && Rounds(outcome, length, size, successes)
            && |l.Now().Data(t.inscription)| == SizeBefore(outcome, length, size, rounds)
    // enough successes are enough, in whatever rounds they come
    ensures SpaceLands(old(l.Now()).Data(t.inscription), length, successes) ==> |l.Now().Data(t.inscription)| >= length
    // one success in each round is enough, and the estimate bounds the rounds
    ensures OneLands(outcome) ==> NoneEmpty(successes)
    ensures NoneEmpty(successes) && patience >= AllocationsNeeded(length, |old(l.Now()).Data(t.inscription)|)
            ==> |l.Now().Data(t.inscription)| >= length
    // when no call fails, one round does it
    ensures AllLand(outcome) ==> rounds <= 1
  {
    rounds, successes, sent := 0, [], [];
    ghost var w := l.Now();
    ghost var d0 := w.Data(t.inscription);
    NothingYet(l.chain, w, t, outcome, length);
    var numAllocs := AllocationsNeeded(length, |l.At(t.inscription).data|);
    NeededBound(length, |d0|);
    hide Ready, Underway, AfterAllocations, AllocationsNeeded, AllLand, Sent, AllocationCalls, Advanced, Landings;
    while numAllocs > 0 && rounds < patience
      invariant Ready(l.chain, l.Now(), t)
      invariant numAllocs == AllocationsNeeded(length, |l.Now().Data(t.inscription)|)
      invariant |successes| == rounds <= patience
      invariant Underway(l.chain, w, l.Now(), t, outcome, length, successes, sent)
      invariant |d0| >= length ==> rounds == 0
      decreases patience - rounds
    {
      ghost var here := l.Now();
      NeededBound(length, |here.Data(t.inscription)|);
      ghost var landed, calls := AllocateRound(l, t, length, numAllocs, outcome, rounds);
      UnderwayMore(l.chain, w, here, l.Now(), t, outcome, length, successes, sent, landed, calls);
      sent := sent + calls;
      successes := successes + [|landed|];
      rounds := rounds + 1;
      numAllocs := AllocationsNeeded(length, |l.At(t.inscription).data|);
    }
    NeededBound(length, |l.Now().Data(t.inscription)|);
    UnderwayIs(l.chain, w, l.Now(), t, outcome, length, successes, sent);
    AdvancedFar(outcome, d0, l.Now().Data(t.inscription), length, successes);
  }

  /** What so many rounds have done. */
  ghost predicate Underway(c: Chain, w: World, w': World, t: Target, outcome: Outcome, length: u64,
                           successes: seq<nat>, sent: seq<Step>) {
    && OnlyTargetChanged(w, w', t)
    && Sent(c, w, w', t, sent)
    && sent == AllocationCalls(t, outcome, length, |w.Data(t.inscription)|, |successes|)
    && Advanced(outcome, w.Data(t.inscription), w'.Data(t.inscription), length, successes)
    && (successes == [] ==> w' == w)
  }

  lemma NothingYet(c: Chain, w: World, t: Target, outcome: Outcome, length: u64)
    requires Ready(c, w, t)
    ensures Underway(c, w, w, t, outcome, length, [], [])
  {
    PutSame(c, w, t);
    SentNothing(c, w, t);
    NotAdvanced(outcome, w.Data(t.inscription), length);
    hide Sent, Advanced;
  }

  lemma UnderwayMore(c: Chain, w: World, here: World, w': World, t: Target, outcome: Outcome, length: u64,
                     successes: seq<nat>, sent: seq<Step>, landed: seq<Runtime>, calls: seq<Step>)
    requires Underway(c, w, here, t, outcome, length, successes, sent)
    requires OnlyTargetChanged(here, w', t) && Sent(c, here, w', t, calls)
    requires var d, n := here.Data(t.inscription), AllocationsNeeded(length, |here.Data(t.inscription)|);
             && |d| < length && w'.Data(t.inscription) == AfterAllocations(d, length, landed)
             && calls == RoundCalls(t, length, outcome, |successes|, n)
             && |landed| == Landings(outcome, |successes|, n)
             && (n > 0 && OneLands(outcome) ==> landed != [])
             && (AllLand(outcome) ==> |landed| == n)
    ensures Underway(c, w, w', t, outcome, length, successes + [|landed|], sent + calls)
  {
    hide Sent, Advanced, AllocationCalls, RoundCalls, AllocationsNeeded, Landings, AllLand, OneLands, AfterAllocations;
    hide SizeBefore;
    var d0, before := w.Data(t.inscription), here.Data(t.inscription);
    AdvancedSize(outcome, d0, before, length, successes);
    OneMoreRoundOfCalls(t, outcome, length, |d0|, |successes|, |before|);
    AdvanceOnce(outcome, d0, before, length, successes, landed);
    SentMore(c, w, here, w', t, sent, calls);
    PutTwice(w, t.inscription, before, w'.Data(t.inscription));
    assert |successes + [|landed|]| == |successes| + 1;
  }

  lemma UnderwayIs(c: Chain, w: World, w': World, t: Target, outcome: Outcome, length: u64, successes: seq<nat>,
                   sent: seq<Step>)
    requires Underway(c, w, w', t, outcome, length, successes, sent)
    ensures OnlyTargetChanged(w, w', t) && Sent(c, w, w', t, sent)
    ensures sent == AllocationCalls(t, outcome, length, |w.Data(t.inscription)|, |successes|)
    ensures Advanced(outcome, w.Data(t.inscription), w'.Data(t.inscription), length, successes)
    ensures successes == [] ==> w' == w && sent == []
  {
    hide Sent, Advanced;
  }

  /** How far so many rounds have come. */
  ghost predicate Advanced(outcome: Outcome, d0: bytes, d: bytes, length: nat, successes: seq<nat>) {
    && Grown(d0, d, length, successes)
    && Rounds(outcome, length, |d0|, successes)
    && |d| == SizeBefore(outcome, length, |d0|, |successes|)
    && (successes != [] ==> |d| <= length)
    && (OneLands(outcome) ==> NoneEmpty(successes))
    && (AllLand(outcome) ==> |successes| == 0 || (|successes| == 1 && |d| >= length))
  }

  lemma NotAdvanced(outcome: Outcome, d0: bytes, length: nat)
    ensures Advanced(outcome, d0, d0, length, [])
  {
    NoRounds(outcome, length, |d0|);
    NothingIsEmpty();
    hide Rounds, OneLands, AllLand, NoneEmpty;
  }

  lemma AdvanceOnce(outcome: Outcome, d0: bytes, d: bytes, length: nat, successes: seq<nat>, landed: seq<Runtime>)
    requires Advanced(outcome, d0, d, length, successes) && |d| < length
    requires var calls := AllocationsNeeded(length, |d|);
             && |landed| == Landings(outcome, |successes|, calls)
             && (calls > 0 && OneLands(outcome) ==> landed != [])
             && (AllLand(outcome) ==> |landed| == calls)
    ensures Advanced(outcome, d0, AfterAllocations(d, length, landed), length, successes + [|landed|])
  {
    hide AfterAllocations, Grown, AllocationsNeeded, Rounds, Landings, OneLands, AllLand, NoneEmpty, SizeBefore;
    RoundGrows(d0, d, length, landed, successes);
    RoundCounts(d, length, landed, successes);
    OneMoreRound(outcome, length, |d0|, successes, |landed|);
    NeededBound(length, |d|);
    var d' := AfterAllocations(d, length, landed);
    NeededBound(length, |d'|);
    SizeGrows(outcome, length, |d0|, |successes|, d, landed);
  }

  lemma AdvancedSize(outcome: Outcome, d0: bytes, d: bytes, length: nat, successes: seq<nat>)
    requires Advanced(outcome, d0, d, length, successes)
    ensures |d| == SizeBefore(outcome, length, |d0|, |successes|)
  {
  }

  lemma AdvancedFar(outcome: Outcome, d0: bytes, d: bytes, length: nat, successes: seq<nat>)
    requires Advanced(outcome, d0, d, length, successes)
    ensures Grown(d0, d, length, successes) && Rounds(outcome, length, |d0|, successes)
    ensures |d| == SizeBefore(outcome, length, |d0|, |successes|)
    ensures successes != [] ==> |d| <= length
    ensures SpaceLands(d0, length, successes) ==> |d| >= length
    ensures OneLands(outcome) ==> NoneEmpty(successes)
    ensures NoneEmpty(successes) && |successes| >= AllocationsNeeded(length, |d0|) ==> |d| >= length
    ensures AllLand(outcome) ==> |successes| <= 1
  {
    hide AllocationsNeeded, Rounds, SizeBefore, OneLands, AllLand, NoneEmpty;
    GrownEnough(d0, d, length, successes);
    if NoneEmpty(successes) && |successes| >= AllocationsNeeded(length, |d0|) {
      EnoughRounds(d0, d, length, successes);
    }
  }

  lemma NoRounds(outcome: Outcome, length: nat, size: nat)
    ensures Rounds(outcome, length, size, [])
  {
  }

  /** The successes together make up what is missing to `length`. */
  ghost predicate SpaceLands(d0: bytes, length: nat, successes: seq<nat>) {
    |d0| + MAX_PERMITTED_DATA_INCREASE * Total(successes) >= length
  }

  lemma GrownEnough(d0: bytes, d: bytes, length: nat, successes: seq<nat>)
    requires Grown(d0, d, length, successes)
    ensures SpaceLands(d0, length, successes) ==> |d| >= length
  {
  }

  lemma NothingIsEmpty()
    ensures NoneEmpty([])
  {
  }

  // ---------------------------------------------------------------- writing the chunks

  /**
    What reaches the ledger, or fails to, while the chunks are written. An attempt of the task for a chunk may not
    be delivered, or land unconfirmed and be sent again. An allocation call of a round that is over may land late.
   */
  datatype Attempt =
    | Attempt(chunk: nat, delivered: bool, confirmed: bool, rt: Runtime)
    | LateAllocation(rt: Runtime)

  predicate Succeeds(a: Attempt, k: nat) {
    a.Attempt? && a.chunk == k && a.delivered && a.confirmed
  }

  /** The schedule lets the task for chunk `k` through at least once. */
  ghost predicate Confirms(schedule: seq<Attempt>, k: nat) {
    exists a :: a in schedule && Succeeds(a, k)
  }

  function ChunkWrite(c: Chunk, rt: Runtime): Write {
    Write(c.offset * CHUNK_SIZE, c.data, rt)
  }

  /** The chunks are parts of the input. */
  ghost predicate ChunksOf(chunks: seq<Chunk>, input: bytes) {
    forall c :: c in chunks ==> forall rt :: PartOf(ChunkWrite(c, rt), input)
  }

  /** Where the data is right, or the chunk `c` lies. */
  ghost predicate WrittenOut(data: bytes, input: bytes, c: Chunk) {
    forall i: nat :: c.offset * CHUNK_SIZE <= i < c.offset * CHUNK_SIZE + |c.data| ==> RightAt(data, input, i)
  }

  lemma ChunkSpliced(data: bytes, input: bytes, c: Chunk, rt: Runtime)
    requires PartOf(ChunkWrite(c, rt), input) && |input| <= |data|
    ensures var d := Spliced(data, c.offset * CHUNK_SIZE, c.data, rt);
            && |d| == |data| && d[|input|..] == data[|input|..]
            && WrittenOut(d, input, c)
            && forall i: nat :: i < |input| && RightAt(data, input, i) ==> RightAt(d, input, i)
  {
    var d := Spliced(data, c.offset * CHUNK_SIZE, c.data, rt);
    forall i: nat | i < |input| && (RightAt(data, input, i) || Reaches(ChunkWrite(c, rt), i))
      ensures RightAt(d, input, i)
    {
      SpliceRights(data, input, ChunkWrite(c, rt), i);
    }
  }

  method WriteOnce(l: Ledger, t: Target, input: bytes, c: Chunk, rt: Runtime)
    returns (r: Result<()>, ghost sent: seq<Step>)
    requires Ready(l.chain, l.Now(), t) && |input| <= |l.Now().Data(t.inscription)| && |input| < U64_LIMIT
    requires PartOf(ChunkWrite(c, rt), input)
    modifies l
    ensures r.Ok?
    ensures sent == [Run(WriteIx(t, c.offset * CHUNK_SIZE, c.data), rt)]
    ensures Sent(l.chain, old(l.Now()), l.Now(), t, sent)
    ensures Ready(l.chain, l.Now(), t) && OnlyTargetChanged(old(l.Now()), l.Now(), t)
    ensures l.Now().Data(t.inscription)
         == Spliced(old(l.Now()).Data(t.inscription), c.offset * CHUNK_SIZE, c.data, rt)
  {
    hide Execute, Ready, Inv, Fair, Spliced;
    ghost var w := l.Now();
    ReadyWrite(l.chain, w, t, c.offset * CHUNK_SIZE, c.data, rt);
    r := l.Process(WriteIx(t, c.offset * CHUNK_SIZE, c.data), rt);
    sent := [Run(WriteIx(t, c.offset * CHUNK_SIZE, c.data), rt)];
    SentOne(l.chain, w, t, sent[0]);
    StaysReady(l.chain, w, t, l.Now().Data(t.inscription));
  }

  /** An allocation call that lands when the account has its size already. */
  method AllocateIdly(l: Ledger, t: Target, length: u64, rt: Runtime) returns (ghost sent: seq<Step>)
    requires Ready(l.chain, l.Now(), t)
    requires |l.Now().Data(t.inscription)| == length && length + MAX_PERMITTED_DATA_INCREASE < U64_LIMIT
    modifies l
    ensures l.Now() == old(l.Now())
    ensures Sent(l.chain, old(l.Now()), l.Now(), t, sent) && sent == [Run(AllocateIx(t, length), rt)]
  {
    hide Execute, Ready, Inv, Fair;
    ghost var w := l.Now();
    ExtraAllocationIsIdle(l.chain, w, t, rt);
    var r := l.Process(AllocateIx(t, length), rt);
    sent := [Run(AllocateIx(t, length), rt)];
    SentOne(l.chain, w, t, sent[0]);
  }

  /** No chunk starts beyond `length`. */
  predicate Within(chunks: seq<Chunk>, length: nat) {
    forall c :: c in chunks ==> c.offset * CHUNK_SIZE <= length
  }

  lemma ChunksWithin(chunks: seq<Chunk>, input: bytes)
    requires ChunksOf(chunks, input)
    ensures Within(chunks, |input|)
  {
    forall c | c in chunks ensures c.offset * CHUNK_SIZE <= |input| {
      assert PartOf(ChunkWrite(c, Runtime(true, [])), input);
    }
  }

  /** The call that an attempt comes to, if it reaches the ledger. */
  function CallOf(t: Target, length: u64, chunks: seq<Chunk>, a: Attempt, grown: bool): seq<Step>
    requires Within(chunks, length)
  {
    match a
    case LateAllocation(rt) => if grown then [Run(AllocateIx(t, length), rt)] else []
    case Attempt(k, delivered, _, rt) =>
      if delivered && k < |chunks| then
        assert chunks[k] in chunks;
        [Run(WriteIx(t, chunks[k].offset * CHUNK_SIZE, chunks[k].data), rt)]
      else []
  }

  function WriteCalls(t: Target, length: u64, chunks: seq<Chunk>, schedule: seq<Attempt>, grown: bool): seq<Step>
    requires Within(chunks, length)
  {
    if schedule == [] then []
    else
      var n := |schedule| - 1;
      WriteCalls(t, length, chunks, schedule[..n], grown) + CallOf(t, length, chunks, schedule[n], grown)
  }

  lemma OneMoreCall(t: Target, length: u64, chunks: seq<Chunk>, schedule: seq<Attempt>, n: nat, grown: bool)
    requires Within(chunks, length) && n < |schedule|
    ensures WriteCalls(t, length, chunks, schedule[..n + 1], grown)
         == WriteCalls(t, length, chunks, schedule[..n], grown) + CallOf(t, length, chunks, schedule[n], grown)
  {
    hide Within, CallOf;
    assert schedule[..n + 1][..n] == schedule[..n];
  }

  /** The tasks that have heard of a success are those that the schedule lets through, and their chunks are there. */
  ghost predicate Through(success: set<nat>, chunks: seq<Chunk>, schedule: seq<Attempt>, data: bytes, input: bytes) {
    && (forall k :: k in success <==> 0 <= k < |chunks| && Confirms(schedule, k))
    && (forall k :: k in success ==> k < |chunks| && WrittenOut(data, input, chunks[k]))
  }

  /** Nothing right is spoilt, and the size and what lies beyond the input stay. */
  ghost predicate Improved(data: bytes, data': bytes, input: bytes) {
    && |data'| == |data| && |input| <= |data| && data'[|input|..] == data[|input|..]
    && (forall i: nat :: i < |input| && RightAt(data, input, i) ==> RightAt(data', input, i))
  }

  lemma OneMoreThrough(success: set<nat>, chunks: seq<Chunk>, schedule: seq<Attempt>, n: nat, data: bytes,
                       data': bytes, input: bytes, done: bool)
    requires n < |schedule| && Through(success, chunks, schedule[..n], data, input)
    requires ChunksOf(chunks, input) && Improved(data, data', input)
    requires var a := schedule[n];
             && (done <==> a.Attempt? && Succeeds(a, a.chunk) && a.chunk < |chunks|)
             && (done ==> WrittenOut(data', input, chunks[a.chunk]))
    ensures Through(if done then success + {schedule[n].chunk} else success, chunks, schedule[..n + 1], data', input)
  {
    OneMoreAttempt(schedule, n);
    SucceedsExactlyWhen(schedule[n]);
    KeepsWrittenOut(data, data', input, chunks, success);
    hide Succeeds, WrittenOut, Confirms, ChunksOf;
  }

  /** One attempt: its call, if it reaches the ledger. */
  method Attempted(l: Ledger, t: Target, input: bytes, chunks: seq<Chunk>, a: Attempt, grown: bool)
    returns (success: bool, ghost sent: seq<Step>)
    requires Ready(l.chain, l.Now(), t) && |input| <= |l.Now().Data(t.inscription)|
    requires |input| + MAX_PERMITTED_DATA_INCREASE < U64_LIMIT
    requires grown ==> |l.Now().Data(t.inscription)| == |input|
    requires ChunksOf(chunks, input) && Within(chunks, |input|)
    modifies l
    ensures Ready(l.chain, l.Now(), t) && OnlyTargetChanged(old(l.Now()), l.Now(), t)
    ensures success <==> a.Attempt? && Succeeds(a, a.chunk) && a.chunk < |chunks|
    ensures Improved(old(l.Now()).Data(t.inscription), l.Now().Data(t.inscription), input)
    ensures success ==> WrittenOut(l.Now().Data(t.inscription), input, chunks[a.chunk])
    ensures Sent(l.chain, old(l.Now()), l.Now(), t, sent) && sent == CallOf(t, |input|, chunks, a, grown)
    ensures chunks == [] ==> l.Now() == old(l.Now())
  {
    hide Ready, Spliced, RightAt, PartOf, Sent, Within, WrittenOut;
    success, sent := false, [];
    PutSame(l.chain, l.Now(), t);
    SentNothing(l.chain, l.Now(), t);
    if a.LateAllocation? {
      if grown {
        sent := AllocateIdly(l, t, |input|, a.rt);
      }
    } else if a.chunk < |chunks| && a.delivered {
      var c := chunks[a.chunk];
      ghost var before := l.Now().Data(t.inscription);
      assert c in chunks;
      var r;
      r, sent := WriteOnce(l, t, input, c, a.rt);
      ChunkSpliced(before, input, c, a.rt);
      success := r.Ok? && a.confirmed;
    }
  }

  /**
    The write loop. The schedule interleaves the attempts of all the chunks' tasks, in the order in which they
    arrive; one that was not confirmed in time may still arrive after its task has heard of another's success.
    If the account was `grown` before, calls for it may still land as well.
   */
  method WriteChunks(l: Ledger, t: Target, input: bytes, chunks: seq<Chunk>, schedule: seq<Attempt>, grown: bool)
    returns (success: set<nat>, ghost sent: seq<Step>)
    requires Ready(l.chain, l.Now(), t) && |input| <= |l.Now().Data(t.inscription)|
    requires |input| + MAX_PERMITTED_DATA_INCREASE < U64_LIMIT
    requires grown ==> |l.Now().Data(t.inscription)| == |input|
    requires ChunksOf(chunks, input)
    modifies l
    ensures Ready(l.chain, l.Now(), t) && OnlyTargetChanged(old(l.Now()), l.Now(), t)
    ensures Through(success, chunks, schedule, l.Now().Data(t.inscription), input)
    ensures Improved(old(l.Now()).Data(t.inscription), l.Now().Data(t.inscription), input)
    ensures Sent(l.chain, old(l.Now()), l.Now(), t, sent)
    ensures chunks == [] ==> l.Now() == old(l.Now())
    ensures Within(chunks, |input|) && sent == WriteCalls(t, |input|, chunks, schedule, grown)
  {
    success, sent := {}, [];
    ghost var w := l.Now();
    ghost var d := w.Data(t.inscription);
    ChunksWithin(chunks, input);
    PutSame(l.chain, w, t);
    SentNothing(l.chain, w, t);
    assert WriteCalls(t, |input|, chunks, [], grown) == [];
    assert Through(success, chunks, [], d, input) && Improved(d, d, input);
    hide Ready, Sent, ChunksOf, Within, WriteCalls, CallOf, Through, WrittenOut;
    for n := 0 to |schedule|
      invariant Ready(l.chain, l.Now(), t) && OnlyTargetChanged(w, l.Now(), t)
      invariant Through(success, chunks, schedule[..n], l.Now().Data(t.inscription), input)
      invariant Improved(d, l.Now().Data(t.inscription), input)
      invariant Sent(l.chain, w, l.Now(), t, sent)
      invariant chunks == [] ==> l.Now() == w
      invariant sent == WriteCalls(t, |input|, chunks, schedule[..n], grown)
    {
      ghost var here := l.Now();
      ghost var before := here.Data(t.inscription);
      var done;
      ghost var call;
      done, call := Attempted(l, t, input, chunks, schedule[n], grown);
      OneMoreCall(t, |input|, chunks, schedule, n, grown);
      OneMoreThrough(success, chunks, schedule, n, before, l.Now().Data(t.inscription), input, done);
      PutTwice(w, t.inscription, before, l.Now().Data(t.inscription));
      SentMore(l.chain, w, here, l.Now(), t, sent, call);
      sent := sent + call;
      if done {
        success := success + {schedule[n].chunk};
      }
    }
    assert schedule[..|schedule|] == schedule;
  }

  lemma SucceedsExactlyWhen(a: Attempt)
    ensures forall k :: Succeeds(a, k) <==> a.Attempt? && a.chunk == k && a.delivered && a.confirmed
  {
  }

  lemma OneMoreAttempt(schedule: seq<Attempt>, n: nat)
    requires n < |schedule|
    ensures forall k :: Confirms(schedule[..n + 1], k) <==> Confirms(schedule[..n], k) || Succeeds(schedule[n], k)
  {
    hide Succeeds;
    var last := schedule[n];
    assert schedule[..n + 1] == schedule[..n] + [last];
    assert forall a :: a in schedule[..n + 1] <==> a in schedule[..n] || a == last;
    forall k ensures Confirms(schedule[..n + 1], k) <==> Confirms(schedule[..n], k) || Succeeds(last, k) {
      if Confirms(schedule[..n + 1], k) {
        var a :| a in schedule[..n + 1] && Succeeds(a, k);
        assert a in schedule[..n] || a == last;
      }
      if Confirms(schedule[..n], k) {
        var a :| a in schedule[..n] && Succeeds(a, k);
        assert a in schedule[..n + 1];
      }
      assert last in schedule[..n + 1];
    }
  }

  /** What was written out before stays so, if nothing right is spoilt. */
  lemma KeepsWrittenOut(data: bytes, data': bytes, input: bytes, chunks: seq<Chunk>, success: set<nat>)
    requires ChunksOf(chunks, input)
    requires forall i: nat :: i < |input| && RightAt(data, input, i) ==> RightAt(data', input, i)
    ensures forall k :: k in success && k < |chunks| && WrittenOut(data, input, chunks[k])
              ==> WrittenOut(data', input, chunks[k])
  {
    hide PartOf;
    forall k | k in success && k < |chunks| && WrittenOut(data, input, chunks[k])
      ensures WrittenOut(data', input, chunks[k])
    {
      forall i: nat | chunks[k].offset * CHUNK_SIZE <= i < chunks[k].offset * CHUNK_SIZE + |chunks[k].data|
        ensures RightAt(data', input, i)
      {
        assert RightAt(data, input, i);
      }
    }
  }

  // ---------------------------------------------------------------- the whole upload

  lemma DiffIsOfInput(input: bytes, data: bytes)
    ensures ChunksOf(Differing(input, data, ChunkCount(|input|)), input)
  {
    DifferingArePieces(input, data, ChunkCount(|input|));
  }

  /** Where the comparison finds no difference the account is right already; elsewhere a chunk is to be written. */
  lemma RightOrToWrite(input: bytes, data: bytes, i: nat)
    requires |input| <= |data| && i < |input|
    ensures var d := Differing(input, data, ChunkCount(|input|));
            || RightAt(data, input, i)
            || exists k :: 0 <= k < |d| && d[k].offset * CHUNK_SIZE <= i < d[k].offset * CHUNK_SIZE + |d[k].data|
  {
    var j := i / CHUNK_SIZE;
    var p, q := Piece(input, CHUNK_SIZE, j), Piece(data, CHUNK_SIZE, j);
    assert p[i - j * CHUNK_SIZE] == input[i] && q[i - j * CHUNK_SIZE] == data[i];
    if p != q {
      DifferingAreAll(input, data, ChunkCount(|input|), j);
      var d := Differing(input, data, ChunkCount(|input|));
      var k :| 0 <= k < |d| && d[k] == Chunk(j, p);
    }
  }

  /** Once all differing chunks are written out, the input is there, followed by whatever lay beyond it. */
  lemma AllWritten(input: bytes, data: bytes, data': bytes)
    requires |input| <= |data| == |data'|
    requires forall i: nat :: i < |input| && RightAt(data, input, i) ==> RightAt(data', input, i)
    requires var d := Differing(input, data, ChunkCount(|input|));
             forall k :: 0 <= k < |d| ==> WrittenOut(data', input, d[k])
    ensures data'[..|input|] == input
  {
    var d := Differing(input, data, ChunkCount(|input|));
    forall i: nat | i < |input| ensures data'[i] == input[i] {
      RightOrToWrite(input, data, i);
      if !RightAt(data, input, i) {
        var k :| 0 <= k < |d| && d[k].offset * CHUNK_SIZE <= i < d[k].offset * CHUNK_SIZE + |d[k].data|;
        assert WrittenOut(data', input, d[k]);
        assert RightAt(data', input, i);
      }
    }
  }

  /** A write puts the input's bytes to a place that differs; an allocation is for the input's length. */
  ghost predicate Meant(step: Step, input: bytes, data: bytes) {
    && step.Run?
    && (step.ix.WriteData? ==>
         exists j: nat :: DiffersAt(input, data, j) && step.ix.offset == 500 * j && step.ix.value == Slot(input, j))
    && (step.ix.Allocate? ==> step.ix.targetSize == |input|)
  }

  lemma {:induction false} WritesMeant(t: Target, input: bytes, data: bytes, chunks: seq<Chunk>,
                                       schedule: seq<Attempt>, grown: bool)
    requires |input| < U64_LIMIT && Within(chunks, |input|) && AreDifferences(Offsets(chunks), input, data)
    requires forall k :: 0 <= k < |chunks| ==>
               500 * chunks[k].offset < |input| && chunks[k].data == Slot(input, chunks[k].offset)
    ensures forall s :: s in WriteCalls(t, |input|, chunks, schedule, grown) ==> Meant(s, input, data)
  {
    hide Slot, Within, DiffersAt;
    if schedule != [] {
      var n := |schedule| - 1;
      var a := schedule[n];
      WritesMeant(t, input, data, chunks, schedule[..n], grown);
      if a.Attempt? && a.delivered && a.chunk < |chunks| {
        assert Offsets(chunks)[a.chunk] in Offsets(chunks);
        assert DiffersAt(input, data, chunks[a.chunk].offset);
      }
    }
  }

  lemma {:induction false} RoundMeant(t: Target, input: bytes, data: bytes, outcome: Outcome, round: nat, calls: nat)
    requires |input| < U64_LIMIT
    ensures forall s :: s in RoundCalls(t, |input|, outcome, round, calls) ==> Meant(s, input, data) && s.ix.Allocate?
  {
    if calls > 0 {
      RoundMeant(t, input, data, outcome, round, calls - 1);
    }
  }

  lemma {:induction false} AllocationsMeant(t: Target, input: bytes, data: bytes, outcome: Outcome, size: nat,
                                            rounds: nat)
    requires |input| < U64_LIMIT
    ensures forall s :: s in AllocationCalls(t, outcome, |input|, size, rounds)
              ==> Meant(s, input, data) && s.ix.Allocate?
  {
    hide Meant, RoundCalls;
    if rounds > 0 {
      AllocationsMeant(t, input, data, outcome, size, rounds - 1);
      RoundMeant(t, input, data, outcome, rounds - 1,
                 AllocationsNeeded(|input|, SizeBefore(outcome, |input|, size, rounds - 1)));
    }
  }

  /** The allocations are those of as many rounds as there are numbers of successes. */
  ghost predicate RoundsSent(t: Target, input: bytes, size: nat, outcome: Outcome, allocations: seq<Step>,
                             successes: seq<nat>)
    requires |input| < U64_LIMIT
  {
    && allocations == AllocationCalls(t, outcome, |input|, size, |successes|)
    && Rounds(outcome, |input|, size, successes)
  }

  /** One call is sent for each attempt that arrives, and every write goes to a place where the bytes differ. */
  ghost predicate DifferencesSent(input: bytes, compared: bytes, schedule: seq<Attempt>, allocations: seq<Step>,
                                  writes: seq<Step>, places: seq<nat>, successes: seq<nat>) {
    && AreDifferences(places, input, compared)
    && (forall s :: s in allocations + writes ==> Meant(s, input, compared))
    && |writes| == Arrivals(schedule, |places|, successes != [])
  }

  /**
    `inscribe`. The result says whether every call it waits for has succeeded within the allocation rounds and
    write attempts that were watched; `pending` is the number of chunks it found to write. What it sent is the
    `allocations` and then the `writes`, with late allocation calls among them; `places` are the chunk places where
    the account differed from the input in between.
   */
  method Inscribe(l: Ledger, t: Target, input: bytes, outcome: Outcome, patience: nat,
                  schedule: seq<Attempt>)
    returns (finished: bool, pending: nat, ghost allocations: seq<Step>, ghost writes: seq<Step>,
             ghost places: seq<nat>, ghost successes: seq<nat>)
    requires Ready(l.chain, l.Now(), t) && |input| + MAX_PERMITTED_DATA_INCREASE < U64_LIMIT
    modifies l
    ensures Ready(l.chain, l.Now(), t) && OnlyTargetChanged(old(l.Now()), l.Now(), t)
    // every call has succeeded in the end: the account holds the input, and nothing more if it was no longer before
    ensures finished ==> input <= l.Now().Data(t.inscription)
    ensures finished && |old(l.Now()).Data(t.inscription)| <= |input| ==> l.Now().Data(t.inscription) == input
    // bytes beyond the input are never touched
    ensures |old(l.Now()).Data(t.inscription)| > |input| ==>
              |l.Now().Data(t.inscription)| == |old(l.Now()).Data(t.inscription)|
              && l.Now().Data(t.inscription)[|input|..] == old(l.Now()).Data(t.inscription)[|input|..]
    // whatever it sent is all that happened
    ensures Sent(l.chain, old(l.Now()), l.Now(), t, allocations + writes)
    // the allocations are those of the rounds
    ensures RoundsSent(t, input, |old(l.Now()).Data(t.inscription)|, outcome, allocations, successes)
    // the bytes it compares are those that the allocations leave; what it finds are just the places that differ
    ensures var compared := After(l.chain, old(l.Now()), allocations).Data(t.inscription);
            if |compared| < |input| then
              |successes| == patience && !finished && writes == []
            else
              && pending == |places| == |set j: nat | j < |input| && DiffersAt(input, compared, j)|
              && (finished <==> forall k :: 0 <= k < pending ==> Confirms(schedule, k))
              && DifferencesSent(input, compared, schedule, allocations, writes, places, successes)
    // it does end if enough allocation calls succeed, in whatever rounds, and the task of every chunk gets through once
    ensures SpaceLands(old(l.Now()).Data(t.inscription), |input|, successes)
              && (forall k: nat :: k < ChunkCount(|input|) ==> Confirms(schedule, k))
            ==> finished
    // one call of each allocation round is enough, if as many rounds are watched as the estimate says
    ensures OneLands(outcome)
              && patience >= AllocationsNeeded(|input|, |old(l.Now()).Data(t.inscription)|)
              && (forall k: nat :: k < ChunkCount(|input|) ==> Confirms(schedule, k))
            ==> finished
    // run again on its own result, it writes nothing
    ensures old(l.Now()).Data(t.inscription) == input
        ==> finished && pending == 0 && allocations == writes == [] && l.Now() == old(l.Now())
  {
    hide Ready, Differing, Spliced, WrittenOut, RightAt, Sent, Rounds, SpaceLands, AreDifferences, Meant;
    hide AllocationCalls, WriteCalls, DiffersAt, Next;
    ghost var w := l.Now();
    ghost var d0 := w.Data(t.inscription);
    var rounds;
    rounds, successes, allocations := AllocateSpace(l, t, |input|, outcome, patience);
    assert l.Now() == After(l.chain, w, allocations) by { SentIs(l.chain, w, l.Now(), t, allocations); }
    assert allocations + [] == allocations;
    var data := l.At(t.inscription).data;
    if |data| < |input| {
      return false, ChunkCount(|input|), allocations, [], [], successes;
    }
    ghost var here := l.Now();
    LongEnoughCompares(input, data);
    ReadyExists(l.chain, here, t);
    var diff := CompareChunkSets(input, Fetched(l.accounts, t.inscription));
    var chunks := diff.chunks;
    pending := |chunks|;
    DiffIsOfInput(input, data);
    DiffCount(input, data, ChunkCount(|input|));
    DifferencesFound(input, data);
    places := Offsets(chunks);
    DifferencesCount(places, input, data);
    var success;
    success, writes := WriteChunks(l, t, input, chunks, schedule, rounds > 0);
    WritesMeant(t, input, data, chunks, schedule, rounds > 0);
    WritesCount(t, |input|, chunks, schedule, rounds > 0);
    AllocationsMeant(t, input, data, outcome, |d0|, rounds);
    SentMore(l.chain, w, here, l.Now(), t, allocations, writes);
    PutTwice(w, t.inscription, data, l.Now().Data(t.inscription));
    finished := forall k :: 0 <= k < |chunks| ==> k in success;
    if finished {
      AllWritten(input, data, l.Now().Data(t.inscription));
    }
    if d0 == input {
      NothingDiffers(input, ChunkCount(|input|));
      NoArrivals(schedule);
    }
  }

  lemma {:induction false} NoArrivals(schedule: seq<Attempt>)
    ensures Arrivals(schedule, 0, false) == 0
  {
    if schedule != [] {
      NoArrivals(schedule[..|schedule| - 1]);
    }
  }

  lemma SentIs(c: Chain, w: World, w': World, t: Target, sent: seq<Step>)
    requires Sent(c, w, w', t, sent)
    ensures w' == After(c, w, sent)
  {
    hide Next;
  }

  /** How many calls arrive of a schedule for so many chunks. */
  function Arrivals(schedule: seq<Attempt>, chunks: nat, grown: bool): nat {
    if schedule == [] then 0
    else
      var n := |schedule| - 1;
      Arrivals(schedule[..n], chunks, grown)
      + match schedule[n]
        case LateAllocation(_) => if grown then 1 else 0
        case Attempt(k, delivered, _, _) => if delivered && k < chunks then 1 else 0
  }

  lemma {:induction false} WritesCount(t: Target, length: u64, chunks: seq<Chunk>, schedule: seq<Attempt>, grown: bool)
    requires Within(chunks, length)
    ensures |WriteCalls(t, length, chunks, schedule, grown)| == Arrivals(schedule, |chunks|, grown)
  {
    hide Within;
    if schedule != [] {
      WritesCount(t, length, chunks, schedule[..|schedule| - 1], grown);
    }
  }

  /** What the client gets for an account: its bytes, if it exists. */
  function Fetched(accounts: map<Pubkey, Account>, k: Pubkey): Option<bytes> {
    if k in accounts then Some(accounts[k].data) else None
  }

  lemma ReadyExists(c: Chain, w: World, t: Target)
    requires Ready(c, w, t)
    ensures Fetched(w.accounts, t.inscription) == Some(w.Data(t.inscription))
  {
    hide Decode, AuthorityCheck, TargetCheck;
  }

  /** `accountValid`: the account exists and holds the expected bytes, no more and no fewer. */
  method AccountValid(l: Ledger, k: Pubkey, expected: bytes) returns (valid: bool)
    ensures valid <==> k in l.accounts && l.Now().Data(k) == expected
  {
    var account := Fetched(l.accounts, k);
    if account.None? || |account.value| != |expected| {
      return false;
    }
    return account.value == expected;
  }

  /**
    What the commands do: upload unless the account is valid already. An upload that finished leaves a valid
    account if and only if the account was no longer than the input, for nothing ever shortens it.
   */
  method EnsureInscribed(l: Ledger, t: Target, input: bytes, outcome: Outcome, patience: nat,
                         schedule: seq<Attempt>)
    returns (finished: bool, ghost allocations: seq<Step>, ghost writes: seq<Step>, ghost places: seq<nat>,
             ghost successes: seq<nat>)
    requires Ready(l.chain, l.Now(), t) && |input| + MAX_PERMITTED_DATA_INCREASE < U64_LIMIT
    modifies l
    ensures OnlyTargetChanged(old(l.Now()), l.Now(), t)
    ensures finished ==>
              (l.Now().Data(t.inscription) == input <==> |old(l.Now()).Data(t.inscription)| <= |input|)
    ensures Sent(l.chain, old(l.Now()), l.Now(), t, allocations + writes)
    ensures RoundsSent(t, input, |old(l.Now()).Data(t.inscription)|, outcome, allocations, successes)
    ensures var compared := After(l.chain, old(l.Now()), allocations).Data(t.inscription);
            if |compared| < |input| then |successes| == patience && !finished && writes == []
            else
              && (finished <==> forall k :: 0 <= k < |places| ==> Confirms(schedule, k))
              && DifferencesSent(input, compared, schedule, allocations, writes, places, successes)
    ensures SpaceLands(old(l.Now()).Data(t.inscription), |input|, successes)
              && (forall k: nat :: k < ChunkCount(|input|) ==> Confirms(schedule, k))
            ==> finished
    ensures OneLands(outcome)
              && patience >= AllocationsNeeded(|input|, |old(l.Now()).Data(t.inscription)|)
              && (forall k: nat :: k < ChunkCount(|input|) ==> Confirms(schedule, k))
            ==> finished
    ensures old(l.Now()).Data(t.inscription) == input
        ==> finished && allocations == writes == [] && l.Now() == old(l.Now())
  {
    hide Ready, Rounds, SpaceLands, RoundsSent, DifferencesSent;
    PutSame(l.chain, l.Now(), t);
    ReadyExists(l.chain, l.Now(), t);
    var valid := AccountValid(l, t.inscription, input);
    if valid {
      NothingToSend(l.chain, l.Now(), t, input, outcome, schedule);
      return true, [], [], [], [];
    }
    var pending;
    finished, pending, allocations, writes, places, successes :=
      Inscribe(l, t, input, outcome, patience, schedule);
  }

  lemma NothingToSend(c: Chain, w: World, t: Target, input: bytes, outcome: Outcome, schedule: seq<Attempt>)
    requires |input| < U64_LIMIT && w.Data(t.inscription) == input
    ensures Sent(c, w, w, t, [] + []) && After(c, w, []).Data(t.inscription) == input
    ensures RoundsSent(t, input, |input|, outcome, [], [])
    ensures DifferencesSent(input, input, schedule, [], [], [], [])
  {
    var none: seq<Step> := [];
    assert none + none == none;
    NoArrivals(schedule);
    hide Slot;
  }

  lemma {:induction false} DiffCount(input: bytes, data: bytes, n: nat)
    ensures |Differing(input, data, n)| <= n
  {
    hide Piece;
    if n > 0 {
      DiffCount(input, data, n - 1);
    }
  }
}
