/**
 * ConcatFeatureMapper: one feature space made of the feature spaces of its
 * children, laid end to end. Children reporting no feature are dropped; an
 * ascending offset table gives the first global slot of every kept child,
 * and a global slot is served by the child whose range holds it.
 */
module FeatureMappers {
  import opened JavaLang

  /**
   * A child mapper as a composite sees it. The child's own per-record
   * scratch state is folded into `produce`: it gives the value the child
   * returns once its prepareToNormalize has run on the record.
   */
  datatype Child<!R> = Child(
    count: nat,                // numberOfFeatures()
    dims: nat,                 // dimensions().numDimensions()
    mask: bool,                // hasMask()
    produce: (R, int) -> real, // produceFeature(record, localIndex)
    masked: (R, int) -> bool,  // isMasked(record, localIndex)
    name: int -> string)       // getFeatureName(localIndex)

  // ---------------------------------------------------------------------
  // The offset table, on the children's feature counts.

  /** The total of the counts, adding the last one last. */
  function Sum(ns: seq<nat>): nat {
    if ns == [] then 0 else Sum(ns[..|ns| - 1]) + ns[|ns| - 1]
  }

  lemma {:induction false} SumPrepend(x: nat, ns: seq<nat>)
    ensures Sum([x] + ns) == x + Sum(ns)
  {
    if ns != [] {
      assert ([x] + ns)[..|ns|] == [x] + ns[..|ns| - 1];
      SumPrepend(x, ns[..|ns| - 1]);
    }
  }

  /**
   * The offset table: entry k is the first global slot of child k, and the
   * last entry is the total number of features.
   */
  function Offsets(ns: seq<nat>): (r: seq<nat>)
    ensures |r| == |ns| + 1 && r[0] == 0 && r[|ns|] == Sum(ns)
  {
    if ns == [] then [0] else Offsets(ns[..|ns| - 1]) + [Sum(ns)]
  }

  /** Each child's range is as wide as its count. */
  lemma {:induction false} OffsetsStep(ns: seq<nat>, k: nat)
    requires k < |ns|
    ensures Offsets(ns)[k + 1] == Offsets(ns)[k] + ns[k]
  {
    var p := ns[..|ns| - 1];
    if k < |p| {
      OffsetsStep(p, k);
      assert p[k] == ns[k];
    }
  }

  lemma OffsetsAppend(ns: seq<nat>, x: nat)
    ensures Offsets(ns + [x]) == Offsets(ns) + [Sum(ns) + x]
  {
    assert (ns + [x])[..|ns|] == ns;
    assert Sum(ns + [x]) == Sum(ns) + x;
  }

  /** Offsets never decrease. */
  lemma {:induction false} OffsetsMonotone(ns: seq<nat>, i: nat, j: nat)
    requires i <= j <= |ns|
    ensures Offsets(ns)[i] <= Offsets(ns)[j]
  {
    if i < j {
      OffsetsMonotone(ns, i, j - 1);
      OffsetsStep(ns, j - 1);
    }
  }

  /** Over positive counts, offsets strictly increase. */
  lemma {:induction false} OffsetsStrictlyIncrease(ns: seq<nat>, i: nat, j: nat)
    requires i < j <= |ns|
    requires forall k :: 0 <= k < |ns| ==> ns[k] > 0
    ensures Offsets(ns)[i] < Offsets(ns)[j]
  {
    OffsetsStep(ns, j - 1);
    if i < j - 1 {
      OffsetsStrictlyIncrease(ns, i, j - 1);
    }
  }

  /**
   * Reference dispatch: scan the children from child k onwards and stop at
   * the first whose range ends after g.
   */
  function LinearOwnerFrom(ns: seq<nat>, g: int, k: nat): (o: nat)
    requires k < |ns| && Offsets(ns)[k] <= g < Sum(ns)
    ensures k <= o < |ns| && Offsets(ns)[o] <= g < Offsets(ns)[o + 1]
    decreases |ns| - k
  {
    if g < Offsets(ns)[k + 1] then k else LinearOwnerFrom(ns, g, k + 1)
  }

  /** The child whose slot range holds g, scanning from the first child. */
  function LinearOwner(ns: seq<nat>, g: int): (k: nat)
    requires 0 <= g < Sum(ns)
    ensures k < |ns| && Offsets(ns)[k] <= g < Offsets(ns)[k + 1]
  {
    LinearOwnerFrom(ns, g, 0)
  }

  /** A slot inside some child's range is a slot of the composite. */
  lemma SlotInRange(ns: seq<nat>, g: int, k: nat)
    requires k < |ns| && Offsets(ns)[k] <= g < Offsets(ns)[k + 1]
    ensures 0 <= g < Sum(ns)
  {
    OffsetsMonotone(ns, 0, k);
    OffsetsMonotone(ns, k + 1, |ns|);
  }

  /** Scanning from any child at or before the owner stops at the owner. */
  lemma {:induction false} OwnerFromUnique(ns: seq<nat>, g: int, k: nat, i: nat)
    requires k < |ns| && Offsets(ns)[k] <= g < Offsets(ns)[k + 1] && g < Sum(ns)
    requires i <= k && Offsets(ns)[i] <= g
    ensures LinearOwnerFrom(ns, g, i) == k
    decreases k - i
  {
    if i < k {
      OffsetsMonotone(ns, i + 1, k);
      OwnerFromUnique(ns, g, k, i + 1);
    }
  }

  /** Exactly one child's range holds each slot. */
  lemma OwnerUnique(ns: seq<nat>, g: int, k: nat)
    requires k < |ns| && Offsets(ns)[k] <= g < Offsets(ns)[k + 1]
    ensures 0 <= g < Sum(ns) && LinearOwner(ns, g) == k
  {
    SlotInRange(ns, g, k);
    OffsetsMonotone(ns, 0, k);
    OwnerFromUnique(ns, g, k, 0);
  }

  // ---------------------------------------------------------------------
  // Children: filtering, counts, masks.

  function Counts<R>(cs: seq<Child<R>>): (ns: seq<nat>)
    ensures |ns| == |cs| && forall k :: 0 <= k < |cs| ==> ns[k] == cs[k].count
  {
    seq(|cs|, k requires 0 <= k < |cs| => cs[k].count)
  }

  /** The children that report at least one feature, in their original order. */
  function Retained<R>(cs: seq<Child<R>>): (rs: seq<Child<R>>)
    ensures |rs| <= |cs|
    ensures forall k :: 0 <= k < |rs| ==> rs[k].count > 0
  {
    if cs == [] then []
    else if cs[0].count > 0 then [cs[0]] + Retained(cs[1..])
    else Retained(cs[1..])
  }

  /** Filtering distributes over concatenation: relative order is kept. */
  lemma {:induction false} RetainedAppend<R>(a: seq<Child<R>>, b: seq<Child<R>>)
    ensures Retained(a + b) == Retained(a) + Retained(b)
  {
    if a != [] {
      assert (a + b)[1..] == a[1..] + b;
      RetainedAppend(a[1..], b);
    } else {
      assert a + b == b;
    }
  }

  lemma CountsCons<R>(c: Child<R>, cs: seq<Child<R>>)
    ensures Counts([c] + cs) == [c.count] + Counts(cs)
  {
  }

  /** Dropping zero-feature children does not change the total. */
  lemma {:induction false} RetainedSum<R>(cs: seq<Child<R>>)
    ensures Sum(Counts(Retained(cs))) == Sum(Counts(cs))
  {
    if cs != [] {
      var c, rest := cs[0], cs[1..];
      assert cs == [c] + rest;
      RetainedSum(rest);
      CountsCons(c, rest);
      SumPrepend(c.count, Counts(rest));
      if c.count > 0 {
        CountsCons(c, Retained(rest));
        SumPrepend(c.count, Counts(Retained(rest)));
      }
    }
  }

  predicate AnyMask<R>(cs: seq<Child<R>>) {
    exists k :: 0 <= k < |cs| && cs[k].mask
  }

  lemma AnyMaskAppend<R>(cs: seq<Child<R>>, c: Child<R>)
    ensures AnyMask(cs + [c]) <==> AnyMask(cs) || c.mask
  {
    if AnyMask(cs) {
      var k :| 0 <= k < |cs| && cs[k].mask;
      assert (cs + [c])[k] == cs[k];
    }
    if c.mask {
      assert (cs + [c])[|cs|] == c;
    }
    if AnyMask(cs + [c]) {
      var k :| 0 <= k < |cs + [c]| && (cs + [c])[k].mask;
      if k < |cs| {
        assert cs[k] == (cs + [c])[k];
      }
    }
  }

  /** Some child with at least one feature has a mask. */
  predicate AnyKeptMask<R>(cs: seq<Child<R>>) {
    exists k :: 0 <= k < |cs| && cs[k].count > 0 && cs[k].mask
  }

  lemma AnyMaskCons<R>(c: Child<R>, cs: seq<Child<R>>)
    ensures AnyMask([c] + cs) <==> c.mask || AnyMask(cs)
  {
    if AnyMask(cs) {
      var k :| 0 <= k < |cs| && cs[k].mask;
      assert ([c] + cs)[k + 1] == cs[k];
    }
    if AnyMask([c] + cs) && !c.mask {
      assert ([c] + cs)[0] == c;
      var k :| 0 <= k < |[c] + cs| && ([c] + cs)[k].mask;
      assert cs[k - 1] == ([c] + cs)[k];
    }
  }

  lemma AnyKeptMaskTail<R>(cs: seq<Child<R>>)
    requires cs != []
    ensures AnyKeptMask(cs) <==> (cs[0].count > 0 && cs[0].mask) || AnyKeptMask(cs[1..])
  {
    if AnyKeptMask(cs[1..]) {
      var k :| 0 <= k < |cs[1..]| && cs[1..][k].count > 0 && cs[1..][k].mask;
      assert cs[k + 1] == cs[1..][k];
    }
    if AnyKeptMask(cs) && !(cs[0].count > 0 && cs[0].mask) {
      var k :| 0 <= k < |cs| && cs[k].count > 0 && cs[k].mask;
      assert cs[1..][k - 1] == cs[k];
    }
  }

  /** A zero-feature child's mask requirement is dropped with it. */
  lemma {:induction false} RetainedMask<R>(cs: seq<Child<R>>)
    ensures AnyMask(Retained(cs)) <==> AnyKeptMask(cs)
  {
    if cs != [] {
      RetainedMask(cs[1..]);
      AnyKeptMaskTail(cs);
      if cs[0].count > 0 {
        AnyMaskCons(cs[0], Retained(cs[1..]));
      }
    }
  }

  // ---------------------------------------------------------------------
  // What a composite over kept children `ms` computes.

  /** produceFeature of the composite, dispatched by the reference scan. */
  function ConcatProduce<R>(ms: seq<Child<R>>, record: R, g: int): real
    requires 0 <= g < Sum(Counts(ms))
  {
    var (k, j) := Owner(ms, g);
    ms[k].produce(record, j)
  }

  /** isMasked of the owning child, dispatched by the reference scan. */
  predicate ConcatMasked<R>(ms: seq<Child<R>>, record: R, g: int)
    requires 0 <= g < Sum(Counts(ms))
  {
    var (k, j) := Owner(ms, g);
    ms[k].masked(record, j)
  }

  /** Slot j of kept child k is global slot offsets[k] + j. */
  lemma ConcatProduceAt<R>(ms: seq<Child<R>>, record: R, k: nat, j: nat)
    requires k < |ms| && j < ms[k].count
    ensures 0 <= Offsets(Counts(ms))[k] + j < Sum(Counts(ms))
    ensures ConcatProduce(ms, record, Offsets(Counts(ms))[k] + j) == ms[k].produce(record, j)
    ensures ConcatMasked(ms, record, Offsets(Counts(ms))[k] + j) == ms[k].masked(record, j)
  {
    OffsetsStep(Counts(ms), k);
    OwnerUnique(Counts(ms), Offsets(Counts(ms))[k] + j, k);
  }

  /**
   * Children with counts 2, 0 and 3 give 5 features, and global slot 4 is
   * slot 2 of the third child.
   */
  lemma ScenarioTwoZeroThree<R>(a: Child<R>, b: Child<R>, c: Child<R>, record: R)
    requires a.count == 2 && b.count == 0 && c.count == 3
    ensures Retained([a, b, c]) == [a, c]
    ensures Sum(Counts(Retained([a, b, c]))) == 5
    ensures ConcatProduce([a, c], record, 4) == c.produce(record, 2)
  {
    assert [a, b, c][1..] == [b, c];
    assert [b, c][1..] == [c];
    assert [c][1..] == [];
    assert Retained([c]) == [c];
    assert Counts([a, c]) == [2, 3];
    assert [2, 3][1..] == [3];
    ConcatProduceAt([a, c], record, 1, 2);
  }

  // ---------------------------------------------------------------------
  // java.util.Arrays.binarySearch and the floor search built on it.

  predicate Ascending(s: seq<int>) {
    forall i, j :: 0 <= i < j < |s| ==> s[i] < s[j]
  }

  /**
   * Arrays.binarySearch(int[], int): the index of the key when present,
   * otherwise -(insertionPoint + 1).
   */
  method BinarySearch(a: array<int>, key: int) returns (r: int)
    requires forall i, j :: 0 <= i < j < a.Length ==> a[i] <= a[j]
    ensures 0 <= r ==> r < a.Length && a[r] == key
    ensures r < 0 ==> -(r + 1) <= a.Length
    ensures r < 0 ==> forall i :: 0 <= i < -(r + 1) ==> a[i] < key
    ensures r < 0 ==> forall i :: -(r + 1) <= i < a.Length ==> key < a[i]
  {
    var low, high := 0, a.Length - 1;
    while low <= high
      invariant 0 <= low <= high + 1 <= a.Length
      invariant forall i :: 0 <= i < low ==> a[i] < key
      invariant forall i :: high < i < a.Length ==> key < a[i]
    {
      var mid := (low + high) / 2;
      if a[mid] < key {
        low := mid + 1;
      } else if a[mid] > key {
        high := mid - 1;
      } else {
        return mid;
      }
    }
    r := -(low + 1);
  }

  /**
   * The owning child of slot g: binarySearch on the offset table, with a
   * negative answer decoded as "insertion point minus one". On an ascending
   * table starting at 0 this is the reference scan's answer.
   */
  method FloorSearch(offsets: array<int>, ns: seq<nat>, g: int) returns (k: int)
    requires offsets[..] == Offsets(ns)
    requires forall i :: 0 <= i < |ns| ==> ns[i] > 0
    requires 0 <= g < Sum(ns)
    ensures 0 <= k < |ns| && k == LinearOwner(ns, g)
    ensures offsets[k] <= g < offsets[k + 1]
  {
    forall i, j | 0 <= i < j < offsets.Length
      ensures offsets[i] < offsets[j]
    {
      OffsetsStrictlyIncrease(ns, i, j);
    }
    var index := BinarySearch(offsets, g);
    if index < 0 {
      index := -(index + 1) - 1;
    }
    k := index;
    OwnerUnique(ns, g, k);
  }

  /**
   * The constructor's first two passes: count the children that report
   * features, then copy them, in order, into an array of that size while
   * OR-ing their mask requirements.
   */
  method KeepWithFeatures<R>(children: seq<Child<R>>) returns (ms: array<Child<R>>, mask: bool)
    requires |children| > 0
    ensures fresh(ms) && ms[..] == Retained(children) && mask == AnyMask(ms[..])
  {
    var numMappers := CountWithFeatures(children);
    ms := new Child<R>[numMappers](_ => children[0]);
    mask := false;
    var i := 0;
    var j := 0;
    while j < |children|
      invariant 0 <= j <= |children|
      invariant i == |Retained(children[..j])| <= numMappers
      invariant ms[..i] == Retained(children[..j])
      invariant mask == AnyMask(ms[..i])
    {
      RetainedAppend(children[..j], [children[j]]);
      assert children[..j + 1] == children[..j] + [children[j]];
      RetainedAppend(children[..j + 1], children[j + 1..]);
      assert children[..j + 1] + children[j + 1..] == children;
      if children[j].count > 0 {
        ms[i] := children[j];
        AnyMaskAppend(ms[..i], children[j]);
        mask := mask || children[j].mask;
        assert ms[..i + 1] == ms[..i] + [children[j]];
        i := i + 1;
      }
      j := j + 1;
    }
    assert children[..j] == children;
    assert ms[..] == ms[..i];
  }

  method CountWithFeatures<R>(children: seq<Child<R>>) returns (n: nat)
    ensures n == |Retained(children)|
  {
    n := 0;
    var j := 0;
    while j < |children|
      invariant 0 <= j <= |children|
      invariant n == |Retained(children[..j])|
    {
      RetainedAppend(children[..j], [children[j]]);
      assert children[..j + 1] == children[..j] + [children[j]];
      if children[j].count > 0 {
        n := n + 1;
      }
      j := j + 1;
    }
    assert children[..j] == children;
  }

  /** The constructor's third pass: running totals of the kept counts. */
  method LayOutOffsets<R>(ms: array<Child<R>>) returns (offs: array<int>, total: int)
    ensures fresh(offs) && offs[..] == Offsets(Counts(ms[..])) && total == Sum(Counts(ms[..]))
  {
    ghost var ns := Counts(ms[..]);
    total := 0;
    offs := new int[ms.Length + 1];
    offs[0] := 0;
    var i := 1;
    while i <= ms.Length
      invariant 1 <= i <= ms.Length + 1
      invariant total == Sum(ns[..i - 1])
      invariant offs[..i] == Offsets(ns[..i - 1])
    {
      var calculator := ms[i - 1];
      assert ns[i - 1] == calculator.count;
      assert ns[..i] == ns[..i - 1] + [calculator.count];
      OffsetsAppend(ns[..i - 1], calculator.count);
      total := total + calculator.count;
      offs[i] := total;
      assert offs[..i + 1] == offs[..i] + [total];
      i := i + 1;
    }
    assert ns[..i - 1] == ns;
    assert offs[..i] == offs[..];
  }

  // ---------------------------------------------------------------------

  class ConcatFeatureMapper<R> {
    var mappers: array?<Child<R>>
    var offsets: array?<int>
    var numFeatures: int
    var normalizedCalled: bool
    var requiresMask: bool
    /** The children the constructor was given, zero-feature ones included. */
    ghost var featureMappers: seq<Child<R>>

    ghost predicate Valid()
      reads this, mappers, offsets
    {
      && (mappers == null <==> featureMappers == [])
      && (offsets == null <==> mappers == null)
      && (mappers == null ==> numFeatures == 0 && !requiresMask)
      && (mappers != null ==>
            && mappers[..] == Retained(featureMappers)
            && offsets.Length == mappers.Length + 1
            && offsets[..] == Offsets(Counts(mappers[..]))
            && numFeatures == Sum(Counts(mappers[..]))
            && requiresMask == AnyMask(mappers[..]))
    }

    /**
     * Keeps the children that have features, in order, and lays out their
     * offsets; with no child at all, nothing is allocated. Every kept child
     * must have the same number of dimensions.
     */
    constructor (children: seq<Child<R>>)
      requires forall i, j :: (0 <= i < |children| && 0 <= j < |children| && children[i].count > 0 &&
                 children[j].count > 0) ==> children[i].dims == children[j].dims
      ensures Valid() && featureMappers == children && !normalizedCalled
      ensures mappers != null ==> fresh(mappers) && fresh(offsets)
    {
      featureMappers := children;
      normalizedCalled := false;
      if |children| == 0 {
        numFeatures := 0;
        requiresMask := false;
        mappers := null;
        offsets := null;
      } else {
        var ms, mask := KeepWithFeatures(children);
        var offs, total := LayOutOffsets(ms);
        numFeatures := total;
        requiresMask := mask;
        mappers := ms;
        offsets := offs;
      }
    }

    /** numberOfFeatures: the sum of the children's counts (zeros add nothing). */
    function NumberOfFeatures(): (n: int)
      reads this, mappers, offsets
      requires Valid()
      ensures n == Sum(Counts(featureMappers))
      ensures featureMappers == [] ==> n == 0
    {
      RetainedSum(featureMappers);
      numFeatures
    }

    /** hasMask: some child that has features requires a mask. */
    function HasMask(): (b: bool)
      reads this, mappers, offsets
      requires Valid()
      ensures b <==> exists k :: 0 <= k < |featureMappers| && featureMappers[k].count > 0 && featureMappers[k].mask
    {
      if mappers != null then RetainedMask(featureMappers); requiresMask else requiresMask
    }

    /**
     * prepareToNormalize: asks every kept child, in order, to prepare for the
     * record, then records that it ran. A child's preparation only refreshes
     * the child's own per-record state, which this model folds into the values
     * the child produces, so the loop stands for those calls and returns the
     * indices of the children it reached. A mapper built with no child has no
     * array to iterate over: the call fails with a NullPointerException.
     */
    method PrepareToNormalize(record: R, indexOfRecord: int) returns (r: Result<seq<int>>)
      requires Valid()
      modifies this`normalizedCalled
      ensures Valid()
      ensures r.Fail? <==> mappers == null
      ensures r.Fail? ==> r.error.NullPointer? && normalizedCalled == old(normalizedCalled)
      ensures r.Ok? ==> normalizedCalled && r.value == seq(mappers.Length, k => k)
    {
      if mappers == null {
        return Fail(NullPointer("mappers"));
      }
      var delegated := [];
      var k := 0;
      while k < mappers.Length
        invariant 0 <= k <= mappers.Length
        invariant delegated == seq(k, i => i)
      {
        delegated := delegated + [k];
        k := k + 1;
      }
      normalizedCalled := true;
      r := Ok(delegated);
    }

    /** produceFeature: dispatch through the binary-search floor of the offset table. */
    method ProduceFeature(record: R, featureIndex: int) returns (v: real)
      requires Valid() && 0 <= featureIndex < numFeatures
      ensures mappers != null
      ensures v == ConcatProduce(mappers[..], record, featureIndex)
      ensures exists k :: 0 <= k < mappers.Length && offsets[k] <= featureIndex < offsets[k + 1]
                && v == mappers[k].produce(record, featureIndex - offsets[k])
    {
      var indexOfDelegate := FloorSearch(offsets, Counts(mappers[..]), featureIndex);
      v := mappers[indexOfDelegate].produce(record, featureIndex - offsets[indexOfDelegate]);
    }

    /** isMasked: false straight away when no child requires a mask. */
    method IsMasked(record: R, featureIndex: int) returns (b: bool)
      requires Valid()
      requires requiresMask ==> 0 <= featureIndex < numFeatures
      ensures !requiresMask ==> !b
      ensures requiresMask ==> mappers != null && b == ConcatMasked(mappers[..], record, featureIndex)
    {
      if !requiresMask {
        return false;
      }
      var indexOfDelegate := FloorSearch(offsets, Counts(mappers[..]), featureIndex);
      b := mappers[indexOfDelegate].masked(record, featureIndex - offsets[indexOfDelegate]);
    }

    /**
     * mapFeatures: row indexOfRecord, column offsets[k] + j, receives slot j
     * of kept child k (see ConcatProduceAt); no other cell changes. A mapper
     * built with no child fails with a NullPointerException and writes nothing.
     */
    method MapFeatures(record: R, inputs: array2<real>, indexOfRecord: int) returns (res: Result<()>)
      requires Valid() && normalizedCalled
      requires 0 <= indexOfRecord < inputs.Length0 && numFeatures <= inputs.Length1
      modifies inputs
      ensures res.Fail? <==> mappers == null
      ensures res.Fail? ==> res.error.NullPointer?
      ensures res.Ok? ==> forall c :: 0 <= c < numFeatures ==>
                inputs[indexOfRecord, c] == ConcatProduce(mappers[..], record, c)
      ensures forall r, c :: 0 <= r < inputs.Length0 && r != indexOfRecord && 0 <= c < inputs.Length1 ==> inputs[r, c] == old(inputs[r, c])
      ensures forall c :: numFeatures <= c < inputs.Length1 ==> inputs[indexOfRecord, c] == old(inputs[indexOfRecord, c])
    {
      if mappers == null {
        return Fail(NullPointer("mappers"));
      }
      FillConcat(mappers[..], inputs, indexOfRecord, (delegate: Child<R>, j) => delegate.produce(record, j));
      res := Ok(());
    }

    /**
     * maskFeatures: writes nothing unless some child requires a mask;
     * otherwise 1 or 0 per slot, by the owning child's isMasked.
     */
    method MaskFeatures(record: R, mask: array2<real>, indexOfRecord: int)
      requires Valid()
      requires requiresMask ==> 0 <= indexOfRecord < mask.Length0 && numFeatures <= mask.Length1
      modifies mask
      ensures !requiresMask ==> forall r, c :: 0 <= r < mask.Length0 && 0 <= c < mask.Length1 ==>
                mask[r, c] == old(mask[r, c])
      ensures requiresMask ==> mappers != null && forall c :: 0 <= c < numFeatures ==>
                mask[indexOfRecord, c] == if ConcatMasked(mappers[..], record, c) then 1.0 else 0.0
      ensures forall r, c :: 0 <= r < mask.Length0 && r != indexOfRecord && 0 <= c < mask.Length1 ==> mask[r, c] == old(mask[r, c])
      ensures requiresMask ==> forall c :: numFeatures <= c < mask.Length1 ==> mask[indexOfRecord, c] == old(mask[indexOfRecord, c])
    {
      if requiresMask {
        FillConcat(mappers[..], mask, indexOfRecord,
                   (delegate: Child<R>, j) => if delegate.masked(record, j) then 1.0 else 0.0);
      }
    }
  }

  /** Which kept child serves global slot g, and at which of its own slots. */
  function Owner<R>(ms: seq<Child<R>>, g: int): (kj: (nat, nat))
    requires 0 <= g < Sum(Counts(ms))
    ensures kj.0 < |ms| && kj.1 < ms[kj.0].count
    ensures g == Offsets(Counts(ms))[kj.0] + kj.1
  {
    var k := LinearOwner(Counts(ms), g);
    OffsetsStep(Counts(ms), k);
    (k, g - Offsets(Counts(ms))[k])
  }

  /**
   * The loops shared by mapFeatures and maskFeatures: for each kept child in
   * turn, its slots 0 .. count - 1 go to the next columns of the row, the
   * value of slot j being cell(child, j). No other cell changes.
   */
  method FillConcat<R>(ms: seq<Child<R>>, a: array2<real>, row: int, cell: (Child<R>, int) -> real)
    requires 0 <= row < a.Length0 && Sum(Counts(ms)) <= a.Length1
    modifies a
    ensures forall c :: 0 <= c < Sum(Counts(ms)) ==> a[row, c] == cell(ms[Owner(ms, c).0], Owner(ms, c).1)
    ensures forall r, c :: 0 <= r < a.Length0 && r != row && 0 <= c < a.Length1 ==> a[r, c] == old(a[r, c])
    ensures forall c :: Sum(Counts(ms)) <= c < a.Length1 ==> a[row, c] == old(a[row, c])
  {
    var ns := Counts(ms);
    var offset := 0;
    var k := 0;
    while k < |ms|
      invariant 0 <= k <= |ms| && offset == Offsets(ns)[k] <= Sum(ns)
      invariant forall c :: 0 <= c < offset ==> a[row, c] == cell(ms[Owner(ms, c).0], Owner(ms, c).1)
      invariant forall r, c :: 0 <= r < a.Length0 && r != row && 0 <= c < a.Length1 ==> a[r, c] == old(a[r, c])
      invariant forall c :: offset <= c < a.Length1 ==> a[row, c] == old(a[row, c])
    {
      var delegate := ms[k];
      var delNumFeatures := delegate.count;
      assert ns[k] == delNumFeatures;
      OffsetsStep(ns, k);
      OffsetsMonotone(ns, k + 1, |ns|);
      FillRow(a, row, offset, delNumFeatures, j => cell(delegate, j));
      forall c | offset <= c < offset + delNumFeatures
        ensures a[row, c] == cell(ms[Owner(ms, c).0], Owner(ms, c).1)
      {
        OwnerUnique(ns, c, k);
      }
      offset := offset + delNumFeatures;
      k := k + 1;
    }
  }

  /**
   * The inner loop of mapFeatures and maskFeatures: cells from .. from + n - 1
   * of one row receive f(0) .. f(n - 1); no other cell changes.
   */
  method FillRow(a: array2<real>, row: int, from: int, n: int, f: int -> real)
    requires 0 <= row < a.Length0 && 0 <= from && 0 <= n && from + n <= a.Length1
    modifies a
    ensures forall c :: from <= c < from + n ==> a[row, c] == f(c - from)
    ensures forall r, c :: 0 <= r < a.Length0 && r != row && 0 <= c < a.Length1 ==> a[r, c] == old(a[r, c])
    ensures forall c :: (0 <= c < from || from + n <= c < a.Length1) ==> a[row, c] == old(a[row, c])
  {
    var j := 0;
    while j < n
      invariant 0 <= j <= n
      invariant forall c :: from <= c < from + j ==> a[row, c] == f(c - from)
      invariant forall r, c :: 0 <= r < a.Length0 && r != row && 0 <= c < a.Length1 ==> a[r, c] == old(a[r, c])
      invariant forall c :: (0 <= c < from || from + j <= c < a.Length1) ==> a[row, c] == old(a[row, c])
    {
      a[row, j + from] := f(j);
      j := j + 1;
    }
  }
}
