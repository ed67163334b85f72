/**
 * GenotypeMapperV38 and GenotypeMapperV4: the feature mappers that turn a
 * base-information record into the network's input vector. configure lays
 * out arrays of single-purpose child mappers, one entry per genotype (and,
 * for counts and qualities, one per genotype and strand), and wires them into
 * a fixed composition tree; the other methods forward to that tree.
 *
 * The tree is kept as a value (MapperSpec) that names every child mapper
 * with its constructor arguments. What a child computes on a record is not
 * part of this model: a mapper instance is given a function `mappers` from
 * a tree to the feature mapper it denotes.
 */
module GenotypeMappers {
  import opened JavaLang
  import opened Records
  import FeatureMappers
  import GenotypeDomain

  type Properties = map<string, string>

  const PLOIDY_PROPERTY: string := "genotypes.ploidy"
  const CONTEXT_SIZE_PROPERTY: string := "stats.genomicContextSize.min"

  // The names the density mappers give their features.
  const READ_MAPPING_QUALITY_FORWARD: string := "readMappingQuality.forward"
  const READ_MAPPING_QUALITY_REVERSE: string := "readMappingQuality.reverse"
  const BASE_QUALITY_FORWARD: string := "baseQuality.forward"
  const BASE_QUALITY_REVERSE: string := "baseQuality.reverse"
  const QUERY_POSITION: string := "queryPosition"
  const NUM_VARIATIONS_IN_READ: string := "numVariationsInRead"
  const DISTANCES_TO_VARIATIONS_FORWARD: string := "distancesToReadVariations.forward"
  const DISTANCES_TO_VARIATIONS_REVERSE: string := "distancesToReadVariations.reverse"
  const DISTANCE_TO_START: string := "distanceToStartOfRead"
  const DISTANCE_TO_END: string := "distanceToEndOfRead"
  const TARGET_ALIGNED_LENGTH: string := "targetAlignedLength"
  const QUERY_ALIGNED_LENGTH: string := "queryAlignedLength"

  /**
   * Which sample a traversal lambda reads. The lambdas written inside
   * configure read the mapper's own sampleIndex field when they run
   * (OwnerField); Captured(i) is that reference once the field is known.
   */
  datatype SampleRef = Captured(index: int) | OwnerField

  /** The per-read lists of a CountInfo that a density mapper can traverse. */
  datatype CountList =
    | QueryPositions
    | NumVariationsInReads
    | DistancesToReadVariationsForward
    | DistancesToReadVariationsReverse
    | DistanceToStartOfRead
    | DistanceToEndOfRead
    | ReadMappingQualityForward
    | ReadMappingQualityReverse
    | QualityScoresForward
    | QualityScoresReverse
    | TargetAlignedLengths
    | QueryAlignedLengths

  /** The strand a list is restricted to: Some(true) forward, Some(false) reverse. */
  function StrandOf(l: CountList): Option<bool> {
    match l
    case DistancesToReadVariationsForward => Some(true)
    case ReadMappingQualityForward => Some(true)
    case QualityScoresForward => Some(true)
    case DistancesToReadVariationsReverse => Some(false)
    case ReadMappingQualityReverse => Some(false)
    case QualityScoresReverse => Some(false)
    case _ => None
  }

  /** The TraversalHelper call a density mapper's lambda makes. */
  datatype Traversal =
    | OneSampleGenotype(sample: SampleRef, genotypeIndex: int, list: CountList)
    | OneSampleGenotypeBothStrands(sample: SampleRef, genotypeIndex: int,
                                   forwardList: CountList, reverseList: CountList)
    | SampleCounts(sample: SampleRef, list: CountList)
    | AllSampleCounts(list: CountList)

  /** A feature mapper, by the class that implements it and its constructor arguments. */
  datatype MapperSpec =
    | SingleGenotypeCount(sampleIndex: int, genotypeIndex: int, forwardStrand: bool)
    | SingleReadIndexCount(sampleIndex: int, genotypeIndex: int, forwardStrand: bool)
    | MatchesReference(sampleIndex: int, genotypeIndex: int)
    | BamFlag(sampleIndex: int, genotypeIndex: int)
    | OriginalGobyCountIndex(sampleIndex: int, genotypeIndex: int)
    | Density(name: string, numBins: int, properties: Properties, traversal: Traversal)
    | DensityCapped(names: seq<string>, minValue: int, maxValue: int,
                    properties: Properties, traversal: Traversal)
    | GenomicContext(properties: Properties)
    | NamingConcat(children: seq<MapperSpec>)
    | InverseNormalization(inner: MapperSpec)
    | CeilingNormalization(inner: MapperSpec, ceiling: int)
    | MaxNormalization(inner: MapperSpec)
    | CountReordering(sampleIndex: int, inner: MapperSpec)

  // ---------------------------------------------------------------------
  // What a child mapper targets.

  function TraversalGenotype(t: Traversal): Option<int> {
    match t
    case OneSampleGenotype(_, g, _) => Some(g)
    case OneSampleGenotypeBothStrands(_, g, _, _) => Some(g)
    case _ => None
  }

  /** The genotype slot a leaf mapper reads, if it reads only one. */
  function TargetGenotype(m: MapperSpec): Option<int> {
    match m
    case SingleGenotypeCount(_, g, _) => Some(g)
    case SingleReadIndexCount(_, g, _) => Some(g)
    case MatchesReference(_, g) => Some(g)
    case BamFlag(_, g) => Some(g)
    case OriginalGobyCountIndex(_, g) => Some(g)
    case Density(_, _, _, t) => TraversalGenotype(t)
    case DensityCapped(_, _, _, _, t) => TraversalGenotype(t)
    case _ => None
  }

  /** The strand a leaf mapper reads, if it reads only one. */
  function TargetStrand(m: MapperSpec): Option<bool> {
    match m
    case SingleGenotypeCount(_, _, f) => Some(f)
    case SingleReadIndexCount(_, _, f) => Some(f)
    case Density(_, _, _, OneSampleGenotype(_, _, l)) => StrandOf(l)
    case _ => None
  }

  // ---------------------------------------------------------------------
  // Which sample a child mapper reads.

  function TraversalSample(t: Traversal): Option<SampleRef> {
    if t.AllSampleCounts? then None else Some(t.sample)
  }

  /**
   * The sample a leaf mapper reads: the index its constructor captured, or
   * the reference its traversal lambda makes; None for mappers that read no
   * single sample.
   */
  function SampleOf(m: MapperSpec): Option<SampleRef> {
    match m
    case SingleGenotypeCount(s, _, _) => Some(Captured(s))
    case SingleReadIndexCount(s, _, _) => Some(Captured(s))
    case MatchesReference(s, _) => Some(Captured(s))
    case BamFlag(s, _) => Some(Captured(s))
    case OriginalGobyCountIndex(s, _) => Some(Captured(s))
    case Density(_, _, _, t) => TraversalSample(t)
    case DensityCapped(_, _, _, _, t) => TraversalSample(t)
    case _ => None
  }

  function ResolveTraversal(t: Traversal, owner: int): (r: Traversal)
    ensures TraversalSample(r) == if TraversalSample(t) == Some(OwnerField) then Some(Captured(owner)) else TraversalSample(t)
    ensures TraversalGenotype(r) == TraversalGenotype(t)
  {
    match t
    case OneSampleGenotype(s, g, l) =>
      OneSampleGenotype(if s.OwnerField? then Captured(owner) else s, g, l)
    case OneSampleGenotypeBothStrands(s, g, f, b) =>
      OneSampleGenotypeBothStrands(if s.OwnerField? then Captured(owner) else s, g, f, b)
    case SampleCounts(s, l) =>
      SampleCounts(if s.OwnerField? then Captured(owner) else s, l)
    case AllSampleCounts(_) => t
  }

  /**
   * The tree a record meets when the owner's sampleIndex field holds
   * `owner`: every lambda reading the field reads `owner`, every index a
   * constructor captured stays as it was, and nothing else changes.
   */
  function Resolve(m: MapperSpec, owner: int): (r: MapperSpec)
    ensures SampleOf(r) == if SampleOf(m) == Some(OwnerField) then Some(Captured(owner)) else SampleOf(m)
    ensures TargetGenotype(r) == TargetGenotype(m)
    ensures TargetStrand(r) == TargetStrand(m)
    decreases m, 1
  {
    match m
    case Density(n, b, p, t) => Density(n, b, p, ResolveTraversal(t, owner))
    case DensityCapped(ns, lo, hi, p, t) => DensityCapped(ns, lo, hi, p, ResolveTraversal(t, owner))
    case NamingConcat(cs) => NamingConcat(ResolveEach(cs, owner))
    case InverseNormalization(i) => InverseNormalization(Resolve(i, owner))
    case CeilingNormalization(i, c) => CeilingNormalization(Resolve(i, owner), c)
    case MaxNormalization(i) => MaxNormalization(Resolve(i, owner))
    case CountReordering(s, i) => CountReordering(s, Resolve(i, owner))
    case _ => m
  }

  /** Resolve, child by child. */
  function ResolveEach(cs: seq<MapperSpec>, owner: int): (rs: seq<MapperSpec>)
    ensures |rs| == |cs|
    decreases cs, 0
  {
    seq(|cs|, i requires 0 <= i < |cs| => Resolve(cs[i], owner))
  }

  // ---------------------------------------------------------------------
  // The mapper arrays configure fills.

  /** The arrays with one slot per genotype and strand. */
  datatype StrandedKind = GenotypeCounts | ReadIndexCounts | ReadMappingQualities | BaseQualities

  /** The arrays with one slot per genotype. */
  datatype GenotypeKind =
    | MatchesRefs
    | QueryPositionDensities
    | NumVariationsDensities
    | DistancesToVariations
    | DistancesFromStart
    | DistancesFromEnd
    | TargetAlignedLengthDensities
    | QueryAlignedLengthDensities
    | BamFlags
    | OriginalGobyIndices

  /** The mapper for genotype g on one strand, for sample s. */
  function StrandedEntry(kind: StrandedKind, s: int, props: Properties, g: int, forward: bool): MapperSpec {
    match kind
    case GenotypeCounts => SingleGenotypeCount(s, g, forward)
    case ReadIndexCounts => SingleReadIndexCount(s, g, forward)
    case ReadMappingQualities =>
      if forward
      then Density(READ_MAPPING_QUALITY_FORWARD, 10, props, OneSampleGenotype(OwnerField, g, ReadMappingQualityForward))
      else Density(READ_MAPPING_QUALITY_REVERSE, 10, props, OneSampleGenotype(OwnerField, g, ReadMappingQualityReverse))
    case BaseQualities =>
      if forward
      then Density(BASE_QUALITY_FORWARD, 10, props, OneSampleGenotype(OwnerField, g, QualityScoresForward))
      else Density(BASE_QUALITY_REVERSE, 10, props, OneSampleGenotype(OwnerField, g, QualityScoresReverse))
  }

  /**
   * Slots 0 .. n - 1 of a per-strand array of 2 * max slots, in the order
   * the two loops of configure fill them.
   */
  function StrandedColumn(kind: StrandedKind, s: int, props: Properties, max: int, n: nat): (col: seq<MapperSpec>)
    ensures |col| == n
  {
    if n == 0 then []
    else
      var i := n - 1;
      StrandedColumn(kind, s, props, max, i) +
        [if i < max then StrandedEntry(kind, s, props, i, true) else StrandedEntry(kind, s, props, i - max, false)]
  }

  /** The mapper for genotype g, for sample s and genomic context length ctx. */
  function GenotypeEntry(kind: GenotypeKind, s: int, props: Properties, ctx: int, g: int): MapperSpec {
    match kind
    case MatchesRefs => MatchesReference(s, g)
    case QueryPositionDensities =>
      Density(QUERY_POSITION, 10, props, OneSampleGenotype(OwnerField, g, QueryPositions))
    case NumVariationsDensities =>
      Density(NUM_VARIATIONS_IN_READ, 10, props, OneSampleGenotype(OwnerField, g, NumVariationsInReads))
    case DistancesToVariations =>
      DensityCapped([DISTANCES_TO_VARIATIONS_FORWARD, DISTANCES_TO_VARIATIONS_REVERSE], -50, 50, props,
                    OneSampleGenotypeBothStrands(OwnerField, g, DistancesToReadVariationsForward, DistancesToReadVariationsReverse))
    case DistancesFromStart =>
      DensityCapped([DISTANCE_TO_START], 0, JavaDiv(ctx, 2), props, OneSampleGenotype(OwnerField, g, DistanceToStartOfRead))
    case DistancesFromEnd =>
      DensityCapped([DISTANCE_TO_END], 0, JavaDiv(ctx, 2), props, OneSampleGenotype(OwnerField, g, DistanceToEndOfRead))
    case TargetAlignedLengthDensities =>
      Density(TARGET_ALIGNED_LENGTH, 10, props, OneSampleGenotype(OwnerField, g, TargetAlignedLengths))
    case QueryAlignedLengthDensities =>
      Density(QUERY_ALIGNED_LENGTH, 10, props, OneSampleGenotype(OwnerField, g, QueryAlignedLengths))
    case BamFlags => BamFlag(s, g)
    case OriginalGobyIndices => OriginalGobyCountIndex(s, g)
  }

  /** Slots 0 .. n - 1 of a per-genotype array, as the first loop of configure fills them. */
  function GenotypeColumn(kind: GenotypeKind, s: int, props: Properties, ctx: int, n: nat): (col: seq<MapperSpec>)
    ensures |col| == n
  {
    if n == 0 then [] else GenotypeColumn(kind, s, props, ctx, n - 1) + [GenotypeEntry(kind, s, props, ctx, n - 1)]
  }

  /** Slot i of a per-strand array holds the mapper the two loops put there. */
  lemma {:induction false} StrandedColumnAt(kind: StrandedKind, s: int, props: Properties, max: int, n: nat)
    ensures forall i :: 0 <= i < n ==>
              StrandedColumn(kind, s, props, max, n)[i] == StrandedEntry(kind, s, props, if i < max then i else i - max, i < max)
  {
    if n > 0 {
      var col, prev := StrandedColumn(kind, s, props, max, n), StrandedColumn(kind, s, props, max, n - 1);
      StrandedColumnAt(kind, s, props, max, n - 1);
      forall i | 0 <= i < n - 1
        ensures col[i] == prev[i]
      {
      }
    }
  }

  /** Slot i of a per-genotype array holds the mapper for genotype i. */
  lemma {:induction false} GenotypeColumnAt(kind: GenotypeKind, s: int, props: Properties, ctx: int, n: nat)
    ensures forall i :: 0 <= i < n ==> GenotypeColumn(kind, s, props, ctx, n)[i] == GenotypeEntry(kind, s, props, ctx, i)
  {
    if n > 0 {
      var col, prev := GenotypeColumn(kind, s, props, ctx, n), GenotypeColumn(kind, s, props, ctx, n - 1);
      GenotypeColumnAt(kind, s, props, ctx, n - 1);
      forall i | 0 <= i < n - 1
        ensures col[i] == prev[i]
      {
      }
    }
  }

  lemma StrandedEntryTarget(kind: StrandedKind, s: int, props: Properties, g: int, forward: bool)
    ensures TargetGenotype(StrandedEntry(kind, s, props, g, forward)) == Some(g)
    ensures TargetStrand(StrandedEntry(kind, s, props, g, forward)) == Some(forward)
  {
  }

  lemma GenotypeEntryTarget(kind: GenotypeKind, s: int, props: Properties, ctx: int, g: int)
    ensures TargetGenotype(GenotypeEntry(kind, s, props, ctx, g)) == Some(g)
  {
  }

  /**
   * The per-strand arrays: slot i < max is the forward-strand mapper for
   * genotype i, slot max + g the reverse-strand mapper for genotype g.
   */
  lemma StrandedLayout(kind: StrandedKind, s: int, props: Properties, max: nat, n: nat)
    requires n <= 2 * max
    ensures forall i :: 0 <= i < n ==>
              TargetGenotype(StrandedColumn(kind, s, props, max, n)[i]) == Some(if i < max then i else i - max)
    ensures forall i :: 0 <= i < n ==>
              TargetStrand(StrandedColumn(kind, s, props, max, n)[i]) == Some(i < max)
  {
    StrandedColumnAt(kind, s, props, max, n);
    forall i | 0 <= i < n
      ensures TargetGenotype(StrandedColumn(kind, s, props, max, n)[i]) == Some(if i < max then i else i - max)
      ensures TargetStrand(StrandedColumn(kind, s, props, max, n)[i]) == Some(i < max)
    {
      StrandedEntryTarget(kind, s, props, if i < max then i else i - max, i < max);
    }
  }

  /** The per-genotype arrays: slot i is the mapper for genotype i. */
  lemma GenotypeLayout(kind: GenotypeKind, s: int, props: Properties, ctx: int, n: nat)
    ensures forall i :: 0 <= i < n ==> TargetGenotype(GenotypeColumn(kind, s, props, ctx, n)[i]) == Some(i)
  {
    GenotypeColumnAt(kind, s, props, ctx, n);
    forall i | 0 <= i < n
      ensures TargetGenotype(GenotypeColumn(kind, s, props, ctx, n)[i]) == Some(i)
    {
      GenotypeEntryTarget(kind, s, props, ctx, i);
    }
  }

  /** The per-genotype arrays whose mappers read the sample through a lambda. */
  predicate ReadsField(kind: GenotypeKind) {
    !(kind == MatchesRefs || kind == BamFlags || kind == OriginalGobyIndices)
  }

  /** The per-strand arrays whose mappers read the sample through a lambda. */
  predicate StrandedReadsField(kind: StrandedKind) {
    kind == ReadMappingQualities || kind == BaseQualities
  }

  /**
   * The sample the mappers of a per-genotype array read: the constructed
   * ones capture s; the densities' lambdas read the owner's field.
   */
  lemma {:induction false} GenotypeColumnSample(kind: GenotypeKind, s: int, props: Properties, ctx: int, n: nat)
    ensures forall i :: 0 <= i < n ==>
              SampleOf(GenotypeColumn(kind, s, props, ctx, n)[i]) == Some(if ReadsField(kind) then OwnerField else Captured(s))
  {
    if n > 0 {
      GenotypeColumnSample(kind, s, props, ctx, n - 1);
    }
  }

  /** The same for the per-strand arrays. */
  lemma {:induction false} StrandedColumnSample(kind: StrandedKind, s: int, props: Properties, max: int, n: nat)
    ensures forall i :: 0 <= i < n ==>
              SampleOf(StrandedColumn(kind, s, props, max, n)[i]) == Some(if StrandedReadsField(kind) then OwnerField else Captured(s))
  {
    if n > 0 {
      StrandedColumnSample(kind, s, props, max, n - 1);
    }
  }

  /**
   * What a record meets once the owner's field holds t (after
   * setSampleIndex(t)) in a per-genotype array configured for sample s: the
   * constructed mappers still read s, the densities read t.
   */
  lemma GenotypeColumnAfterSetSampleIndex(kind: GenotypeKind, s: int, props: Properties, ctx: int, n: nat, t: int)
    ensures forall i :: 0 <= i < n ==>
              SampleOf(ResolveEach(GenotypeColumn(kind, s, props, ctx, n), t)[i]) == Some(Captured(if ReadsField(kind) then t else s))
    ensures forall i :: 0 <= i < n ==>
              TargetGenotype(ResolveEach(GenotypeColumn(kind, s, props, ctx, n), t)[i]) == Some(i)
  {
    GenotypeColumnSample(kind, s, props, ctx, n);
    GenotypeLayout(kind, s, props, ctx, n);
  }

  /** The same for the per-strand arrays. */
  lemma StrandedColumnAfterSetSampleIndex(kind: StrandedKind, s: int, props: Properties, max: nat, t: int)
    ensures forall i :: 0 <= i < 2 * max ==>
              SampleOf(ResolveEach(StrandedColumn(kind, s, props, max, 2 * max), t)[i])
                == Some(Captured(if StrandedReadsField(kind) then t else s))
    ensures forall i :: 0 <= i < 2 * max ==>
              TargetGenotype(ResolveEach(StrandedColumn(kind, s, props, max, 2 * max), t)[i])
                == Some(if i < max then i else i - max)
  {
    StrandedColumnSample(kind, s, props, max, 2 * max);
    StrandedLayout(kind, s, props, max, 2 * max);
  }

  // ---------------------------------------------------------------------
  // The property reads of GenotypeMapperV38.configure.

  /**
   * MAX_GENOTYPES after configure: 3 without a ploidy property, ploidy + 1
   * (in int arithmetic) with one, NumberFormatException when it does not parse.
   */
  function ConfiguredMaxGenotypes(props: Properties): (r: Result<int>)
    ensures PLOIDY_PROPERTY !in props ==> r == Ok(3)
    ensures r.Ok? ==> IsInt32(r.value)
    ensures PLOIDY_PROPERTY in props && ParseInt(props[PLOIDY_PROPERTY]).None? ==> r.Fail? && r.error.NumberFormat?
  {
    if PLOIDY_PROPERTY !in props then Ok(3)
    else
      match ParseInt(props[PLOIDY_PROPERTY])
      case None => Fail(NumberFormat("For input string: \"" + props[PLOIDY_PROPERTY] + "\""))
      case Some(p) => Ok(Wrap32(p + 1))
  }

  /**
   * The genomic context length: the int truncation of the float property;
   * a missing property makes Float.parseFloat throw NullPointerException.
   * `floatToInt` is Float.parseFloat followed by the int cast (None when
   * parseFloat throws).
   */
  function ContextLength(props: Properties, floatToInt: string -> Option<int>): (r: Result<int>)
    ensures CONTEXT_SIZE_PROPERTY !in props ==> r.Fail? && r.error.NullPointer?
    ensures CONTEXT_SIZE_PROPERTY in props ==>
              (r.Ok? <==> floatToInt(props[CONTEXT_SIZE_PROPERTY]).Some?)
    ensures r.Ok? ==> r.value == floatToInt(props[CONTEXT_SIZE_PROPERTY]).value
  {
    if CONTEXT_SIZE_PROPERTY !in props then Fail(NullPointer("property must exist: " + CONTEXT_SIZE_PROPERTY))
    else
      match floatToInt(props[CONTEXT_SIZE_PROPERTY])
      case None => Fail(NumberFormat(props[CONTEXT_SIZE_PROPERTY]))
      case Some(l) => Ok(l)
  }

  /** Both `new FeatureNameMapper[MAX]` and `new FeatureNameMapper[MAX * 2]` succeed. */
  predicate ArraysAllocatable(max: int) {
    max >= 0 && Wrap32(max * 2) >= 0
  }

  /** When the arrays can be allocated, MAX * 2 does not overflow. */
  lemma AllocatableFits(max: int)
    requires IsInt32(max) && ArraysAllocatable(max)
    ensures max * 2 <= INT_MAX && Wrap32(max * 2) == max * 2
  {
  }

  /**
   * A ploidy written by the genotype domain descriptor configures
   * ploidy + 1 genotype slots.
   */
  lemma PloidyFromDescriptor(d: GenotypeDomain.GenotypeDomainDescriptor, props: Properties)
    requires IsInt32(d.ploidy) && d.ploidy < INT_MAX
    ensures ConfiguredMaxGenotypes(d.PutProperties(props)) == Ok(d.ploidy + 1)
  {
    d.PloidyRoundTrip(props);
  }

  /** The local mapper arrays of GenotypeMapperV38.configure. */
  datatype V38Arrays = V38Arrays(
    matchesRef: seq<MapperSpec>,
    counts: seq<MapperSpec>,
    readIndex: seq<MapperSpec>,
    readMappingQuality: seq<MapperSpec>,
    baseQuality: seq<MapperSpec>,
    numVariationsInRead: seq<MapperSpec>,
    targetAlignedLength: seq<MapperSpec>,
    queryAlignedLength: seq<MapperSpec>,
    distancesToReadVariations: seq<MapperSpec>,
    distancesFromStartOfRead: seq<MapperSpec>,
    distancesFromEndOfRead: seq<MapperSpec>,
    bamFlag: seq<MapperSpec>,
    originalGobyCountIndex: seq<MapperSpec>,
    queryPositions: seq<MapperSpec>)

  /** The arrays after the first loop has run g times and the second loop st - max times. */
  function V38Filled(s: int, props: Properties, ctx: int, max: int, g: nat, st: nat): V38Arrays {
    V38Arrays(
      GenotypeColumn(MatchesRefs, s, props, ctx, g),
      StrandedColumn(GenotypeCounts, s, props, max, st),
      StrandedColumn(ReadIndexCounts, s, props, max, st),
      StrandedColumn(ReadMappingQualities, s, props, max, st),
      StrandedColumn(BaseQualities, s, props, max, st),
      GenotypeColumn(NumVariationsDensities, s, props, ctx, g),
      GenotypeColumn(TargetAlignedLengthDensities, s, props, ctx, g),
      GenotypeColumn(QueryAlignedLengthDensities, s, props, ctx, g),
      GenotypeColumn(DistancesToVariations, s, props, ctx, g),
      GenotypeColumn(DistancesFromStart, s, props, ctx, g),
      GenotypeColumn(DistancesFromEnd, s, props, ctx, g),
      GenotypeColumn(BamFlags, s, props, ctx, g),
      GenotypeColumn(OriginalGobyIndices, s, props, ctx, g),
      GenotypeColumn(QueryPositionDensities, s, props, ctx, g))
  }

  /** The arrays once both loops of configure have run, for max genotype slots. */
  function V38Columns(s: int, props: Properties, ctx: int, max: nat): V38Arrays {
    V38Filled(s, props, ctx, max, max, 2 * max)
  }

  /** The composition tree GenotypeMapperV38.configure wires around its arrays. */
  function V38Tree(s: int, props: Properties, a: V38Arrays): MapperSpec {
    CountReordering(s, NamingConcat([
      NamingConcat(a.matchesRef),
      NamingConcat(a.originalGobyCountIndex),
      InverseNormalization(NamingConcat(a.counts)),
      CeilingNormalization(NamingConcat(a.counts), 30),
      InverseNormalization(NamingConcat(a.readIndex)),
      GenomicContext(props),
      NamingConcat(a.targetAlignedLength),
      NamingConcat(a.queryAlignedLength),
      NamingConcat(a.queryPositions),
      Density(NUM_VARIATIONS_IN_READ, 10, props, AllSampleCounts(NumVariationsInReads)),
      NamingConcat(a.distancesToReadVariations),
      NamingConcat(a.distancesFromStartOfRead),
      NamingConcat(a.distancesFromEndOfRead),
      NamingConcat(a.numVariationsInRead),
      NamingConcat(a.readMappingQuality),
      NamingConcat(a.baseQuality),
      NamingConcat(a.bamFlag)
    ]))
  }

  /** The composition tree of GenotypeMapperV38 for sample s. */
  function V38Delegate(s: int, props: Properties, ctx: int, max: nat): MapperSpec {
    V38Tree(s, props, V38Columns(s, props, ctx, max))
  }

  /** The composition tree GenotypeMapperV4.configure wires around its three arrays. */
  function V4Tree(s: int, props: Properties, matchesRef: seq<MapperSpec>, counts: seq<MapperSpec>,
                  readIndex: seq<MapperSpec>): MapperSpec {
    CountReordering(s, NamingConcat([
      NamingConcat(matchesRef),
      MaxNormalization(NamingConcat(counts)),
      MaxNormalization(NamingConcat(readIndex)),
      GenomicContext(props),
      Density(NUM_VARIATIONS_IN_READ, 20, props, SampleCounts(OwnerField, NumVariationsInReads)),
      Density(READ_MAPPING_QUALITY_FORWARD, 10, props, SampleCounts(OwnerField, ReadMappingQualityForward)),
      Density(READ_MAPPING_QUALITY_REVERSE, 10, props, SampleCounts(OwnerField, ReadMappingQualityReverse)),
      Density(BASE_QUALITY_FORWARD, 10, props, SampleCounts(OwnerField, QualityScoresForward)),
      Density(BASE_QUALITY_REVERSE, 10, props, SampleCounts(OwnerField, QualityScoresReverse))
    ]))
  }

  /** The composition tree of GenotypeMapperV4 for sample s: three genotypes, fixed. */
  function V4Delegate(s: int, props: Properties): MapperSpec {
    V4Tree(s, props, GenotypeColumn(MatchesRefs, s, props, 0, 3),
           StrandedColumn(GenotypeCounts, s, props, 3, 6), StrandedColumn(ReadIndexCounts, s, props, 3, 6))
  }

  /**
   * The three arrays of GenotypeMapperV4: forward counts of genotypes 0 .. 2
   * in slots 0 .. 2, their reverse counts in slots 3 .. 5, one
   * matches-reference mapper per genotype, all bound to the sample index.
   */
  lemma V4Layout(s: int, props: Properties)
    ensures forall i :: 0 <= i < 6 ==>
              StrandedColumn(GenotypeCounts, s, props, 3, 6)[i] == SingleGenotypeCount(s, if i < 3 then i else i - 3, i < 3)
    ensures forall i :: 0 <= i < 6 ==>
              StrandedColumn(ReadIndexCounts, s, props, 3, 6)[i] == SingleReadIndexCount(s, if i < 3 then i else i - 3, i < 3)
    ensures forall i :: 0 <= i < 3 ==> GenotypeColumn(MatchesRefs, s, props, 0, 3)[i] == MatchesReference(s, i)
  {
    StrandedColumnAt(GenotypeCounts, s, props, 3, 6);
    StrandedColumnAt(ReadIndexCounts, s, props, 3, 6);
    GenotypeColumnAt(MatchesRefs, s, props, 0, 3);
  }

  /**
   * The per-strand arrays of GenotypeMapperV38: 2 * MAX slots each, slot
   * i < MAX for genotype i on the forward strand, slot MAX + g for genotype g
   * on the reverse strand.
   */
  lemma V38StrandedArrays(s: int, props: Properties, ctx: int, max: nat)
    ensures var a := V38Columns(s, props, ctx, max);
      |a.counts| == |a.readIndex| == |a.readMappingQuality| == |a.baseQuality| == 2 * max
    ensures var a := V38Columns(s, props, ctx, max);
      forall i :: 0 <= i < 2 * max ==>
        && a.counts[i] == SingleGenotypeCount(s, if i < max then i else i - max, i < max)
        && a.readIndex[i] == SingleReadIndexCount(s, if i < max then i else i - max, i < max)
    ensures var a := V38Columns(s, props, ctx, max);
      forall i :: 0 <= i < 2 * max ==>
        && TargetGenotype(a.readMappingQuality[i]) == Some(if i < max then i else i - max)
        && TargetStrand(a.readMappingQuality[i]) == Some(i < max)
        && TargetGenotype(a.baseQuality[i]) == Some(if i < max then i else i - max)
        && TargetStrand(a.baseQuality[i]) == Some(i < max)
  {
    StrandedColumnAt(GenotypeCounts, s, props, max, 2 * max);
    StrandedColumnAt(ReadIndexCounts, s, props, max, 2 * max);
    StrandedLayout(ReadMappingQualities, s, props, max, 2 * max);
    StrandedLayout(BaseQualities, s, props, max, 2 * max);
  }

  /** The per-genotype arrays of GenotypeMapperV38: MAX slots each, slot i for genotype i. */
  lemma V38GenotypeArrays(s: int, props: Properties, ctx: int, max: nat)
    ensures var a := V38Columns(s, props, ctx, max);
      forall i :: 0 <= i < max ==>
        && a.matchesRef[i] == MatchesReference(s, i)
        && a.bamFlag[i] == BamFlag(s, i)
        && a.originalGobyCountIndex[i] == OriginalGobyCountIndex(s, i)
    ensures var a := V38Columns(s, props, ctx, max);
      forall i :: 0 <= i < max ==>
        && TargetGenotype(a.numVariationsInRead[i]) == Some(i)
        && TargetGenotype(a.targetAlignedLength[i]) == Some(i)
        && TargetGenotype(a.queryAlignedLength[i]) == Some(i)
        && TargetGenotype(a.queryPositions[i]) == Some(i)
        && TargetGenotype(a.distancesToReadVariations[i]) == Some(i)
        && TargetGenotype(a.distancesFromStartOfRead[i]) == Some(i)
        && TargetGenotype(a.distancesFromEndOfRead[i]) == Some(i)
  {
    GenotypeColumnAt(MatchesRefs, s, props, ctx, max);
    GenotypeColumnAt(BamFlags, s, props, ctx, max);
    GenotypeColumnAt(OriginalGobyIndices, s, props, ctx, max);
    GenotypeLayout(NumVariationsDensities, s, props, ctx, max);
    GenotypeLayout(TargetAlignedLengthDensities, s, props, ctx, max);
    GenotypeLayout(QueryAlignedLengthDensities, s, props, ctx, max);
    GenotypeLayout(QueryPositionDensities, s, props, ctx, max);
    GenotypeLayout(DistancesToVariations, s, props, ctx, max);
    GenotypeLayout(DistancesFromStart, s, props, ctx, max);
    GenotypeLayout(DistancesFromEnd, s, props, ctx, max);
  }

  /**
   * The capped densities of GenotypeMapperV38: distances to read variations
   * in [-50, 50]; distances from either end of the read in [0, ctx / 2],
   * ctx / 2 truncated as Java does.
   */
  lemma V38DistanceCaps(s: int, props: Properties, ctx: int, max: nat)
    ensures var a := V38Columns(s, props, ctx, max);
      forall i :: 0 <= i < max ==>
        && a.distancesToReadVariations[i].DensityCapped?
        && a.distancesToReadVariations[i].minValue == -50
        && a.distancesToReadVariations[i].maxValue == 50
    ensures var a := V38Columns(s, props, ctx, max);
      forall i :: 0 <= i < max ==>
        && a.distancesFromStartOfRead[i].DensityCapped?
        && a.distancesFromStartOfRead[i].minValue == 0
        && a.distancesFromStartOfRead[i].maxValue == JavaDiv(ctx, 2)
        && a.distancesFromEndOfRead[i].DensityCapped?
        && a.distancesFromEndOfRead[i].minValue == 0
        && a.distancesFromEndOfRead[i].maxValue == JavaDiv(ctx, 2)
    ensures ctx >= 0 ==> JavaDiv(ctx, 2) == ctx / 2
    ensures ctx < 0 ==> JavaDiv(ctx, 2) == -((-ctx) / 2)
  {
    GenotypeColumnAt(DistancesToVariations, s, props, ctx, max);
    GenotypeColumnAt(DistancesFromStart, s, props, ctx, max);
    GenotypeColumnAt(DistancesFromEnd, s, props, ctx, max);
  }

  /** One pass of the body of the first loop of configure, for genotype g. */
  function FirstPassStep(a: V38Arrays, s: int, props: Properties, ctx: int, g: int): V38Arrays {
    a.(
      counts := a.counts + [SingleGenotypeCount(s, g, true)],
      readIndex := a.readIndex + [SingleReadIndexCount(s, g, true)],
      matchesRef := a.matchesRef + [MatchesReference(s, g)],
      queryPositions := a.queryPositions +
        [Density(QUERY_POSITION, 10, props, OneSampleGenotype(OwnerField, g, QueryPositions))],
      numVariationsInRead := a.numVariationsInRead +
        [Density(NUM_VARIATIONS_IN_READ, 10, props, OneSampleGenotype(OwnerField, g, NumVariationsInReads))],
      distancesToReadVariations := a.distancesToReadVariations +
        [DensityCapped([DISTANCES_TO_VARIATIONS_FORWARD, DISTANCES_TO_VARIATIONS_REVERSE], -50, 50, props,
                       OneSampleGenotypeBothStrands(OwnerField, g, DistancesToReadVariationsForward, DistancesToReadVariationsReverse))],
      distancesFromStartOfRead := a.distancesFromStartOfRead +
        [DensityCapped([DISTANCE_TO_START], 0, JavaDiv(ctx, 2), props, OneSampleGenotype(OwnerField, g, DistanceToStartOfRead))],
      distancesFromEndOfRead := a.distancesFromEndOfRead +
        [DensityCapped([DISTANCE_TO_END], 0, JavaDiv(ctx, 2), props, OneSampleGenotype(OwnerField, g, DistanceToEndOfRead))],
      readMappingQuality := a.readMappingQuality +
        [Density(READ_MAPPING_QUALITY_FORWARD, 10, props, OneSampleGenotype(OwnerField, g, ReadMappingQualityForward))],
      baseQuality := a.baseQuality +
        [Density(BASE_QUALITY_FORWARD, 10, props, OneSampleGenotype(OwnerField, g, QualityScoresForward))],
      targetAlignedLength := a.targetAlignedLength +
        [Density(TARGET_ALIGNED_LENGTH, 10, props, OneSampleGenotype(OwnerField, g, TargetAlignedLengths))],
      queryAlignedLength := a.queryAlignedLength +
        [Density(QUERY_ALIGNED_LENGTH, 10, props, OneSampleGenotype(OwnerField, g, QueryAlignedLengths))],
      bamFlag := a.bamFlag + [BamFlag(s, g)],
      originalGobyCountIndex := a.originalGobyCountIndex + [OriginalGobyCountIndex(s, g)])
  }

  /** The body of the first loop extends every array by its slot for genotype g. */
  lemma FirstPassStepFills(s: int, props: Properties, ctx: int, max: int, g: nat)
    requires g < max
    ensures FirstPassStep(V38Filled(s, props, ctx, max, g, g), s, props, ctx, g) == V38Filled(s, props, ctx, max, g + 1, g + 1)
  {
  }

  /** One pass of the body of the second loop of configure, for slot st (genotype st - max). */
  function SecondPassStep(a: V38Arrays, s: int, props: Properties, g: int): V38Arrays {
    a.(
      counts := a.counts + [SingleGenotypeCount(s, g, false)],
      readIndex := a.readIndex + [SingleReadIndexCount(s, g, false)],
      readMappingQuality := a.readMappingQuality +
        [Density(READ_MAPPING_QUALITY_REVERSE, 10, props, OneSampleGenotype(OwnerField, g, ReadMappingQualityReverse))],
      baseQuality := a.baseQuality +
        [Density(BASE_QUALITY_REVERSE, 10, props, OneSampleGenotype(OwnerField, g, QualityScoresReverse))])
  }

  /** The body of the second loop extends the per-strand arrays by their reverse slot st. */
  lemma SecondPassStepFills(s: int, props: Properties, ctx: int, max: int, st: nat)
    requires 0 <= max <= st
    ensures SecondPassStep(V38Filled(s, props, ctx, max, max, st), s, props, st - max) == V38Filled(s, props, ctx, max, max, st + 1)
  {
  }

  /**
   * The two filling loops of GenotypeMapperV38.configure: the first fills
   * every per-genotype array and the forward half of the per-strand arrays,
   * the second the reverse half.
   */
  method FillV38Arrays(s: int, props: Properties, ctx: int, max: nat) returns (a: V38Arrays)
    ensures a == V38Columns(s, props, ctx, max)
  {
    var matchesRef, counts, readIndex, readMappingQuality, baseQuality := [], [], [], [], [];
    var numVariationsInRead, targetAlignedLength, queryAlignedLength := [], [], [];
    var distancesToReadVariations, distancesFromStartOfRead, distancesFromEndOfRead := [], [], [];
    var bamFlag, originalGobyCountIndex, queryPositions := [], [], [];
    var genotypeIndex := 0;
    var i := 0;
    while i < max
      invariant 0 <= i <= max && genotypeIndex == i
      invariant V38Arrays(matchesRef, counts, readIndex, readMappingQuality, baseQuality, numVariationsInRead,
                          targetAlignedLength, queryAlignedLength, distancesToReadVariations,
                          distancesFromStartOfRead, distancesFromEndOfRead, bamFlag, originalGobyCountIndex,
                          queryPositions) == V38Filled(s, props, ctx, max, i, i)
    {
      FirstPassStepFills(s, props, ctx, max, i);
      var constantGenotypeIndex := genotypeIndex;
      counts := counts + [SingleGenotypeCount(s, i, true)];
      readIndex := readIndex + [SingleReadIndexCount(s, i, true)];
      matchesRef := matchesRef + [MatchesReference(s, i)];
      queryPositions := queryPositions +
        [Density(QUERY_POSITION, 10, props, OneSampleGenotype(OwnerField, constantGenotypeIndex, QueryPositions))];
      numVariationsInRead := numVariationsInRead +
        [Density(NUM_VARIATIONS_IN_READ, 10, props, OneSampleGenotype(OwnerField, constantGenotypeIndex, NumVariationsInReads))];
      distancesToReadVariations := distancesToReadVariations +
        [DensityCapped([DISTANCES_TO_VARIATIONS_FORWARD, DISTANCES_TO_VARIATIONS_REVERSE], -50, 50, props,
                       OneSampleGenotypeBothStrands(OwnerField, constantGenotypeIndex,
                                                    DistancesToReadVariationsForward, DistancesToReadVariationsReverse))];
      distancesFromStartOfRead := distancesFromStartOfRead +
        [DensityCapped([DISTANCE_TO_START], 0, JavaDiv(ctx, 2), props,
                       OneSampleGenotype(OwnerField, constantGenotypeIndex, DistanceToStartOfRead))];
      distancesFromEndOfRead := distancesFromEndOfRead +
        [DensityCapped([DISTANCE_TO_END], 0, JavaDiv(ctx, 2), props,
                       OneSampleGenotype(OwnerField, constantGenotypeIndex, DistanceToEndOfRead))];
      readMappingQuality := readMappingQuality +
        [Density(READ_MAPPING_QUALITY_FORWARD, 10, props, OneSampleGenotype(OwnerField, constantGenotypeIndex, ReadMappingQualityForward))];
      baseQuality := baseQuality +
        [Density(BASE_QUALITY_FORWARD, 10, props, OneSampleGenotype(OwnerField, constantGenotypeIndex, QualityScoresForward))];
      targetAlignedLength := targetAlignedLength +
        [Density(TARGET_ALIGNED_LENGTH, 10, props, OneSampleGenotype(OwnerField, constantGenotypeIndex, TargetAlignedLengths))];
      queryAlignedLength := queryAlignedLength +
        [Density(QUERY_ALIGNED_LENGTH, 10, props, OneSampleGenotype(OwnerField, constantGenotypeIndex, QueryAlignedLengths))];
      bamFlag := bamFlag + [BamFlag(s, genotypeIndex)];
      originalGobyCountIndex := originalGobyCountIndex + [OriginalGobyCountIndex(s, constantGenotypeIndex)];
      genotypeIndex := genotypeIndex + 1;
      i := i + 1;
    }
    genotypeIndex := 0;
    i := max;
    while i < max * 2
      invariant max <= i <= max * 2 && genotypeIndex == i - max
      invariant V38Arrays(matchesRef, counts, readIndex, readMappingQuality, baseQuality, numVariationsInRead,
                          targetAlignedLength, queryAlignedLength, distancesToReadVariations,
                          distancesFromStartOfRead, distancesFromEndOfRead, bamFlag, originalGobyCountIndex,
                          queryPositions) == V38Filled(s, props, ctx, max, max, i)
    {
      SecondPassStepFills(s, props, ctx, max, i);
      var constantGenotypeIndex := genotypeIndex;
      counts := counts + [SingleGenotypeCount(s, genotypeIndex, false)];
      readIndex := readIndex + [SingleReadIndexCount(s, genotypeIndex, false)];
      readMappingQuality := readMappingQuality +
        [Density(READ_MAPPING_QUALITY_REVERSE, 10, props, OneSampleGenotype(OwnerField, constantGenotypeIndex, ReadMappingQualityReverse))];
      baseQuality := baseQuality +
        [Density(BASE_QUALITY_REVERSE, 10, props, OneSampleGenotype(OwnerField, constantGenotypeIndex, QualityScoresReverse))];
      genotypeIndex := genotypeIndex + 1;
      i := i + 1;
    }

    a := V38Arrays(matchesRef, counts, readIndex, readMappingQuality, baseQuality, numVariationsInRead,
                   targetAlignedLength, queryAlignedLength, distancesToReadVariations,
                   distancesFromStartOfRead, distancesFromEndOfRead, bamFlag, originalGobyCountIndex,
                   queryPositions);
  }

  // ---------------------------------------------------------------------
  // GenotypeMapperV38.

  /** The three property reads of configure succeed and the arrays can be allocated. */
  predicate V38ConfigureSucceeds(props: Properties, floatToInt: string -> Option<int>) {
    && ConfiguredMaxGenotypes(props).Ok?
    && ContextLength(props, floatToInt).Ok?
    && ArraysAllocatable(ConfiguredMaxGenotypes(props).value)
  }

  class GenotypeMapperV38 {
    var sampleIndex: int
    var maxGenotypes: int
    var sortCounts: bool
    var withDistinctAlleleCounts: bool
    var withCombinedLayer: bool
    var withSoftmaxGenotype: bool
    /** The composition tree; None until configure has run (a null field). */
    var delegate: Option<MapperSpec>
    var numFeatures: int
    /** The feature mapper a tree with resolved sample references denotes. */
    const mappers: MapperSpec -> FeatureMappers.Child<BaseInformation>
    /** Float.parseFloat followed by the (int) cast; None when parseFloat throws. */
    const floatToInt: string -> Option<int>

    /** GenotypeMapperV38(sampleIndex). */
    constructor (sampleIndex: int, mappers: MapperSpec -> FeatureMappers.Child<BaseInformation>,
                 floatToInt: string -> Option<int>)
      ensures this.sampleIndex == sampleIndex && maxGenotypes == 3
      ensures sortCounts && withDistinctAlleleCounts && !withCombinedLayer && withSoftmaxGenotype
      ensures delegate.None? && this.mappers == mappers && this.floatToInt == floatToInt
    {
      this.sampleIndex := sampleIndex;
      this.mappers := mappers;
      this.floatToInt := floatToInt;
      sortCounts := true;
      withDistinctAlleleCounts := true;
      withCombinedLayer := false;
      maxGenotypes := 3;
      withSoftmaxGenotype := true;
      delegate := None;
      numFeatures := 0;
    }

    /** GenotypeMapperV38(): the same, for sample 0. */
    constructor ForFirstSample(mappers: MapperSpec -> FeatureMappers.Child<BaseInformation>,
                               floatToInt: string -> Option<int>)
      ensures sampleIndex == 0 && maxGenotypes == 3
      ensures sortCounts && withDistinctAlleleCounts && !withCombinedLayer && withSoftmaxGenotype
      ensures delegate.None? && this.mappers == mappers && this.floatToInt == floatToInt
    {
      sampleIndex := 0;
      this.mappers := mappers;
      this.floatToInt := floatToInt;
      sortCounts := true;
      withDistinctAlleleCounts := true;
      withCombinedLayer := false;
      maxGenotypes := 3;
      withSoftmaxGenotype := true;
      delegate := None;
      numFeatures := 0;
    }

    /** The delegate as records meet it: lambdas read the current sampleIndex. */
    function Delegate(): FeatureMappers.Child<BaseInformation>
      reads this
      requires delegate.Some?
    {
      mappers(Resolve(delegate.value, sampleIndex))
    }

    /**
     * configure: MAX_GENOTYPES from the ploidy, the genomic context length
     * from the properties, then the arrays and the tree. An exception leaves
     * delegate and numFeatures as they were, but MAX_GENOTYPES is assigned
     * before the later reads can fail.
     */
    method Configure(props: Properties) returns (r: Result<()>)
      modifies this`maxGenotypes, this`delegate, this`numFeatures
      ensures ConfiguredMaxGenotypes(props).Fail? ==>
                r == Fail(ConfiguredMaxGenotypes(props).error) && maxGenotypes == old(maxGenotypes)
      ensures ConfiguredMaxGenotypes(props).Ok? ==> maxGenotypes == ConfiguredMaxGenotypes(props).value
      ensures ConfiguredMaxGenotypes(props).Ok? && ContextLength(props, floatToInt).Fail? ==>
                r == Fail(ContextLength(props, floatToInt).error)
      ensures ConfiguredMaxGenotypes(props).Ok? && ContextLength(props, floatToInt).Ok? && !ArraysAllocatable(maxGenotypes) ==>
                r.Fail? && r.error.NegativeArraySize?
      ensures r.Ok? <==> V38ConfigureSucceeds(props, floatToInt)
      ensures r.Fail? ==> delegate == old(delegate) && numFeatures == old(numFeatures)
      ensures r.Ok? ==> maxGenotypes >= 0
      ensures r.Ok? ==>
                delegate == Some(V38Delegate(sampleIndex, props, ContextLength(props, floatToInt).value, maxGenotypes))
      ensures r.Ok? ==> numFeatures == Delegate().count
    {
      var configured := ConfiguredMaxGenotypes(props);
      if configured.Fail? {
        return Fail(configured.error);
      }
      maxGenotypes := configured.value;
      var contextLength := ContextLength(props, floatToInt);
      if contextLength.Fail? {
        return Fail(contextLength.error);
      }
      var genomicContextLength := contextLength.value;
      var max := maxGenotypes;
      if max < 0 || Wrap32(max * 2) < 0 {
        return Fail(NegativeArraySize(IntToString(if max < 0 then max else Wrap32(max * 2))));
      }
      AllocatableFits(max);

      var arrays := FillV38Arrays(sampleIndex, props, genomicContextLength, max);
      delegate := Some(V38Tree(sampleIndex, props, arrays));
      numFeatures := Delegate().count;
      r := Ok(());
    }

    /** setSampleIndex: only the field changes; the tree built by configure stays. */
    method SetSampleIndex(sampleIndex: int)
      modifies this`sampleIndex
      ensures this.sampleIndex == sampleIndex
    {
      this.sampleIndex := sampleIndex;
    }

    /** numberOfFeatures: the delegate's, for the tree resolved against the current sampleIndex. */
    function NumberOfFeatures(): (n: int)
      reads this
      requires delegate.Some?
      ensures n == mappers(Resolve(delegate.value, sampleIndex)).count
    {
      Delegate().count
    }

    /** getFeatureName: the delegate's name of feature i. */
    function GetFeatureName(i: int): (name: string)
      reads this
      requires delegate.Some?
      ensures name == mappers(Resolve(delegate.value, sampleIndex)).name(i)
    {
      Delegate().name(i)
    }

    /** produceFeature: the delegate's value, with every sampleIndex lambda reading the field now. */
    function ProduceFeature(record: BaseInformation, featureIndex: int): (v: real)
      reads this
      requires delegate.Some?
      ensures v == mappers(Resolve(delegate.value, sampleIndex)).produce(record, featureIndex)
    {
      Delegate().produce(record, featureIndex)
    }

    /**
     * mapFeatures: row indexOfRecord receives produceFeature(record, c) in
     * column c for every feature; no other cell changes.
     */
    method MapFeatures(record: BaseInformation, inputs: array2<real>, indexOfRecord: int)
      requires delegate.Some?
      requires 0 <= indexOfRecord < inputs.Length0 && NumberOfFeatures() <= inputs.Length1
      modifies inputs
      ensures forall c :: 0 <= c < NumberOfFeatures() ==> inputs[indexOfRecord, c] == ProduceFeature(record, c)
      ensures forall r, c :: 0 <= r < inputs.Length0 && 0 <= c < inputs.Length1 && (r != indexOfRecord || c >= NumberOfFeatures()) ==>
                inputs[r, c] == old(inputs[r, c])
    {
      var d := Delegate();
      FeatureMappers.FillRow(inputs, indexOfRecord, 0, d.count, j => d.produce(record, j));
    }
  }

  // ---------------------------------------------------------------------
  // GenotypeMapperV4.

  class GenotypeMapperV4 {
    /** Inherited from GenotypeFeatureMapper: zero by default, changed with the setter. */
    var sampleIndex: int
    var sortCounts: bool
    var withCombinedLayer: bool
    var delegate: Option<MapperSpec>
    var numFeatures: int
    const mappers: MapperSpec -> FeatureMappers.Child<BaseInformation>

    constructor (mappers: MapperSpec -> FeatureMappers.Child<BaseInformation>)
      ensures sampleIndex == 0 && sortCounts && withCombinedLayer
      ensures delegate.None? && this.mappers == mappers
    {
      sampleIndex := 0;
      this.mappers := mappers;
      sortCounts := true;
      withCombinedLayer := true;
      delegate := None;
      numFeatures := 0;
    }

    method SetSampleIndex(sampleIndex: int)
      modifies this`sampleIndex
      ensures this.sampleIndex == sampleIndex
    {
      this.sampleIndex := sampleIndex;
    }

    function Delegate(): FeatureMappers.Child<BaseInformation>
      reads this
      requires delegate.Some?
    {
      mappers(Resolve(delegate.value, sampleIndex))
    }

    /**
     * configure: three genotype slots, forward counts in 0 .. 2 and reverse
     * counts in 3 .. 5; the properties only reach the context and density
     * mappers. It cannot fail.
     */
    method Configure(props: Properties)
      modifies this`delegate, this`numFeatures
      ensures delegate == Some(V4Delegate(sampleIndex, props))
      ensures numFeatures == Delegate().count
    {
      var maxGenotypes := 3;
      var countMappers, readIndexMappers, matchesRefMappers := [], [], [];
      var genotypeIndex := 0;
      var i := 0;
      while i < maxGenotypes
        invariant 0 <= i <= maxGenotypes && genotypeIndex == i
        invariant countMappers == StrandedColumn(GenotypeCounts, sampleIndex, props, maxGenotypes, i)
        invariant readIndexMappers == StrandedColumn(ReadIndexCounts, sampleIndex, props, maxGenotypes, i)
        invariant matchesRefMappers == GenotypeColumn(MatchesRefs, sampleIndex, props, 0, i)
      {
        countMappers := countMappers + [SingleGenotypeCount(sampleIndex, i, true)];
        readIndexMappers := readIndexMappers + [SingleReadIndexCount(sampleIndex, i, true)];
        matchesRefMappers := matchesRefMappers + [MatchesReference(sampleIndex, i)];
        genotypeIndex := genotypeIndex + 1;
        i := i + 1;
      }
      genotypeIndex := 0;
      i := maxGenotypes;
      while i < maxGenotypes * 2
        invariant maxGenotypes <= i <= maxGenotypes * 2 && genotypeIndex == i - maxGenotypes
        invariant countMappers == StrandedColumn(GenotypeCounts, sampleIndex, props, maxGenotypes, i)
        invariant readIndexMappers == StrandedColumn(ReadIndexCounts, sampleIndex, props, maxGenotypes, i)
      {
        countMappers := countMappers + [SingleGenotypeCount(sampleIndex, genotypeIndex, false)];
        readIndexMappers := readIndexMappers + [SingleReadIndexCount(sampleIndex, genotypeIndex, false)];
        genotypeIndex := genotypeIndex + 1;
        i := i + 1;
      }
      delegate := Some(V4Tree(sampleIndex, props, matchesRefMappers, countMappers, readIndexMappers));
      numFeatures := Delegate().count;
    }

    /** numberOfFeatures: the delegate's, for the tree resolved against the current sampleIndex. */
    function NumberOfFeatures(): (n: int)
      reads this
      requires delegate.Some?
      ensures n == mappers(Resolve(delegate.value, sampleIndex)).count
    {
      Delegate().count
    }

    /** getFeatureName: the delegate's name of feature i. */
    function GetFeatureName(i: int): (name: string)
      reads this
      requires delegate.Some?
      ensures name == mappers(Resolve(delegate.value, sampleIndex)).name(i)
    {
      Delegate().name(i)
    }

    /** produceFeature: the delegate's value, with every sampleIndex lambda reading the field now. */
    function ProduceFeature(record: BaseInformation, featureIndex: int): (v: real)
      reads this
      requires delegate.Some?
      ensures v == mappers(Resolve(delegate.value, sampleIndex)).produce(record, featureIndex)
    {
      Delegate().produce(record, featureIndex)
    }

    /** mapFeatures: row indexOfRecord receives every feature of the record; no other cell changes. */
    method MapFeatures(record: BaseInformation, inputs: array2<real>, indexOfRecord: int)
      requires delegate.Some?
      requires 0 <= indexOfRecord < inputs.Length0 && NumberOfFeatures() <= inputs.Length1
      modifies inputs
      ensures forall c :: 0 <= c < NumberOfFeatures() ==> inputs[indexOfRecord, c] == ProduceFeature(record, c)
      ensures forall r, c :: 0 <= r < inputs.Length0 && 0 <= c < inputs.Length1 && (r != indexOfRecord || c >= NumberOfFeatures()) ==>
                inputs[r, c] == old(inputs[r, c])
    {
      var d := Delegate();
      FeatureMappers.FillRow(inputs, indexOfRecord, 0, d.count, j => d.produce(record, j));
    }
  }
}
