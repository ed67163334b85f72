/**
 * SimpleFeatureCalculator: the somatic feature row of a site. Each of the
 * MAX_GENOTYPES most frequent genotypes of the germline sample and of the
 * tumour sample contributes a reverse-strand and a forward-strand count; the
 * row holds those counts divided by their total. The label is a two-slot
 * one-hot "mutated / not mutated".
 */
module SomaticFeatures {
  import opened JavaLang
  import opened Records

  /** The strand counts of one genotype, as getAllCounts reports them. */
  datatype GenotypeCount = GenotypeCount(forwardCount: int, reverseCount: int)

  /** The meaning of one raw feature slot. */
  datatype SlotKey = SlotKey(tumor: bool, genotype: nat, forward: bool)

  class SimpleFeatureCalculator {
    /** Whether getAllCounts sorts the genotypes by decreasing count. */
    const sort: bool
    /** AbstractFeatureMapper.MAX_GENOTYPES. */
    const maxGenotypes: nat
    /**
     * getAllCounts(record, isTumor, sort): the genotype counts of the
     * germline (false) or tumour (true) sample, at least MAX_GENOTYPES of them.
     */
    const allCounts: (BaseInformation, bool, bool) -> seq<GenotypeCount>
    var normalized: bool
    var sumCounts: int

    constructor (sort: bool, maxGenotypes: nat, allCounts: (BaseInformation, bool, bool) -> seq<GenotypeCount>)
      ensures this.sort == sort && this.maxGenotypes == maxGenotypes && this.allCounts == allCounts
      ensures !normalized && sumCounts == 0
    {
      this.sort := sort;
      this.maxGenotypes := maxGenotypes;
      this.allCounts := allCounts;
      normalized := false;
      sumCounts := 0;
    }

    /** The argument-less constructor sorts counts. */
    constructor Default(maxGenotypes: nat, allCounts: (BaseInformation, bool, bool) -> seq<GenotypeCount>)
      ensures sort && this.maxGenotypes == maxGenotypes && this.allCounts == allCounts
      ensures !normalized && sumCounts == 0
    {
      sort := true;
      this.maxGenotypes := maxGenotypes;
      this.allCounts := allCounts;
      normalized := false;
      sumCounts := 0;
    }

    /** Two samples, MAX_GENOTYPES genotypes each, two strands each. */
    function NumberOfFeatures(): (n: nat)
      ensures n == 2 * (2 * maxGenotypes)
    {
      maxGenotypes * 2 * 2
    }

    /** Mutated and not mutated. */
    function NumberOfLabels(): (n: nat)
      ensures n == 2
    {
      2
    }

    /**
     * The slot a (sample, genotype, strand) triple is written to: germline
     * first, then tumour; within a sample, genotype by genotype, reverse
     * strand before forward.
     */
    function SlotIndex(key: SlotKey): (i: int)
      requires key.genotype < maxGenotypes
      ensures 0 <= i < NumberOfFeatures()
    {
      (if key.tumor then 2 * maxGenotypes else 0) + 2 * key.genotype + (if key.forward then 1 else 0)
    }

    /** Every slot holds exactly one (sample, genotype, strand) triple. */
    lemma SlotLayout(key: SlotKey, i: int)
      requires key.genotype < maxGenotypes && 0 <= i < NumberOfFeatures()
      ensures SlotIndex(key) == i <==>
                ((key.tumor <==> i >= maxGenotypes * 2)
                 && key.genotype == (if key.tumor then i - maxGenotypes * 2 else i) / 2
                 && (key.forward <==> (if key.tumor then i - maxGenotypes * 2 else i) % 2 == 1))
    {
    }

    predicate CountsCover(record: BaseInformation) {
      |allCounts(record, false, sort)| >= maxGenotypes && |allCounts(record, true, sort)| >= maxGenotypes
    }

    function CountAt(record: BaseInformation, key: SlotKey): int
      requires CountsCover(record) && key.genotype < maxGenotypes
    {
      var count := allCounts(record, key.tumor, sort)[key.genotype];
      if key.forward then count.forwardCount else count.reverseCount
    }

    /** The (sample, genotype, strand) triple of a slot: the inverse of SlotIndex. */
    function SlotOf(i: int): (key: SlotKey)
      requires 0 <= i < NumberOfFeatures()
      ensures key.genotype < maxGenotypes && SlotIndex(key) == i
    {
      var tumor := i >= maxGenotypes * 2;
      var rebased := if tumor then i - maxGenotypes * 2 else i;
      SlotKey(tumor, rebased / 2, rebased % 2 == 1)
    }

    /** produceFeatureInternal: the raw count held by slot featureIndex. */
    function ProduceFeatureInternal(record: BaseInformation, featureIndex: int): (v: real)
      requires CountsCover(record) && 0 <= featureIndex < NumberOfFeatures()
      ensures v == CountAt(record, SlotOf(featureIndex)) as real
    {
      if featureIndex < maxGenotypes * 2 then
        if featureIndex % 2 == 1 then
          allCounts(record, false, sort)[featureIndex / 2].forwardCount as real
        else
          allCounts(record, false, sort)[featureIndex / 2].reverseCount as real
      else
        var rebased := featureIndex - maxGenotypes * 2;
        if rebased % 2 == 1 then
          allCounts(record, true, sort)[rebased / 2].forwardCount as real
        else
          allCounts(record, true, sort)[rebased / 2].reverseCount as real
    }

    /** The raw value of a slot is the count of its (sample, genotype, strand). */
    lemma RawFeatureAt(record: BaseInformation, key: SlotKey)
      requires CountsCover(record) && key.genotype < maxGenotypes
      ensures ProduceFeatureInternal(record, SlotIndex(key)) == CountAt(record, key) as real
    {
      SlotLayout(key, SlotIndex(key));
    }

    /**
     * getFeatureName: the same layout as the raw features; the tumour
     * reverse-strand names are spelt "normGomaticReverseCount".
     */
    function GetFeatureName(featureIndex: int): (name: string)
      requires 0 <= featureIndex < NumberOfFeatures()
      ensures name == NamePrefix(SlotOf(featureIndex)) + IntToString(SlotOf(featureIndex).genotype)
    {
      if featureIndex < maxGenotypes * 2 then
        if featureIndex % 2 == 1 then "normGermlineForwardCount" + IntToString(featureIndex / 2)
        else "normGermlineReverseCount" + IntToString(featureIndex / 2)
      else
        var rebased := featureIndex - maxGenotypes * 2;
        if rebased % 2 == 1 then "normSomaticForwardCount" + IntToString(rebased / 2)
        else "normGomaticReverseCount" + IntToString(rebased / 2)
    }

    static function NamePrefix(key: SlotKey): string {
      match (key.tumor, key.forward)
      case (false, true) => "normGermlineForwardCount"
      case (false, false) => "normGermlineReverseCount"
      case (true, true) => "normSomaticForwardCount"
      case (true, false) => "normGomaticReverseCount"
    }

    /** A slot is named after its sample and strand, then its genotype number. */
    lemma FeatureNameAt(key: SlotKey)
      requires key.genotype < maxGenotypes
      ensures GetFeatureName(SlotIndex(key)) == NamePrefix(key) + IntToString(key.genotype)
    {
      SlotLayout(key, SlotIndex(key));
      assert SlotOf(SlotIndex(key)) == key;
    }

    /** normalize: 0 when the factor is 0, the quotient otherwise. */
    static function Normalize(value: real, normalizationFactor: int): (r: real)
      ensures normalizationFactor == 0 ==> r == 0.0
      ensures normalizationFactor != 0 ==> r * normalizationFactor as real == value
      ensures 0 < normalizationFactor && 0.0 <= value <= normalizationFactor as real ==> 0.0 <= r <= 1.0
    {
      if normalizationFactor == 0 then 0.0 else value / normalizationFactor as real
    }

    /** produceFeature: the raw count over the total found by prepareToNormalize. */
    function ProduceFeature(record: BaseInformation, featureIndex: int): (v: real)
      reads this
      requires CountsCover(record) && 0 <= featureIndex < NumberOfFeatures()
      ensures sumCounts == 0 ==> v == 0.0
      ensures sumCounts != 0 ==> v * sumCounts as real == CountAt(record, SlotOf(featureIndex)) as real
    {
      Normalize(ProduceFeatureInternal(record, featureIndex), sumCounts)
    }

    /** The sum of the raw values of slots 0 .. n - 1. */
    function RawSum(record: BaseInformation, n: nat): real
      requires CountsCover(record) && n <= NumberOfFeatures()
    {
      if n == 0 then 0.0 else RawSum(record, n - 1) + ProduceFeatureInternal(record, n - 1)
    }

    /** The total of both strands of the first MAX_GENOTYPES genotypes of one sample. */
    function SampleTotal(counts: seq<GenotypeCount>, n: nat): int
      requires n <= |counts|
    {
      if n == 0 then 0 else SampleTotal(counts, n - 1) + counts[n - 1].reverseCount + counts[n - 1].forwardCount
    }

    lemma {:induction false} GermlineRawSum(record: BaseInformation, g: nat)
      requires CountsCover(record) && g <= maxGenotypes
      ensures RawSum(record, 2 * g) == SampleTotal(allCounts(record, false, sort), g) as real
    {
      if g > 0 {
        GermlineRawSum(record, g - 1);
        RawFeatureAt(record, SlotKey(false, g - 1, false));
        RawFeatureAt(record, SlotKey(false, g - 1, true));
      }
    }

    lemma {:induction false} TumorRawSum(record: BaseInformation, g: nat)
      requires CountsCover(record) && g <= maxGenotypes
      ensures RawSum(record, 2 * maxGenotypes + 2 * g) ==
                (SampleTotal(allCounts(record, false, sort), maxGenotypes) + SampleTotal(allCounts(record, true, sort), g)) as real
    {
      if g > 0 {
        TumorRawSum(record, g - 1);
        RawFeatureAt(record, SlotKey(true, g - 1, false));
        RawFeatureAt(record, SlotKey(true, g - 1, true));
      } else {
        GermlineRawSum(record, maxGenotypes);
      }
    }

    /** The raw slots add up to the germline total plus the tumour total. */
    lemma RawSumIsCountTotal(record: BaseInformation)
      requires CountsCover(record)
      ensures RawSum(record, NumberOfFeatures()) ==
                (SampleTotal(allCounts(record, false, sort), maxGenotypes) + SampleTotal(allCounts(record, true, sort), maxGenotypes)) as real
    {
      TumorRawSum(record, maxGenotypes);
    }

    /**
     * prepareToNormalize: sumCounts becomes the total of the record's raw
     * features, and the mapper is marked ready. Raw counts are whole numbers,
     * so the int accumulator holds them exactly.
     */
    method PrepareToNormalize(record: BaseInformation, indexOfRecord: int)
      requires CountsCover(record)
      modifies this
      ensures normalized && sumCounts as real == RawSum(record, NumberOfFeatures())
    {
      var total := 0;
      var featureIndex := 0;
      while featureIndex < NumberOfFeatures()
        invariant 0 <= featureIndex <= NumberOfFeatures()
        invariant total as real == RawSum(record, featureIndex)
      {
        var key := SlotOf(featureIndex);
        RawFeatureAt(record, key);
        total := total + CountAt(record, key);
        featureIndex := featureIndex + 1;
      }
      sumCounts := total;
      normalized := true;
    }

    /** The sum of the normalised values of slots 0 .. n - 1. */
    ghost function NormalizedSum(record: BaseInformation, n: nat): real
      reads this
      requires CountsCover(record) && n <= NumberOfFeatures()
    {
      if n == 0 then 0.0 else NormalizedSum(record, n - 1) + ProduceFeature(record, n - 1)
    }

    lemma {:induction false} NormalizedPrefix(record: BaseInformation, n: nat)
      requires CountsCover(record) && n <= NumberOfFeatures() && sumCounts != 0
      ensures NormalizedSum(record, n) == RawSum(record, n) / sumCounts as real
    {
      if n > 0 {
        NormalizedPrefix(record, n - 1);
        AddQuotients(RawSum(record, n - 1), ProduceFeatureInternal(record, n - 1), sumCounts as real);
      }
    }

    static lemma AddQuotients(a: real, b: real, d: real)
      requires d != 0.0
      ensures a / d + b / d == (a + b) / d
    {
      var p, q := a / d, b / d;
      assert p * d == a && q * d == b;
      assert (p + q) * d == a + b;
    }

    /**
     * Once prepareToNormalize has run on a record with a non-zero total, the
     * record's features sum to 1.
     */
    lemma NormalizedRow(record: BaseInformation)
      requires CountsCover(record) && sumCounts as real == RawSum(record, NumberOfFeatures()) && sumCounts != 0
      ensures NormalizedSum(record, NumberOfFeatures()) == 1.0
    {
      NormalizedPrefix(record, NumberOfFeatures());
      SelfQuotient(sumCounts as real);
    }

    static lemma SelfQuotient(d: real)
      requires d != 0.0
      ensures d / d == 1.0
    {
      assert 1.0 * d == d;
    }

    /**
     * With non-negative counts, every feature of the prepared record lies in
     * [0, 1]: the range normalize asserts.
     */
    lemma NormalizedInUnitRange(record: BaseInformation, i: int)
      requires CountsCover(record) && sumCounts as real == RawSum(record, NumberOfFeatures())
      requires forall j :: 0 <= j < NumberOfFeatures() ==> ProduceFeatureInternal(record, j) >= 0.0
      requires 0 <= i < NumberOfFeatures()
      ensures 0.0 <= ProduceFeature(record, i) <= 1.0
    {
      RawSumBounds(record, i, NumberOfFeatures());
    }

    /** With non-negative raw values, one slot never exceeds a sum that contains it. */
    lemma {:induction false} RawSumBounds(record: BaseInformation, i: nat, n: nat)
      requires CountsCover(record) && i < n <= NumberOfFeatures()
      requires forall j :: 0 <= j < NumberOfFeatures() ==> ProduceFeatureInternal(record, j) >= 0.0
      ensures 0.0 <= ProduceFeatureInternal(record, i) <= RawSum(record, n)
    {
      if i < n - 1 {
        RawSumBounds(record, i, n - 1);
      }
      RawSumNonNegative(record, n - 1);
    }

    lemma {:induction false} RawSumNonNegative(record: BaseInformation, n: nat)
      requires CountsCover(record) && n <= NumberOfFeatures()
      requires forall j :: 0 <= j < NumberOfFeatures() ==> ProduceFeatureInternal(record, j) >= 0.0
      ensures RawSum(record, n) >= 0.0
    {
      if n > 0 {
        RawSumNonNegative(record, n - 1);
      }
    }

    /**
     * mapFeatures(record, float[], offset): inputs[offset + i] receives
     * produceFeature(i) for every slot; nothing else changes.
     */
    method MapFeaturesAt(record: BaseInformation, inputs: array<real>, offset: int)
      requires normalized && CountsCover(record)
      requires 0 <= offset && offset + NumberOfFeatures() <= inputs.Length
      modifies inputs
      ensures forall c :: offset <= c < offset + NumberOfFeatures() ==> inputs[c] == ProduceFeature(record, c - offset)
      ensures forall c :: 0 <= c < inputs.Length && !(offset <= c < offset + NumberOfFeatures()) ==>
                inputs[c] == old(inputs[c])
    {
      var featureIndex := 0;
      while featureIndex < NumberOfFeatures()
        invariant 0 <= featureIndex <= NumberOfFeatures()
        invariant forall c :: offset <= c < offset + featureIndex ==> inputs[c] == ProduceFeature(record, c - offset)
        invariant forall c :: 0 <= c < inputs.Length && !(offset <= c < offset + featureIndex) ==>
                    inputs[c] == old(inputs[c])
      {
        inputs[featureIndex + offset] := ProduceFeature(record, featureIndex);
        featureIndex := featureIndex + 1;
      }
    }

    /**
     * mapFeatures(record, INDArray, indexOfRecord): the features go through a
     * buffer into row indexOfRecord, columns 0 .. numberOfFeatures - 1.
     */
    method MapFeatures(record: BaseInformation, inputs: array2<real>, indexOfRecord: int)
      requires normalized && CountsCover(record)
      requires 0 <= indexOfRecord < inputs.Length0 && NumberOfFeatures() <= inputs.Length1
      modifies inputs
      ensures forall i :: 0 <= i < NumberOfFeatures() ==> inputs[indexOfRecord, i] == ProduceFeature(record, i)
      ensures forall r, c :: 0 <= r < inputs.Length0 && r != indexOfRecord && 0 <= c < inputs.Length1 ==>
                inputs[r, c] == old(inputs[r, c])
      ensures forall c :: NumberOfFeatures() <= c < inputs.Length1 ==> inputs[indexOfRecord, c] == old(inputs[indexOfRecord, c])
    {
      var buffer := new real[NumberOfFeatures()];
      MapFeaturesAt(record, buffer, 0);
      var featureIndex := 0;
      while featureIndex < NumberOfFeatures()
        invariant 0 <= featureIndex <= NumberOfFeatures()
        modifies inputs
        invariant forall i :: 0 <= i < featureIndex ==> inputs[indexOfRecord, i] == ProduceFeature(record, i)
        invariant forall r, c :: 0 <= r < inputs.Length0 && r != indexOfRecord && 0 <= c < inputs.Length1 ==>
                    inputs[r, c] == old(inputs[r, c])
        invariant forall c :: featureIndex <= c < inputs.Length1 ==> inputs[indexOfRecord, c] == old(inputs[indexOfRecord, c])
      {
        inputs[indexOfRecord, featureIndex] := buffer[featureIndex];
        featureIndex := featureIndex + 1;
      }
    }

    /** produceLabel: slot 0 flags a mutated site, slot 1 a site that is not. */
    function ProduceLabel(record: BaseInformation, labelIndex: int): (v: real)
      requires labelIndex == 0 || labelIndex == 1
      ensures v == 1.0 || v == 0.0
      ensures v == 1.0 <==> (record.mutated <==> labelIndex == 0)
    {
      if labelIndex == 0 then (if record.mutated then 1.0 else 0.0)
      else (if !record.mutated then 1.0 else 0.0)
    }

    /** Exactly one of the two labels is 1. */
    lemma LabelIsOneHot(record: BaseInformation)
      ensures ProduceLabel(record, 0) + ProduceLabel(record, 1) == 1.0
      ensures ProduceLabel(record, 0) == 1.0 - ProduceLabel(record, 1)
    {
    }

    /** mapLabels: both labels go to row indexOfRecord; nothing else changes. */
    method MapLabels(record: BaseInformation, labels: array2<real>, indexOfRecord: int)
      requires 0 <= indexOfRecord < labels.Length0 && NumberOfLabels() <= labels.Length1
      modifies labels
      ensures labels[indexOfRecord, 0] == (if record.mutated then 1.0 else 0.0)
      ensures labels[indexOfRecord, 1] == (if record.mutated then 0.0 else 1.0)
      ensures forall r, c :: 0 <= r < labels.Length0 && 0 <= c < labels.Length1 && (r != indexOfRecord || c >= 2) ==>
                labels[r, c] == old(labels[r, c])
    {
      var labelIndex := 0;
      while labelIndex < NumberOfLabels()
        invariant 0 <= labelIndex <= NumberOfLabels()
        invariant forall l :: 0 <= l < labelIndex ==> labels[indexOfRecord, l] == ProduceLabel(record, l)
        invariant forall r, c :: 0 <= r < labels.Length0 && 0 <= c < labels.Length1 && (r != indexOfRecord || c >= labelIndex) ==>
                    labels[r, c] == old(labels[r, c])
      {
        labels[indexOfRecord, labelIndex] := ProduceLabel(record, labelIndex);
        labelIndex := labelIndex + 1;
      }
    }
  }
}
