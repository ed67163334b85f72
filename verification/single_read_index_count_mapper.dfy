/**
 * SingleReadIndexCountMapper: a one-slot feature holding the number of
 * distinct read indices that support one genotype of one sample on one
 * strand, or -1 when the record has no such sample or genotype. A negative
 * index passes the size checks and fails the protobuf list access.
 */
module ReadIndexCount {
  import opened JavaLang
  import opened Records

  /**
   * The mapper's configuration. expandFreq stands for
   * ProtoPredictor.expandFreq, which turns a (number, frequency) histogram
   * back into a list of numbers.
   */
  datatype SingleReadIndexCountMapper = SingleReadIndexCountMapper(
    sampleIndex: int,
    genotypeIndex: int,
    getForwardStrand: bool,
    expandFreq: seq<NumberWithFrequency> -> seq<int>)
  {
    /** One slot: the count for one sample, genotype and strand. */
    function NumberOfFeatures(): (n: nat)
      ensures n == 1
    {
      1
    }

    /** prepareToNormalize: nothing to prepare, the mapper is left as it was. */
    function PrepareToNormalize(record: BaseInformation, indexOfRecord: int): (m: SingleReadIndexCountMapper)
      ensures m == this
    {
      this
    }

    /** Whether the record has the sample and, in it, the genotype this mapper reads. */
    predicate Present(record: BaseInformation) {
      0 <= sampleIndex < |record.samples| && 0 <= genotypeIndex < |record.samples[sampleIndex].counts|
    }

    /**
     * Whether a negative index passes a `<` size check and reaches
     * getSamples or getCounts, which throw IndexOutOfBoundsException.
     */
    predicate ReachesNegativeIndex(record: BaseInformation) {
      sampleIndex < 0 || (sampleIndex < |record.samples| && genotypeIndex < 0)
    }

    /** The expanded read indices of the chosen strand. */
    function ReadIndices(record: BaseInformation): seq<int>
      requires Present(record)
    {
      var genoInfo := record.samples[sampleIndex].counts[genotypeIndex];
      expandFreq(if getForwardStrand then genoInfo.readIndicesForwardStrand else genoInfo.readIndicesReverseStrand)
    }

    /**
     * produceFeatureInternal: the size of the set of read indices, or -1 when
     * the sample or the genotype is missing; IndexOutOfBoundsException when a
     * negative index reaches the record.
     */
    function ProduceFeatureInternal(record: BaseInformation, featureIndex: int): (r: Result<real>)
      requires 0 <= featureIndex < NumberOfFeatures()
      ensures r.Fail? <==> ReachesNegativeIndex(record)
      ensures r.Fail? ==> r.error.IndexOutOfBounds?
      ensures r == Ok(-1.0) <==> !ReachesNegativeIndex(record) && !Present(record)
      ensures Present(record) ==> r == Ok(DistinctCount(ReadIndices(record)) as real)
      ensures Present(record) ==> 0.0 <= r.value <= |ReadIndices(record)| as real
    {
      if sampleIndex < |record.samples| then
        if sampleIndex < 0 then
          Fail(IndexOutOfBounds("getSamples: negative sample index"))
        else if genotypeIndex < |record.samples[sampleIndex].counts| then
          if genotypeIndex < 0 then
            Fail(IndexOutOfBounds("getCounts: negative genotype index"))
          else
            var readIndicesSet := set x | x in ReadIndices(record);
            DistinctCountIsSetSize(ReadIndices(record));
            Ok(|readIndicesSet| as real)
        else
          Ok(-1.0)
      else
        Ok(-1.0)
    }

    /** produceFeature: the raw value, with no normalisation. */
    function ProduceFeature(record: BaseInformation, featureIndex: int): (r: Result<real>)
      requires 0 <= featureIndex < NumberOfFeatures()
      ensures r == ProduceFeatureInternal(record, featureIndex)
      ensures r.Ok? ==> r.value >= -1.0
    {
      ProduceFeatureInternal(record, featureIndex)
    }

    /**
     * getFeatureName: sample number, genotype letter (A, T, C, G, N, then
     * Other1 .. Other4, and Other5 for every later genotype) and strand.
     */
    function GetFeatureName(featureIndex: int): (name: string)
      ensures name == "sampleIndex" + IntToString(sampleIndex) + "SampleGenotype"
                      + GenotypeString(genotypeIndex) + StrandString(getForwardStrand)
      ensures |name| > |"sampleIndex"| && name[..|"sampleIndex"|] == "sampleIndex"
      ensures var strand := StrandString(getForwardStrand);
              |name| > |strand| && name[|name| - |strand|..] == strand
    {
      var sampleString := IntToString(sampleIndex) + "Sample";
      "sampleIndex" + sampleString + "Genotype" + GenotypeString(genotypeIndex)
        + (if getForwardStrand then "Forward" else "Backward")
    }
  }

  /** The strand part of a feature name. */
  function StrandString(forward: bool): string {
    if forward then "Forward" else "Backward"
  }

  /** The genotype part of a feature name; the switch's default covers negative indices too. */
  function GenotypeString(genotypeIndex: int): string {
    match genotypeIndex
    case 0 => "A"
    case 1 => "T"
    case 2 => "C"
    case 3 => "G"
    case 4 => "N"
    case 5 => "Other1"
    case 6 => "Other2"
    case 7 => "Other3"
    case 8 => "Other4"
    case _ => "Other5"
  }

  /**
   * Genotypes 0 .. 9 get ten different names; all later ones, and the
   * negative ones, share "Other5".
   */
  lemma GenotypeStringsDistinct(i: int, j: int)
    ensures 0 <= i < j <= 9 ==> GenotypeString(i) != GenotypeString(j)
    ensures (i < 0 || 9 <= i) && (j < 0 || 9 <= j) ==> GenotypeString(i) == GenotypeString(j)
  {
    if 0 <= i < j <= 9 {
      var names := ["A", "T", "C", "G", "N", "Other1", "Other2", "Other3", "Other4", "Other5"];
      assert GenotypeString(i) == names[i] && GenotypeString(j) == names[j];
      assert names[i][|names[i]| - 1] != names[j][|names[j]| - 1] || |names[i]| != |names[j]|;
    }
  }

  /** Integer.toString writes digits and a minus sign, never an 'S'. */
  lemma IntToStringHasNoS(n: int, k: int)
    requires 0 <= k < |IntToString(n)|
    ensures IntToString(n)[k] != 'S'
  {
    var t := IntToString(n);
    if n < 0 && k > 0 {
      assert t[k] == t[1..][k - 1];
    }
  }

  /**
   * Where the parts of a feature name sit: the sample number from index 11
   * up to the 'S' of "SampleGenotype", the genotype and strand after it.
   */
  lemma FeatureNameParts(m: SingleReadIndexCountMapper, i: int)
    ensures var name, digits := m.GetFeatureName(i), IntToString(m.sampleIndex);
            |name| > 25 + |digits|
            && name[11..11 + |digits|] == digits
            && name[11 + |digits|] == 'S'
            && (forall k :: 11 <= k < 11 + |digits| ==> name[k] != 'S')
            && name[25 + |digits|..] == GenotypeString(m.genotypeIndex) + StrandString(m.getForwardStrand)
  {
    var name := m.GetFeatureName(i);
    var digits, tail := IntToString(m.sampleIndex), GenotypeString(m.genotypeIndex) + StrandString(m.getForwardStrand);
    assert name == "sampleIndex" + digits + ("SampleGenotype" + tail);
    forall k | 11 <= k < 11 + |digits|
      ensures name[k] != 'S'
    {
      assert name[k] == digits[k - 11];
      IntToStringHasNoS(m.sampleIndex, k - 11);
    }
  }

  /** The genotype and strand part of a name determines both. */
  lemma GenotypeAndStrand(g1: string, g2: string, forward1: bool, forward2: bool)
    requires g1 + StrandString(forward1) == g2 + StrandString(forward2)
    ensures forward1 == forward2 && g1 == g2
  {
    var t1, t2 := g1 + StrandString(forward1), g2 + StrandString(forward2);
    assert t1[|t1| - 7] == if forward1 then 'F' else 'a';
    assert t2[|t2| - 7] == if forward2 then 'F' else 'a';
    assert g1 == t1[..|g1|] == t2[..|g2|] == g2;
  }

  /**
   * Two feature names are equal exactly when the mappers read the same
   * sample on the same strand and their genotypes print the same: the
   * sample number ends at the first 'S', and the strand is told apart by
   * the seventh character from the end.
   */
  lemma FeatureNamesEqual(a: SingleReadIndexCountMapper, b: SingleReadIndexCountMapper, i: int, j: int)
    requires IsInt32(a.sampleIndex) && IsInt32(b.sampleIndex)
    ensures a.GetFeatureName(i) == b.GetFeatureName(j) <==>
              a.sampleIndex == b.sampleIndex && a.getForwardStrand == b.getForwardStrand
              && GenotypeString(a.genotypeIndex) == GenotypeString(b.genotypeIndex)
  {
    var na, nb := a.GetFeatureName(i), b.GetFeatureName(j);
    if na == nb {
      var sa, sb := IntToString(a.sampleIndex), IntToString(b.sampleIndex);
      FeatureNameParts(a, i);
      FeatureNameParts(b, j);
      assert |sa| == |sb|;
      assert sa == na[11..11 + |sa|] == nb[11..11 + |sb|] == sb;
      ParseIntToString(a.sampleIndex);
      ParseIntToString(b.sampleIndex);
      GenotypeAndStrand(GenotypeString(a.genotypeIndex), GenotypeString(b.genotypeIndex),
                        a.getForwardStrand, b.getForwardStrand);
    }
  }

  /**
   * For genotypes 0 .. 9 the feature name tells sample, genotype and
   * strand apart: different columns never share a name.
   */
  lemma FeatureNamesDistinct(a: SingleReadIndexCountMapper, b: SingleReadIndexCountMapper, i: int, j: int)
    requires IsInt32(a.sampleIndex) && IsInt32(b.sampleIndex)
    requires 0 <= a.genotypeIndex <= 9 && 0 <= b.genotypeIndex <= 9
    ensures a.GetFeatureName(i) == b.GetFeatureName(j) <==>
              a.sampleIndex == b.sampleIndex && a.genotypeIndex == b.genotypeIndex
              && a.getForwardStrand == b.getForwardStrand
  {
    FeatureNamesEqual(a, b, i, j);
    GenotypeStringsDistinct(a.genotypeIndex, b.genotypeIndex);
    GenotypeStringsDistinct(b.genotypeIndex, a.genotypeIndex);
  }

  /**
   * Reference count of distinct values: the positions that hold a value for
   * the first time.
   */
  function DistinctCount(s: seq<int>): (n: nat)
    ensures n <= |s|
  {
    if s == [] then 0
    else DistinctCount(s[..|s| - 1]) + (if s[|s| - 1] in s[..|s| - 1] then 0 else 1)
  }

  /** An IntArraySet built from a list has one element per first occurrence. */
  lemma {:induction false} DistinctCountIsSetSize(s: seq<int>)
    ensures |set x | x in s| == DistinctCount(s)
  {
    if s != [] {
      var init, last := s[..|s| - 1], s[|s| - 1];
      DistinctCountIsSetSize(init);
      assert s == init + [last];
      var before := set x | x in init;
      assert (set x | x in s) == before + {last};
      if last !in init {
        assert last !in before;
      }
    }
  }

  /** Every value in the list is counted at least once, and nothing more. */
  lemma {:induction false} DistinctCountBounds(s: seq<int>)
    ensures s != [] ==> DistinctCount(s) >= 1
    ensures (forall i, j :: 0 <= i < j < |s| ==> s[i] != s[j]) ==> DistinctCount(s) == |s|
  {
    if s != [] {
      var init := s[..|s| - 1];
      DistinctCountBounds(init);
      if forall i, j :: 0 <= i < j < |s| ==> s[i] != s[j] {
        assert forall i, j :: 0 <= i < j < |init| ==> init[i] != init[j] by {
          forall i, j | 0 <= i < j < |init| ensures init[i] != init[j] {
            assert init[i] == s[i] && init[j] == s[j];
          }
        }
        forall k | 0 <= k < |init|
          ensures init[k] != s[|s| - 1]
        {
          assert init[k] == s[k];
        }
      }
    }
  }
}
