/**
 * NumDistinctAllelesLabelMapper: a label over ploidy + 1 classes, one per
 * possible number of distinct alleles in the true genotype (0 .. ploidy),
 * with optional label smoothing by epsilon.
 */
module DistinctAllelesLabel {
  import opened JavaLang
  import opened Records

  /** The property key configure reads the ploidy from. */
  const PLOIDY_PROPERTY: string := "genotypes.ploidy"

  class NumDistinctAllelesLabelMapper {
    const sortCounts: bool
    /** The amount of label smoothing. */
    const epsilon: real
    /** GenotypeHelper.getAlleles: the set of alleles named by a genotype string. */
    const getAlleles: string -> set<string>
    var ploidy: int
    /**
     * The record the count-sorting base class last sorted; produceLabel
     * reads the true genotype from it, not from its own argument.
     */
    var sortedCountRecord: BaseInformation

    constructor (sortCounts: bool, ploidy: int, epsilon: real, getAlleles: string -> set<string>,
                 sortedCountRecord: BaseInformation)
      ensures this.sortCounts == sortCounts && this.ploidy == ploidy && this.epsilon == epsilon
      ensures this.getAlleles == getAlleles && this.sortedCountRecord == sortedCountRecord
    {
      this.sortCounts := sortCounts;
      this.ploidy := ploidy;
      this.epsilon := epsilon;
      this.getAlleles := getAlleles;
      this.sortedCountRecord := sortedCountRecord;
    }

    /** The two-argument constructor: no smoothing. */
    constructor WithoutSmoothing(sortCounts: bool, ploidy: int, getAlleles: string -> set<string>,
                                 sortedCountRecord: BaseInformation)
      ensures this.sortCounts == sortCounts && this.ploidy == ploidy && epsilon == 0.0
      ensures this.getAlleles == getAlleles && this.sortedCountRecord == sortedCountRecord
    {
      this.sortCounts := sortCounts;
      this.ploidy := ploidy;
      epsilon := 0.0;
      this.getAlleles := getAlleles;
      this.sortedCountRecord := sortedCountRecord;
    }

    /**
     * One class per number of distinct alleles, 0 .. ploidy; ploidy + 1 is
     * an int sum, so Integer.MAX_VALUE wraps to Integer.MIN_VALUE.
     */
    function NumberOfLabels(): (n: int)
      reads this
      ensures IsInt32(n)
      ensures IsInt32(ploidy) && ploidy < INT_MAX ==> n - 1 == ploidy
      ensures ploidy == INT_MAX ==> n == INT_MIN
    {
      Wrap32(ploidy + 1)
    }

    function NumDistinctAlleles(trueGenotype: string): nat {
      |getAlleles(trueGenotype)|
    }

    /**
     * label: 1 - epsilon at the index equal to the number of distinct true
     * alleles, epsilon / (numberOfLabels - 1) everywhere else.
     */
    function Label(labelIndex: int, trueGenotype: string): (v: real)
      reads this
      requires NumberOfLabels() != 1
      ensures labelIndex == NumDistinctAlleles(trueGenotype) ==> v == 1.0 - epsilon
      ensures labelIndex != NumDistinctAlleles(trueGenotype) ==> v == Smoothing()
    {
      var numDistinctAlleles := NumDistinctAlleles(trueGenotype);
      var v := epsilon / (NumberOfLabels() as real - 1.0);
      if labelIndex == numDistinctAlleles then 1.0 - epsilon else v
    }

    /** produceLabel: the label of the true genotype of sortedCountRecord. */
    function ProduceLabel(record: BaseInformation, labelIndex: int): (v: real)
      reads this
      requires NumberOfLabels() != 1
      ensures labelIndex == NumDistinctAlleles(sortedCountRecord.trueGenotype) ==> v == 1.0 - epsilon
      ensures labelIndex != NumDistinctAlleles(sortedCountRecord.trueGenotype) ==> v == Smoothing()
    {
      Label(labelIndex, sortedCountRecord.trueGenotype)
    }

    /** The record argument of produceLabel plays no part in its value. */
    lemma ProduceLabelIgnoresRecord(record1: BaseInformation, record2: BaseInformation, labelIndex: int)
      requires NumberOfLabels() != 1
      ensures ProduceLabel(record1, labelIndex) == ProduceLabel(record2, labelIndex)
      ensures record1.trueGenotype != sortedCountRecord.trueGenotype ==>
                ProduceLabel(record1, labelIndex) == Label(labelIndex, sortedCountRecord.trueGenotype)
    {
    }

    /** The labels of slots 0 .. n - 1. */
    ghost function LabelSum(trueGenotype: string, n: nat): real
      reads this
      requires NumberOfLabels() != 1
    {
      if n == 0 then 0.0 else LabelSum(trueGenotype, n - 1) + Label(n - 1, trueGenotype)
    }

    /**
     * The value of every slot but the true one: epsilon / ploidy while
     * ploidy + 1 does not overflow.
     */
    function Smoothing(): (v: real)
      reads this
      requires NumberOfLabels() != 1
      ensures 0 < ploidy < INT_MAX ==> v == epsilon / ploidy as real
    {
      epsilon / (NumberOfLabels() - 1) as real
    }

    /**
     * At ploidy Integer.MAX_VALUE the label count wraps, and a positive
     * epsilon gives every slot but the true one a negative label.
     */
    lemma OverflowedSmoothingIsNegative()
      requires ploidy == INT_MAX && epsilon > 0.0
      ensures NumberOfLabels() < 0
      ensures Smoothing() < 0.0
    {
      var d := (NumberOfLabels() - 1) as real;
      assert d < 0.0;
      assert Smoothing() * d == epsilon;
    }

    lemma {:induction false} LabelSumPrefix(trueGenotype: string, n: nat)
      requires NumberOfLabels() != 1
      ensures LabelSum(trueGenotype, n) == PrefixShares(NumDistinctAlleles(trueGenotype), n, Smoothing(), epsilon)
    {
      if n > 0 {
        LabelSumPrefix(trueGenotype, n - 1);
        var d, v := NumDistinctAlleles(trueGenotype), Smoothing();
        assert Label(n - 1, trueGenotype) == if n - 1 == d then 1.0 - epsilon else v;
        PrefixSharesStep(d, n, v, epsilon);
      }
    }

    /**
     * When the true genotype has at most ploidy distinct alleles, the labels
     * over slots 0 .. ploidy sum to 1.
     */
    lemma LabelsSumToOne(trueGenotype: string)
      requires 0 < ploidy < INT_MAX && NumDistinctAlleles(trueGenotype) <= ploidy
      ensures NumberOfLabels() == ploidy + 1
      ensures LabelSum(trueGenotype, ploidy + 1) == 1.0
    {
      LabelSumPrefix(trueGenotype, ploidy + 1);
      var p, v := ploidy as real, Smoothing();
      assert PrefixShares(NumDistinctAlleles(trueGenotype), ploidy + 1, v, epsilon) == p * v + (1.0 - epsilon);
      assert p * (epsilon / p) == epsilon;
    }

    /** The true class carries the largest label when epsilon * (ploidy + 1) < ploidy. */
    lemma TrueClassIsArgmax(trueGenotype: string, i: int)
      requires 0 < ploidy < INT_MAX && epsilon * (ploidy + 1) as real < ploidy as real
      requires i != NumDistinctAlleles(trueGenotype)
      ensures Label(i, trueGenotype) < Label(NumDistinctAlleles(trueGenotype), trueGenotype)
    {
      var p := ploidy as real;
      assert Label(i, trueGenotype) == epsilon / p;
      SmallShare(epsilon, p);
    }

    /**
     * With more distinct alleles than ploidy, no slot in 0 .. ploidy carries
     * 1 - epsilon: all of them hold the smoothing value.
     */
    lemma TooManyAllelesHasNoTrueSlot(trueGenotype: string, i: int)
      requires 0 < ploidy < INT_MAX && NumDistinctAlleles(trueGenotype) > ploidy && 0 <= i <= ploidy
      ensures Label(i, trueGenotype) == epsilon / ploidy as real
    {
    }

    /** Without smoothing the label is one-hot. */
    lemma NoSmoothingIsOneHot(trueGenotype: string, i: int)
      requires NumberOfLabels() != 1 && epsilon == 0.0
      ensures Label(i, trueGenotype) == if i == NumDistinctAlleles(trueGenotype) then 1.0 else 0.0
    {
    }

    /** Ploidy 2, two distinct alleles, no smoothing: the row is [0, 0, 1]. */
    lemma PloidyTwoTwoAlleles(trueGenotype: string)
      requires ploidy == 2 && epsilon == 0.0 && NumDistinctAlleles(trueGenotype) == 2
      ensures NumberOfLabels() == 3
      ensures [Label(0, trueGenotype), Label(1, trueGenotype), Label(2, trueGenotype)] == [0.0, 0.0, 1.0]
    {
    }

    /**
     * configure: ploidy becomes the parsed "genotypes.ploidy" property; a
     * missing or non-numeric value fails with a RuntimeException and leaves
     * ploidy as it was.
     */
    method Configure(readerProperties: map<string, string>) returns (r: Result<()>)
      modifies this`ploidy
      ensures PLOIDY_PROPERTY in readerProperties && ParseInt(readerProperties[PLOIDY_PROPERTY]).Some? ==>
                r.Ok? && ploidy == ParseInt(readerProperties[PLOIDY_PROPERTY]).value
      ensures !(PLOIDY_PROPERTY in readerProperties && ParseInt(readerProperties[PLOIDY_PROPERTY]).Some?) ==>
                r.Fail? && r.error.Runtime? && ploidy == old(ploidy)
    {
      if PLOIDY_PROPERTY !in readerProperties {
        return Fail(Runtime("Unable to read ploidy from sbi properties file."));
      }
      var value := readerProperties[PLOIDY_PROPERTY];
      match ParseInt(value) {
        case None =>
          return Fail(Runtime("Unable to read ploidy from sbi properties file."));
        case Some(p) =>
          ploidy := p;
          return Ok(());
      }
    }
  }

  /**
   * The sum of n slots of which one, slot d, holds 1 - epsilon when it is
   * among them, and every other holds v.
   */
  function PrefixShares(d: nat, n: nat, v: real, epsilon: real): (sum: real)
    ensures n == 0 ==> sum == 0.0
  {
    if d < n then (n - 1) as real * v + (1.0 - epsilon) else n as real * v
  }

  /** Adding slot n - 1 to the first n - 1 slots gives the first n. */
  lemma PrefixSharesStep(d: nat, n: nat, v: real, epsilon: real)
    requires n > 0
    ensures PrefixShares(d, n, v, epsilon) ==
              PrefixShares(d, n - 1, v, epsilon) + (if n - 1 == d then 1.0 - epsilon else v)
  {
    if d < n - 1 {
      assert (n - 2) as real * v + v == (n - 1) as real * v;
    } else if d != n - 1 {
      assert (n - 1) as real * v + v == n as real * v;
    }
  }

  /** With epsilon * (p + 1) < p, one share epsilon / p is below 1 - epsilon. */
  lemma SmallShare(epsilon: real, p: real)
    requires p > 0.0 && epsilon * (p + 1.0) < p
    ensures epsilon / p < 1.0 - epsilon
  {
    var share, top := epsilon / p, 1.0 - epsilon;
    assert share * p == epsilon;
    assert epsilon * (p + 1.0) == epsilon * p + epsilon;
    assert top * p == p - epsilon * p;
    assert (top - share) * p == top * p - share * p > 0.0;
  }
}
