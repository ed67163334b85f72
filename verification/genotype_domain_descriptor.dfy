/**
 * GenotypeDomainDescriptor: which label mapper, prediction interpreter and
 * loss each network output gets, which metrics are better when larger, the
 * ploidy it is configured with and writes back, and which assembler and
 * aggregate prediction the input feature mapper's flags select.
 */
module GenotypeDomain {
  import opened JavaLang

  /** The property key holding the ploidy. */
  const PLOIDY_PROPERTY: string := "genotypes.ploidy"

  /** The per-genotype outputs, in genotype-index order. */
  const GENOTYPE_OUTPUTS: seq<string> := ["A", "T", "C", "G", "N", "I1", "I2", "I3", "I4", "I5"]

  /** The label mapper built for an output, with its constructor arguments. */
  datatype LabelMapperKind =
    | GenotypeLabels(genotypeIndex: nat, sortCounts: bool)
    | HomozygousLabels(sortCounts: bool)
    | NumDistinctAllelesLabels(sortCounts: bool, ploidy: int)
    | CombinedLabels
    | MetaDataLabels

  /** The prediction interpreter built for an output. */
  datatype InterpreterKind =
    | SingleGenotype(genotypeIndex: nat, sortCounts: bool)
    | Homozygous(sortCounts: bool)
    | CombinedOutputLayer
    | NumDistinctAllelesInterpreter(ploidy: int)
    | MetaData

  /** The loss of an output: multi-class cross entropy, or binary cross entropy, possibly with zero weights. */
  datatype Loss = MultiClassXent | BinaryXent(zeroWeights: bool)

  /** The assembler getComputationalGraph picks; the last one names a class loaded by reflection. */
  datatype Assembler =
    | NumDistinctAlleleAssembler
    | CombinedGenotypeSixDenseLayers
    | ArchitectureClass(className: string)

  datatype AggregatePrediction = NumDistinctIndelGenotypePrediction | CombinedGenotypePrediction

  /** The genotype index of a per-genotype output name, when it is one. */
  function GenotypeIndex(outputName: string): (r: Option<nat>)
    ensures r.Some? <==> outputName in GENOTYPE_OUTPUTS
    ensures r.Some? ==> r.value < |GENOTYPE_OUTPUTS| && GENOTYPE_OUTPUTS[r.value] == outputName
  {
    match outputName
    case "A" => Some(0)
    case "T" => Some(1)
    case "C" => Some(2)
    case "G" => Some(3)
    case "N" => Some(4)
    case "I1" => Some(5)
    case "I2" => Some(6)
    case "I3" => Some(7)
    case "I4" => Some(8)
    case "I5" => Some(9)
    case _ => None
  }

  /** The output names other than the per-genotype ones. */
  const OTHER_OUTPUTS: set<string> := {"homozygous", "numDistinctAlleles", "combined", "metaData"}

  /** The metrics the performance descriptor reports. */
  const PERFORMANCE_METRICS: seq<string> := ["genotypeConcordance", "recall", "precision", "F1", "numVariants", "score"]

  /** largerValueIsBetterPerformance: false for "score" only; unknown metrics are refused. */
  function LargerValueIsBetterPerformance(metricName: string): (r: Result<bool>)
    ensures r.Ok? <==> metricName in KNOWN_METRICS
    ensures r == Ok(false) <==> metricName == "score"
    ensures r.Fail? ==> r.error.IllegalArgument?
  {
    match metricName
    case "accuracy" => Ok(true)
    case "F1" => Ok(true)
    case "recall" => Ok(true)
    case "precision" => Ok(true)
    case "alleleAccuracy" => Ok(true)
    case "score" => Ok(false)
    case "numVariants" => Ok(true)
    case "genotypeConcordance" => Ok(true)
    case _ => Fail(IllegalArgument("metric not recognized: " + metricName))
  }

  /** The eight metric names the table knows. */
  const KNOWN_METRICS: set<string> :=
    {"accuracy", "F1", "recall", "precision", "alleleAccuracy", "score", "numVariants", "genotypeConcordance"}

  /** Every metric the performance descriptor reports has a direction; only "score" is better when smaller. */
  lemma MetricDirections(metricName: string)
    requires metricName in PERFORMANCE_METRICS
    ensures LargerValueIsBetterPerformance(metricName).Ok?
    ensures LargerValueIsBetterPerformance(metricName).value <==> metricName != "score"
  {
  }

  /** getOutputLoss: multi-class for the three softmax outputs, zero-weighted binary for metaData, binary otherwise. */
  function GetOutputLoss(outputName: string): (r: Loss)
    ensures r == MultiClassXent <==> outputName in {"homozygous", "numDistinctAlleles", "combined"}
    ensures r == BinaryXent(true) <==> outputName == "metaData"
  {
    match outputName
    case "homozygous" => MultiClassXent
    case "numDistinctAlleles" => MultiClassXent
    case "combined" => MultiClassXent
    case "metaData" => BinaryXent(true)
    case _ => BinaryXent(false)
  }

  /** Every per-genotype output gets the plain binary loss. */
  lemma OutputLosses(outputName: string)
    requires outputName in GENOTYPE_OUTPUTS
    ensures GetOutputLoss(outputName) == BinaryXent(false)
  {
  }

  class GenotypeDomainDescriptor {
    var ploidy: int
    /** The flags of the input feature mapper (a GenotypeFeatureMapper). */
    const sortCounts: bool
    const withDistinctAlleleCounts: bool
    const withCombinedLayer: bool
    const architectureClassname: string
    /** DomainDescriptor.putProperties: what the base class writes before the ploidy. */
    const basePutProperties: map<string, string> -> map<string, string>

    constructor (ploidy: int, sortCounts: bool, withDistinctAlleleCounts: bool, withCombinedLayer: bool,
                 architectureClassname: string, basePutProperties: map<string, string> -> map<string, string>)
      ensures this.ploidy == ploidy && this.sortCounts == sortCounts
      ensures this.withDistinctAlleleCounts == withDistinctAlleleCounts
      ensures this.withCombinedLayer == withCombinedLayer
      ensures this.architectureClassname == architectureClassname
      ensures this.basePutProperties == basePutProperties
    {
      this.basePutProperties := basePutProperties;
      this.ploidy := ploidy;
      this.sortCounts := sortCounts;
      this.withDistinctAlleleCounts := withDistinctAlleleCounts;
      this.withCombinedLayer := withCombinedLayer;
      this.architectureClassname := architectureClassname;
    }

    /** getLabelMapper: the name table; unknown names are refused. */
    function GetLabelMapper(outputName: string): (r: Result<LabelMapperKind>)
      reads this
      ensures r.Ok? <==> outputName in GENOTYPE_OUTPUTS || outputName in OTHER_OUTPUTS
      ensures r.Fail? ==> r.error.IllegalArgument?
      ensures r.Ok? && r.value.GenotypeLabels? ==>
                r.value.genotypeIndex < |GENOTYPE_OUTPUTS| && GENOTYPE_OUTPUTS[r.value.genotypeIndex] == outputName &&
                r.value.sortCounts == sortCounts
      ensures outputName == "numDistinctAlleles" ==> r == Ok(NumDistinctAllelesLabels(sortCounts, ploidy))
    {
      match GenotypeIndex(outputName)
      case Some(i) => Ok(GenotypeLabels(i, sortCounts))
      case None =>
        match outputName
        case "homozygous" => Ok(HomozygousLabels(sortCounts))
        case "numDistinctAlleles" => Ok(NumDistinctAllelesLabels(sortCounts, ploidy))
        case "combined" => Ok(CombinedLabels)
        case "metaData" => Ok(MetaDataLabels)
        case _ => Fail(IllegalArgument("output name is not recognized: " + outputName))
    }

    /** getPredictionInterpreter: the same name table, with interpreters. */
    function GetPredictionInterpreter(outputName: string): (r: Result<InterpreterKind>)
      reads this
      ensures r.Ok? <==> outputName in GENOTYPE_OUTPUTS || outputName in OTHER_OUTPUTS
      ensures r.Fail? ==> r.error.IllegalArgument?
      ensures r.Ok? && r.value.SingleGenotype? ==>
                r.value.genotypeIndex < |GENOTYPE_OUTPUTS| && GENOTYPE_OUTPUTS[r.value.genotypeIndex] == outputName &&
                r.value.sortCounts == sortCounts
      ensures outputName == "numDistinctAlleles" ==> r == Ok(NumDistinctAllelesInterpreter(ploidy))
    {
      match GenotypeIndex(outputName)
      case Some(i) => Ok(SingleGenotype(i, sortCounts))
      case None =>
        match outputName
        case "homozygous" => Ok(Homozygous(sortCounts))
        case "combined" => Ok(CombinedOutputLayer)
        case "numDistinctAlleles" => Ok(NumDistinctAllelesInterpreter(ploidy))
        case "metaData" => Ok(MetaData)
        case _ => Fail(IllegalArgument("output name is not recognized: " + outputName))
    }

    /** "A", "T", "C", "G", "N", "I1" .. "I5" get genotype indices 0 .. 9, in both tables. */
    lemma GenotypeOutputTable(i: nat)
      requires i < |GENOTYPE_OUTPUTS|
      ensures GetLabelMapper(GENOTYPE_OUTPUTS[i]) == Ok(GenotypeLabels(i, sortCounts))
      ensures GetPredictionInterpreter(GENOTYPE_OUTPUTS[i]) == Ok(SingleGenotype(i, sortCounts))
    {
      var r := GenotypeIndex(GENOTYPE_OUTPUTS[i]);
      assert r.Some?;
      assert GENOTYPE_OUTPUTS[r.value] == GENOTYPE_OUTPUTS[i];
    }

    /** The two tables accept the same names and map each genotype name to the same index. */
    lemma TablesAgree(outputName: string)
      ensures GetLabelMapper(outputName).Ok? <==> GetPredictionInterpreter(outputName).Ok?
      ensures GetLabelMapper(outputName).Ok? && GetLabelMapper(outputName).value.GenotypeLabels? ==>
                GetPredictionInterpreter(outputName).value.SingleGenotype? &&
                GetPredictionInterpreter(outputName).value.genotypeIndex == GetLabelMapper(outputName).value.genotypeIndex
    {
    }

    /**
     * configure: ploidy becomes the parsed "genotypes.ploidy" property; a
     * missing property is a RuntimeException and a non-numeric one a
     * NumberFormatException, both leaving ploidy as it was.
     */
    method Configure(modelProperties: map<string, string>) returns (r: Result<()>)
      modifies this`ploidy
      ensures PLOIDY_PROPERTY !in modelProperties ==> r.Fail? && r.error.Runtime? && ploidy == old(ploidy)
      ensures PLOIDY_PROPERTY in modelProperties ==>
                match ParseInt(modelProperties[PLOIDY_PROPERTY])
                case Some(p) => r.Ok? && ploidy == p
                case None => r.Fail? && r.error.NumberFormat? && ploidy == old(ploidy)
    {
      if PLOIDY_PROPERTY !in modelProperties {
        return Fail(Runtime("property " + PLOIDY_PROPERTY + " must be found in model config.properties"));
      }
      var property := modelProperties[PLOIDY_PROPERTY];
      match ParseInt(property) {
        case None =>
          return Fail(NumberFormat(property));
        case Some(p) =>
          ploidy := p;
          return Ok(());
      }
    }

    /**
     * putProperties: the base class's properties, then the ploidy written as
     * decimal text under "genotypes.ploidy", replacing any earlier value.
     */
    function PutProperties(props: map<string, string>): (r: map<string, string>)
      reads this
      ensures PLOIDY_PROPERTY in r && r[PLOIDY_PROPERTY] == IntToString(ploidy)
      ensures forall k :: k in basePutProperties(props) && k != PLOIDY_PROPERTY ==>
                k in r && r[k] == basePutProperties(props)[k]
      ensures r.Keys == basePutProperties(props).Keys + {PLOIDY_PROPERTY}
    {
      basePutProperties(props)[PLOIDY_PROPERTY := IntToString(ploidy)]
    }

    /** The ploidy written by putProperties parses back to the same value. */
    lemma PloidyRoundTrip(props: map<string, string>)
      requires IsInt32(ploidy)
      ensures ParseInt(PutProperties(props)[PLOIDY_PROPERTY]) == Some(ploidy)
    {
      ParseIntToString(ploidy);
    }

    /** Configuring a fresh descriptor from written properties restores the ploidy. */
    method RoundTrip(props: map<string, string>, other: GenotypeDomainDescriptor) returns (r: Result<()>)
      requires IsInt32(ploidy) && other != this
      modifies other`ploidy
      ensures r.Ok? && other.ploidy == ploidy
    {
      var written := PutProperties(props);
      PloidyRoundTrip(props);
      r := other.Configure(written);
    }

    /** getComputationalGraph: the distinct-allele flag wins over the combined-layer flag. */
    function GetComputationalGraph(): (r: Assembler)
      reads this
      ensures withDistinctAlleleCounts ==> r == NumDistinctAlleleAssembler
      ensures !withDistinctAlleleCounts && withCombinedLayer ==> r == CombinedGenotypeSixDenseLayers
      ensures !withDistinctAlleleCounts && !withCombinedLayer ==> r == ArchitectureClass(architectureClassname)
    {
      if withDistinctAlleleCounts then NumDistinctAlleleAssembler
      else if withCombinedLayer then CombinedGenotypeSixDenseLayers
      else ArchitectureClass(architectureClassname)
    }

    /** aggregatePredictions: the same precedence, and refused when neither flag is set. */
    function AggregatePredictions(): (r: Result<AggregatePrediction>)
      reads this
      ensures r.Ok? <==> withDistinctAlleleCounts || withCombinedLayer
      ensures r.Fail? ==> r.error.IllegalArgument?
      ensures withDistinctAlleleCounts ==> r == Ok(NumDistinctIndelGenotypePrediction)
      ensures !withDistinctAlleleCounts && withCombinedLayer ==> r == Ok(CombinedGenotypePrediction)
    {
      if withDistinctAlleleCounts then Ok(NumDistinctIndelGenotypePrediction)
      else if withCombinedLayer then Ok(CombinedGenotypePrediction)
      else Fail(IllegalArgument("The type of aggregate prediction is not recognized."))
    }

    /** Graph and aggregate follow the same flag. */
    lemma GraphAndAggregateAgree()
      ensures AggregatePredictions() == Ok(NumDistinctIndelGenotypePrediction) <==>
                GetComputationalGraph() == NumDistinctAlleleAssembler
      ensures AggregatePredictions() == Ok(CombinedGenotypePrediction) <==>
                GetComputationalGraph() == CombinedGenotypeSixDenseLayers
    {
    }
  }
}
