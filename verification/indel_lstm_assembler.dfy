/**
 * GenotypeSixDenseLayersWithIndelLSTM: the output and input name tables its
 * constructor derives from its flags, the input type of each input, and the
 * integer sizes createComputationalGraph derives from its arguments.
 */
module IndelLstmAssembler {
  import opened JavaLang

  datatype OutputType = Homozygous | DistinctAlleles | Combined | SoftmaxGenotype

  const DEFAULT_OUTPUT_TYPE: OutputType := DistinctAlleles

  /** The per-genotype outputs, in genotype order. */
  const BASIC_OUTPUT_NAMES: seq<string> := ["A", "T", "C", "G", "N", "I1", "I2", "I3", "I4", "I5"]

  /** The recurrent inputs, each read by a stack of LSTM layers. */
  const LSTM_INPUT_NAMES: seq<string> := ["from", "G1", "G2", "G3"]

  /** The assembler's final name tables. */
  datatype Assembler = Assembler(
    outputType: OutputType,
    hasIsVariant: bool,
    addTrueGenotypeLabels: bool,
    combined: string,
    outputNames: seq<string>,
    inputNames: seq<string>)

  /** The output list, case by case, as the constructor's switch lays it out. */
  function OutputNames(outputType: OutputType, hasIsVariant: bool, addTrueGenotypeLabels: bool, combined: string)
    : (names: seq<string>)
    ensures |names| >= 2 && names[0] == HeadOutput(outputType, combined)
    ensures |names| == (if HasGenotypeOutputs(outputType) then 12 else 2) + (if hasIsVariant then 1 else 0)
                       + (if addTrueGenotypeLabels && outputType != SoftmaxGenotype then 1 else 0)
  {
    match outputType
    case SoftmaxGenotype =>
      if hasIsVariant then ["softmaxGenotype", "metaData", "isVariant"]
      else ["softmaxGenotype", "metaData"]
    case DistinctAlleles =>
      if hasIsVariant then
        if addTrueGenotypeLabels then
          ["numDistinctAlleles", "A", "T", "C", "G", "N", "I1", "I2", "I3", "I4", "I5", "metaData", "isVariant", "trueGenotype"]
        else
          ["numDistinctAlleles", "A", "T", "C", "G", "N", "I1", "I2", "I3", "I4", "I5", "metaData", "isVariant"]
      else
        if addTrueGenotypeLabels then
          ["numDistinctAlleles", "A", "T", "C", "G", "N", "I1", "I2", "I3", "I4", "I5", "metaData", "trueGenotype"]
        else
          ["numDistinctAlleles", "A", "T", "C", "G", "N", "I1", "I2", "I3", "I4", "I5", "metaData"]
    case Combined =>
      if hasIsVariant then
        if addTrueGenotypeLabels then [combined, "metaData", "isVariant", "trueGenotype"]
        else [combined, "metaData", "isVariant"]
      else
        if addTrueGenotypeLabels then [combined, "metaData", "trueGenotype"]
        else [combined, "metaData"]
    case Homozygous =>
      if hasIsVariant then
        if addTrueGenotypeLabels then
          ["homozygous", "A", "T", "C", "G", "N", "I1", "I2", "I3", "I4", "I5", "metaData", "isVariant", "trueGenotype"]
        else
          ["homozygous", "A", "T", "C", "G", "N", "I1", "I2", "I3", "I4", "I5", "metaData", "isVariant"]
      else
        if addTrueGenotypeLabels then
          ["homozygous", "A", "T", "C", "G", "N", "I1", "I2", "I3", "I4", "I5", "metaData", "trueGenotype"]
        else
          ["homozygous", "A", "T", "C", "G", "N", "I1", "I2", "I3", "I4", "I5", "metaData"]
  }

  /** The constructor: combined is "combinedRef" iff fixRef, and the two name tables follow the flags. */
  function NewAssembler(outputType: OutputType, hasIsVariant: bool, fixRef: bool, addTrueGenotypeLabels: bool): (a: Assembler)
    ensures a.outputType == outputType && a.hasIsVariant == hasIsVariant
    ensures a.addTrueGenotypeLabels == addTrueGenotypeLabels
    ensures a.combined == (if fixRef then "combinedRef" else "combined")
    ensures a.inputNames == ["input"] + LSTM_INPUT_NAMES + (if addTrueGenotypeLabels then ["trueGenotypeInput"] else [])
  {
    var combined := if fixRef then "combinedRef" else "combined";
    var inputNames :=
      if addTrueGenotypeLabels then ["input", "from", "G1", "G2", "G3", "trueGenotypeInput"]
      else ["input", "from", "G1", "G2", "G3"];
    Assembler(outputType, hasIsVariant, addTrueGenotypeLabels, combined,
              OutputNames(outputType, hasIsVariant, addTrueGenotypeLabels, combined), inputNames)
  }

  /** The no-argument constructor. */
  function DefaultAssembler(): (a: Assembler)
    ensures a == NewAssembler(DistinctAlleles, false, false, false)
    ensures a.outputNames == ["numDistinctAlleles"] + BASIC_OUTPUT_NAMES + ["metaData"]
  {
    NewAssembler(DEFAULT_OUTPUT_TYPE, false, false, false)
  }

  /** The output that heads the list for each output type. */
  function HeadOutput(outputType: OutputType, combined: string): string {
    match outputType
    case SoftmaxGenotype => "softmaxGenotype"
    case DistinctAlleles => "numDistinctAlleles"
    case Combined => combined
    case Homozygous => "homozygous"
  }

  /** Whether the output type carries the ten per-genotype outputs. */
  predicate HasGenotypeOutputs(outputType: OutputType) {
    outputType == DistinctAlleles || outputType == Homozygous
  }

  /** The layout of one output type, under all four flag combinations. */
  lemma LayoutOf(outputType: OutputType, hasIsVariant: bool, addTrueGenotypeLabels: bool, combined: string)
    ensures OutputNames(outputType, hasIsVariant, addTrueGenotypeLabels, combined) ==
        [HeadOutput(outputType, combined)]
        + (if HasGenotypeOutputs(outputType) then BASIC_OUTPUT_NAMES else [])
        + ["metaData"]
        + (if hasIsVariant then ["isVariant"] else [])
        + (if addTrueGenotypeLabels && outputType != SoftmaxGenotype then ["trueGenotype"] else [])
  {
    match outputType
    case SoftmaxGenotype => SoftmaxLayout(hasIsVariant, addTrueGenotypeLabels, combined);
    case DistinctAlleles => GenotypeLayout(outputType, hasIsVariant, addTrueGenotypeLabels, combined);
    case Homozygous => GenotypeLayout(outputType, hasIsVariant, addTrueGenotypeLabels, combined);
    case Combined => CombinedLayout(hasIsVariant, addTrueGenotypeLabels, combined);
  }

  lemma SoftmaxLayout(hasIsVariant: bool, addTrueGenotypeLabels: bool, combined: string)
    ensures OutputNames(SoftmaxGenotype, hasIsVariant, addTrueGenotypeLabels, combined) ==
        ["softmaxGenotype", "metaData"] + (if hasIsVariant then ["isVariant"] else [])
  {
  }

  lemma CombinedLayout(hasIsVariant: bool, addTrueGenotypeLabels: bool, combined: string)
    ensures OutputNames(Combined, hasIsVariant, addTrueGenotypeLabels, combined) ==
        [combined, "metaData"] + (if hasIsVariant then ["isVariant"] else [])
        + (if addTrueGenotypeLabels then ["trueGenotype"] else [])
  {
  }

  lemma GenotypeLayout(outputType: OutputType, hasIsVariant: bool, addTrueGenotypeLabels: bool, combined: string)
    requires HasGenotypeOutputs(outputType)
    ensures OutputNames(outputType, hasIsVariant, addTrueGenotypeLabels, combined) ==
        [HeadOutput(outputType, combined)] + BASIC_OUTPUT_NAMES + ["metaData"]
        + (if hasIsVariant then ["isVariant"] else [])
        + (if addTrueGenotypeLabels then ["trueGenotype"] else [])
  {
    var tail := (if hasIsVariant then ["isVariant"] else []) + (if addTrueGenotypeLabels then ["trueGenotype"] else []);
    assert OutputNames(outputType, hasIsVariant, addTrueGenotypeLabels, combined) ==
      [HeadOutput(outputType, combined)] + BASIC_OUTPUT_NAMES + ["metaData"] + tail
    by {
      if outputType == DistinctAlleles {
        DistinctAllelesLayout(hasIsVariant, addTrueGenotypeLabels, combined);
      } else {
        HomozygousLayout(hasIsVariant, addTrueGenotypeLabels, combined);
      }
    }
  }

  lemma DistinctAllelesLayout(hasIsVariant: bool, addTrueGenotypeLabels: bool, combined: string)
    ensures OutputNames(DistinctAlleles, hasIsVariant, addTrueGenotypeLabels, combined) ==
        ["numDistinctAlleles"] + BASIC_OUTPUT_NAMES + ["metaData"]
        + ((if hasIsVariant then ["isVariant"] else []) + (if addTrueGenotypeLabels then ["trueGenotype"] else []))
  {
  }

  lemma HomozygousLayout(hasIsVariant: bool, addTrueGenotypeLabels: bool, combined: string)
    ensures OutputNames(Homozygous, hasIsVariant, addTrueGenotypeLabels, combined) ==
        ["homozygous"] + BASIC_OUTPUT_NAMES + ["metaData"]
        + ((if hasIsVariant then ["isVariant"] else []) + (if addTrueGenotypeLabels then ["trueGenotype"] else []))
  {
  }

  /**
   * The output table in one formula: the head output, then A .. I5 for the
   * distinct-allele and homozygous types, then metaData, then isVariant iff
   * hasIsVariant, then trueGenotype iff asked for and the type is not
   * SOFTMAX_GENOTYPE.
   */
  lemma OutputNamesLayout(outputType: OutputType, hasIsVariant: bool, fixRef: bool, addTrueGenotypeLabels: bool)
    ensures var a := NewAssembler(outputType, hasIsVariant, fixRef, addTrueGenotypeLabels);
      a.outputNames ==
        [HeadOutput(outputType, a.combined)]
        + (if HasGenotypeOutputs(outputType) then BASIC_OUTPUT_NAMES else [])
        + ["metaData"]
        + (if hasIsVariant then ["isVariant"] else [])
        + (if addTrueGenotypeLabels && outputType != SoftmaxGenotype then ["trueGenotype"] else [])
  {
    LayoutOf(outputType, hasIsVariant, addTrueGenotypeLabels, if fixRef then "combinedRef" else "combined");
  }

  /** Membership in any list laid out as head, genotype block, metaData, then the two optional outputs. */
  lemma LayoutMembership(names: seq<string>, head: string, genotypes: seq<string>, variant: bool, truth: bool)
    requires head != "isVariant" && head != "trueGenotype"
    requires "isVariant" !in genotypes && "trueGenotype" !in genotypes
    requires names == [head] + genotypes + ["metaData"] + (if variant then ["isVariant"] else [])
      + (if truth then ["trueGenotype"] else [])
    ensures "metaData" in names && names[0] == head
    ensures "isVariant" in names <==> variant
    ensures "trueGenotype" in names <==> truth
    ensures forall i :: 0 <= i < |genotypes| ==> names[i + 1] == genotypes[i]
  {
    var front := [head] + genotypes;
    assert names[|front|] == "metaData";
    assert names[0] == head;
    forall i | 0 <= i < |genotypes| ensures names[i + 1] == genotypes[i] {
      assert names[i + 1] == front[i + 1];
    }
    if variant {
      assert names[|front| + 1] == "isVariant";
    }
    if truth {
      assert names[|names| - 1] == "trueGenotype";
    }
  }

  /** Membership consequences of the layout: metaData always, isVariant and trueGenotype exactly when asked for. */
  lemma OutputMembership(outputType: OutputType, hasIsVariant: bool, fixRef: bool, addTrueGenotypeLabels: bool)
    ensures var a := NewAssembler(outputType, hasIsVariant, fixRef, addTrueGenotypeLabels);
      && "metaData" in a.outputNames
      && ("isVariant" in a.outputNames <==> hasIsVariant)
      && ("trueGenotype" in a.outputNames <==> addTrueGenotypeLabels && outputType != SoftmaxGenotype)
      && (HasGenotypeOutputs(outputType) ==>
            forall i :: 0 <= i < |BASIC_OUTPUT_NAMES| ==> a.outputNames[i + 1] == BASIC_OUTPUT_NAMES[i])
      && (outputType == Combined ==> a.outputNames[0] == (if fixRef then "combinedRef" else "combined"))
  {
    var a := NewAssembler(outputType, hasIsVariant, fixRef, addTrueGenotypeLabels);
    OutputNamesLayout(outputType, hasIsVariant, fixRef, addTrueGenotypeLabels);
    LayoutMembership(a.outputNames, HeadOutput(outputType, a.combined),
                     if HasGenotypeOutputs(outputType) then BASIC_OUTPUT_NAMES else [],
                     hasIsVariant, addTrueGenotypeLabels && outputType != SoftmaxGenotype);
  }

  /** The shape of one input of the graph. */
  datatype InputType = FeedForward(size: int) | Recurrent(size: int)

  /** getInputTypes' switch on one input name; any other name is a RuntimeException. */
  function InputTypeOf(inputName: string, numInputs: string -> int): (r: Result<InputType>)
    ensures r.Ok? <==> inputName in ["input"] + LSTM_INPUT_NAMES + ["trueGenotypeInput"]
    ensures inputName == "input" ==> r == Ok(FeedForward(numInputs(inputName)))
    ensures inputName in LSTM_INPUT_NAMES + ["trueGenotypeInput"] ==> r == Ok(Recurrent(numInputs(inputName)))
  {
    match inputName
    case "input" => Ok(FeedForward(numInputs(inputName)))
    case "from" => Ok(Recurrent(numInputs(inputName)))
    case "G1" => Ok(Recurrent(numInputs(inputName)))
    case "G2" => Ok(Recurrent(numInputs(inputName)))
    case "G3" => Ok(Recurrent(numInputs(inputName)))
    case "trueGenotypeInput" => Ok(Recurrent(numInputs(inputName)))
    case _ => Fail(Runtime("Invalid input to computation graph"))
  }

  /**
   * getInputTypes: one input type per input name, in order, or the first
   * failure. numInputs stands for the domain descriptor's getNumInputs(name)[0].
   */
  method GetInputTypes(a: Assembler, numInputs: string -> int) returns (r: Result<seq<InputType>>)
    ensures r.Ok? <==> forall i :: 0 <= i < |a.inputNames| ==> InputTypeOf(a.inputNames[i], numInputs).Ok?
    ensures r.Ok? ==> |r.value| == |a.inputNames|
    ensures r.Ok? ==> forall i :: 0 <= i < |a.inputNames| ==> Ok(r.value[i]) == InputTypeOf(a.inputNames[i], numInputs)
    ensures r.Fail? ==> r.error.Runtime?
  {
    var inputTypes: seq<InputType> := [];
    var i := 0;
    while i < |a.inputNames|
      invariant 0 <= i <= |a.inputNames| && |inputTypes| == i
      invariant forall k :: 0 <= k < i ==> Ok(inputTypes[k]) == InputTypeOf(a.inputNames[k], numInputs)
    {
      var t := InputTypeOf(a.inputNames[i], numInputs);
      if t.Fail? {
        return Fail(t.error);
      }
      inputTypes := inputTypes + [t.value];
      i := i + 1;
    }
    return Ok(inputTypes);
  }

  /** Every input name the constructor produces has a type: "input" feed-forward, the rest recurrent. */
  lemma InputTypesOfConstructedAssembler(outputType: OutputType, hasIsVariant: bool, fixRef: bool,
                                         addTrueGenotypeLabels: bool, numInputs: string -> int, i: int)
    requires 0 <= i < |NewAssembler(outputType, hasIsVariant, fixRef, addTrueGenotypeLabels).inputNames|
    ensures var name := NewAssembler(outputType, hasIsVariant, fixRef, addTrueGenotypeLabels).inputNames[i];
      InputTypeOf(name, numInputs) ==
        if i == 0 then Ok(FeedForward(numInputs("input"))) else Ok(Recurrent(numInputs(name)))
  {
    var names := NewAssembler(outputType, hasIsVariant, fixRef, addTrueGenotypeLabels).inputNames;
    assert names[0] == "input";
    if i > 0 {
      assert names[i] in LSTM_INPUT_NAMES + ["trueGenotypeInput"];
    }
  }

  /** Math.max(1, n): the layer counts createComputationalGraph uses. */
  function AtLeastOne(n: int): (r: int)
    ensures r >= 1 && r >= n
    ensures n >= 1 ==> r == n
  {
    if 1 >= n then 1 else n
  }

  /** The vertices merged before the dense layers: each LSTM input's last time step, then "input". */
  function MergeInputs(): (r: seq<string>)
    ensures |r| == |LSTM_INPUT_NAMES| + 1
    ensures forall i :: 0 <= i < |LSTM_INPUT_NAMES| ==> r[i] == "lstm" + LSTM_INPUT_NAMES[i] + "LastTimeStepVertex"
    ensures r[|LSTM_INPUT_NAMES|] == "input"
  {
    seq(|LSTM_INPUT_NAMES|, i requires 0 <= i < |LSTM_INPUT_NAMES| => "lstm" + LSTM_INPUT_NAMES[i] + "LastTimeStepVertex")
      + ["input"]
  }

  /**
   * The width of the merged layer: the feed-forward inputs plus one hidden
   * vector per LSTM input, an int expression that wraps around.
   */
  function MergedWidth(numInputs: int, numLstmIndelHiddenNodes: int): (w: int)
    ensures IsInt32(w)
    ensures var exact := numInputs + |MergeInputs()[..|LSTM_INPUT_NAMES|]| * numLstmIndelHiddenNodes;
            IsInt32(exact) ==> w == exact
    ensures IsInt32(numInputs + 4 * numLstmIndelHiddenNodes) ==> w == numInputs + 4 * numLstmIndelHiddenNodes
  {
    Wrap32(numInputs + |LSTM_INPUT_NAMES| * numLstmIndelHiddenNodes)
  }
}
