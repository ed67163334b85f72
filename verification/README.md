# Feature and label mapping in variationanalysis, modelled in Dafny

variationanalysis trains deep-learning models that call genotypes and somatic
variations from sequencing data. Each genomic site is a `BaseInformation` record
(reference id, position, reference base, true genotype, a `mutated` flag and
per-sample genotype counts). Feature mappers turn a record into one row of
floats for the network. Label mappers turn it into the row of expected outputs.

This project models that mapping layer and the tools around it:

- `ConcatFeatureMapper` (module `FeatureMappers`) lays its children's features
  side by side. It keeps only children with at least one feature, records their
  start offsets, and finds a feature's owner with a binary search over the
  offsets. It also concatenates masks.
- `GenotypeMapperV38` and `GenotypeMapperV4` (module `GenotypeMappers`) read
  the ploidy and the genomic context length from the reader properties. They
  build arrays of per-genotype mappers and wire them into a composition tree.
  The tree is modelled as a `MapperSpec` value. A `mappers` parameter turns a
  spec into the behaviour of the collaborator classes.
- `SimpleFeatureCalculator` (module `SomaticFeatures`) emits germline and
  tumor strand counts, normalised by their sum, and a two-slot mutated label.
- `SingleReadIndexCountMapper` (module `ReadIndexCount`) counts the distinct
  read indices behind one genotype, strand and sample, gives -1 when the
  record lacks them, and fails when a negative index reaches the record.
- `NumDistinctAllelesLabelMapper` (module `DistinctAllelesLabel`) gives a
  label-smoothed one-hot over the number of distinct alleles, 0 .. ploidy.
- `SegmentLabelMapper` (module `SegmentLabels`) enumerates the genotype labels
  of a given ploidy over the alleles `A C T G -`.
- `ProtoPredictor.compressFreq` (module `ProtoPredictor`) turns a list of
  numbers into a (number, frequency) histogram in first-occurrence order.
- `GenotypeDomainDescriptor` (module `GenotypeDomain`) maps output names to
  label mappers, interpreters and losses. It round-trips the ploidy property.
- `GenotypeSixDenseLayersWithIndelLSTM` (module `IndelLstmAssembler`) fixes the
  output and input names of the computation graph and their input types.
- `CombineWithGoldStandard` (module `GoldStandard`) loads tab-separated
  mutation annotations, marks records as mutated, and samples what it writes.
- `SBISimulator` (module `SbiSimulator`) parses count-creation instructions
  such as `A/T=10+12` into records, fills up missing base counts, and chooses
  chromosomes.

Shared Java behaviour lives in `JavaLang`: 32-bit wrap-around, `Integer.parseInt`,
`Integer.toString` and `String.split`. Shared record types live in `Records`.
Java floats are modelled as `real`. Exceptions become a `Result` with an error
kind. An `assert` that states what a caller must pass becomes a `requires`:
the equal-dimensions check of the `ConcatFeatureMapper` constructor, the index
checks of `SingleReadIndexCountMapper.produceFeatureInternal` and of
`SimpleFeatureCalculator.getFeatureName`, `produceFeatureInternal` and
`produceLabel`, and the "prepareToNormalize first" checks of the `mapFeatures`
methods. Two asserts are not preconditions. `SBISimulator.makeRecord` asserts
four tokens per instruction, but it only reads the first four, so the model
parses any line with at least four. `GenotypeMapperV38.configure` asserts that
the context-size property exists, but Java assertions are off by default, so a
missing property is the NullPointerException of `Float.parseFloat`.

The model keeps the code's own names and constants, including the
`normGomaticReverseCount` spelling that `SimpleFeatureCalculator.getFeatureName`
gives the tumor reverse-strand slots.

## Model

| member | source | states |
|---|---|---|
| FeatureMappers.Offsets | framework/src/main/java/org/campagnelab/dl/framework/mappers/ConcatFeatureMapper.java:44-54 | the offsets table has one more entry than there are children, starts at 0 and ends at the total feature count |
| FeatureMappers.OffsetsStep | framework/src/main/java/org/campagnelab/dl/framework/mappers/ConcatFeatureMapper.java:47-50 | each offset is the previous offset plus that child's feature count |
| FeatureMappers.OffsetsAppend | framework/src/main/java/org/campagnelab/dl/framework/mappers/ConcatFeatureMapper.java:47-53 | adding a child appends one offset equal to the new total |
| FeatureMappers.OffsetsMonotone | framework/src/main/java/org/campagnelab/dl/framework/mappers/ConcatFeatureMapper.java:44-54 | offsets never decrease |
| FeatureMappers.OffsetsStrictlyIncrease | framework/src/main/java/org/campagnelab/dl/framework/mappers/ConcatFeatureMapper.java:36-54 | once empty children are dropped, offsets strictly increase, so the binary search sees distinct keys |
| FeatureMappers.LinearOwner | framework/src/main/java/org/campagnelab/dl/framework/mappers/ConcatFeatureMapper.java:132-138 | every global feature index below the total lies in exactly the half-open offset range of the child it returns |
| FeatureMappers.SlotInRange | framework/src/main/java/org/campagnelab/dl/framework/mappers/ConcatFeatureMapper.java:132-138 | an index inside some child's offset range is a valid global feature index |
| FeatureMappers.OwnerUnique | framework/src/main/java/org/campagnelab/dl/framework/mappers/ConcatFeatureMapper.java:132-138 | the owning child of a feature index is unique: any child whose range holds the index is the one `LinearOwner` returns |
| FeatureMappers.Counts | framework/src/main/java/org/campagnelab/dl/framework/mappers/ConcatFeatureMapper.java:31-35 | the count list holds each child's number of features, in order |
| FeatureMappers.Retained | framework/src/main/java/org/campagnelab/dl/framework/mappers/ConcatFeatureMapper.java:36-43 | the kept children all have at least one feature and are no more than the inputs |
| FeatureMappers.RetainedAppend | framework/src/main/java/org/campagnelab/dl/framework/mappers/ConcatFeatureMapper.java:36-43 | the filter distributes over concatenation, so it keeps the children's order |
| FeatureMappers.RetainedSum | framework/src/main/java/org/campagnelab/dl/framework/mappers/ConcatFeatureMapper.java:31-58 | dropping empty children does not change the total number of features |
| FeatureMappers.RetainedMask | framework/src/main/java/org/campagnelab/dl/framework/mappers/ConcatFeatureMapper.java:36-43 | the concatenation needs a mask exactly when some kept child with features has a mask |
| FeatureMappers.ConcatProduceAt | framework/src/main/java/org/campagnelab/dl/framework/mappers/ConcatFeatureMapper.java:132-138 | feature `offset[k] + j` of the concatenation is feature `j` of child `k`, for both values and masks |
| FeatureMappers.ScenarioTwoZeroThree | framework/src/main/java/org/campagnelab/dl/framework/mappers/ConcatFeatureMapper.java:21-58 | children with 2, 0 and 3 features give 5 features; the empty child is dropped and feature 4 is the third child's feature 2 |
| FeatureMappers.BinarySearch | framework/src/main/java/org/campagnelab/dl/framework/mappers/ConcatFeatureMapper.java:133-136 | on a sorted array it returns the key's index, or `-(insertion point) - 1` with every element before the point below the key and every one after above it, as `java.util.Arrays.binarySearch` promises |
| FeatureMappers.FloorSearch | framework/src/main/java/org/campagnelab/dl/framework/mappers/ConcatFeatureMapper.java:133-136 | the binary-search decode over the offsets returns the owning child, equal to `LinearOwner`, with `offsets[k] <= g < offsets[k+1]` |
| FeatureMappers.KeepWithFeatures | framework/src/main/java/org/campagnelab/dl/framework/mappers/ConcatFeatureMapper.java:36-43 | the array of kept mappers equals the filter over the children; the mask flag says whether any kept mapper has a mask |
| FeatureMappers.CountWithFeatures | framework/src/main/java/org/campagnelab/dl/framework/mappers/ConcatFeatureMapper.java:31-35 | the first pass counts exactly the children that will be kept |
| FeatureMappers.LayOutOffsets | framework/src/main/java/org/campagnelab/dl/framework/mappers/ConcatFeatureMapper.java:44-54 | the offsets array equals the offsets table of the kept counts; the total is their sum |
| FeatureMappers.ConcatFeatureMapper.constructor | framework/src/main/java/org/campagnelab/dl/framework/mappers/ConcatFeatureMapper.java:21-58 | builds a valid mapper over the given children; the no-argument form leaves the arrays null |
| FeatureMappers.ConcatFeatureMapper.NumberOfFeatures | framework/src/main/java/org/campagnelab/dl/framework/mappers/ConcatFeatureMapper.java:61-64 | the number of features is the sum of the children's counts, and 0 with no children |
| FeatureMappers.ConcatFeatureMapper.HasMask | framework/src/main/java/org/campagnelab/dl/framework/mappers/ConcatFeatureMapper.java:98-101 | a mask is needed exactly when some child with features has one |
| FeatureMappers.ConcatFeatureMapper.PrepareToNormalize | framework/src/main/java/org/campagnelab/dl/framework/mappers/ConcatFeatureMapper.java:72-77 | a mapper built with no children has a null mapper array and fails with a NullPointerException, leaving the flag unset; otherwise every kept mapper, in order, is asked to prepare and the normalise flag is set |
| FeatureMappers.ConcatFeatureMapper.ProduceFeature | framework/src/main/java/org/campagnelab/dl/framework/mappers/ConcatFeatureMapper.java:132-138 | the value is the owning child's feature at the index relative to that child's offset |
| FeatureMappers.ConcatFeatureMapper.IsMasked | framework/src/main/java/org/campagnelab/dl/framework/mappers/ConcatFeatureMapper.java:122-129 | without a mask nothing is masked; otherwise the owning child's mask bit is returned |
| FeatureMappers.ConcatFeatureMapper.MapFeatures | framework/src/main/java/org/campagnelab/dl/framework/mappers/ConcatFeatureMapper.java:81-95 | a mapper built with no children fails with a NullPointerException; otherwise the record's row holds every concatenated feature; other rows and columns are unchanged |
| FeatureMappers.ConcatFeatureMapper.MaskFeatures | framework/src/main/java/org/campagnelab/dl/framework/mappers/ConcatFeatureMapper.java:104-119 | without a mask nothing is written; otherwise the row holds 1 or 0 per feature from the owning child's mask; other cells are unchanged |
| FeatureMappers.Owner | framework/src/main/java/org/campagnelab/dl/framework/mappers/ConcatFeatureMapper.java:132-138 | decomposes a global index into a child and an index inside it, with `g == offset[k] + j` |
| FeatureMappers.FillConcat | framework/src/main/java/org/campagnelab/dl/framework/mappers/ConcatFeatureMapper.java:81-95 | filling child by child writes each global column from its owning child, and nothing else |
| FeatureMappers.FillRow | framework/src/main/java/org/campagnelab/dl/framework/mappers/ConcatFeatureMapper.java:85-93 | writes one child's slice of the row and leaves every other cell as it was |
| GenotypeMappers.ResolveTraversal | genotype/src/main/java/org/campagnelab/dl/genotype/mappers/GenotypeMapperV38.java:185-187 | resolving the sample index replaces only the mapper's live sample reference and keeps the genotype it reads |
| GenotypeMappers.Resolve | genotype/src/main/java/org/campagnelab/dl/genotype/mappers/GenotypeMapperV38.java:185-187 | in a whole tree, only mappers that read the live sample index take the current value; targets and strands are kept |
| GenotypeMappers.StrandedColumnAt | genotype/src/main/java/org/campagnelab/dl/genotype/mappers/GenotypeMapperV38.java:72-97 | the i-th entry of a two-strand array is the forward mapper of genotype i for i < MAX, else the reverse mapper of genotype i - MAX |
| GenotypeMappers.GenotypeColumnAt | genotype/src/main/java/org/campagnelab/dl/genotype/mappers/GenotypeMapperV38.java:72-132 | the i-th entry of a per-genotype array is the mapper for genotype i |
| GenotypeMappers.StrandedLayout | genotype/src/main/java/org/campagnelab/dl/genotype/mappers/GenotypeMapperV38.java:72-97 | every entry of a two-strand array targets genotype `i mod MAX` on the strand `i < MAX` |
| GenotypeMappers.GenotypeLayout | genotype/src/main/java/org/campagnelab/dl/genotype/mappers/GenotypeMapperV38.java:72-132 | every entry of a per-genotype array targets genotype i |
| GenotypeMappers.GenotypeColumnSample | genotype/src/main/java/org/campagnelab/dl/genotype/mappers/GenotypeMapperV38.java:72-150 | entries built from a density lambda follow the live sample index; the others capture the sample index at configure time |
| GenotypeMappers.StrandedColumnSample | genotype/src/main/java/org/campagnelab/dl/genotype/mappers/GenotypeMapperV38.java:72-97 | the same split between live and captured sample index for the two-strand arrays |
| GenotypeMappers.GenotypeColumnAfterSetSampleIndex | genotype/src/main/java/org/campagnelab/dl/genotype/mappers/GenotypeMapperV38.java:185-187 | after `setSampleIndex(t)`, live entries read sample t, captured entries keep the old one, and targets are unchanged |
| GenotypeMappers.StrandedColumnAfterSetSampleIndex | genotype/src/main/java/org/campagnelab/dl/genotype/mappers/GenotypeMapperV38.java:185-187 | the same after `setSampleIndex(t)` for the two-strand arrays |
| GenotypeMappers.ConfiguredMaxGenotypes | genotype/src/main/java/org/campagnelab/dl/genotype/mappers/GenotypeMapperV38.java:41-46 | MAX is 3 without a ploidy property, otherwise ploidy + 1 with 32-bit wrap-around; a malformed ploidy is a NumberFormatException |
| GenotypeMappers.ContextLength | genotype/src/main/java/org/campagnelab/dl/genotype/mappers/GenotypeMapperV38.java:48-50 | a missing context-size property is a NullPointerException; otherwise the float-to-int conversion decides |
| GenotypeMappers.AllocatableFits | genotype/src/main/java/org/campagnelab/dl/genotype/mappers/GenotypeMapperV38.java:52-67 | when the arrays of size MAX * 2 can be allocated, MAX * 2 does not overflow |
| GenotypeMappers.PloidyFromDescriptor | genotype/src/main/java/org/campagnelab/dl/genotype/mappers/GenotypeMapperV38.java:41-46 | a ploidy written by `GenotypeDomainDescriptor.putProperties` is read back as MAX = ploidy + 1 |
| GenotypeMappers.V4Layout | genotype/src/main/java/org/campagnelab/dl/genotype/mappers/GenotypeMapperV4.java:32-50 | V4's arrays: counts and read indices on both strands of genotypes 0 .. 2, and matches-reference for 0 .. 2 |
| GenotypeMappers.V38StrandedArrays | genotype/src/main/java/org/campagnelab/dl/genotype/mappers/GenotypeMapperV38.java:72-132 | the four two-strand arrays have size 2 * MAX and hold the count, read-index, mapping-quality and base-quality mappers at the right genotype and strand |
| GenotypeMappers.V38GenotypeArrays | genotype/src/main/java/org/campagnelab/dl/genotype/mappers/GenotypeMapperV38.java:72-132 | the per-genotype arrays hold matches-reference, bam flag, original index and the seven density mappers for genotype i |
| GenotypeMappers.V38DistanceCaps | genotype/src/main/java/org/campagnelab/dl/genotype/mappers/GenotypeMapperV38.java:98-109 | distance densities are capped to [-50, 50] and to [0, context / 2], with Java's truncating division |
| GenotypeMappers.FirstPassStepFills | genotype/src/main/java/org/campagnelab/dl/genotype/mappers/GenotypeMapperV38.java:72-132 | one step of the first loop extends all arrays filled up to g to arrays filled up to g + 1 |
| GenotypeMappers.SecondPassStepFills | genotype/src/main/java/org/campagnelab/dl/genotype/mappers/GenotypeMapperV38.java:134-150 | one step of the second loop fills the next reverse-strand slot |
| GenotypeMappers.FillV38Arrays | genotype/src/main/java/org/campagnelab/dl/genotype/mappers/GenotypeMapperV38.java:52-150 | the two loops fill every array exactly as the column specifications say |
| GenotypeMappers.GenotypeMapperV38.constructor | genotype/src/main/java/org/campagnelab/dl/genotype/mappers/GenotypeMapperV38.java:27-35 | records the sample index with MAX 3 and the fixed flags; nothing is configured yet |
| GenotypeMappers.GenotypeMapperV38.ForFirstSample | genotype/src/main/java/org/campagnelab/dl/genotype/mappers/GenotypeMapperV38.java:23-25 | the no-argument constructor reads sample 0 |
| GenotypeMappers.GenotypeMapperV38.Configure | genotype/src/main/java/org/campagnelab/dl/genotype/mappers/GenotypeMapperV38.java:40-183 | each failure (ploidy, context, negative array size) leaves the delegate unchanged; success builds the composition tree over the filled arrays and sets the feature count from it |
| GenotypeMappers.GenotypeMapperV38.SetSampleIndex | genotype/src/main/java/org/campagnelab/dl/genotype/mappers/GenotypeMapperV38.java:185-187 | updates the sample index that live mappers read |
| GenotypeMappers.GenotypeMapperV38.MapFeatures | genotype/src/main/java/org/campagnelab/dl/genotype/mappers/GenotypeMapperV38.java:189-213 | writes the delegate's features into the record's row and nothing else |
| GenotypeMappers.GenotypeMapperV38.NumberOfFeatures | genotype/src/main/java/org/campagnelab/dl/genotype/mappers/GenotypeMapperV38.java:194-197 | the feature count of the delegate tree, with its sample-index lambdas resolved against the current field |
| GenotypeMappers.GenotypeMapperV38.GetFeatureName | genotype/src/main/java/org/campagnelab/dl/genotype/mappers/GenotypeMapperV38.java:189-192 | the delegate's name for the feature |
| GenotypeMappers.GenotypeMapperV38.ProduceFeature | genotype/src/main/java/org/campagnelab/dl/genotype/mappers/GenotypeMapperV38.java:210-213 | the delegate's value for the feature, read with the sample index the field holds at call time |
| GenotypeMappers.GenotypeMapperV4.constructor | genotype/src/main/java/org/campagnelab/dl/genotype/mappers/GenotypeMapperV4.java:22-25 | starts with sample 0, sorted counts and the combined layer, unconfigured |
| GenotypeMappers.GenotypeMapperV4.Configure | genotype/src/main/java/org/campagnelab/dl/genotype/mappers/GenotypeMapperV4.java:30-74 | the delegate is the V4 composition tree and the feature count is its count |
| GenotypeMappers.GenotypeMapperV4.MapFeatures | genotype/src/main/java/org/campagnelab/dl/genotype/mappers/GenotypeMapperV4.java:77-104 | writes the delegate's features into the record's row and nothing else |
| GenotypeMappers.GenotypeMapperV4.SetSampleIndex | genotype/src/main/java/org/campagnelab/dl/genotype/mappers/GenotypeMapperV4.java:19 | the inherited setter changes the sample index and nothing else; the tree built by configure stays |
| GenotypeMappers.GenotypeMapperV4.NumberOfFeatures | genotype/src/main/java/org/campagnelab/dl/genotype/mappers/GenotypeMapperV4.java:82-85 | the feature count of the delegate tree, resolved against the current sample index |
| GenotypeMappers.GenotypeMapperV4.GetFeatureName | genotype/src/main/java/org/campagnelab/dl/genotype/mappers/GenotypeMapperV4.java:77-80 | the delegate's name for the feature |
| GenotypeMappers.GenotypeMapperV4.ProduceFeature | genotype/src/main/java/org/campagnelab/dl/genotype/mappers/GenotypeMapperV4.java:101-104 | the delegate's value for the feature, read with the current sample index |
| SomaticFeatures.SimpleFeatureCalculator.constructor | somatic/src/main/java/org/campagnelab/dl/somatic/mappers/SimpleFeatureCalculator.java:40-43 | stores the sort flag; nothing is normalised yet and the sum is 0 |
| SomaticFeatures.SimpleFeatureCalculator.Default | somatic/src/main/java/org/campagnelab/dl/somatic/mappers/SimpleFeatureCalculator.java:45-47 | the no-argument constructor sorts counts |
| SomaticFeatures.SimpleFeatureCalculator.NumberOfFeatures | somatic/src/main/java/org/campagnelab/dl/somatic/mappers/SimpleFeatureCalculator.java:52-57 | two samples times MAX_GENOTYPES genotypes times two strands |
| SomaticFeatures.SimpleFeatureCalculator.NumberOfLabels | somatic/src/main/java/org/campagnelab/dl/somatic/mappers/SimpleFeatureCalculator.java:72-75 | two labels, mutated and not mutated |
| SomaticFeatures.SimpleFeatureCalculator.SlotIndex | somatic/src/main/java/org/campagnelab/dl/somatic/mappers/SimpleFeatureCalculator.java:52-57 | every (sample, genotype, strand) key has a slot among the MAX_GENOTYPES * 2 * 2 features |
| SomaticFeatures.SimpleFeatureCalculator.SlotLayout | somatic/src/main/java/org/campagnelab/dl/somatic/mappers/SimpleFeatureCalculator.java:148-168 | slot i belongs to the tumor sample iff i >= 2 * MAX; within a sample the genotype is i / 2 and odd slots are forward strand, in both directions |
| SomaticFeatures.SimpleFeatureCalculator.SlotOf | somatic/src/main/java/org/campagnelab/dl/somatic/mappers/SimpleFeatureCalculator.java:148-168 | every slot is the slot of exactly one key |
| SomaticFeatures.SimpleFeatureCalculator.ProduceFeatureInternal | somatic/src/main/java/org/campagnelab/dl/somatic/mappers/SimpleFeatureCalculator.java:148-168 | the raw value of a slot is the count of the sample, genotype and strand that slot stands for |
| SomaticFeatures.SimpleFeatureCalculator.RawFeatureAt | somatic/src/main/java/org/campagnelab/dl/somatic/mappers/SimpleFeatureCalculator.java:148-168 | the raw feature of a key's slot is that sample's genotype count on that strand |
| SomaticFeatures.SimpleFeatureCalculator.GetFeatureName | somatic/src/main/java/org/campagnelab/dl/somatic/mappers/SimpleFeatureCalculator.java:105-126 | a slot is named after its sample and strand (germline forward/reverse, somatic forward, the "Gomatic" reverse spelling) followed by its genotype number |
| SomaticFeatures.SimpleFeatureCalculator.FeatureNameAt | somatic/src/main/java/org/campagnelab/dl/somatic/mappers/SimpleFeatureCalculator.java:105-126 | a key's slot is named by its sample/strand prefix followed by the genotype number |
| SomaticFeatures.SimpleFeatureCalculator.Normalize | somatic/src/main/java/org/campagnelab/dl/somatic/mappers/SimpleFeatureCalculator.java:138-145 | a zero factor gives 0; otherwise the result times the factor is the value, and a value within [0, factor] gives a result in [0, 1] |
| SomaticFeatures.SimpleFeatureCalculator.ProduceFeature | somatic/src/main/java/org/campagnelab/dl/somatic/mappers/SimpleFeatureCalculator.java:101-103 | 0 when the total is 0; otherwise the value times the total is the slot's count |
| SomaticFeatures.SimpleFeatureCalculator.GermlineRawSum | somatic/src/main/java/org/campagnelab/dl/somatic/mappers/SimpleFeatureCalculator.java:62-70 | the first 2g raw features add up to the germline counts of the first g genotypes |
| SomaticFeatures.SimpleFeatureCalculator.TumorRawSum | somatic/src/main/java/org/campagnelab/dl/somatic/mappers/SimpleFeatureCalculator.java:62-70 | the raw features up to tumor genotype g add up to all germline counts plus the first g tumor genotypes |
| SomaticFeatures.SimpleFeatureCalculator.RawSumIsCountTotal | somatic/src/main/java/org/campagnelab/dl/somatic/mappers/SimpleFeatureCalculator.java:62-70 | the sum over all features is the total germline plus tumor count |
| SomaticFeatures.SimpleFeatureCalculator.PrepareToNormalize | somatic/src/main/java/org/campagnelab/dl/somatic/mappers/SimpleFeatureCalculator.java:62-70 | the loop stores the sum of all raw features and sets the normalised flag |
| SomaticFeatures.SimpleFeatureCalculator.NormalizedPrefix | somatic/src/main/java/org/campagnelab/dl/somatic/mappers/SimpleFeatureCalculator.java:101-103 | the normalised features add up to the raw sum divided by the stored total |
| SomaticFeatures.SimpleFeatureCalculator.NormalizedRow | somatic/src/main/java/org/campagnelab/dl/somatic/mappers/SimpleFeatureCalculator.java:62-103 | after prepareToNormalize with a non-zero total, the normalised features sum to 1 |
| SomaticFeatures.SimpleFeatureCalculator.NormalizedInUnitRange | somatic/src/main/java/org/campagnelab/dl/somatic/mappers/SimpleFeatureCalculator.java:138-145 | with non-negative counts every normalised feature lies in [0, 1], so the assertion in normalize holds |
| SomaticFeatures.SimpleFeatureCalculator.RawSumBounds | somatic/src/main/java/org/campagnelab/dl/somatic/mappers/SimpleFeatureCalculator.java:62-70 | with non-negative counts each raw feature is at most the sum |
| SomaticFeatures.SimpleFeatureCalculator.RawSumNonNegative | somatic/src/main/java/org/campagnelab/dl/somatic/mappers/SimpleFeatureCalculator.java:62-70 | with non-negative counts the sum is non-negative |
| SomaticFeatures.SimpleFeatureCalculator.MapFeaturesAt | somatic/src/main/java/org/campagnelab/dl/somatic/mappers/SimpleFeatureCalculator.java:94-99 | the buffer slice at the offset holds the normalised features; the rest of the buffer is unchanged |
| SomaticFeatures.SimpleFeatureCalculator.MapFeatures | somatic/src/main/java/org/campagnelab/dl/somatic/mappers/SimpleFeatureCalculator.java:81-91 | the record's row holds the normalised features; other cells are unchanged |
| SomaticFeatures.SimpleFeatureCalculator.ProduceLabel | somatic/src/main/java/org/campagnelab/dl/somatic/mappers/SimpleFeatureCalculator.java:171-181 | each label is 0 or 1; label 0 is 1 exactly for mutated records and label 1 exactly for the others |
| SomaticFeatures.SimpleFeatureCalculator.LabelIsOneHot | somatic/src/main/java/org/campagnelab/dl/somatic/mappers/SimpleFeatureCalculator.java:171-181 | the two labels always sum to 1 |
| SomaticFeatures.SimpleFeatureCalculator.MapLabels | somatic/src/main/java/org/campagnelab/dl/somatic/mappers/SimpleFeatureCalculator.java:128-136 | writes the one-hot mutated label into the record's row and nothing else |
| ReadIndexCount.SingleReadIndexCountMapper.PrepareToNormalize | genotype/src/main/java/org/campagnelab/dl/genotype/mappers/SingleReadIndexCountMapper.java:45-47 | prepareToNormalize leaves the mapper unchanged |
| ReadIndexCount.SingleReadIndexCountMapper.NumberOfFeatures | genotype/src/main/java/org/campagnelab/dl/genotype/mappers/SingleReadIndexCountMapper.java:39-42 | one feature |
| ReadIndexCount.SingleReadIndexCountMapper.ProduceFeatureInternal | genotype/src/main/java/org/campagnelab/dl/genotype/mappers/SingleReadIndexCountMapper.java:99-112 | an IndexOutOfBoundsException exactly when a negative sample index, or a negative genotype index of an existing sample, passes the size check; otherwise -1 exactly when the sample or genotype is missing, and the number of distinct read indices, between 0 and the number of reads, when both exist |
| ReadIndexCount.SingleReadIndexCountMapper.ProduceFeature | genotype/src/main/java/org/campagnelab/dl/genotype/mappers/SingleReadIndexCountMapper.java:50-52 | the feature is the raw value or the same exception, never below -1 |
| ReadIndexCount.SingleReadIndexCountMapper.GetFeatureName | genotype/src/main/java/org/campagnelab/dl/genotype/mappers/SingleReadIndexCountMapper.java:54-90 | the name is "sampleIndex", the decimal sample index, "SampleGenotype", the genotype's letter (or OtherN) and the strand, so it starts with "sampleIndex" and ends with "Forward" or "Backward" |
| ReadIndexCount.GenotypeStringsDistinct | genotype/src/main/java/org/campagnelab/dl/genotype/mappers/SingleReadIndexCountMapper.java:54-90 | genotypes 0 .. 9 get distinct names; all later genotypes and the negative ones share the default one |
| ReadIndexCount.FeatureNamesEqual | genotype/src/main/java/org/campagnelab/dl/genotype/mappers/SingleReadIndexCountMapper.java:54-90 | two feature names are equal exactly when the mappers read the same sample on the same strand and their genotypes print the same |
| ReadIndexCount.FeatureNamesDistinct | genotype/src/main/java/org/campagnelab/dl/genotype/mappers/SingleReadIndexCountMapper.java:54-90 | for genotypes 0 .. 9, different (sample, genotype, strand) triples give different feature names |
| ReadIndexCount.DistinctCount | genotype/src/main/java/org/campagnelab/dl/genotype/mappers/SingleReadIndexCountMapper.java:104-108 | the distinct count is at most the list length |
| ReadIndexCount.DistinctCountIsSetSize | genotype/src/main/java/org/campagnelab/dl/genotype/mappers/SingleReadIndexCountMapper.java:104-108 | the recursive distinct count equals the size of the set of read indices |
| ReadIndexCount.DistinctCountBounds | genotype/src/main/java/org/campagnelab/dl/genotype/mappers/SingleReadIndexCountMapper.java:104-108 | a non-empty list has at least one distinct index, and a duplicate-free list has as many as its length |
| DistinctAllelesLabel.NumDistinctAllelesLabelMapper.constructor | genotype/src/main/java/org/campagnelab/dl/genotype/mappers/NumDistinctAllelesLabelMapper.java:28-32 | stores sort flag, ploidy and epsilon |
| DistinctAllelesLabel.NumDistinctAllelesLabelMapper.WithoutSmoothing | genotype/src/main/java/org/campagnelab/dl/genotype/mappers/NumDistinctAllelesLabelMapper.java:34-37 | the two-argument constructor uses epsilon 0 |
| DistinctAllelesLabel.NumDistinctAllelesLabelMapper.NumberOfLabels | genotype/src/main/java/org/campagnelab/dl/genotype/mappers/NumDistinctAllelesLabelMapper.java:39-42 | a 32-bit int that is one label per number of distinct alleles, 0 .. ploidy, below Integer.MAX_VALUE, and wraps to Integer.MIN_VALUE at it |
| DistinctAllelesLabel.NumDistinctAllelesLabelMapper.Label | genotype/src/main/java/org/campagnelab/dl/genotype/mappers/NumDistinctAllelesLabelMapper.java:50-55 | the slot equal to the number of distinct true alleles gets 1 - epsilon; every other slot gets the smoothing share |
| DistinctAllelesLabel.NumDistinctAllelesLabelMapper.Smoothing | genotype/src/main/java/org/campagnelab/dl/genotype/mappers/NumDistinctAllelesLabelMapper.java:50-55 | the smoothing share epsilon / (numberOfLabels() - 1) is epsilon / ploidy while ploidy + 1 does not overflow |
| DistinctAllelesLabel.NumDistinctAllelesLabelMapper.OverflowedSmoothingIsNegative | genotype/src/main/java/org/campagnelab/dl/genotype/mappers/NumDistinctAllelesLabelMapper.java:39-55 | at ploidy Integer.MAX_VALUE the label count is negative, and with a positive epsilon so is every label but the true one |
| DistinctAllelesLabel.NumDistinctAllelesLabelMapper.ProduceLabel | genotype/src/main/java/org/campagnelab/dl/genotype/mappers/NumDistinctAllelesLabelMapper.java:44-48 | 1 - epsilon at the slot equal to the number of distinct alleles of the last sorted record's true genotype, the smoothing share elsewhere |
| DistinctAllelesLabel.NumDistinctAllelesLabelMapper.ProduceLabelIgnoresRecord | genotype/src/main/java/org/campagnelab/dl/genotype/mappers/NumDistinctAllelesLabelMapper.java:44-48 | the label depends only on the last count-sorted record, not on the record passed in |
| DistinctAllelesLabel.NumDistinctAllelesLabelMapper.LabelSumPrefix | genotype/src/main/java/org/campagnelab/dl/genotype/mappers/NumDistinctAllelesLabelMapper.java:39-55 | the first n labels add up to n smoothing shares, with one replaced by 1 - epsilon when the true slot is among them |
| DistinctAllelesLabel.NumDistinctAllelesLabelMapper.LabelsSumToOne | genotype/src/main/java/org/campagnelab/dl/genotype/mappers/NumDistinctAllelesLabelMapper.java:39-55 | when the allele count is at most the ploidy and ploidy + 1 does not overflow, the ploidy + 1 labels sum to 1 |
| DistinctAllelesLabel.NumDistinctAllelesLabelMapper.TrueClassIsArgmax | genotype/src/main/java/org/campagnelab/dl/genotype/mappers/NumDistinctAllelesLabelMapper.java:50-55 | for small enough epsilon the true class has the largest label |
| DistinctAllelesLabel.NumDistinctAllelesLabelMapper.TooManyAllelesHasNoTrueSlot | genotype/src/main/java/org/campagnelab/dl/genotype/mappers/NumDistinctAllelesLabelMapper.java:39-55 | with more distinct alleles than the ploidy, no slot carries 1 - epsilon |
| DistinctAllelesLabel.NumDistinctAllelesLabelMapper.NoSmoothingIsOneHot | genotype/src/main/java/org/campagnelab/dl/genotype/mappers/NumDistinctAllelesLabelMapper.java:34-55 | without smoothing the label is one-hot on the number of distinct alleles |
| DistinctAllelesLabel.NumDistinctAllelesLabelMapper.PloidyTwoTwoAlleles | genotype/src/main/java/org/campagnelab/dl/genotype/mappers/NumDistinctAllelesLabelMapper.java:39-55 | a diploid heterozygous site without smoothing gives labels [0, 0, 1] |
| DistinctAllelesLabel.NumDistinctAllelesLabelMapper.Configure | genotype/src/main/java/org/campagnelab/dl/genotype/mappers/NumDistinctAllelesLabelMapper.java:59-68 | a parseable ploidy property sets the ploidy; a missing or malformed one is a RuntimeException and leaves it unchanged |
| SegmentLabels.InsertKeepsCharacters | genotype/src/main/java/org/campagnelab/dl/genotype/segments/SegmentLabelMapper.java:79-83 | inserting a character keeps all characters and adds one |
| SegmentLabels.InsertKeepsSorted | genotype/src/main/java/org/campagnelab/dl/genotype/segments/SegmentLabelMapper.java:79-83 | inserting into a sorted string keeps it sorted |
| SegmentLabels.SortFnSpec | genotype/src/main/java/org/campagnelab/dl/genotype/segments/SegmentLabelMapper.java:79-83 | the reference sort returns a sorted permutation of its input |
| SegmentLabels.SortedUnique | genotype/src/main/java/org/campagnelab/dl/genotype/segments/SegmentLabelMapper.java:79-83 | two sorted strings with the same characters are equal, so any correct sort gives the same label |
| SegmentLabels.SortFnOfSorted | genotype/src/main/java/org/campagnelab/dl/genotype/segments/SegmentLabelMapper.java:79-83 | sorting an already sorted string leaves it unchanged |
| SegmentLabels.SortAlphabetically | genotype/src/main/java/org/campagnelab/dl/genotype/segments/SegmentLabelMapper.java:79-83 | the in-place array sort returns exactly the reference sort of the input |
| SegmentLabels.InsertAt | genotype/src/main/java/org/campagnelab/dl/genotype/segments/SegmentLabelMapper.java:81 | one insertion step extends the sorted prefix by one and permutes the array |
| SegmentLabels.Swap | genotype/src/main/java/org/campagnelab/dl/genotype/segments/SegmentLabelMapper.java:81 | a swap exchanges two cells, keeps the rest and permutes the array |
| SegmentLabels.Pairs | genotype/src/main/java/org/campagnelab/dl/genotype/segments/SegmentLabelMapper.java:59-62 | the diploid block for allele `from` has one label per allele from `from` on |
| SegmentLabels.Prefixed | genotype/src/main/java/org/campagnelab/dl/genotype/segments/SegmentLabelMapper.java:63-68 | the deeper block for allele `from` has one label per shorter label |
| SegmentLabels.Blocks | genotype/src/main/java/org/campagnelab/dl/genotype/segments/SegmentLabelMapper.java:58-70 | there is one block per allele, in allele order |
| SegmentLabels.FlattenMember | genotype/src/main/java/org/campagnelab/dl/genotype/segments/SegmentLabelMapper.java:56-72 | a label is in the list exactly when it is in some block |
| SegmentLabels.FlattenLength | genotype/src/main/java/org/campagnelab/dl/genotype/segments/SegmentLabelMapper.java:56-72 | blocks of equal size n give a list of length blocks * n |
| SegmentLabels.LabelsMember | genotype/src/main/java/org/campagnelab/dl/genotype/segments/SegmentLabelMapper.java:56-72 | a label of the given ploidy is built exactly when some allele's block builds it |
| SegmentLabels.SortFnOverAlleles | genotype/src/main/java/org/campagnelab/dl/genotype/segments/SegmentLabelMapper.java:61-66 | sorting a string over the alleles gives a genotype label of the same length |
| SegmentLabels.PairIsGenotype | genotype/src/main/java/org/campagnelab/dl/genotype/segments/SegmentLabelMapper.java:59-62 | every diploid label built is a sorted two-allele string |
| SegmentLabels.PrefixedIsGenotype | genotype/src/main/java/org/campagnelab/dl/genotype/segments/SegmentLabelMapper.java:63-68 | prefixing an allele to a genotype label and sorting gives a genotype label one longer |
| SegmentLabels.BlockIsGenotypes | genotype/src/main/java/org/campagnelab/dl/genotype/segments/SegmentLabelMapper.java:58-70 | every label in a block is a genotype label of the given ploidy |
| SegmentLabels.LabelsAreGenotypes | genotype/src/main/java/org/campagnelab/dl/genotype/segments/SegmentLabelMapper.java:56-72 | every label built for ploidy `deep` is a sorted string of `deep` alleles |
| SegmentLabels.PairIsLabelled | genotype/src/main/java/org/campagnelab/dl/genotype/segments/SegmentLabelMapper.java:59-62 | every sorted two-allele string is among the diploid labels |
| SegmentLabels.TailIsGenotype | genotype/src/main/java/org/campagnelab/dl/genotype/segments/SegmentLabelMapper.java:63-68 | dropping the first allele of a genotype label gives a genotype label one shorter |
| SegmentLabels.PrefixedIsLabelled | genotype/src/main/java/org/campagnelab/dl/genotype/segments/SegmentLabelMapper.java:63-68 | a genotype label whose tail is a shorter label is built by its first allele's block |
| SegmentLabels.EveryGenotypeIsLabelled | genotype/src/main/java/org/campagnelab/dl/genotype/segments/SegmentLabelMapper.java:56-72 | every sorted string of `deep` alleles is among the labels built |
| SegmentLabels.DistinctLabels | genotype/src/main/java/org/campagnelab/dl/genotype/segments/SegmentLabelMapper.java:31-35 | the set of labels is exactly the set of sorted strings of `ploidy` alleles |
| SegmentLabels.PairCount | genotype/src/main/java/org/campagnelab/dl/genotype/segments/SegmentLabelMapper.java:56-62 | the diploid list has 5 + 4 + 3 + 2 + 1 = 15 entries |
| SegmentLabels.DiploidLabelsListed | genotype/src/main/java/org/campagnelab/dl/genotype/segments/SegmentLabelMapper.java:59-62 | every diploid genotype label is one of the 15 listed labels |
| SegmentLabels.ListedDiploidLabel | genotype/src/main/java/org/campagnelab/dl/genotype/segments/SegmentLabelMapper.java:59-62 | every listed diploid label is a genotype label |
| SegmentLabels.DiploidLabelCount | genotype/src/main/java/org/campagnelab/dl/genotype/segments/SegmentLabelMapper.java:31-35 | for ploidy 2 the label set is the 15 listed labels, so numberOfLabels is 15 |
| SegmentLabels.LabelCountGrowth | genotype/src/main/java/org/campagnelab/dl/genotype/segments/SegmentLabelMapper.java:63-68 | each extra ploidy level multiplies the list length by 5 |
| SegmentLabels.AppendPairs | genotype/src/main/java/org/campagnelab/dl/genotype/segments/SegmentLabelMapper.java:60-62 | the inner diploid loop appends exactly the pair block |
| SegmentLabels.AppendPrefixed | genotype/src/main/java/org/campagnelab/dl/genotype/segments/SegmentLabelMapper.java:65-67 | the forEach appends exactly the prefixed block |
| SegmentLabels.BuildLabels | genotype/src/main/java/org/campagnelab/dl/genotype/segments/SegmentLabelMapper.java:56-72 | the recursive builder returns exactly the specified label list |
| SegmentLabels.SegmentLabelMapper.constructor | genotype/src/main/java/org/campagnelab/dl/genotype/segments/SegmentLabelMapper.java:31-37 | the label set holds exactly the genotype labels of the ploidy and its size is numberOfLabels |
| SegmentLabels.SegmentLabelMapper.NumberOfLabels | genotype/src/main/java/org/campagnelab/dl/genotype/segments/SegmentLabelMapper.java:85-87 | the number of distinct labels of the ploidy, 15 for a diploid genome |
| ProtoPredictor.IntIntArrayMap.constructor | model-utils/src/main/java/org/campagnelab/dl/model/utils/ProtoPredictor.java:31 | the map starts empty |
| ProtoPredictor.IntIntArrayMap.Size | model-utils/src/main/java/org/campagnelab/dl/model/utils/ProtoPredictor.java:39 | size is the number of keys and of values |
| ProtoPredictor.IntIntArrayMap.FindKey | model-utils/src/main/java/org/campagnelab/dl/model/utils/ProtoPredictor.java:33-35 | a key is found at its first position, and -1 means absent |
| ProtoPredictor.IntIntArrayMap.PutIfAbsent | model-utils/src/main/java/org/campagnelab/dl/model/utils/ProtoPredictor.java:33 | an absent key is appended with its value and nothing is returned; a present key keeps the map and returns its value |
| ProtoPredictor.IntIntArrayMap.Put | model-utils/src/main/java/org/campagnelab/dl/model/utils/ProtoPredictor.java:35 | a present key's value is replaced in place; an absent key is appended |
| ProtoPredictor.IntIntArrayMap.Entries | model-utils/src/main/java/org/campagnelab/dl/model/utils/ProtoPredictor.java:39-45 | the entries are the (key, value) pairs in insertion order |
| ProtoPredictor.FindKeyFrom | model-utils/src/main/java/org/campagnelab/dl/model/utils/ProtoPredictor.java:33-35 | the search from i finds the first position of the key, or -1 exactly when it is absent |
| ProtoPredictor.FirstOccurrencesSpec | model-utils/src/main/java/org/campagnelab/dl/model/utils/ProtoPredictor.java:29-47 | the first-occurrence list has no duplicates and holds exactly the numbers in the input |
| ProtoPredictor.FirstOccurrencesSnoc | model-utils/src/main/java/org/campagnelab/dl/model/utils/ProtoPredictor.java:32-37 | a new number is appended to the key order; a known one leaves it unchanged |
| ProtoPredictor.FrequenciesSnoc | model-utils/src/main/java/org/campagnelab/dl/model/utils/ProtoPredictor.java:32-37 | one more number adds a frequency 1 when new, or increments its own frequency when known |
| ProtoPredictor.HistogramEntries | model-utils/src/main/java/org/campagnelab/dl/model/utils/ProtoPredictor.java:29-47 | the histogram's numbers are distinct, are exactly the input's numbers, and each carries its positive multiplicity |
| ProtoPredictor.ExpandHistogram | model-utils/src/main/java/org/campagnelab/dl/model/utils/ProtoPredictor.java:29-47 | expanding the histogram gives back the input up to order, and the frequencies sum to the input length |
| ProtoPredictor.EmptyHistogram | model-utils/src/main/java/org/campagnelab/dl/model/utils/ProtoPredictor.java:29-47 | an empty list gives an empty histogram |
| ProtoPredictor.FirstOccurrenceOrder | model-utils/src/main/java/org/campagnelab/dl/model/utils/ProtoPredictor.java:39-45 | histogram entries come in the order of the numbers' first occurrence in the input |
| ProtoPredictor.CompressFreq | model-utils/src/main/java/org/campagnelab/dl/model/utils/ProtoPredictor.java:29-47 | the two loops return exactly the histogram of the input |
| GenotypeDomain.GenotypeIndex | genotype/src/main/java/org/campagnelab/dl/genotype/learning/domains/GenotypeDomainDescriptor.java:141-164 | an output name has a genotype index exactly when it is one of A T C G N I1 .. I5, and the index points back to the name |
| GenotypeDomain.MetricDirections | genotype/src/main/java/org/campagnelab/dl/genotype/learning/domains/GenotypeDomainDescriptor.java:260-286 | every metric the performance descriptor reports has a direction, and only `score` is better when smaller |
| GenotypeDomain.OutputLosses | genotype/src/main/java/org/campagnelab/dl/genotype/learning/domains/GenotypeDomainDescriptor.java:360-374 | every per-genotype output gets the plain binary loss |
| GenotypeDomain.GenotypeDomainDescriptor.constructor | genotype/src/main/java/org/campagnelab/dl/genotype/learning/domains/GenotypeDomainDescriptor.java:63-71 | records ploidy, the sort flag and the architecture choices, which the source loads from the model properties |
| GenotypeDomain.LargerValueIsBetterPerformance | genotype/src/main/java/org/campagnelab/dl/genotype/learning/domains/GenotypeDomainDescriptor.java:265-286 | exactly the eight known metrics are accepted; only `score` is smaller-is-better; any other name is an IllegalArgumentException |
| GenotypeDomain.GetOutputLoss | genotype/src/main/java/org/campagnelab/dl/genotype/learning/domains/GenotypeDomainDescriptor.java:360-374 | homozygous, numDistinctAlleles and combined use multi-class cross entropy, exactly metaData a zero-weighted binary loss, everything else plain binary |
| GenotypeDomain.GenotypeDomainDescriptor.GetLabelMapper | genotype/src/main/java/org/campagnelab/dl/genotype/learning/domains/GenotypeDomainDescriptor.java:141-177 | exactly the ten genotype outputs and homozygous, numDistinctAlleles, combined and metaData are accepted, others are an IllegalArgumentException; a genotype output gets its own index; numDistinctAlleles gets the configured ploidy |
| GenotypeDomain.GenotypeDomainDescriptor.GetPredictionInterpreter | genotype/src/main/java/org/campagnelab/dl/genotype/learning/domains/GenotypeDomainDescriptor.java:202-241 | the same names are accepted and the rest refused with IllegalArgumentException; a genotype output gets its own index; numDistinctAlleles gets the configured ploidy |
| GenotypeDomain.GenotypeDomainDescriptor.AggregatePredictions | genotype/src/main/java/org/campagnelab/dl/genotype/learning/domains/GenotypeDomainDescriptor.java:377-385 | the distinct-allele flag gives the indel prediction, else the combined flag the combined prediction; neither flag is an IllegalArgumentException |
| GenotypeDomain.GenotypeDomainDescriptor.GenotypeOutputTable | genotype/src/main/java/org/campagnelab/dl/genotype/learning/domains/GenotypeDomainDescriptor.java:141-241 | genotype output i gets the genotype label mapper i and the single-genotype interpreter i |
| GenotypeDomain.GenotypeDomainDescriptor.TablesAgree | genotype/src/main/java/org/campagnelab/dl/genotype/learning/domains/GenotypeDomainDescriptor.java:141-241 | the label-mapper and interpreter switches accept the same names and agree on the genotype index |
| GenotypeDomain.GenotypeDomainDescriptor.Configure | genotype/src/main/java/org/campagnelab/dl/genotype/learning/domains/GenotypeDomainDescriptor.java:191-200 | a missing ploidy property is a RuntimeException, a malformed one a NumberFormatException, and both leave ploidy unchanged; otherwise ploidy is parsed |
| GenotypeDomain.GenotypeDomainDescriptor.PutProperties | genotype/src/main/java/org/campagnelab/dl/genotype/learning/domains/GenotypeDomainDescriptor.java:74-78 | the base class's properties are written first, then the ploidy property as the ploidy's decimal string; every other key the base class wrote is kept and no other key appears |
| GenotypeDomain.GenotypeDomainDescriptor.PloidyRoundTrip | genotype/src/main/java/org/campagnelab/dl/genotype/learning/domains/GenotypeDomainDescriptor.java:74-78 | parsing the written ploidy property gives back the ploidy |
| GenotypeDomain.GenotypeDomainDescriptor.RoundTrip | genotype/src/main/java/org/campagnelab/dl/genotype/learning/domains/GenotypeDomainDescriptor.java:191-200 | configuring another descriptor from this one's properties succeeds and copies the ploidy |
| GenotypeDomain.GenotypeDomainDescriptor.GetComputationalGraph | genotype/src/main/java/org/campagnelab/dl/genotype/learning/domains/GenotypeDomainDescriptor.java:331-343 | the distinct-allele flag wins, then the combined layer, else the named architecture class |
| GenotypeDomain.GenotypeDomainDescriptor.GraphAndAggregateAgree | genotype/src/main/java/org/campagnelab/dl/genotype/learning/domains/GenotypeDomainDescriptor.java:331-385 | the aggregate prediction kind follows the same flag as the chosen graph |
| IndelLstmAssembler.NewAssembler | genotype/src/main/java/org/campagnelab/dl/genotype/learning/architecture/graphs/GenotypeSixDenseLayersWithIndelLSTM.java:51-128 | keeps the flags, names the combined output `combinedRef` when the reference is fixed, and lists the inputs with `trueGenotypeInput` only on request |
| IndelLstmAssembler.OutputNames | genotype/src/main/java/org/campagnelab/dl/genotype/learning/architecture/graphs/GenotypeSixDenseLayersWithIndelLSTM.java:59-119 | the list starts with the output type's head output and has 12 names for the two per-genotype types (2 otherwise), plus one for isVariant and one for trueGenotype when they are present |
| IndelLstmAssembler.DefaultAssembler | genotype/src/main/java/org/campagnelab/dl/genotype/learning/architecture/graphs/GenotypeSixDenseLayersWithIndelLSTM.java:47-49 | the default graph predicts distinct alleles with the genotype outputs and metaData |
| IndelLstmAssembler.LayoutOf | genotype/src/main/java/org/campagnelab/dl/genotype/learning/architecture/graphs/GenotypeSixDenseLayersWithIndelLSTM.java:59-119 | every output list is head, genotype outputs when present, metaData, optional isVariant, optional trueGenotype |
| IndelLstmAssembler.SoftmaxLayout | genotype/src/main/java/org/campagnelab/dl/genotype/learning/architecture/graphs/GenotypeSixDenseLayersWithIndelLSTM.java:60-66 | the softmax type never lists trueGenotype |
| IndelLstmAssembler.CombinedLayout | genotype/src/main/java/org/campagnelab/dl/genotype/learning/architecture/graphs/GenotypeSixDenseLayersWithIndelLSTM.java:86-100 | the combined type lists only the combined output, metaData and the optional ones |
| IndelLstmAssembler.GenotypeLayout | genotype/src/main/java/org/campagnelab/dl/genotype/learning/architecture/graphs/GenotypeSixDenseLayersWithIndelLSTM.java:67-85 | the distinct-allele and homozygous types list the ten genotype outputs after the head |
| IndelLstmAssembler.DistinctAllelesLayout | genotype/src/main/java/org/campagnelab/dl/genotype/learning/architecture/graphs/GenotypeSixDenseLayersWithIndelLSTM.java:67-85 | the four distinct-allele output lists |
| IndelLstmAssembler.HomozygousLayout | genotype/src/main/java/org/campagnelab/dl/genotype/learning/architecture/graphs/GenotypeSixDenseLayersWithIndelLSTM.java:101-119 | the four homozygous output lists |
| IndelLstmAssembler.OutputNamesLayout | genotype/src/main/java/org/campagnelab/dl/genotype/learning/architecture/graphs/GenotypeSixDenseLayersWithIndelLSTM.java:51-128 | a constructed assembler's outputs follow the common layout |
| IndelLstmAssembler.OutputMembership | genotype/src/main/java/org/campagnelab/dl/genotype/learning/architecture/graphs/GenotypeSixDenseLayersWithIndelLSTM.java:51-128 | metaData is always an output; isVariant exactly when requested; trueGenotype exactly when requested and not softmax |
| IndelLstmAssembler.InputTypeOf | genotype/src/main/java/org/campagnelab/dl/genotype/learning/architecture/graphs/GenotypeSixDenseLayersWithIndelLSTM.java:269-281 | `input` is feed-forward, the LSTM inputs and trueGenotypeInput are recurrent, anything else is an error |
| IndelLstmAssembler.GetInputTypes | genotype/src/main/java/org/campagnelab/dl/genotype/learning/architecture/graphs/GenotypeSixDenseLayersWithIndelLSTM.java:265-285 | the loop succeeds exactly when every input name is known, and then gives each name's type in order |
| IndelLstmAssembler.InputTypesOfConstructedAssembler | genotype/src/main/java/org/campagnelab/dl/genotype/learning/architecture/graphs/GenotypeSixDenseLayersWithIndelLSTM.java:265-285 | a constructed assembler's first input is feed-forward and all others are recurrent |
| IndelLstmAssembler.AtLeastOne | genotype/src/main/java/org/campagnelab/dl/genotype/learning/architecture/graphs/GenotypeSixDenseLayersWithIndelLSTM.java:199-201 | the clamp is at least 1 and leaves values of 1 or more unchanged |
| IndelLstmAssembler.MergeInputs | genotype/src/main/java/org/campagnelab/dl/genotype/learning/architecture/graphs/GenotypeSixDenseLayersWithIndelLSTM.java:225-229 | the merge takes the last-time-step vertex of each LSTM input in order, then `input` |
| IndelLstmAssembler.MergedWidth | genotype/src/main/java/org/campagnelab/dl/genotype/learning/architecture/graphs/GenotypeSixDenseLayersWithIndelLSTM.java:231 | the merged width is a 32-bit int: the feed-forward inputs plus four LSTM hidden widths when that fits |
| GoldStandard.ParseLine | somatic/src/main/java/org/campagnelab/dl/somatic/tools/CombineWithGoldStandard.java:93-95 | a line parses exactly when it has two tab-separated tokens and the second is an int; the chromosome is the first token |
| GoldStandard.AddAnnotation | somatic/src/main/java/org/campagnelab/dl/somatic/tools/CombineWithGoldStandard.java:98-100 | adding marks the position on its chromosome and leaves other chromosomes unchanged |
| GoldStandard.LoadAllStep | somatic/src/main/java/org/campagnelab/dl/somatic/tools/CombineWithGoldStandard.java:92-101 | each line either stops loading with its error or adds its zero-based position |
| GoldStandard.LoadKeepsAnnotations | somatic/src/main/java/org/campagnelab/dl/somatic/tools/CombineWithGoldStandard.java:92-101 | loading never removes an annotation |
| GoldStandard.LoadAllAnnotates | somatic/src/main/java/org/campagnelab/dl/somatic/tools/CombineWithGoldStandard.java:89-106 | after a load without error, a site is annotated exactly when it was before or some line names it |
| GoldStandard.LoadAllStopsAtFailure | somatic/src/main/java/org/campagnelab/dl/somatic/tools/CombineWithGoldStandard.java:92-95 | a malformed line stops loading with its error and adds nothing |
| GoldStandard.OnlyTwoColumnsRead | somatic/src/main/java/org/campagnelab/dl/somatic/tools/CombineWithGoldStandard.java:93-95 | columns after the position do not change how a line parses |
| GoldStandard.AnnotateWith | somatic/src/main/java/org/campagnelab/dl/somatic/tools/CombineWithGoldStandard.java:108-113 | an annotated site gets `mutated` set and nothing else changes; other records are returned as they are |
| GoldStandard.AnnotateIdempotent | somatic/src/main/java/org/campagnelab/dl/somatic/tools/CombineWithGoldStandard.java:108-113 | annotating twice is the same as annotating once |
| GoldStandard.MutatedCount | somatic/src/main/java/org/campagnelab/dl/somatic/tools/CombineWithGoldStandard.java:69-70 | the mutated count is at most the number of records, is 0 exactly when none is mutated and equals the length exactly when all are |
| GoldStandard.MutatedAlwaysWritten | somatic/src/main/java/org/campagnelab/dl/somatic/tools/CombineWithGoldStandard.java:63-76 | every mutated or annotated record is written, whatever the draw |
| GoldStandard.WrittenAreAnnotatedInputs | somatic/src/main/java/org/campagnelab/dl/somatic/tools/CombineWithGoldStandard.java:63-76 | everything written is an annotated input record whose draw was below the fraction or which is mutated |
| GoldStandard.WrittenPrefix | somatic/src/main/java/org/campagnelab/dl/somatic/tools/CombineWithGoldStandard.java:63-76 | what is written for a prefix of the records is a prefix of what is written for all of them |
| GoldStandard.CombineWithGoldStandard.constructor | somatic/src/main/java/org/campagnelab/dl/somatic/tools/CombineWithGoldStandard.java:87 | the annotation map starts empty |
| GoldStandard.CombineWithGoldStandard.LoadAnnotations | somatic/src/main/java/org/campagnelab/dl/somatic/tools/CombineWithGoldStandard.java:89-106 | the loop loads lines into the map and stops at the first malformed line |
| GoldStandard.CombineWithGoldStandard.IsAnnotated | somatic/src/main/java/org/campagnelab/dl/somatic/tools/CombineWithGoldStandard.java:115-117 | true exactly when the chromosome was loaded and the position is among its annotated positions; anything else reads as false |
| GoldStandard.CombineWithGoldStandard.Annotate | somatic/src/main/java/org/campagnelab/dl/somatic/tools/CombineWithGoldStandard.java:108-117 | the record becomes mutated exactly when it already was or its site is annotated |
| GoldStandard.CombineWithGoldStandard.WriteRecords | somatic/src/main/java/org/campagnelab/dl/somatic/tools/CombineWithGoldStandard.java:61-76 | what is written is a prefix of the annotated, sampled-or-mutated records; it fails with IndexOutOfBounds exactly when one of them is mutated with fewer than two samples, stopping right after writing the first such record; otherwise all of them are written and counted |
| GoldStandard.CombineWithGoldStandard.Execute | somatic/src/main/java/org/campagnelab/dl/somatic/tools/CombineWithGoldStandard.java:63-76 | a failed load is that error with nothing written; otherwise the records are written as in the loop, including its failure on a mutated record with fewer than two samples |
| SbiSimulator.ParseCount | genotype/src/main/java/org/campagnelab/dl/genotype/tools/SBISimulator.java:139-158 | a parsed instruction has a non-empty from sequence, matches reference iff from equals to, is an indel iff from is longer than one base, and is called iff the wrapped strand sum is positive |
| SbiSimulator.FormatFields | genotype/src/main/java/org/campagnelab/dl/genotype/tools/SBISimulator.java:30 | an instruction written with the count format splits back into its four fields |
| SbiSimulator.FormatParseRoundTrip | genotype/src/main/java/org/campagnelab/dl/genotype/tools/SBISimulator.java:130-160 | parsing a formatted instruction gives back its from, to and both counts |
| SbiSimulator.ParseFourTokens | genotype/src/main/java/org/campagnelab/dl/genotype/tools/SBISimulator.java:140-158 | four well-formed tokens determine the parsed count completely |
| SbiSimulator.IsCalledWithoutOverflow | genotype/src/main/java/org/campagnelab/dl/genotype/tools/SBISimulator.java:154 | for generated counts the wrapped sum is positive exactly when the true sum is |
| SbiSimulator.ParseCounts | genotype/src/main/java/org/campagnelab/dl/genotype/tools/SBISimulator.java:138-160 | all instructions parse or the record fails; on success each count is its instruction's parse |
| SbiSimulator.MakeRecord | genotype/src/main/java/org/campagnelab/dl/genotype/tools/SBISimulator.java:130-160 | the record keeps the site and true genotype, holds one sample with the parsed counts, and takes its reference base from the last instruction; without one the builder's reference base is never set and stays the empty default |
| SbiSimulator.GenerateCounts | genotype/src/main/java/org/campagnelab/dl/genotype/tools/SBISimulator.java:209-211 | generated counts lie in 100 .. 200 |
| SbiSimulator.ContextStart | genotype/src/main/java/org/campagnelab/dl/genotype/tools/SBISimulator.java:162 | the context starts half a context before the position, never below 0 and never after it |
| SbiSimulator.BaseKeysDistinct | genotype/src/main/java/org/campagnelab/dl/genotype/tools/SBISimulator.java:224-231 | different bases give different keys |
| SbiSimulator.FillUp | genotype/src/main/java/org/campagnelab/dl/genotype/tools/SBISimulator.java:224-232 | filling up only adds, and afterwards every base A, C, T, G, N has its key |
| SbiSimulator.FillUpProperties | genotype/src/main/java/org/campagnelab/dl/genotype/tools/SBISimulator.java:224-232 | after filling up, every base has a key, nothing is removed, only missing bases get a zero count, and filling up again changes nothing |
| SbiSimulator.CountSets.constructor | genotype/src/main/java/org/campagnelab/dl/genotype/tools/SBISimulator.java:213-232 | both sets start empty |
| SbiSimulator.CountSets.CalculateCounts | genotype/src/main/java/org/campagnelab/dl/genotype/tools/SBISimulator.java:213-222 | adds one count in the count format with generated counts, and its key |
| SbiSimulator.CountSets.FillUpCounts | genotype/src/main/java/org/campagnelab/dl/genotype/tools/SBISimulator.java:224-232 | the loop over the bases computes the specified fill-up |
| SbiSimulator.Without | genotype/src/main/java/org/campagnelab/dl/genotype/tools/SBISimulator.java:114-119 | the kept chromosomes are never more than the map's |
| SbiSimulator.WithoutMembership | genotype/src/main/java/org/campagnelab/dl/genotype/tools/SBISimulator.java:112-119 | the kept chromosomes are exactly those in the map and not excluded |
| SbiSimulator.ChromosomesForSbi | genotype/src/main/java/org/campagnelab/dl/genotype/tools/SBISimulator.java:104-127 | include and exclude together are an IllegalArgumentException, and so is an exclude list longer than the map's size (a negative list capacity); otherwise the include list, the map without the excluded, or the whole map |
| JavaLang.Wrap32 | genotype/src/main/java/org/campagnelab/dl/genotype/tools/SBISimulator.java:154 | the 32-bit result is congruent to the exact one and equal to it when it fits |
| JavaLang.ParseInt | somatic/src/main/java/org/campagnelab/dl/somatic/tools/CombineWithGoldStandard.java:95 | a parsed value is a 32-bit int and comes from a non-empty string |
| JavaLang.IntToString | genotype/src/main/java/org/campagnelab/dl/genotype/learning/domains/GenotypeDomainDescriptor.java:77 | a decimal string is digits with an optional leading minus |
| JavaLang.ParseIntToString | genotype/src/main/java/org/campagnelab/dl/genotype/learning/domains/GenotypeDomainDescriptor.java:77 | parsing the decimal string of a 32-bit int gives it back |
| JavaLang.SplitAll | somatic/src/main/java/org/campagnelab/dl/somatic/tools/CombineWithGoldStandard.java:93 | splitting always gives at least one field |
| JavaLang.SplitAllField | genotype/src/main/java/org/campagnelab/dl/genotype/tools/SBISimulator.java:140 | splitting at a separator gives the separator-free field and then the split of the rest |

## Left out

- `SegmentLabelMapper.buildLabelMap` and the `IndexedIdentifier` it fills are not modelled: they only number the labels and print them.
- SegmentLabels.DiploidLabelCount: the label count is proved for ploidy 2 (15) and as a fivefold growth per level. The count of distinct labels for ploidy 3 (35) is not proved.
- The fastutil `Int2IntArrayMap` is modelled as parallel key and value sequences with linear search. Its growth strategy is not modelled.
- `ProtoPredictor.expandFreq` is a parameter of `SingleReadIndexCountMapper`; the model does not fix its definition there.
- Java's 32-bit wrap-around is modelled with `Wrap32` at these int expressions: `ploidy + 1` in `GenotypeMapperV38.configure` and `NumDistinctAllelesLabelMapper.numberOfLabels`, `MAX_GENOTYPES * 2` in the V38 array sizes, `position - 1` in `CombineWithGoldStandard`, the `isCalled` sum and the context start in `SBISimulator`, and the merged width of `GenotypeSixDenseLayersWithIndelLSTM`. Elsewhere indices and counts are unbounded `int`/`nat`.
- FeatureMappers.ConcatFeatureMapper.NumberOfFeatures: the `numFeatures` sum over the children (ConcatFeatureMapper lines 47-53) is exact; the Java int sum would wrap past Integer.MAX_VALUE features, which the model does not capture.
- SomaticFeatures.SimpleFeatureCalculator.PrepareToNormalize: `sumCounts` is an `int` summed from floats; the model keeps the exact sum and does not model float-to-int truncation or overflow.
- DistinctAllelesLabel.NumDistinctAllelesLabelMapper.Label: requires `numberOfLabels()` other than 1 (a ploidy of 0), where the Java float division by `numberOfLabels() - 1` would give an infinity or NaN.
- DistinctAllelesLabel.NumDistinctAllelesLabelMapper.ProduceLabel: requires `numberOfLabels()` other than 1, as `Label`, which it calls; Java gives an infinity or NaN there.
- DistinctAllelesLabel.NumDistinctAllelesLabelMapper.Smoothing: requires `numberOfLabels()` other than 1; it is the quotient `epsilon / (numberOfLabels() - 1)` of `label`, which Java leaves infinite or NaN there.
- The lemmas `ProduceLabelIgnoresRecord`, `LabelSumPrefix` and `NoSmoothingIsOneHot` carry the same `numberOfLabels()` other than 1 precondition because the labels they relate are only defined under it; they add no gap of their own.
- Java float rounding is not modelled; floats are `real`.
- Reflection, the record readers and writers, progress logging, file and console I/O, and metric estimation are left out.
- Building the DL4J computation graph (layers, vertices, learning rates, the float `reductionRate` clamp) is left out; only names, input types, the merge inputs and their width are modelled.
- Random draws are parameters: `draws` in `CombineWithGoldStandard` and the `nextInt(101)` draws in `SBISimulator`. File contents are given as lines.
- The genome context retrieval and `populateWithFrequencies` in `SBISimulator.makeRecord` are left out; the model attaches the single (1, 1) frequency that the latter adds to each list.
- `Float.parseFloat` followed by the int cast in `GenotypeMapperV38.configure` is the `floatToInt` parameter.
- The collaborator mapper classes (count, density, quality and flag mappers) are the `mappers` parameter; their per-record state is folded into the value each one produces, so `prepareToNormalize` of a child has no effect in the model. The `mapFeatures` of the delegate tree that V38 and V4 forward to is assumed to write its `produceFeature` values into columns 0 up to its feature count of the row.
- The local mapper arrays built by `configure` are sequences of mapper specifications.
- `GenotypeFeatureMapper` is not part of this model. V4's inherited `setSampleIndex` is modelled as a plain update.
- GenotypeMappers.GenotypeMapperV38.NumberOfFeatures: requires a configured delegate; Java throws a NullPointerException when it is called before `configure`.
- GenotypeMappers.GenotypeMapperV38.GetFeatureName: requires a configured delegate; Java throws a NullPointerException when it is called before `configure`.
- GenotypeMappers.GenotypeMapperV38.ProduceFeature: requires a configured delegate; Java throws a NullPointerException when it is called before `configure`.
- GenotypeMappers.GenotypeMapperV38.MapFeatures: requires a configured delegate; Java throws a NullPointerException when it is called before `configure`.
- GenotypeMappers.GenotypeMapperV4.NumberOfFeatures: requires a configured delegate; Java throws a NullPointerException when it is called before `configure`.
- GenotypeMappers.GenotypeMapperV4.GetFeatureName: requires a configured delegate; Java throws a NullPointerException when it is called before `configure`.
- GenotypeMappers.GenotypeMapperV4.ProduceFeature: requires a configured delegate; Java throws a NullPointerException when it is called before `configure`.
- GenotypeMappers.GenotypeMapperV4.MapFeatures: requires a configured delegate; Java throws a NullPointerException when it is called before `configure`.
- The `assert` that the context-size property exists (`GenotypeMapperV38` line 49) is not a precondition, because Java assertions are off by default; a missing property is the NullPointerException `Float.parseFloat` throws.
- The density mappers of V38 read the sample index through a lambda, so they follow later `setSampleIndex` calls. The model keeps this as a live sample reference that is resolved when the delegate is used.
- GenotypeDomain.GenotypeDomainDescriptor.constructor: takes the ploidy, flags and architecture class name as arguments instead of loading them from a model directory.
- `CombineWithGoldStandard`'s console output is left out. The IndexOutOfBoundsException that printing a written mutated record with fewer than two samples raises is modelled.
- JavaLang.ParseInt: accepts ASCII digits only. `Integer.parseInt` also accepts the other Unicode decimal digits that `Character.digit` knows, which the model reports as a NumberFormatException.
- SomaticFeatures.SimpleFeatureCalculator.ProduceFeatureInternal: requires `CountsCover`, i.e. that `getAllCounts` returns at least MAX_GENOTYPES genotypes for each sample. With fewer, the Java `.get` throws an IndexOutOfBoundsException, which the model does not report.
- SomaticFeatures.SimpleFeatureCalculator.ProduceFeature: requires `CountsCover`; with fewer counts the Java IndexOutOfBoundsException of `produceFeatureInternal` is not reported.
- SomaticFeatures.SimpleFeatureCalculator.PrepareToNormalize: requires `CountsCover`; with fewer counts the Java IndexOutOfBoundsException of its `produceFeatureInternal` calls is not reported.
- SomaticFeatures.SimpleFeatureCalculator.MapFeaturesAt: requires `CountsCover`; with fewer counts the Java IndexOutOfBoundsException of the first column it computes is not reported.
- SomaticFeatures.SimpleFeatureCalculator.MapFeatures: requires `CountsCover`; with fewer counts the Java IndexOutOfBoundsException of the first column is not reported.
- The lemmas `RawFeatureAt`, `GermlineRawSum`, `TumorRawSum`, `RawSumIsCountTotal`, `NormalizedPrefix`, `NormalizedRow`, `NormalizedInUnitRange`, `RawSumBounds` and `RawSumNonNegative` of `SimpleFeatureCalculator` carry `CountsCover` because the features they relate are only defined under it; they add no gap of their own.
- SegmentLabels.SegmentLabelMapper.constructor: requires a ploidy of at least 2. For a ploidy below 2, Java's `buildLabels` never reaches its `deep == 2` base case and recurses until a StackOverflowError; the model does not represent that non-termination.
- SegmentLabels.BuildLabels: requires `deep` of at least 2, for the same reason: Java recurses without end (StackOverflowError) for `deep` below 2.
- GenotypeDomain.GenotypeDomainDescriptor.Configure: the base-class `configure` call (`super.configure`) is not part of this model; only the ploidy property is read. Its base-class `putProperties` is the `basePutProperties` field, whose writes `PutProperties` keeps.
- The `prepareToNormalize` forwarders of `GenotypeMapperV38` and `GenotypeMapperV4` are not modelled as members: the collaborator mappers keep no per-record state in the model, so forwarding the call changes nothing.
- `Delegate` of `GenotypeMapperV38` and `GenotypeMapperV4` is a helper: it names the delegate tree as a record meets it, with the sample index resolved, and has no Java counterpart.
