/**
 * The per-site record (BaseInformation) as the mapping layer reads it: only
 * the fields some modelled operation touches. Records are values; nothing in
 * the mapping layer changes one.
 */
module Records {

  /** One (number, frequency) pair of a compressed histogram. */
  datatype NumberWithFrequency = NumberWithFrequency(number: int, frequency: int)

  /** One observed allele of a sample (CountInfo). */
  datatype CountInfo = CountInfo(
    fromSequence: string,
    toSequence: string,
    matchesReference: bool,
    genotypeCountForwardStrand: int,
    genotypeCountReverseStrand: int,
    isCalled: bool,
    isIndel: bool,
    readIndicesForwardStrand: seq<NumberWithFrequency>,
    readIndicesReverseStrand: seq<NumberWithFrequency>)

  /** One sample of a site (SampleInfo): its counts, in record order. */
  datatype SampleInfo = SampleInfo(counts: seq<CountInfo>)

  /** One genomic site (BaseInformation). */
  datatype BaseInformation = BaseInformation(
    referenceId: string,
    referenceIndex: int,
    position: int,
    mutated: bool,
    trueGenotype: string,
    referenceBase: string,
    samples: seq<SampleInfo>)
}
