/**
 * SBISimulator: the count-creation instructions "from/to=forward+reverse"
 * it formats and parses back into counts, the zero counts that fill up the
 * five bases, the chromosome selection, the random count bound and the
 * start of the genomic context.
 */
module SbiSimulator {
  import opened JavaLang
  import opened Records

  /** The characters the instruction is split on, the class "[/=+]". */
  const SEPARATORS: set<char> := {'/', '=', '+'}

  /** The bases fillUpCounts makes sure every site has a count for. */
  const BASES: seq<char> := ['A', 'C', 'T', 'G', 'N']

  /** String.format("%s/%s=%d+%d", from, to, forward, reverse). */
  function CountFormat(from: string, to: string, forward: int, reverse: int): string {
    from + "/" + to + "=" + IntToString(forward) + "+" + IntToString(reverse)
  }

  /** The key calculateCounts and fillUpCounts record for a (from, to) pair. */
  function CountKey(from: string, to: string): string {
    from + "/" + to
  }

  /** The frequency populateWithFrequencies attaches to every list of a count. */
  const UNIT_FREQUENCY: NumberWithFrequency := NumberWithFrequency(1, 1)

  /**
   * One instruction of makeRecord, in the order the Java reads it: tokens[0],
   * its first character, tokens[1], then parseInt of tokens[2] and tokens[3].
   * A missing token or an empty from is an index exception, a non-numeric
   * count a NumberFormatException. isCalled uses the int sum forward + reverse.
   */
  function ParseCount(instruction: string): (r: Result<CountInfo>)
    ensures r.Ok? ==> |JavaSplit(instruction, SEPARATORS)| >= 4
    ensures r.Ok? ==> r.value.fromSequence == JavaSplit(instruction, SEPARATORS)[0] && |r.value.fromSequence| >= 1
    ensures r.Ok? ==> (r.value.matchesReference <==> r.value.fromSequence == r.value.toSequence)
    ensures r.Ok? ==> (r.value.isIndel <==> |r.value.fromSequence| > 1)
    ensures r.Ok? ==> (r.value.isCalled <==> Wrap32(r.value.genotypeCountForwardStrand + r.value.genotypeCountReverseStrand) > 0)
  {
    var tokens := JavaSplit(instruction, SEPARATORS);
    if |tokens| < 1 then Fail(IndexOutOfBounds(instruction))
    else
      var from := tokens[0];
      if |from| == 0 then Fail(IndexOutOfBounds(instruction))
      else if |tokens| < 3 then Fail(IndexOutOfBounds(instruction))
      else
        var token := tokens[1];
        match ParseInt(tokens[2])
        case None => Fail(NumberFormat(tokens[2]))
        case Some(countForwardStrand) =>
          if |tokens| < 4 then Fail(IndexOutOfBounds(instruction))
          else
            match ParseInt(tokens[3])
            case None => Fail(NumberFormat(tokens[3]))
            case Some(countReverseStrand) =>
              Ok(CountInfo(from, token, from == token, countForwardStrand, countReverseStrand,
                           Wrap32(countForwardStrand + countReverseStrand) > 0, |from| > 1,
                           [UNIT_FREQUENCY], [UNIT_FREQUENCY]))
  }

  /** Decimal text never holds a separator. */
  lemma IntToStringHasNoSeparator(n: int)
    ensures NoneOf(IntToString(n), SEPARATORS)
  {
    var s := IntToString(n);
    forall i | 0 <= i < |s| ensures s[i] !in SEPARATORS {
      if n < 0 && i > 0 {
        assert s[i] == s[1..][i - 1];
      }
    }
  }

  /** The fields of a formatted instruction, empty ones included. */
  lemma FormatFields(from: string, to: string, forward: int, reverse: int)
    requires NoneOf(from, SEPARATORS) && NoneOf(to, SEPARATORS)
    ensures SplitAll(CountFormat(from, to, forward, reverse), SEPARATORS) ==
              [from, to, IntToString(forward), IntToString(reverse)]
  {
    var f, r := IntToString(forward), IntToString(reverse);
    IntToStringHasNoSeparator(forward);
    IntToStringHasNoSeparator(reverse);
    var counts := f + ['+'] + r;
    var fields := to + ['='] + counts;
    assert CountFormat(from, to, forward, reverse) == from + ['/'] + fields;
    SplitAllField(from, '/', fields, SEPARATORS);
    SplitAllField(to, '=', counts, SEPARATORS);
    SplitAllField(f, '+', r, SEPARATORS);
    SplitAllNoSeparator(r, SEPARATORS);
    assert SplitAll(counts, SEPARATORS) == [f, r];
    assert SplitAll(fields, SEPARATORS) == [to, f, r];
  }

  /** A formatted instruction splits into exactly its four fields. */
  lemma FormatSplitsInFour(from: string, to: string, forward: int, reverse: int)
    requires NoneOf(from, SEPARATORS) && NoneOf(to, SEPARATORS)
    ensures JavaSplit(CountFormat(from, to, forward, reverse), SEPARATORS) ==
              [from, to, IntToString(forward), IntToString(reverse)]
  {
    var s := CountFormat(from, to, forward, reverse);
    FormatFields(from, to, forward, reverse);
    assert s[|from|] == '/';
    assert IntToString(reverse) != "";
  }

  /**
   * The instruction format round-trips: parsing what countFormat wrote
   * gives back from, to and both counts, with matchesReference iff from
   * equals to, isIndel iff from is longer than one character.
   */
  lemma FormatParseRoundTrip(from: string, to: string, forward: int, reverse: int)
    requires NoneOf(from, SEPARATORS) && NoneOf(to, SEPARATORS) && |from| >= 1
    requires IsInt32(forward) && IsInt32(reverse)
    ensures ParseCount(CountFormat(from, to, forward, reverse)) ==
              Ok(CountInfo(from, to, from == to, forward, reverse, Wrap32(forward + reverse) > 0, |from| > 1,
                           [UNIT_FREQUENCY], [UNIT_FREQUENCY]))
  {
    FormatSplitsInFour(from, to, forward, reverse);
    ParseIntToString(forward);
    ParseIntToString(reverse);
    ParseFourTokens(CountFormat(from, to, forward, reverse), from, to, IntToString(forward), IntToString(reverse),
                    forward, reverse);
  }

  /** An instruction that splits into four well-formed tokens parses to the count they describe. */
  lemma ParseFourTokens(instruction: string, from: string, to: string, forwardText: string, reverseText: string,
                        forward: int, reverse: int)
    requires JavaSplit(instruction, SEPARATORS) == [from, to, forwardText, reverseText] && |from| >= 1
    requires ParseInt(forwardText) == Some(forward) && ParseInt(reverseText) == Some(reverse)
    ensures ParseCount(instruction) ==
              Ok(CountInfo(from, to, from == to, forward, reverse, Wrap32(forward + reverse) > 0, |from| > 1,
                           [UNIT_FREQUENCY], [UNIT_FREQUENCY]))
  {
  }

  /** For the simulator's counts (0 or 100 .. 200) no wrap-around occurs: isCalled iff the sum is positive. */
  lemma IsCalledWithoutOverflow(forward: int, reverse: int)
    requires 0 <= forward <= 200 && 0 <= reverse <= 200
    ensures Wrap32(forward + reverse) > 0 <==> forward + reverse > 0
  {
  }

  /** The counts of all instructions, in order, or the first failure. */
  function ParseCounts(instructions: seq<string>): (r: Result<seq<CountInfo>>)
    ensures r.Ok? <==> forall i :: 0 <= i < |instructions| ==> ParseCount(instructions[i]).Ok?
    ensures r.Ok? ==> |r.value| == |instructions|
    ensures r.Ok? ==> forall i :: 0 <= i < |instructions| ==> Ok(r.value[i]) == ParseCount(instructions[i])
  {
    if instructions == [] then Ok([])
    else
      match ParseCount(instructions[0])
      case Fail(e) => Fail(e)
      case Ok(count) =>
        match ParseCounts(instructions[1..])
        case Fail(e) =>
          assert forall i :: 0 <= i < |instructions[1..]| ==> instructions[1..][i] == instructions[i + 1];
          Fail(e)
        case Ok(rest) =>
          assert forall i :: 1 <= i < |instructions| ==> instructions[i] == instructions[1..][i - 1];
          Ok([count] + rest)
  }

  /**
   * makeRecord without the genomic context: one sample holding one count per
   * instruction, and the reference base the first character of the last
   * instruction's from. The builder's reference base is set only inside the
   * instruction loop (the local "N" is read by nothing but an assert), so
   * with no instruction it keeps the protobuf default, the empty string.
   */
  function MakeRecord(refIndex: int, refId: string, position: int, genotype: string, countCreations: seq<string>)
    : (r: Result<BaseInformation>)
    ensures r.Ok? <==> ParseCounts(countCreations).Ok?
    ensures r.Ok? ==> |r.value.samples| == 1 && r.value.samples[0].counts == ParseCounts(countCreations).value
    ensures r.Ok? ==> r.value.referenceId == refId && r.value.position == position && r.value.trueGenotype == genotype
    ensures r.Ok? && countCreations == [] ==> r.value.referenceBase == ""
    ensures r.Ok? && countCreations != [] ==>
              r.value.referenceBase == [ParseCounts(countCreations).value[|countCreations| - 1].fromSequence[0]]
  {
    match ParseCounts(countCreations)
    case Fail(e) => Fail(e)
    case Ok(counts) =>
      var referenceBase := if counts == [] then "" else [counts[|counts| - 1].fromSequence[0]];
      Ok(BaseInformation(refId, refIndex, position, false, genotype, referenceBase, [SampleInfo(counts)]))
  }

  /** generateCounts: nextInt(101) + 100, given the draw nextInt returned. */
  function GenerateCounts(draw: int): (n: int)
    requires 0 <= draw < 101
    ensures 100 <= n <= 200
  {
    draw + 100
  }

  /**
   * The start of the genomic context: max(0, position - (L - 1) / 2), with
   * Java's truncating division and int arithmetic.
   */
  function ContextStart(position: int, genomicContextLength: int): (start: int)
    requires IsInt32(position) && IsInt32(genomicContextLength)
    ensures start >= 0
    ensures 0 <= position && 1 <= genomicContextLength ==>
              start == (if position >= (genomicContextLength - 1) / 2 then position - (genomicContextLength - 1) / 2 else 0)
    ensures 0 <= position && 1 <= genomicContextLength ==> start <= position
  {
    var half := JavaDiv(Wrap32(genomicContextLength - 1), 2);
    var start := Wrap32(position - half);
    assert 0 <= position && 1 <= genomicContextLength ==> half == (genomicContextLength - 1) / 2 && IsInt32(position - half);
    if 0 >= start then 0 else start
  }

  /**
   * fillUpCounts' loop over the given bases: a zero count "ref/b=0+0" and its
   * key for each base whose key is not there yet at its turn.
   */
  function FillUpFrom(allCounts: set<string>, keys: set<string>, referenceBase: string, bases: seq<char>)
    : (set<string>, set<string>)
    decreases |bases|
  {
    if bases == [] then (allCounts, keys)
    else
      var key := CountKey(referenceBase, [bases[0]]);
      if key in keys then FillUpFrom(allCounts, keys, referenceBase, bases[1..])
      else FillUpFrom(allCounts + {CountFormat(referenceBase, [bases[0]], 0, 0)}, keys + {key}, referenceBase, bases[1..])
  }

  /** fillUpCounts over A, C, T, G, N. */
  function FillUp(allCounts: set<string>, keys: set<string>, referenceBase: string): (r: (set<string>, set<string>))
    ensures allCounts <= r.0 && keys <= r.1
    ensures forall b :: b in BASES ==> CountKey(referenceBase, [b]) in r.1
  {
    FillUpFromProperties(allCounts, keys, referenceBase, BASES);
    FillUpFrom(allCounts, keys, referenceBase, BASES)
  }

  /** Two bases give two different keys. */
  lemma BaseKeysDistinct(referenceBase: string, b1: char, b2: char)
    requires b1 != b2
    ensures CountKey(referenceBase, [b1]) != CountKey(referenceBase, [b2])
  {
    var k1 := CountKey(referenceBase, [b1]);
    assert k1[|k1| - 1] == b1;
  }

  /**
   * What filling up over some bases does: every base gets its key; earlier
   * counts and keys are kept; a base whose key was missing gets its zero
   * count; nothing else is added.
   */
  lemma {:induction false} FillUpFromProperties(allCounts: set<string>, keys: set<string>, referenceBase: string,
                                                bases: seq<char>)
    ensures var (counts2, keys2) := FillUpFrom(allCounts, keys, referenceBase, bases);
      && (forall b :: b in bases ==> CountKey(referenceBase, [b]) in keys2)
      && allCounts <= counts2 && keys <= keys2
      && (forall b :: b in bases && CountKey(referenceBase, [b]) !in keys ==> CountFormat(referenceBase, [b], 0, 0) in counts2)
      && (forall c :: c in counts2 - allCounts ==>
            exists b :: b in bases && CountKey(referenceBase, [b]) !in keys && c == CountFormat(referenceBase, [b], 0, 0))
      && (forall k :: k in keys2 - keys ==> exists b :: b in bases && k == CountKey(referenceBase, [b]))
    decreases |bases|
  {
    if bases != [] {
      var b0 := bases[0];
      var key := CountKey(referenceBase, [b0]);
      var (c1, k1) := if key in keys then (allCounts, keys)
                      else (allCounts + {CountFormat(referenceBase, [b0], 0, 0)}, keys + {key});
      FillUpFromProperties(c1, k1, referenceBase, bases[1..]);
      var (counts2, keys2) := FillUpFrom(allCounts, keys, referenceBase, bases);
      assert (counts2, keys2) == FillUpFrom(c1, k1, referenceBase, bases[1..]);
      forall b | b in bases && CountKey(referenceBase, [b]) !in keys
        ensures CountFormat(referenceBase, [b], 0, 0) in counts2
      {
        if b != b0 {
          BaseKeysDistinct(referenceBase, b, b0);
          assert b in bases[1..];
        }
      }
      forall c | c in counts2 - allCounts
        ensures exists b :: b in bases && CountKey(referenceBase, [b]) !in keys && c == CountFormat(referenceBase, [b], 0, 0)
      {
        if c in c1 - allCounts {
          assert c == CountFormat(referenceBase, [b0], 0, 0);
        } else {
          assert c in counts2 - c1;
          var b :| b in bases[1..] && CountKey(referenceBase, [b]) !in k1 && c == CountFormat(referenceBase, [b], 0, 0);
          assert b in bases;
        }
      }
      forall k | k in keys2 - keys ensures exists b :: b in bases && k == CountKey(referenceBase, [b]) {
        if k !in k1 {
          assert k in keys2 - k1;
          var b :| b in bases[1..] && k == CountKey(referenceBase, [b]);
          assert b in bases;
        }
      }
    }
  }

  /** When every base already has its key, filling up changes nothing. */
  lemma {:induction false} FillUpFromComplete(allCounts: set<string>, keys: set<string>, referenceBase: string,
                                              bases: seq<char>)
    requires forall b :: b in bases ==> CountKey(referenceBase, [b]) in keys
    ensures FillUpFrom(allCounts, keys, referenceBase, bases) == (allCounts, keys)
    decreases |bases|
  {
    if bases != [] {
      assert bases[0] in bases;
      FillUpFromComplete(allCounts, keys, referenceBase, bases[1..]);
    }
  }

  /** fillUpCounts leaves every base with a key, only adds zero counts of missing bases, and is idempotent. */
  lemma FillUpProperties(allCounts: set<string>, keys: set<string>, referenceBase: string)
    ensures var (counts2, keys2) := FillUp(allCounts, keys, referenceBase);
      && (forall b :: b in BASES ==> CountKey(referenceBase, [b]) in keys2)
      && allCounts <= counts2 && keys <= keys2
      && (forall b :: b in BASES && CountKey(referenceBase, [b]) !in keys ==> CountFormat(referenceBase, [b], 0, 0) in counts2)
      && (forall c :: c in counts2 - allCounts ==>
            exists b :: b in BASES && CountKey(referenceBase, [b]) !in keys && c == CountFormat(referenceBase, [b], 0, 0))
      && FillUp(counts2, keys2, referenceBase) == (counts2, keys2)
  {
    FillUpFromProperties(allCounts, keys, referenceBase, BASES);
    var (counts2, keys2) := FillUp(allCounts, keys, referenceBase);
    FillUpFromComplete(counts2, keys2, referenceBase, BASES);
  }

  /** The two sets calculateCounts and fillUpCounts add to, as makeRecord's caller holds them. */
  class CountSets {
    var allCounts: set<string>
    var keys: set<string>

    constructor ()
      ensures allCounts == {} && keys == {}
    {
      allCounts, keys := {}, {};
    }

    /** calculateCounts: the instruction with the two drawn counts, and its key. */
    method CalculateCounts(from: string, to: string, forwardDraw: int, reverseDraw: int)
      requires 0 <= forwardDraw < 101 && 0 <= reverseDraw < 101
      modifies this
      ensures allCounts == old(allCounts) + {CountFormat(from, to, GenerateCounts(forwardDraw), GenerateCounts(reverseDraw))}
      ensures keys == old(keys) + {CountKey(from, to)}
    {
      allCounts := allCounts + {CountFormat(from, to, GenerateCounts(forwardDraw), GenerateCounts(reverseDraw))};
      keys := keys + {CountKey(from, to)};
    }

    /** fillUpCounts: the loop over the five bases. */
    method FillUpCounts(referenceBase: string)
      modifies this
      ensures (allCounts, keys) == FillUp(old(allCounts), old(keys), referenceBase)
    {
      var i := 0;
      while i < |BASES|
        invariant 0 <= i <= |BASES|
        invariant FillUpFrom(allCounts, keys, referenceBase, BASES[i..]) == FillUp(old(allCounts), old(keys), referenceBase)
      {
        var base := BASES[i];
        var key := CountKey(referenceBase, [base]);
        assert BASES[i..][0] == base && BASES[i..][1..] == BASES[i + 1..];
        if !(key in keys) {
          allCounts := allCounts + {CountFormat(referenceBase, [base], 0, 0)};
          keys := keys + {key};
        }
        i := i + 1;
      }
    }
  }

  /** The map's chromosomes without the excluded ones, in the map's order. */
  function Without(chromosomes: seq<string>, excludeChromosomes: seq<string>): (r: seq<string>)
    ensures |r| <= |chromosomes|
  {
    if chromosomes == [] then []
    else
      var n := |chromosomes| - 1;
      Without(chromosomes[..n], excludeChromosomes) + (if chromosomes[n] in excludeChromosomes then [] else [chromosomes[n]])
  }

  /** A chromosome is kept iff the map has it and it is not excluded. */
  lemma {:induction false} WithoutMembership(chromosomes: seq<string>, excludeChromosomes: seq<string>, c: string)
    ensures c in Without(chromosomes, excludeChromosomes) <==> c in chromosomes && c !in excludeChromosomes
  {
    if chromosomes != [] {
      var n := |chromosomes| - 1;
      WithoutMembership(chromosomes[..n], excludeChromosomes, c);
      assert chromosomes == chromosomes[..n] + [chromosomes[n]];
    }
  }

  /**
   * chromosomesForSBI: refused when both lists are given; the includeChromosomes list
   * when only it is given; the map's chromosomes minus the excluded ones when
   * only excludeChromosomes is given; all of the map's chromosomes otherwise.
   * mapChromosomes stands for the variant map's chromosomes in iteration order
   * and helperSize for the map's size(). The excluding branch sizes its list
   * as helperSize minus the number of excluded names, and a negative
   * capacity is an IllegalArgumentException.
   */
  method ChromosomesForSbi(includeChromosomes: seq<string>, excludeChromosomes: seq<string>, mapChromosomes: seq<string>,
                           helperSize: nat)
    returns (r: Result<seq<string>>)
    ensures r.Fail? <==> (includeChromosomes != [] && excludeChromosomes != []) ||
                         (includeChromosomes == [] && excludeChromosomes != [] && helperSize < |excludeChromosomes|)
    ensures r.Fail? ==> r.error.IllegalArgument?
    ensures includeChromosomes != [] && excludeChromosomes == [] ==> r == Ok(includeChromosomes)
    ensures includeChromosomes == [] && excludeChromosomes != [] && |excludeChromosomes| <= helperSize ==>
              r == Ok(Without(mapChromosomes, excludeChromosomes))
    ensures includeChromosomes == [] && excludeChromosomes == [] ==> r == Ok(mapChromosomes)
  {
    if excludeChromosomes != [] && includeChromosomes != [] {
      return Fail(IllegalArgument("Only one argument between includeChromosomes and excludeChromosomes can be speficied."));
    }
    var chroms: seq<string>;
    if includeChromosomes != [] {
      chroms := includeChromosomes;
    } else if excludeChromosomes != [] {
      if helperSize - |excludeChromosomes| < 0 {
        return Fail(IllegalArgument("Illegal Capacity: " + IntToString(helperSize - |excludeChromosomes|)));
      }
      chroms := [];
      var i := 0;
      while i < |mapChromosomes|
        invariant 0 <= i <= |mapChromosomes|
        invariant chroms == Without(mapChromosomes[..i], excludeChromosomes)
      {
        var chr := mapChromosomes[i];
        assert mapChromosomes[..i + 1][..i] == mapChromosomes[..i];
        if chr !in excludeChromosomes {
          chroms := chroms + [chr];
        }
        i := i + 1;
      }
      assert mapChromosomes[..i] == mapChromosomes;
    } else {
      chroms := [];
      var i := 0;
      while i < |mapChromosomes|
        invariant 0 <= i <= |mapChromosomes|
        invariant chroms == mapChromosomes[..i]
      {
        chroms := chroms + [mapChromosomes[i]];
        i := i + 1;
      }
      assert mapChromosomes[..i] == mapChromosomes;
    }
    return Ok(chroms);
  }
}
