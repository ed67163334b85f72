/**
 * CombineWithGoldStandard: a set of gold-standard (chromosome, position)
 * annotations read from tab-separated lines with 1-based positions, used to
 * set the mutated flag of records, and the sampling filter that decides
 * which records are written.
 */
module GoldStandard {
  import opened JavaLang
  import opened Records

  const TAB: set<char> := {'\t'}

  /**
   * One annotation line: its first two tab-separated columns, the second
   * read with Integer.parseInt. A line with fewer than two columns is an
   * ArrayIndexOutOfBoundsException, a non-numeric position a
   * NumberFormatException.
   */
  function ParseLine(line: string): (r: Result<(string, int)>)
    ensures r.Ok? ==> |JavaSplit(line, TAB)| >= 2 && r.value.0 == JavaSplit(line, TAB)[0]
    ensures r.Ok? <==> |JavaSplit(line, TAB)| >= 2 && ParseInt(JavaSplit(line, TAB)[1]).Some?
    ensures r.Ok? ==> Some(r.value.1) == ParseInt(JavaSplit(line, TAB)[1])
  {
    var tokens := JavaSplit(line, TAB);
    if |tokens| < 2 then Fail(IndexOutOfBounds(line))
    else
      match ParseInt(tokens[1])
      case None => Fail(NumberFormat(tokens[1]))
      case Some(position) => Ok((tokens[0], position))
  }

  /** Adds one zero-based position under a chromosome, creating its entry on first use. */
  function AddAnnotation(annotations: map<string, set<int>>, chromosome: string, position: int): (r: map<string, set<int>>)
    ensures r.Keys == annotations.Keys + {chromosome}
    ensures r[chromosome] == (if chromosome in annotations then annotations[chromosome] else {}) + {position}
    ensures forall c :: c in annotations && c != chromosome ==> r[c] == annotations[c]
  {
    var positions := if chromosome in annotations then annotations[chromosome] else {};
    annotations[chromosome := positions + {position}]
  }

  /** The zero-based position of a 1-based one, with Java int wrap-around of `position -= 1`. */
  function ZeroBased(position: int): int {
    Wrap32(position - 1)
  }

  /**
   * The annotations after loading lines one by one: the map reached and,
   * when a line fails, the error; lines before the failing one stay loaded.
   */
  function LoadAll(annotations: map<string, set<int>>, lines: seq<string>): (map<string, set<int>>, Option<Error>)
    decreases |lines|
  {
    if lines == [] then (annotations, None)
    else
      match ParseLine(lines[0])
      case Fail(e) => (annotations, Some(e))
      case Ok(parsed) => LoadAll(AddAnnotation(annotations, parsed.0, ZeroBased(parsed.1)), lines[1..])
  }

  /** One step of the load: the line at i either stops it or adds its annotation. */
  lemma LoadAllStep(annotations: map<string, set<int>>, lines: seq<string>, i: int)
    requires 0 <= i < |lines|
    ensures ParseLine(lines[i]).Fail? ==> LoadAll(annotations, lines[i..]) == (annotations, Some(ParseLine(lines[i]).error))
    ensures ParseLine(lines[i]).Ok? ==>
              LoadAll(annotations, lines[i..]) ==
              LoadAll(AddAnnotation(annotations, ParseLine(lines[i]).value.0, ZeroBased(ParseLine(lines[i]).value.1)),
                      lines[i + 1..])
  {
    assert lines[i..][0] == lines[i] && lines[i..][1..] == lines[i + 1..];
  }

  /** isAnnotated against a given map: false for an unknown chromosome or position. */
  predicate AnnotatedIn(annotations: map<string, set<int>>, referenceId: string, position: int) {
    referenceId in annotations && position in annotations[referenceId]
  }

  /** Loading never removes an annotation. */
  lemma {:induction false} LoadKeepsAnnotations(annotations: map<string, set<int>>, lines: seq<string>,
                                                referenceId: string, position: int)
    requires AnnotatedIn(annotations, referenceId, position)
    ensures AnnotatedIn(LoadAll(annotations, lines).0, referenceId, position)
    decreases |lines|
  {
    if lines != [] && ParseLine(lines[0]).Ok? {
      var parsed := ParseLine(lines[0]).value;
      LoadKeepsAnnotations(AddAnnotation(annotations, parsed.0, ZeroBased(parsed.1)), lines[1..], referenceId, position);
    }
  }

  /** Whether a line parses to the given chromosome and zero-based position. */
  predicate LineAnnotates(line: string, referenceId: string, position: int) {
    ParseLine(line).Ok? && ParseLine(line).value.0 == referenceId && ZeroBased(ParseLine(line).value.1) == position
  }

  /** Some line of the list annotates the site. */
  predicate SomeLineAnnotates(lines: seq<string>, referenceId: string, position: int) {
    exists i :: 0 <= i < |lines| && LineAnnotates(lines[i], referenceId, position)
  }

  lemma SomeLineAnnotatesTail(lines: seq<string>, referenceId: string, position: int)
    requires lines != []
    ensures SomeLineAnnotates(lines, referenceId, position) <==>
              LineAnnotates(lines[0], referenceId, position) || SomeLineAnnotates(lines[1..], referenceId, position)
  {
    if SomeLineAnnotates(lines[1..], referenceId, position) {
      var j :| 0 <= j < |lines[1..]| && LineAnnotates(lines[1..][j], referenceId, position);
      assert lines[j + 1] == lines[1..][j];
    }
    if SomeLineAnnotates(lines, referenceId, position) && !LineAnnotates(lines[0], referenceId, position) {
      var j :| 0 <= j < |lines| && LineAnnotates(lines[j], referenceId, position);
      assert lines[1..][j - 1] == lines[j];
    }
  }

  /**
   * When every line loads, each line "chr\tp" annotates (chr, p - 1), and
   * nothing else beyond what was there before is annotated.
   */
  lemma {:induction false} LoadAllAnnotates(annotations: map<string, set<int>>, lines: seq<string>,
                                            referenceId: string, position: int)
    requires LoadAll(annotations, lines).1.None?
    ensures AnnotatedIn(LoadAll(annotations, lines).0, referenceId, position) <==>
              AnnotatedIn(annotations, referenceId, position) || SomeLineAnnotates(lines, referenceId, position)
    decreases |lines|
  {
    if lines != [] {
      var parsed := ParseLine(lines[0]).value;
      var next := AddAnnotation(annotations, parsed.0, ZeroBased(parsed.1));
      LoadAllAnnotates(next, lines[1..], referenceId, position);
      SomeLineAnnotatesTail(lines, referenceId, position);
    }
  }

  /** A line that fails to parse stops the load there and reports its error. */
  lemma LoadAllStopsAtFailure(annotations: map<string, set<int>>, line: string, rest: seq<string>)
    requires ParseLine(line).Fail?
    ensures LoadAll(annotations, [line] + rest) == (annotations, Some(ParseLine(line).error))
  {
    assert ([line] + rest)[0] == line;
  }

  /** StripTrailingEmpty only looks at the end: a prefix ending in a non-empty field survives. */
  lemma {:induction false} StripAfterNonEmpty(a: seq<string>, b: seq<string>)
    requires |a| >= 1 && a[|a| - 1] != ""
    ensures |StripTrailingEmpty(a + b)| >= |a| && StripTrailingEmpty(a + b)[..|a|] == a
    decreases |b|
  {
    if |b| == 0 {
      assert a + b == a;
    } else if b[|b| - 1] == "" {
      assert (a + b)[..|a + b| - 1] == a + b[..|b| - 1];
      StripAfterNonEmpty(a, b[..|b| - 1]);
    }
  }

  /** A line "chr\tp\trest" splits into chr, p and then the fields of rest. */
  lemma ThreeColumnTokens(chromosome: string, position: string, rest: string)
    requires NoneOf(chromosome, TAB) && NoneOf(position, TAB) && position != ""
    ensures var tokens := JavaSplit(chromosome + "\t" + position + "\t" + rest, TAB);
      |tokens| >= 2 && tokens[0] == chromosome && tokens[1] == position
  {
    var long := chromosome + "\t" + position + "\t" + rest;
    assert long == chromosome + ['\t'] + (position + ['\t'] + rest);
    SplitAllField(chromosome, '\t', position + ['\t'] + rest, TAB);
    SplitAllField(position, '\t', rest, TAB);
    assert !NoneOf(long, TAB) by { assert long[|chromosome|] == '\t'; }
    assert SplitAll(long, TAB) == [chromosome, position] + SplitAll(rest, TAB);
    StripAfterNonEmpty([chromosome, position], SplitAll(rest, TAB));
    var tokens := JavaSplit(long, TAB);
    assert tokens[..2] == [chromosome, position];
    assert tokens[0] == tokens[..2][0] && tokens[1] == tokens[..2][1];
  }

  /** A line "chr\tp" splits into exactly chr and p. */
  lemma TwoColumnTokens(chromosome: string, position: string)
    requires NoneOf(chromosome, TAB) && NoneOf(position, TAB) && position != ""
    ensures JavaSplit(chromosome + "\t" + position, TAB) == [chromosome, position]
  {
    var short := chromosome + "\t" + position;
    assert short == chromosome + ['\t'] + position;
    SplitAllField(chromosome, '\t', position, TAB);
    SplitAllNoSeparator(position, TAB);
    assert !NoneOf(short, TAB) by { assert short[|chromosome|] == '\t'; }
    assert SplitAll(short, TAB) == [chromosome, position];
  }

  /** Only the first two tab-separated columns of a line are read. */
  lemma OnlyTwoColumnsRead(chromosome: string, position: string, rest: string)
    requires NoneOf(chromosome, TAB) && NoneOf(position, TAB) && position != ""
    ensures ParseLine(chromosome + "\t" + position + "\t" + rest) == ParseLine(chromosome + "\t" + position)
    ensures ParseInt(position).None? ==> ParseLine(chromosome + "\t" + position) == Fail(NumberFormat(position))
    ensures ParseInt(position).Some? ==>
              ParseLine(chromosome + "\t" + position) == Ok((chromosome, ParseInt(position).value))
  {
    ThreeColumnTokens(chromosome, position, rest);
    TwoColumnTokens(chromosome, position);
  }

  /** annotate against a given map: sets mutated on an annotated site, changes nothing otherwise. */
  function AnnotateWith(annotations: map<string, set<int>>, record: BaseInformation): (r: BaseInformation)
    ensures !AnnotatedIn(annotations, record.referenceId, record.position) ==> r == record
    ensures AnnotatedIn(annotations, record.referenceId, record.position) ==> r == record.(mutated := true)
    ensures r.mutated <==> record.mutated || AnnotatedIn(annotations, record.referenceId, record.position)
  {
    if !AnnotatedIn(annotations, record.referenceId, record.position) then record
    else record.(mutated := true)
  }

  /** annotate is idempotent. */
  lemma AnnotateIdempotent(annotations: map<string, set<int>>, record: BaseInformation)
    ensures AnnotateWith(annotations, AnnotateWith(annotations, record)) == AnnotateWith(annotations, record)
  {
  }

  /**
   * The records execute writes: each record is annotated, then kept when its
   * draw falls below the sampling fraction or it is mutated.
   */
  function Written(annotations: map<string, set<int>>, records: seq<BaseInformation>, draws: seq<real>,
                   samplingFraction: real): seq<BaseInformation>
    requires |draws| == |records|
    decreases |records|
  {
    if records == [] then []
    else
      var n := |records| - 1;
      var record := AnnotateWith(annotations, records[n]);
      Written(annotations, records[..n], draws[..n], samplingFraction)
        + (if draws[n] < samplingFraction || record.mutated then [record] else [])
  }

  /** The number of mutated records in a list. */
  function MutatedCount(records: seq<BaseInformation>): (n: nat)
    ensures n <= |records|
    ensures n == 0 <==> forall i :: 0 <= i < |records| ==> !records[i].mutated
    ensures n == |records| <==> forall i :: 0 <= i < |records| ==> records[i].mutated
  {
    if records == [] then 0
    else MutatedCount(records[..|records| - 1]) + (if records[|records| - 1].mutated then 1 else 0)
  }

  /** Every annotated or already mutated record is written, whatever its draw. */
  lemma {:induction false} MutatedAlwaysWritten(annotations: map<string, set<int>>, records: seq<BaseInformation>,
                                                draws: seq<real>, samplingFraction: real, i: int)
    requires |draws| == |records| && 0 <= i < |records|
    requires records[i].mutated || AnnotatedIn(annotations, records[i].referenceId, records[i].position)
    ensures AnnotateWith(annotations, records[i]) in Written(annotations, records, draws, samplingFraction)
    decreases |records|
  {
    var n := |records| - 1;
    if i < n {
      assert records[..n][i] == records[i];
      MutatedAlwaysWritten(annotations, records[..n], draws[..n], samplingFraction, i);
    } else {
      var w := Written(annotations, records, draws, samplingFraction);
      assert w[|w| - 1] == AnnotateWith(annotations, records[i]);
    }
  }

  /** Every written record is an annotated input record, and written records are all mutated or drawn. */
  lemma {:induction false} WrittenAreAnnotatedInputs(annotations: map<string, set<int>>, records: seq<BaseInformation>,
                                                     draws: seq<real>, samplingFraction: real, w: BaseInformation)
    requires |draws| == |records|
    requires w in Written(annotations, records, draws, samplingFraction)
    ensures exists i :: 0 <= i < |records| && w == AnnotateWith(annotations, records[i]) &&
                        (draws[i] < samplingFraction || w.mutated)
    decreases |records|
  {
    var n := |records| - 1;
    var record := AnnotateWith(annotations, records[n]);
    if w in Written(annotations, records[..n], draws[..n], samplingFraction) {
      WrittenAreAnnotatedInputs(annotations, records[..n], draws[..n], samplingFraction, w);
      var i :| 0 <= i < n && w == AnnotateWith(annotations, records[..n][i]) &&
               (draws[..n][i] < samplingFraction || w.mutated);
      assert records[..n][i] == records[i] && draws[..n][i] == draws[i];
    } else {
      assert w == record;
    }
  }

  /** A mutated record whose print of samples 0 and 1 would index past its samples. */
  predicate ShortMutated(record: BaseInformation) {
    record.mutated && |record.samples| < 2
  }

  /** What is written for a prefix of the records is a prefix of what is written for all of them. */
  lemma {:induction false} WrittenPrefix(annotations: map<string, set<int>>, records: seq<BaseInformation>,
                                         draws: seq<real>, samplingFraction: real, k: int)
    requires |draws| == |records| && 0 <= k <= |records|
    ensures Written(annotations, records[..k], draws[..k], samplingFraction)
            <= Written(annotations, records, draws, samplingFraction)
    decreases |records|
  {
    if k < |records| {
      var n := |records| - 1;
      assert records[..n][..k] == records[..k] && draws[..n][..k] == draws[..k];
      WrittenPrefix(annotations, records[..n], draws[..n], samplingFraction, k);
    } else {
      assert records[..k] == records && draws[..k] == draws;
    }
  }

  /** Written over the first i + 1 records: Written over the first i, then record i if it is kept. */
  lemma WrittenStep(annotations: map<string, set<int>>, records: seq<BaseInformation>, draws: seq<real>,
                    samplingFraction: real, i: int)
    requires |draws| == |records| && 0 <= i < |records|
    ensures var record := AnnotateWith(annotations, records[i]);
      Written(annotations, records[..i + 1], draws[..i + 1], samplingFraction)
      == Written(annotations, records[..i], draws[..i], samplingFraction)
         + (if draws[i] < samplingFraction || record.mutated then [record] else [])
  {
    assert records[..i + 1][..i] == records[..i] && draws[..i + 1][..i] == draws[..i];
    assert records[..i + 1][i] == records[i] && draws[..i + 1][i] == draws[i];
  }

  /** The last record written for a prefix is written for all the records. */
  lemma WrittenPrefixLast(annotations: map<string, set<int>>, records: seq<BaseInformation>, draws: seq<real>,
                          samplingFraction: real, k: int)
    requires |draws| == |records| && 0 <= k <= |records|
    requires Written(annotations, records[..k], draws[..k], samplingFraction) != []
    ensures var w := Written(annotations, records[..k], draws[..k], samplingFraction);
      w[|w| - 1] in Written(annotations, records, draws, samplingFraction)
      && w <= Written(annotations, records, draws, samplingFraction)
  {
    WrittenPrefix(annotations, records, draws, samplingFraction, k);
    var w := Written(annotations, records[..k], draws[..k], samplingFraction);
    var all := Written(annotations, records, draws, samplingFraction);
    assert all[|w| - 1] == w[|w| - 1];
  }

  class CombineWithGoldStandard {
    /** Chromosome to the zero-based annotated positions (the Int2BooleanAVLTreeMap holds only true). */
    var annotations: map<string, set<int>>

    constructor ()
      ensures annotations == map[]
    {
      annotations := map[];
    }

    /**
     * loadAnnotations: each line in turn adds (chromosome, position - 1); a
     * malformed line throws, leaving the lines before it loaded.
     */
    method LoadAnnotations(lines: seq<string>) returns (r: Result<()>)
      modifies this
      ensures LoadAll(old(annotations), lines) == (annotations, if r.Ok? then None else Some(r.error))
    {
      var i := 0;
      while i < |lines|
        invariant 0 <= i <= |lines|
        invariant LoadAll(annotations, lines[i..]) == LoadAll(old(annotations), lines)
      {
        LoadAllStep(annotations, lines, i);
        var parsed := ParseLine(lines[i]);
        if parsed.Fail? {
          return Fail(parsed.error);
        }
        var chromosome := parsed.value.0;
        var position := Wrap32(parsed.value.1 - 1);
        var positions := if chromosome in annotations then annotations[chromosome] else {};
        annotations := annotations[chromosome := positions + {position}];
        i := i + 1;
      }
      assert lines[i..] == [];
      return Ok(());
    }

    /** isAnnotated: a chromosome or position that was never loaded reads as false. */
    function IsAnnotated(referenceId: string, position: int): (r: bool)
      reads this
      ensures r <==> referenceId in annotations && position in annotations[referenceId]
    {
      AnnotatedIn(annotations, referenceId, position)
    }

    /** annotate. */
    function Annotate(record: BaseInformation): (r: BaseInformation)
      reads this
      ensures r == AnnotateWith(annotations, record)
      ensures r.mutated <==> record.mutated || IsAnnotated(record.referenceId, record.position)
    {
      if !IsAnnotated(record.referenceId, record.position) then record
      else record.(mutated := true)
    }

    /**
     * execute's loop: annotate each record, write it when its draw is below
     * the sampling fraction or it is mutated, and count written and mutated
     * written records. draws stands for the random generator's nextDouble
     * values, one per record. A written mutated record is printed with its
     * first two samples, so one with fewer than two samples throws once it
     * has been written: `written` is what reached the output either way.
     */
    method WriteRecords(records: seq<BaseInformation>, draws: seq<real>, samplingFraction: real)
      returns (written: seq<BaseInformation>, r: Result<(int, int)>)
      requires |draws| == |records|
      ensures written <= Written(annotations, records, draws, samplingFraction)
      ensures r.Ok? <==> forall w :: w in Written(annotations, records, draws, samplingFraction) ==> !ShortMutated(w)
      ensures r.Ok? ==> written == Written(annotations, records, draws, samplingFraction)
      ensures r.Ok? ==> r.value == (|written|, MutatedCount(written))
      ensures r.Fail? ==> r.error.IndexOutOfBounds? && |written| > 0 && ShortMutated(written[|written| - 1])
      ensures r.Fail? ==> forall j :: 0 <= j < |written| - 1 ==> !ShortMutated(written[j])
    {
      written := [];
      var numWritten, numMutatedWritten := 0, 0;
      var i := 0;
      while i < |records|
        invariant 0 <= i <= |records|
        invariant written == Written(annotations, records[..i], draws[..i], samplingFraction)
        invariant forall w :: w in written ==> !ShortMutated(w)
        invariant numWritten == |written| && numMutatedWritten == MutatedCount(written)
      {
        var record := Annotate(records[i]);
        var choice := draws[i];
        WrittenStep(annotations, records, draws, samplingFraction, i);
        if choice < samplingFraction || record.mutated {
          assert (written + [record])[..|written|] == written;
          written := written + [record];
          numWritten := numWritten + 1;
          if record.mutated {
            numMutatedWritten := numMutatedWritten + 1;
            if |record.samples| < 2 {
              WrittenPrefixLast(annotations, records, draws, samplingFraction, i + 1);
              return written, Fail(IndexOutOfBounds("samples"));
            }
          }
        }
        assert written == Written(annotations, records[..i + 1], draws[..i + 1], samplingFraction);
        i := i + 1;
      }
      assert records[..i] == records && draws[..i] == draws;
      r := Ok((numWritten, numMutatedWritten));
    }

    /**
     * execute: load the annotations, then filter the records; a malformed
     * annotation line stops it before any record is written, and a mutated
     * written record without two samples stops it after that record.
     */
    method Execute(lines: seq<string>, records: seq<BaseInformation>, draws: seq<real>, samplingFraction: real)
      returns (written: seq<BaseInformation>, r: Result<(int, int)>)
      requires |draws| == |records|
      modifies this
      ensures annotations == LoadAll(old(annotations), lines).0
      ensures LoadAll(old(annotations), lines).1.Some? ==> written == [] && r == Fail(LoadAll(old(annotations), lines).1.value)
      ensures LoadAll(old(annotations), lines).1.None? ==> written <= Written(annotations, records, draws, samplingFraction)
      ensures LoadAll(old(annotations), lines).1.None? ==>
                (r.Ok? <==> forall w :: w in Written(annotations, records, draws, samplingFraction) ==> !ShortMutated(w))
      ensures r.Ok? ==> written == Written(annotations, records, draws, samplingFraction)
      ensures r.Ok? ==> r.value == (|written|, MutatedCount(written))
    {
      var loaded := LoadAnnotations(lines);
      if loaded.Fail? {
        return [], Fail(loaded.error);
      }
      written, r := WriteRecords(records, draws, samplingFraction);
    }
  }
}
