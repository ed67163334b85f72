/**
 * SegmentLabelMapper: the labels of a segment base are the genotypes of a
 * given ploidy over the alleles A, C, T, G and '-', each written as the
 * alphabetically sorted string of its alleles.
 */
module SegmentLabels {

  /** The alleles, in the order buildLabels walks them. */
  const ALLELES: seq<char> := ['A', 'C', 'T', 'G', '-']

  predicate Sorted(s: string) {
    forall i, j :: 0 <= i < j < |s| ==> s[i] <= s[j]
  }

  predicate OverAlleles(s: string) {
    forall i :: 0 <= i < |s| ==> s[i] in ALLELES
  }

  // ---------------------------------------------------------------------
  // Sorting the characters of a string.

  /** c put in front of the first character of s that is not smaller. */
  function Insert(c: char, s: string): string
  {
    if s == [] then [c]
    else if c <= s[0] then [c] + s
    else [s[0]] + Insert(c, s[1..])
  }

  /** The first character of a sorted string is its smallest. */
  lemma SortedHeadIsLeast(a: string, x: char)
    requires Sorted(a) && x in multiset(a)
    ensures a != [] && a[0] <= x
  {
    var i :| 0 <= i < |a| && a[i] == x;
  }

  /** Insert adds c to the characters of s. */
  lemma {:induction false} InsertKeepsCharacters(c: char, s: string)
    ensures multiset(Insert(c, s)) == multiset(s) + multiset{c}
    ensures |Insert(c, s)| == |s| + 1
  {
    if s != [] {
      assert s == [s[0]] + s[1..];
      if c > s[0] {
        InsertKeepsCharacters(c, s[1..]);
      }
    }
  }

  /** A character no larger than any in a sorted string can go in front of it. */
  lemma ConsSorted(x: char, t: string)
    requires Sorted(t) && forall i :: 0 <= i < |t| ==> x <= t[i]
    ensures Sorted([x] + t)
  {
    var r := [x] + t;
    forall i, j | 0 <= i < j < |r|
      ensures r[i] <= r[j]
    {
      assert r[j] == t[j - 1];
      if i > 0 {
        assert r[i] == t[i - 1];
      }
    }
  }

  /** Every character of Insert(c, s) is one of s or c itself. */
  lemma InsertBound(c: char, s: string, x: char)
    requires x <= c && forall i :: 0 <= i < |s| ==> x <= s[i]
    ensures forall i :: 0 <= i < |Insert(c, s)| ==> x <= Insert(c, s)[i]
  {
    var r := Insert(c, s);
    InsertKeepsCharacters(c, s);
    forall i | 0 <= i < |r|
      ensures x <= r[i]
    {
      assert r[i] in multiset(r);
      if r[i] != c {
        assert r[i] in multiset(s);
      }
    }
  }

  /** Insert keeps a sorted string sorted. */
  lemma {:induction false} InsertKeepsSorted(c: char, s: string)
    requires Sorted(s)
    ensures Sorted(Insert(c, s))
  {
    if s != [] && c > s[0] {
      InsertKeepsSorted(c, s[1..]);
      InsertBound(c, s[1..], s[0]);
      ConsSorted(s[0], Insert(c, s[1..]));
    } else if s != [] {
      ConsSorted(c, s);
    }
  }

  /** The sorted permutation of a string's characters. */
  function SortFn(s: string): string
  {
    if s == [] then [] else Insert(s[0], SortFn(s[1..]))
  }

  /** SortFn sorts and keeps every character. */
  lemma {:induction false} SortFnSpec(s: string)
    ensures Sorted(SortFn(s)) && multiset(SortFn(s)) == multiset(s) && |SortFn(s)| == |s|
  {
    if s != [] {
      assert s == [s[0]] + s[1..];
      SortFnSpec(s[1..]);
      InsertKeepsCharacters(s[0], SortFn(s[1..]));
      InsertKeepsSorted(s[0], SortFn(s[1..]));
    }
  }

  /** A sorted string is determined by its multiset of characters. */
  lemma {:induction false} SortedUnique(a: string, b: string)
    requires Sorted(a) && Sorted(b) && multiset(a) == multiset(b)
    ensures a == b
  {
    if a != [] {
      SortedHeadIsLeast(b, a[0]);
      SortedHeadIsLeast(a, b[0]);
      assert a[0] == b[0];
      var ta, tb := a[1..], b[1..];
      TailMultiset(a);
      TailMultiset(b);
      SortedTail(a);
      SortedTail(b);
      SortedUnique(ta, tb);
    } else {
      assert |b| == |multiset(b)| == 0;
    }
  }

  lemma TailMultiset(a: string)
    requires a != []
    ensures multiset(a[1..]) == multiset(a) - multiset{a[0]}
  {
    assert a == [a[0]] + a[1..];
  }

  lemma SortedTail(a: string)
    requires a != [] && Sorted(a)
    ensures Sorted(a[1..])
  {
    forall i, j | 0 <= i < j < |a| - 1
      ensures a[1..][i] <= a[1..][j]
    {
      assert a[1..][i] == a[i + 1] && a[1..][j] == a[j + 1];
    }
  }

  lemma SortFnOfSorted(s: string)
    requires Sorted(s)
    ensures SortFn(s) == s
  {
    SortFnSpec(s);
    SortedUnique(SortFn(s), s);
  }

  /**
   * sortAlphabetically: the characters of toSort, sorted in place in a char
   * array by increasing code.
   */
  method SortAlphabetically(toSort: string) returns (sorted: string)
    ensures sorted == SortFn(toSort)
  {
    var elements := new char[|toSort|](i requires 0 <= i < |toSort| => toSort[i]);
    assert elements[..] == toSort;
    var i := 0;
    while i < elements.Length
      invariant 0 <= i <= elements.Length
      invariant Sorted(elements[..i])
      invariant multiset(elements[..]) == multiset(toSort)
    {
      InsertAt(elements, i);
      i := i + 1;
    }
    assert elements[..i] == elements[..];
    sorted := elements[..];
    SortFnSpec(toSort);
    SortedUnique(sorted, SortFn(toSort));
  }

  /** One insertion step: moves a[i] left until a[..i + 1] is sorted. */
  method InsertAt(a: array<char>, i: int)
    requires 0 <= i < a.Length && Sorted(a[..i])
    modifies a
    ensures Sorted(a[..i + 1]) && multiset(a[..]) == multiset(old(a[..]))
  {
    var j := i;
    assert forall x, y :: 0 <= x < y < i ==> a[x] <= a[y] by {
      forall x, y | 0 <= x < y < i
        ensures a[x] <= a[y]
      {
        assert a[..i][x] == a[x] && a[..i][y] == a[y];
      }
    }
    while j > 0 && a[j - 1] > a[j]
      invariant 0 <= j <= i
      invariant forall x, y :: 0 <= x < y <= i && x != j && y != j ==> a[x] <= a[y]
      invariant forall y :: j < y <= i ==> a[j] <= a[y]
      invariant multiset(a[..]) == multiset(old(a[..]))
    {
      Swap(a, j - 1, j);
      j := j - 1;
    }
    assert forall x, y :: 0 <= x < y <= i ==> a[x] <= a[y];
  }

  /** Exchanges two characters of the array. */
  method Swap(a: array<char>, i: int, j: int)
    requires 0 <= i < j < a.Length
    modifies a
    ensures a[i] == old(a[j]) && a[j] == old(a[i])
    ensures forall k :: 0 <= k < a.Length && k != i && k != j ==> a[k] == old(a[k])
    ensures multiset(a[..]) == multiset(old(a[..]))
  {
    a[i], a[j] := a[j], a[i];
  }

  // ---------------------------------------------------------------------
  // The labels.

  /** The pairs starting with allele `from`: ALLELES[from] with each allele at or after it. */
  function Pairs(from: nat): (r: seq<string>)
    requires from < |ALLELES|
    ensures |r| == |ALLELES| - from
  {
    seq(|ALLELES| - from, k requires 0 <= k < |ALLELES| - from => SortFn([ALLELES[from], ALLELES[from + k]]))
  }

  /** ALLELES[from] put in front of each shorter label, then sorted. */
  function Prefixed(from: nat, shorter: seq<string>): (r: seq<string>)
    requires from < |ALLELES|
    ensures |r| == |shorter|
  {
    seq(|shorter|, k requires 0 <= k < |shorter| => SortFn([ALLELES[from]] + shorter[k]))
  }

  /** What the iteration for allele `from` appends. */
  function Block(deep: nat, from: nat, shorter: seq<string>): seq<string>
    requires from < |ALLELES|
  {
    if deep == 2 then Pairs(from) else Prefixed(from, shorter)
  }

  /** The blocks of labels, one per allele, in the order they are appended. */
  function Blocks(deep: nat, shorter: seq<string>): (r: seq<seq<string>>)
    ensures |r| == |ALLELES|
    ensures forall from :: 0 <= from < |ALLELES| ==> r[from] == Block(deep, from, shorter)
  {
    [Block(deep, 0, shorter), Block(deep, 1, shorter), Block(deep, 2, shorter),
     Block(deep, 3, shorter), Block(deep, 4, shorter)]
  }

  /** The blocks one after the other. */
  function Flatten(blocks: seq<seq<string>>): seq<string>
  {
    if blocks == [] then [] else Flatten(blocks[..|blocks| - 1]) + blocks[|blocks| - 1]
  }

  /** buildLabels(deep): all allele combinations of size deep, duplicates included. */
  function Labels(deep: nat): seq<string>
    requires deep >= 2
    decreases deep, 1
  {
    Flatten(Blocks(deep, Shorter(deep)))
  }

  /** The labels one allele shorter that the iterations of buildLabels(deep) extend. */
  function Shorter(deep: nat): seq<string>
    requires deep >= 2
    decreases deep, 0
  {
    if deep == 2 then [] else Labels(deep - 1)
  }

  lemma {:induction false} FlattenMember(blocks: seq<seq<string>>, l: string)
    ensures l in Flatten(blocks) <==> exists b :: 0 <= b < |blocks| && l in blocks[b]
  {
    if blocks != [] {
      var init := blocks[..|blocks| - 1];
      FlattenMember(init, l);
      if exists b :: 0 <= b < |blocks| && l in blocks[b] {
        var b :| 0 <= b < |blocks| && l in blocks[b];
        if b < |init| {
          assert l in init[b];
        }
      }
      if exists b :: 0 <= b < |init| && l in init[b] {
        var b :| 0 <= b < |init| && l in init[b];
        assert l in blocks[b];
      }
    }
  }

  lemma {:induction false} FlattenLength(blocks: seq<seq<string>>, n: nat)
    requires forall b :: 0 <= b < |blocks| ==> |blocks[b]| == n
    ensures |Flatten(blocks)| == |blocks| * n
  {
    if blocks != [] {
      FlattenLength(blocks[..|blocks| - 1], n);
      assert (|blocks| - 1) * n + n == |blocks| * n;
    }
  }

  lemma FlattenSnoc(blocks: seq<seq<string>>, k: nat)
    requires k < |blocks|
    ensures Flatten(blocks[..k + 1]) == Flatten(blocks[..k]) + blocks[k]
  {
    assert blocks[..k + 1][..k] == blocks[..k];
  }

  /** A label is generated exactly when the iteration for some allele appends it. */
  lemma LabelsMember(deep: nat, l: string)
    requires deep >= 2
    ensures l in Labels(deep) <==> exists from :: 0 <= from < |ALLELES| && l in Block(deep, from, Shorter(deep))
  {
    var blocks := Blocks(deep, Shorter(deep));
    FlattenMember(blocks, l);
    if exists b :: 0 <= b < |blocks| && l in blocks[b] {
      var b :| 0 <= b < |blocks| && l in blocks[b];
      assert l in Block(deep, b, Shorter(deep));
    }
    if exists from :: 0 <= from < |ALLELES| && l in Block(deep, from, Shorter(deep)) {
      var from :| 0 <= from < |ALLELES| && l in Block(deep, from, Shorter(deep));
      assert l in blocks[from];
    }
  }

  /** What every label is: deep alleles, in sorted order. */
  predicate IsGenotypeLabel(l: string, deep: nat) {
    |l| == deep && Sorted(l) && OverAlleles(l)
  }

  lemma SortFnOverAlleles(s: string)
    requires OverAlleles(s)
    ensures IsGenotypeLabel(SortFn(s), |s|)
  {
    var r := SortFn(s);
    SortFnSpec(s);
    forall i | 0 <= i < |r|
      ensures r[i] in ALLELES
    {
      assert r[i] in multiset(s);
    }
  }

  /** Each pair is a sorted string of two alleles. */
  lemma PairIsGenotype(from: nat, k: nat)
    requires from + k < |ALLELES|
    ensures IsGenotypeLabel(Pairs(from)[k], 2)
  {
    var s := [ALLELES[from], ALLELES[from + k]];
    assert OverAlleles(s);
    SortFnOverAlleles(s);
  }

  /** An allele put in front of a string of alleles and sorted is a sorted string one longer. */
  lemma PrefixedIsGenotype(from: nat, s: string)
    requires from < |ALLELES| && OverAlleles(s)
    ensures IsGenotypeLabel(SortFn([ALLELES[from]] + s), |s| + 1)
  {
    var t := [ALLELES[from]] + s;
    forall i | 0 <= i < |t|
      ensures t[i] in ALLELES
    {
      if i > 0 {
        assert t[i] == s[i - 1];
      }
    }
    SortFnOverAlleles(t);
  }

  /** Every label the iteration for one allele appends is a genotype of size deep. */
  lemma BlockIsGenotypes(deep: nat, from: nat, shorter: seq<string>, l: string)
    requires deep >= 2 && from < |ALLELES| && l in Block(deep, from, shorter)
    requires deep > 2 ==> forall s :: s in shorter ==> IsGenotypeLabel(s, deep - 1)
    ensures IsGenotypeLabel(l, deep)
  {
    if deep == 2 {
      var k :| 0 <= k < |Pairs(from)| && Pairs(from)[k] == l;
      PairIsGenotype(from, k);
    } else {
      var k :| 0 <= k < |shorter| && Prefixed(from, shorter)[k] == l;
      assert shorter[k] in shorter;
      PrefixedIsGenotype(from, shorter[k]);
    }
  }

  /** Every generated label has length deep, uses only the alleles, and is sorted. */
  lemma {:induction false} LabelsAreGenotypes(deep: nat, l: string)
    requires deep >= 2 && l in Labels(deep)
    ensures IsGenotypeLabel(l, deep)
  {
    var shorter := Shorter(deep);
    if deep > 2 {
      forall s | s in shorter
        ensures IsGenotypeLabel(s, deep - 1)
      {
        LabelsAreGenotypes(deep - 1, s);
      }
    }
    LabelsMember(deep, l);
    var from :| 0 <= from < |ALLELES| && l in Block(deep, from, shorter);
    BlockIsGenotypes(deep, from, shorter, l);
  }

  /** Sorting two characters. */
  lemma SortPair(x: char, y: char)
    ensures SortFn([x, y]) == if x <= y then [x, y] else [y, x]
  {
    assert [x, y][1..] == [y];
    assert [y][1..] == [];
    assert SortFn([y]) == Insert(y, []) == [y];
    assert SortFn([x, y]) == Insert(x, [y]);
    assert Insert(x, []) == [x];
  }

  /** Every sorted string of two alleles is one of the pairs. */
  lemma PairIsLabelled(l: string)
    requires IsGenotypeLabel(l, 2)
    ensures l in Labels(2)
  {
    var first :| 0 <= first < |ALLELES| && ALLELES[first] == l[0];
    var second :| 0 <= second < |ALLELES| && ALLELES[second] == l[1];
    assert l == [l[0], l[1]];
    if first <= second {
      SortPair(l[0], l[1]);
      assert Pairs(first)[second - first] == l;
      assert l in Block(2, first, Shorter(2));
    } else {
      SortPair(l[1], l[0]);
      assert Pairs(second)[first - second] == l;
      assert l in Block(2, second, Shorter(2));
    }
    LabelsMember(2, l);
  }

  lemma TailIsGenotype(l: string, deep: nat)
    requires deep > 0 && IsGenotypeLabel(l, deep)
    ensures IsGenotypeLabel(l[1..], deep - 1)
  {
    var rest := l[1..];
    forall i, j | 0 <= i < j < |rest|
      ensures rest[i] <= rest[j]
    {
      assert rest[i] == l[i + 1] && rest[j] == l[j + 1];
    }
    forall i | 0 <= i < |rest|
      ensures rest[i] in ALLELES
    {
      assert rest[i] == l[i + 1];
    }
  }

  /** A genotype whose tail is a shorter label is appended by the iteration for its first allele. */
  lemma PrefixedIsLabelled(deep: nat, l: string)
    requires deep > 2 && IsGenotypeLabel(l, deep) && l[1..] in Shorter(deep)
    ensures l in Labels(deep)
  {
    var shorter := Shorter(deep);
    var first :| 0 <= first < |ALLELES| && ALLELES[first] == l[0];
    var k :| 0 <= k < |shorter| && shorter[k] == l[1..];
    assert l == [ALLELES[first]] + shorter[k];
    SortFnOfSorted(l);
    assert Block(deep, first, shorter)[k] == l;
    LabelsMember(deep, l);
  }

  /** Every sorted string of deep alleles is generated. */
  lemma {:induction false} EveryGenotypeIsLabelled(deep: nat, l: string)
    requires deep >= 2 && IsGenotypeLabel(l, deep)
    ensures l in Labels(deep)
  {
    if deep == 2 {
      PairIsLabelled(l);
    } else {
      TailIsGenotype(l, deep);
      EveryGenotypeIsLabelled(deep - 1, l[1..]);
      assert Shorter(deep) == Labels(deep - 1);
      PrefixedIsLabelled(deep, l);
    }
  }

  /** The distinct labels are exactly the sorted strings of deep alleles. */
  lemma DistinctLabels(deep: nat)
    requires deep >= 2
    ensures forall l :: l in Labels(deep) <==> IsGenotypeLabel(l, deep)
  {
    forall l
      ensures l in Labels(deep) <==> IsGenotypeLabel(l, deep)
    {
      if l in Labels(deep) {
        LabelsAreGenotypes(deep, l);
      }
      if IsGenotypeLabel(l, deep) {
        EveryGenotypeIsLabelled(deep, l);
      }
    }
  }

  /** Ploidy 2 gives the 15 pairs (from <= index) over the 5 alleles. */
  lemma PairCount()
    ensures |Labels(2)| == 15
  {
    var blocks := Blocks(2, []);
    assert blocks[..0] == [];
    FlattenSnoc(blocks, 0);
    FlattenSnoc(blocks, 1);
    FlattenSnoc(blocks, 2);
    FlattenSnoc(blocks, 3);
    FlattenSnoc(blocks, 4);
    assert blocks[..5] == blocks;
  }

  /** The sorted strings of two alleles, '-' < 'A' < 'C' < 'G' < 'T'. */
  const DIPLOID_LABELS: set<string> :=
    {"--", "-A", "-C", "-G", "-T", "AA", "AC", "AG", "AT", "CC", "CG", "CT", "GG", "GT", "TT"}

  lemma DiploidLabelsListed(l: string)
    requires IsGenotypeLabel(l, 2)
    ensures l in DIPLOID_LABELS
  {
    assert l == [l[0], l[1]];
    assert l[0] in ALLELES && l[1] in ALLELES && l[0] <= l[1];
  }

  /** Each listed string is a sorted pair of alleles. */
  lemma ListedDiploidLabel(l: string)
    requires l in DIPLOID_LABELS
    ensures IsGenotypeLabel(l, 2)
  {
  }

  /** The listed strings are fifteen different ones. */
  lemma DiploidListCardinality()
    ensures |DIPLOID_LABELS| == 15
  {
  }

  /** Ploidy 2 has 15 distinct labels, one per unordered pair of alleles. */
  lemma DiploidLabelCount()
    ensures (set l | l in Labels(2)) == DIPLOID_LABELS
    ensures |set l | l in Labels(2)| == 15
  {
    DistinctLabels(2);
    forall l | IsGenotypeLabel(l, 2)
      ensures l in DIPLOID_LABELS
    {
      DiploidLabelsListed(l);
    }
    forall l | l in DIPLOID_LABELS
      ensures IsGenotypeLabel(l, 2)
    {
      ListedDiploidLabel(l);
    }
    DiploidListCardinality();
  }

  /** Each extra allele multiplies the number of generated labels by five. */
  lemma LabelCountGrowth(deep: nat)
    requires deep > 2
    ensures |Labels(deep)| == 5 * |Labels(deep - 1)|
  {
    FlattenLength(Blocks(deep, Labels(deep - 1)), |Labels(deep - 1)|);
  }

  /** The pairs loop of buildLabels for one allele: appends Pairs(from). */
  method AppendPairs(from: int, combinedLabels: seq<string>) returns (r: seq<string>)
    requires 0 <= from < |ALLELES|
    ensures r == combinedLabels + Pairs(from)
  {
    r := combinedLabels;
    ghost var pairs := Pairs(from);
    var index := from;
    while index < |ALLELES|
      invariant from <= index <= |ALLELES|
      invariant r == combinedLabels + pairs[..index - from]
    {
      var sortedLabel := SortAlphabetically([ALLELES[from], ALLELES[index]]);
      assert pairs[index - from] == sortedLabel;
      assert pairs[..index + 1 - from] == pairs[..index - from] + [sortedLabel];
      r := r + [sortedLabel];
      index := index + 1;
    }
    assert pairs[..index - from] == pairs;
  }

  /** The extension loop of buildLabels for one allele: appends Prefixed(from, sub). */
  method AppendPrefixed(from: int, sub: seq<string>, combinedLabels: seq<string>) returns (r: seq<string>)
    requires 0 <= from < |ALLELES|
    ensures r == combinedLabels + Prefixed(from, sub)
  {
    r := combinedLabels;
    ghost var extended := Prefixed(from, sub);
    var k := 0;
    while k < |sub|
      invariant 0 <= k <= |sub|
      invariant r == combinedLabels + extended[..k]
    {
      var sortedLabel := SortAlphabetically([ALLELES[from]] + sub[k]);
      assert extended[k] == sortedLabel;
      assert extended[..k + 1] == extended[..k] + [sortedLabel];
      r := r + [sortedLabel];
      k := k + 1;
    }
    assert extended[..k] == extended;
  }

  /**
   * buildLabels: for each allele in turn, either the pairs it starts (deep 2)
   * or the labels one allele shorter with it added in front, each sorted and
   * appended to the list. Deep 1 and below never reach the base case.
   */
  method BuildLabels(deep: int) returns (combinedLabels: seq<string>)
    requires deep >= 2
    ensures combinedLabels == Labels(deep)
    decreases deep
  {
    ghost var blocks := Blocks(deep, Shorter(deep));
    combinedLabels := [];
    var from := 0;
    while from < |ALLELES|
      invariant 0 <= from <= |ALLELES|
      invariant combinedLabels == Flatten(blocks[..from])
    {
      FlattenSnoc(blocks, from);
      assert blocks[from] == Block(deep, from, Shorter(deep));
      if deep == 2 {
        combinedLabels := AppendPairs(from, combinedLabels);
      } else {
        var sub := BuildLabels(deep - 1);
        combinedLabels := AppendPrefixed(from, sub, combinedLabels);
      }
      from := from + 1;
    }
    assert blocks[..from] == blocks;
  }

  class SegmentLabelMapper {
    const ploidy: int
    /** The distinct labels. */
    var labels: set<string>
    var numberOfLabelsPerBase: int

    constructor (ploidy: int)
      requires ploidy >= 2
      ensures this.ploidy == ploidy
      ensures labels == set l | l in Labels(ploidy)
      ensures forall l :: l in labels <==> IsGenotypeLabel(l, ploidy)
      ensures numberOfLabelsPerBase == |labels|
      ensures Valid()
    {
      this.ploidy := ploidy;
      var built := BuildLabels(ploidy);
      labels := set l | l in built;
      numberOfLabelsPerBase := |set l | l in built|;
      DistinctLabels(ploidy);
    }

    /** The state the constructor leaves: the distinct labels of the ploidy and their number. */
    ghost predicate Valid()
      reads this
    {
      ploidy >= 2 && labels == (set l | l in Labels(ploidy)) && numberOfLabelsPerBase == |labels|
    }

    /** numberOfLabels: the number of distinct labels, 15 for a diploid genome. */
    function NumberOfLabels(): (n: int)
      reads this
      requires Valid()
      ensures n == |set l | l in Labels(ploidy)|
      ensures ploidy == 2 ==> n == 15
    {
      if ploidy == 2 then DiploidLabelCount(); numberOfLabelsPerBase
      else numberOfLabelsPerBase
    }
  }
}
