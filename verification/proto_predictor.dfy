/**
 * ProtoPredictor.compressFreq: turns a list of numbers into a histogram of
 * (number, frequency) entries, one per distinct number, in the order the
 * numbers first occur.
 */
module ProtoPredictor {
  import opened JavaLang
  import opened Records

  /**
   * The array-backed int-to-int map compressFreq counts in: parallel key and
   * value lists, new keys appended at the end, so iteration follows
   * insertion order.
   */
  class IntIntArrayMap {
    var keys: seq<int>
    var values: seq<int>

    ghost predicate Valid()
      reads this
    {
      |keys| == |values| && Distinct(keys)
    }

    constructor ()
      ensures Valid() && keys == [] && values == []
    {
      keys := [];
      values := [];
    }

    function Size(): (n: nat)
      reads this
      requires Valid()
      ensures n == |keys| == |values|
    {
      |keys|
    }

    /** The position of key k, found by scanning the keys from the front. */
    function FindKey(k: int): (i: int)
      reads this
      ensures -1 <= i < |keys|
      ensures i >= 0 ==> keys[i] == k && k !in keys[..i]
      ensures i == -1 <==> k !in keys
    {
      FindKeyFrom(keys, k, 0)
    }

    /**
     * putIfAbsent: when k has no value yet, appends (k, v) and answers None;
     * otherwise answers k's value and changes nothing.
     */
    method PutIfAbsent(k: int, v: int) returns (prev: Option<int>)
      requires Valid()
      modifies this
      ensures Valid()
      ensures k in old(keys) ==>
                keys == old(keys) && values == old(values)
                && prev == Some(values[FindKey(k)])
      ensures k !in old(keys) ==>
                keys == old(keys) + [k] && values == old(values) + [v] && prev == None
    {
      var i := FindKey(k);
      if i >= 0 {
        prev := Some(values[i]);
      } else {
        keys := keys + [k];
        values := values + [v];
        prev := None;
        assert Distinct(keys) by {
          DistinctSnoc(old(keys), k);
        }
      }
    }

    /**
     * The entries in the map's order, each as a (number := key,
     * frequency := value) record.
     */
    method Entries() returns (freqList: seq<NumberWithFrequency>)
      requires Valid()
      ensures |freqList| == |keys|
      ensures forall i :: 0 <= i < |keys| ==> freqList[i] == NumberWithFrequency(keys[i], values[i])
    {
      freqList := [];
      var i := 0;
      while i < Size()
        invariant 0 <= i <= |keys|
        invariant |freqList| == i
        invariant forall j :: 0 <= j < i ==> freqList[j] == NumberWithFrequency(keys[j], values[j])
      {
        freqList := freqList + [NumberWithFrequency(number := keys[i], frequency := values[i])];
        i := i + 1;
      }
    }

    /** put: replaces k's value in place, or appends (k, v) when k is new. */
    method Put(k: int, v: int)
      requires Valid()
      modifies this
      ensures Valid()
      ensures k in old(keys) ==> keys == old(keys) && values == old(values)[FindKey(k) := v]
      ensures k !in old(keys) ==> keys == old(keys) + [k] && values == old(values) + [v]
    {
      var i := FindKey(k);
      if i >= 0 {
        values := values[i := v];
      } else {
        keys := keys + [k];
        values := values + [v];
        assert Distinct(keys) by {
          DistinctSnoc(old(keys), k);
        }
      }
    }
  }

  predicate Distinct(s: seq<int>) {
    forall i, j :: 0 <= i < j < |s| ==> s[i] != s[j]
  }

  lemma DistinctSnoc(s: seq<int>, x: int)
    requires Distinct(s) && x !in s
    ensures Distinct(s + [x])
  {
    var t := s + [x];
    forall i, j | 0 <= i < j < |t|
      ensures t[i] != t[j]
    {
      assert t[i] == s[i];
      if j < |s| {
        assert t[j] == s[j];
      }
    }
  }

  /** A scan for k from position i onwards; -1 when k is not there. */
  function FindKeyFrom(keys: seq<int>, k: int, i: nat): (r: int)
    requires i <= |keys|
    requires k !in keys[..i]
    ensures -1 <= r < |keys|
    ensures r >= 0 ==> i <= r && keys[r] == k && k !in keys[..r]
    ensures r == -1 <==> k !in keys
    decreases |keys| - i
  {
    if i == |keys| then
      assert keys[..i] == keys;
      -1
    else if keys[i] == k then i
    else
      assert keys[..i + 1] == keys[..i] + [keys[i]];
      FindKeyFrom(keys, k, i + 1)
  }

  // ---------------------------------------------------------------------
  // The specification: distinct numbers in first-occurrence order.

  /** The distinct numbers of s, each where it first occurs. */
  function FirstOccurrences(s: seq<int>): seq<int>
  {
    if s == [] then []
    else
      var before := FirstOccurrences(s[..|s| - 1]);
      if s[|s| - 1] in before then before else before + [s[|s| - 1]]
  }

  /** The distinct numbers are distinct and are exactly the numbers of s. */
  lemma {:induction false} FirstOccurrencesSpec(s: seq<int>)
    ensures Distinct(FirstOccurrences(s))
    ensures forall x :: x in FirstOccurrences(s) <==> x in s
  {
    if s != [] {
      var init, last := s[..|s| - 1], s[|s| - 1];
      FirstOccurrencesSpec(init);
      assert s == init + [last];
      if last !in FirstOccurrences(init) {
        DistinctSnoc(FirstOccurrences(init), last);
      }
    }
  }

  /** The count of each distinct number of s, in first-occurrence order. */
  function Frequencies(s: seq<int>): (r: seq<int>)
    ensures |r| == |FirstOccurrences(s)|
  {
    seq(|FirstOccurrences(s)|, i requires 0 <= i < |FirstOccurrences(s)| => multiset(s)[FirstOccurrences(s)[i]])
  }

  /** One more number: a known one keeps the order, a new one goes last. */
  lemma FirstOccurrencesSnoc(s: seq<int>, x: int)
    ensures FirstOccurrences(s + [x]) ==
            if x in FirstOccurrences(s) then FirstOccurrences(s) else FirstOccurrences(s) + [x]
  {
    assert (s + [x])[..|s|] == s;
  }

  /** One more occurrence of a known number raises its count, at its position k, by one. */
  lemma FrequenciesSnocKnown(s: seq<int>, x: int, k: nat)
    requires k < |FirstOccurrences(s)| && FirstOccurrences(s)[k] == x
    ensures Frequencies(s + [x]) == Frequencies(s)[k := Frequencies(s)[k] + 1]
  {
    FirstOccurrencesSnoc(s, x);
    FirstOccurrencesSpec(s);
    var fo, t := FirstOccurrences(s), s + [x];
    assert FirstOccurrences(t) == fo;
    assert multiset(t) == multiset(s) + multiset{x};
    forall i | 0 <= i < |fo|
      ensures Frequencies(t)[i] == Frequencies(s)[k := Frequencies(s)[k] + 1][i]
    {
      assert Frequencies(t)[i] == multiset(t)[fo[i]];
      assert Frequencies(s)[i] == multiset(s)[fo[i]];
      if i != k {
        assert fo[i] != fo[k];
      }
    }
  }

  /** The first occurrence of a number appends a count of one. */
  lemma FrequenciesSnocNew(s: seq<int>, x: int)
    requires x !in FirstOccurrences(s)
    ensures Frequencies(s + [x]) == Frequencies(s) + [1]
  {
    FirstOccurrencesSnoc(s, x);
    FirstOccurrencesSpec(s);
    var fo, t := FirstOccurrences(s), s + [x];
    assert FirstOccurrences(t) == fo + [x];
    assert multiset(t) == multiset(s) + multiset{x};
    assert x !in multiset(s);
    forall i | 0 <= i < |fo| + 1
      ensures Frequencies(t)[i] == (Frequencies(s) + [1])[i]
    {
      assert Frequencies(t)[i] == multiset(t)[FirstOccurrences(t)[i]];
      if i < |fo| {
        assert FirstOccurrences(t)[i] == fo[i];
        assert Frequencies(s)[i] == multiset(s)[fo[i]];
      }
    }
  }

  /**
   * One more number: the count at its position k goes up by one, or a new
   * count of one is appended when the number is new (k is -1).
   */
  lemma FrequenciesSnoc(s: seq<int>, x: int, k: int)
    requires k == -1 <==> x !in FirstOccurrences(s)
    requires k != -1 ==> 0 <= k < |FirstOccurrences(s)| && FirstOccurrences(s)[k] == x
    ensures FirstOccurrences(s + [x]) ==
            if k == -1 then FirstOccurrences(s) + [x] else FirstOccurrences(s)
    ensures Frequencies(s + [x]) ==
            if k == -1 then Frequencies(s) + [1] else Frequencies(s)[k := Frequencies(s)[k] + 1]
  {
    FirstOccurrencesSnoc(s, x);
    if k == -1 {
      FrequenciesSnocNew(s, x);
    } else {
      FrequenciesSnocKnown(s, x, k);
    }
  }

  /** The histogram compressFreq builds. */
  function Histogram(s: seq<int>): (h: seq<NumberWithFrequency>)
    ensures |h| == |FirstOccurrences(s)|
  {
    var numbers := FirstOccurrences(s);
    seq(|numbers|, i requires 0 <= i < |numbers| => NumberWithFrequency(numbers[i], multiset(s)[numbers[i]]))
  }

  function Numbers(h: seq<NumberWithFrequency>): (r: seq<int>)
    ensures |r| == |h|
  {
    seq(|h|, i requires 0 <= i < |h| => h[i].number)
  }

  /**
   * The histogram's numbers are pairwise distinct, a number is in it exactly
   * when it is in the input, and each frequency is the number of times the
   * number occurs in the input.
   */
  lemma HistogramEntries(s: seq<int>)
    ensures Distinct(Numbers(Histogram(s)))
    ensures forall x :: x in Numbers(Histogram(s)) <==> x in s
    ensures forall i :: 0 <= i < |Histogram(s)| ==>
              Histogram(s)[i].frequency == multiset(s)[Histogram(s)[i].number] > 0
  {
    FirstOccurrencesSpec(s);
    assert Numbers(Histogram(s)) == FirstOccurrences(s);
    forall i | 0 <= i < |Histogram(s)|
      ensures multiset(s)[Histogram(s)[i].number] > 0
    {
      assert Histogram(s)[i].number in FirstOccurrences(s);
    }
  }

  /** n copies of x. */
  function Repeat(x: int, n: int): (r: seq<int>)
    ensures |r| == if n < 0 then 0 else n
    ensures forall i :: 0 <= i < |r| ==> r[i] == x
    decreases n
  {
    if n <= 0 then [] else Repeat(x, n - 1) + [x]
  }

  /** expandFreq's reading of a histogram: each number, frequency times. */
  function Expand(h: seq<NumberWithFrequency>): seq<int>
  {
    if h == [] then [] else Expand(h[..|h| - 1]) + Repeat(h[|h| - 1].number, h[|h| - 1].frequency)
  }

  function TotalFrequency(h: seq<NumberWithFrequency>): int
  {
    if h == [] then 0 else TotalFrequency(h[..|h| - 1]) + h[|h| - 1].frequency
  }

  lemma RepeatCount(x: int, n: nat, y: int)
    ensures multiset(Repeat(x, n))[y] == if x == y then n else 0
    decreases n
  {
    if n > 0 {
      RepeatCount(x, n - 1, y);
      assert multiset(Repeat(x, n)) == multiset(Repeat(x, n - 1)) + multiset{x};
    }
  }

  /**
   * In a histogram with distinct numbers and non-negative frequencies, the
   * expansion holds y as many times as y's entry says, and not at all when
   * y has no entry.
   */
  lemma {:induction false} ExpandCount(h: seq<NumberWithFrequency>, y: int, k: int)
    requires Distinct(Numbers(h)) && forall i :: 0 <= i < |h| ==> h[i].frequency >= 0
    requires k == -1 <==> y !in Numbers(h)
    requires k != -1 ==> 0 <= k < |h| && h[k].number == y
    ensures multiset(Expand(h))[y] == if k == -1 then 0 else h[k].frequency
  {
    if h != [] {
      var init, last := h[..|h| - 1], h[|h| - 1];
      assert Numbers(init) == Numbers(h)[..|h| - 1];
      assert Distinct(Numbers(init));
      var k' := if k == |h| - 1 then -1 else k;
      if k == |h| - 1 || k == -1 {
        assert Numbers(h)[|h| - 1] == last.number;
        forall j | 0 <= j < |init|
          ensures Numbers(init)[j] != y
        {
          assert Numbers(init)[j] == Numbers(h)[j];
        }
      } else {
        assert Numbers(init)[k] == y;
        assert Numbers(h)[k] != Numbers(h)[|h| - 1];
      }
      ExpandCount(init, y, k');
      RepeatCount(last.number, last.frequency, y);
      assert multiset(Expand(h)) == multiset(Expand(init)) + multiset(Repeat(last.number, last.frequency));
    }
  }

  /** With non-negative frequencies the expansion is as long as the frequencies add up to. */
  lemma {:induction false} ExpandLength(h: seq<NumberWithFrequency>)
    requires forall i :: 0 <= i < |h| ==> h[i].frequency >= 0
    ensures |Expand(h)| == TotalFrequency(h)
  {
    if h != [] {
      ExpandLength(h[..|h| - 1]);
    }
  }

  /**
   * Expanding the histogram gives back the input up to order, and the
   * frequencies add up to the input's length.
   */
  lemma ExpandHistogram(s: seq<int>)
    ensures multiset(Expand(Histogram(s))) == multiset(s)
    ensures TotalFrequency(Histogram(s)) == |s|
  {
    var h := Histogram(s);
    forall y
      ensures multiset(Expand(h))[y] == multiset(s)[y]
    {
      ExpandHistogramAt(s, y);
    }
    assert multiset(Expand(h)) == multiset(s);
    assert |multiset(Expand(h))| == |Expand(h)|;
    HistogramEntries(s);
    ExpandLength(h);
  }

  /** The expansion holds each number as often as the input does. */
  lemma ExpandHistogramAt(s: seq<int>, y: int)
    ensures multiset(Expand(Histogram(s)))[y] == multiset(s)[y]
  {
    var h := Histogram(s);
    HistogramEntries(s);
    if y in Numbers(h) {
      var k :| 0 <= k < |h| && Numbers(h)[k] == y;
      ExpandCount(h, y, k);
    } else {
      ExpandCount(h, y, -1);
    }
  }

  /** An empty list compresses to an empty histogram. */
  lemma EmptyHistogram()
    ensures Histogram([]) == []
  {
  }

  /** The position of the first occurrence of x in s. */
  function FirstIndex(s: seq<int>, x: int): (k: nat)
    requires x in s
    ensures k < |s| && s[k] == x && x !in s[..k]
  {
    if s[0] == x then 0
    else
      assert s[1..][..FirstIndex(s[1..], x)] == s[1..1 + FirstIndex(s[1..], x)];
      1 + FirstIndex(s[1..], x)
  }

  /** The first occurrence is the only position before which x does not occur. */
  lemma FirstIndexUnique(s: seq<int>, x: int, k: nat)
    requires k < |s| && s[k] == x && x !in s[..k]
    ensures FirstIndex(s, x) == k
  {
    var f := FirstIndex(s, x);
    assert s[f] == x;
  }

  /**
   * The histogram lists its numbers in the order they first occur in the
   * input.
   */
  lemma {:induction false} FirstOccurrenceOrder(s: seq<int>, i: int, j: int)
    requires 0 <= i < j < |FirstOccurrences(s)|
    ensures FirstOccurrences(s)[i] in s && FirstOccurrences(s)[j] in s
    ensures FirstIndex(s, FirstOccurrences(s)[i]) < FirstIndex(s, FirstOccurrences(s)[j])
  {
    FirstOccurrencesSpec(s);
    var init, last := s[..|s| - 1], s[|s| - 1];
    assert s == init + [last];
    var before := FirstOccurrences(init);
    FirstOccurrencesSpec(init);
    var a, b := FirstOccurrences(s)[i], FirstOccurrences(s)[j];
    assert a in s && b in s by {
      assert a in FirstOccurrences(s) && b in FirstOccurrences(s);
    }
    assert a in before;
    var fa := FirstIndex(init, a);
    assert init[..fa] == s[..fa];
    FirstIndexUnique(s, a, fa);
    if j < |before| {
      FirstOccurrenceOrder(init, i, j);
      var fb := FirstIndex(init, b);
      assert init[..fb] == s[..fb];
      FirstIndexUnique(s, b, fb);
    } else {
      assert b == last && last !in init;
      assert s[..|s| - 1] == init;
      FirstIndexUnique(s, b, |s| - 1);
    }
  }

  /**
   * compressFreq: counts each number in an array map (putIfAbsent(num, 1),
   * or put(num, freq + 1) when already there), then lists the map's entries
   * in its order as (frequency, number) records.
   */
  method CompressFreq(numList: seq<int>) returns (freqList: seq<NumberWithFrequency>)
    ensures freqList == Histogram(numList)
  {
    var freqMap := new IntIntArrayMap();
    var n := 0;
    while n < |numList|
      invariant 0 <= n <= |numList|
      invariant freqMap.Valid()
      invariant freqMap.keys == FirstOccurrences(numList[..n])
      invariant freqMap.values == Frequencies(numList[..n])
      modifies freqMap
    {
      var num := numList[n];
      assert numList[..n + 1] == numList[..n] + [num];
      FrequenciesSnoc(numList[..n], num, freqMap.FindKey(num));
      var freq := freqMap.PutIfAbsent(num, 1);
      if freq.Some? {
        freqMap.Put(num, freq.value + 1);
      }
      n := n + 1;
    }
    assert numList[..n] == numList;
    freqList := freqMap.Entries();
  }

}
