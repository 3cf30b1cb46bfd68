/** Tranches: the truth-sensitivity levels read from the tranches file, the
    retain-and-reverse normalisation done when the recalibration walker starts,
    and the top-down scan that assigns a VQSLOD score to a tranche. */
module Tranches {
  import opened Results

  /** Recalibration mode; also the model a tranche was trained for. */
  datatype Mode = Snp | Indel | Both

  /** One line of the tranches file: its name, truth sensitivity `ts` and the
      lowest VQSLOD `minVQSLod` that still falls inside it. */
  datatype Tranche = Tranche(name: string, ts: real, minVQSLod: real, model: Mode)

  /** The filter string of a record that passes every retained tranche. */
  const PassFilter: string := "PASS"

  /** The read tranches whose truth sensitivity reaches `level`, in read order. */
  function Retain(read: seq<Tranche>, level: real): (kept: seq<Tranche>)
    ensures |kept| <= |read|
    ensures forall t :: t in kept <==> t in read && t.ts >= level
  {
    if |read| == 0 then []
    else (if read[0].ts >= level then [read[0]] else []) + Retain(read[1..], level)
  }

  /** `s` back to front. */
  function Reverse<T>(s: seq<T>): (r: seq<T>)
    ensures |r| == |s|
    ensures forall k :: 0 <= k < |s| ==> r[k] == s[|s| - 1 - k]
  {
    if |s| == 0 then [] else Reverse(s[1..]) + [s[0]]
  }

  /** Retaining distributes over concatenation, so it keeps read order. */
  lemma {:induction false} RetainAppend(a: seq<Tranche>, b: seq<Tranche>, level: real)
    ensures Retain(a + b, level) == Retain(a, level) + Retain(b, level)
    decreases |a|
  {
    if |a| == 0 {
      assert a + b == b;
    } else {
      assert (a + b)[0] == a[0];
      assert (a + b)[1..] == a[1..] + b;
      RetainAppend(a[1..], b, level);
    }
  }

  /** Reversing a concatenation swaps and reverses its halves. */
  lemma ReverseAppend<T>(a: seq<T>, b: seq<T>)
    ensures Reverse(a + b) == Reverse(b) + Reverse(a)
  {
    var l, r := Reverse(a + b), Reverse(b) + Reverse(a);
    assert |l| == |r|;
    forall k | 0 <= k < |l|
      ensures l[k] == r[k]
    {
      if k < |b| {
        assert r[k] == Reverse(b)[k];
      } else {
        assert r[k] == Reverse(a)[k - |b|];
      }
    }
  }

  /** Reversing twice gives the sequence back. */
  lemma ReverseReverse<T>(s: seq<T>)
    ensures Reverse(Reverse(s)) == s
  {
    var r := Reverse(Reverse(s));
    assert |r| == |s|;
    forall k | 0 <= k < |s|
      ensures r[k] == s[k]
    {
      assert r[k] == Reverse(s)[|s| - 1 - k];
    }
  }

  /** Reversing keeps the same elements. */
  lemma ReverseSameElements<T>(s: seq<T>)
    ensures forall x :: x in Reverse(s) <==> x in s
  {
    var r := Reverse(s);
    forall x | x in s
      ensures x in r
    {
      var k :| 0 <= k < |s| && s[k] == x;
      assert r[|s| - 1 - k] == x;
    }
  }

  /** Outcome of the scan: the last retained tranche passes, an earlier one is
      named by its index, or the score is below every retained threshold. */
  datatype Decision = Pass | InTranche(index: nat) | BelowAll

  /** Scans indices `i - 1` down to `0` and returns the first whose threshold
      the score reaches (the comparison is inclusive). */
  function Scan(tranches: seq<Tranche>, lod: real, i: nat): (k: Option<nat>)
    requires i <= |tranches|
    ensures k.Some? ==> k.value < i && lod >= tranches[k.value].minVQSLod
    ensures k.Some? ==> forall j :: k.value < j < i ==> lod < tranches[j].minVQSLod
    ensures k.None? <==> forall j :: 0 <= j < i ==> lod < tranches[j].minVQSLod
  {
    if i == 0 then None
    else if lod >= tranches[i - 1].minVQSLod then Some(i - 1)
    else Scan(tranches, lod, i - 1)
  }

  /** The tranche a score falls in, scanning from the last (most inclusive)
      retained tranche down to the first. */
  function Classify(tranches: seq<Tranche>, lod: real): (d: Decision)
    requires |tranches| > 0
    ensures d.Pass? <==> lod >= tranches[|tranches| - 1].minVQSLod
    ensures d.InTranche? ==> d.index < |tranches| - 1
    ensures d.InTranche? ==> lod >= tranches[d.index].minVQSLod
    ensures d.InTranche? ==> forall j :: d.index < j < |tranches| ==> lod < tranches[j].minVQSLod
    ensures d.BelowAll? <==> forall j :: 0 <= j < |tranches| ==> lod < tranches[j].minVQSLod
  {
    match Scan(tranches, lod, |tranches|)
    case None => BelowAll
    case Some(k) => if k == |tranches| - 1 then Pass else InTranche(k)
  }

  /** The filter string written for a decision: PASS, the tranche's name, or
      the first retained tranche's name followed by `+`. */
  function FilterString(tranches: seq<Tranche>, d: Decision): (s: string)
    requires |tranches| > 0
    requires d.InTranche? ==> d.index < |tranches|
  {
    match d
    case Pass => PassFilter
    case InTranche(i) => tranches[i].name
    case BelowAll => tranches[0].name + "+"
  }

  /** How permissive a decision is: 0 below every tranche, `i + 1` inside
      tranche `i`, `|tranches|` for a pass. */
  function Rank(tranches: seq<Tranche>, d: Decision): nat
  {
    match d
    case BelowAll => 0
    case InTranche(i) => i + 1
    case Pass => |tranches|
  }

  /** Reaching the threshold of tranche `i` puts the decision at rank `i + 1`
      or above: the rank is one more than the highest index reached. */
  lemma ClassifyRankIsHighestMatch(tranches: seq<Tranche>, lod: real, i: nat)
    requires |tranches| > 0
    requires i < |tranches|
    requires lod >= tranches[i].minVQSLod
    ensures Rank(tranches, Classify(tranches, lod)) >= i + 1
  {
  }

  /** A higher score never gives a stricter decision. */
  lemma ClassifyMonotone(tranches: seq<Tranche>, lo: real, hi: real)
    requires |tranches| > 0
    requires lo <= hi
    ensures Rank(tranches, Classify(tranches, lo)) <= Rank(tranches, Classify(tranches, hi))
  {
    var d := Classify(tranches, lo);
    if Rank(tranches, d) > 0 {
      ClassifyRankIsHighestMatch(tranches, hi, Rank(tranches, d) - 1);
    }
  }
}
