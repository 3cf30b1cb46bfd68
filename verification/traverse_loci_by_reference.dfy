/** The locus traversal that walks every reference position of a shard,
    calling a locus walker's filter, map and reduce at each one, with a
    global record counter and an optional early stop. */
module TraverseLociByReference {
  import opened Results

  /** A walker handed to the traversal. Only a locus walker can be driven;
      its hooks see the context assembled at a site (tracker, reference base
      and pileup after any downsampling). */
  datatype Walker<!C, !M, !T> =
    | LocusWalker(filter: C -> bool, mapLocus: C -> M, reduce: (M, T) -> T)
    | OtherWalker

  datatype TraversalError =
    | NotALociWalker         // IllegalArgumentException
    | NoLocationsRequested   // the user error raised for an empty location list
    | UnsupportedTraversal   // UnsupportedOperationException

  /** The reduced value and the record counter after a shard. */
  datatype Traversal<T> = Traversal(sum: T, nRecords: int)

  /** One site's effect on the running sum: map and reduce only if the
      filter keeps the site. */
  function Step<C, M, T>(w: Walker<C, M, T>, sum: T, c: C): T
    requires w.LocusWalker?
  {
    if w.filter(c) then w.reduce(w.mapLocus(c), sum) else sum
  }

  /** `Step` folded left over the contexts of `sites`, starting at `sum`. */
  function Fold<L, C, M, T>(w: Walker<C, M, T>, context: L -> C, sum: T, sites: seq<L>): T
    requires w.LocusWalker?
  {
    if |sites| == 0 then sum
    else Step(w, Fold(w, context, sum, sites[..|sites| - 1]), context(sites[|sites| - 1]))
  }

  /** The values `map` returns over `sites`, in order, for the sites the
      filter keeps. */
  function MappedAccepted<L, C, M, T>(w: Walker<C, M, T>, context: L -> C, sites: seq<L>): (ms: seq<M>)
    requires w.LocusWalker?
    ensures |ms| <= |sites|
  {
    if |sites| == 0 then []
    else
      var c := context(sites[|sites| - 1]);
      var before := MappedAccepted(w, context, sites[..|sites| - 1]);
      if w.filter(c) then before + [w.mapLocus(c)] else before
  }

  /** `reduce` folded left over a run of map values. */
  function ReduceAll<C, M, T>(w: Walker<C, M, T>, sum: T, ms: seq<M>): T
    requires w.LocusWalker?
  {
    if |ms| == 0 then sum else w.reduce(ms[|ms| - 1], ReduceAll(w, sum, ms[..|ms| - 1]))
  }

  /** The traversal's sum is `reduce` folded over the mapped values of the
      accepted sites only. */
  lemma {:induction false} FoldIsReduceOfAccepted<L, C, M, T>(w: Walker<C, M, T>, context: L -> C, sum: T, sites: seq<L>)
    requires w.LocusWalker?
    ensures Fold(w, context, sum, sites) == ReduceAll(w, sum, MappedAccepted(w, context, sites))
  {
    if |sites| > 0 {
      var init := sites[..|sites| - 1];
      var c := context(sites[|sites| - 1]);
      FoldIsReduceOfAccepted(w, context, sum, init);
      var before := MappedAccepted(w, context, init);
      if w.filter(c) {
        assert (before + [w.mapLocus(c)])[..|before|] == before;
      }
    }
  }

  /** A site the filter rejects leaves the sum as it was. */
  lemma RejectedSiteKeepsSum<L, C, M, T>(w: Walker<C, M, T>, context: L -> C, sum: T, sites: seq<L>, site: L)
    requires w.LocusWalker?
    requires !w.filter(context(site))
    ensures Fold(w, context, sum, sites + [site]) == Fold(w, context, sum, sites)
  {
    assert (sites + [site])[..|sites|] == sites;
  }

  /** Traversing `a` then `b`, threading the sum, is traversing `a + b`. */
  lemma {:induction false} FoldAppend<L, C, M, T>(w: Walker<C, M, T>, context: L -> C, sum: T, a: seq<L>, b: seq<L>)
    requires w.LocusWalker?
    ensures Fold(w, context, sum, a + b) == Fold(w, context, Fold(w, context, sum, a), b)
    decreases |b|
  {
    if |b| == 0 {
      assert a + b == a;
    } else {
      var ab := a + b;
      assert ab[..|ab| - 1] == a + b[..|b| - 1];
      assert ab[|ab| - 1] == b[|b| - 1];
      FoldAppend(w, context, sum, a, b[..|b| - 1]);
    }
  }

  /** The early-stop test made after each site, on the counter's new value. */
  predicate StopsAt(maxReads: int, nRecords: int)
  {
    maxReads > 0 && nRecords > maxReads
  }

  /** Starting the counter at `c0` over `n` sites, the traversal visits
      `visited` of them: no site before the last one visited triggered the
      stop, and if some site was left unvisited the last visited one did. */
  predicate EarlyStopAfter(maxReads: int, c0: int, n: nat, visited: int)
  {
    && 0 <= visited <= n
    && (forall count :: c0 < count < c0 + visited ==> !StopsAt(maxReads, count))
    && (visited < n ==> 0 < visited && StopsAt(maxReads, c0 + visited))
  }

  /** At most one visit count fits the early-stop description. */
  lemma EarlyStopAfterUnique(maxReads: int, c0: int, n: nat, v1: int, v2: int)
    requires EarlyStopAfter(maxReads, c0, n, v1)
    requires EarlyStopAfter(maxReads, c0, n, v2)
    ensures v1 == v2
  {
    if v1 < n {
      assert StopsAt(maxReads, c0 + v1);
    }
    if v2 < n {
      assert StopsAt(maxReads, c0 + v2);
    }
  }

  /** With a positive limit, at most `max(0, maxReads - c0) + 1` sites are
      visited; without one, every site is. */
  lemma VisitBound(maxReads: int, c0: int, n: nat, visited: int)
    requires EarlyStopAfter(maxReads, c0, n, visited)
    ensures maxReads > 0 ==> visited <= (if maxReads - c0 > 0 then maxReads - c0 else 0) + 1
    ensures maxReads <= 0 ==> visited == n
  {
    if maxReads > 0 {
      var count := if maxReads - c0 > 0 then maxReads + 1 else c0 + 1;
      assert c0 < count && StopsAt(maxReads, count);
    }
  }

  /** The shard `traverse`: walks `sites` in order, counting each one in the
      global record counter, and returns the reduced value. */
  method Traverse<L, C, M, T>(walker: Walker<C, M, T>, sites: seq<L>, context: L -> C,
                              maxReads: int, nRecords: int, sum: T)
    returns (r: Result<Traversal<T>, TraversalError>)
    ensures walker.OtherWalker? ==> r == Failure(NotALociWalker)
    ensures walker.LocusWalker? ==> r.Success?
    ensures r.Success? ==> EarlyStopAfter(maxReads, nRecords, |sites|, r.value.nRecords - nRecords)
    ensures r.Success? ==> r.value.sum == Fold(walker, context, sum, sites[..r.value.nRecords - nRecords])
  {
    if !walker.LocusWalker? {
      return Failure(NotALociWalker);
    }
    var i := 0;
    var count := nRecords;
    var acc := sum;
    while i < |sites|
      invariant 0 <= i <= |sites|
      invariant count == nRecords + i
      invariant acc == Fold(walker, context, sum, sites[..i])
      invariant forall c :: nRecords < c <= count ==> !StopsAt(maxReads, c)
    {
      var site := sites[i];
      count := count + 1;
      var locus := context(site);
      if walker.filter(locus) {
        var x := walker.mapLocus(locus);
        acc := walker.reduce(x, acc);
      }
      assert sites[..i + 1][..i] == sites[..i];
      i := i + 1;
      if StopsAt(maxReads, count) {
        break;
      }
    }
    return Success(Traversal(acc, count));
  }

  /** The location-list `traverse` is not supported and always throws: a
      user error for an empty list, otherwise an unsupported-operation error. */
  function TraverseLocations<C, M, T, G>(walker: Walker<C, M, T>, locations: seq<G>): (r: Result<T, TraversalError>)
    ensures r.Failure?
    ensures |locations| == 0 ==> r.error == NoLocationsRequested
    ensures |locations| > 0 ==> r.error == UnsupportedTraversal
  {
    if |locations| == 0 then Failure(NoLocationsRequested) else Failure(UnsupportedTraversal)
  }

  /** With a limit of 3 and the counter at 0, the fourth site trips the stop:
      four of ten sites are visited. */
  lemma LimitOfThreeVisitsFour()
    ensures EarlyStopAfter(3, 0, 10, 4)
    ensures forall v :: EarlyStopAfter(3, 0, 10, v) ==> v == 4
  {
    forall v | EarlyStopAfter(3, 0, 10, v)
      ensures v == 4
    {
      EarlyStopAfterUnique(3, 0, 10, v, 4);
    }
  }
}
