# Variant recalibration filtering and locus traversal, in Dafny

This project models two pieces of the GATK:

- **ApplyRecalibration**, the walker that applies variant quality score
  recalibration (VQSR) cuts. At start-up it reads the tranches (truth-sensitivity
  levels, each with a minimum VQSLOD), keeps those at or above
  `--ts_filter_level` and reverses them. For every input variant at a site it
  then either copies the variant through untouched (wrong variation class for
  the mode, or filtered by a filter the user did not ask to ignore), or joins
  it to the recal record with the same end position, reads its VQSLOD, and
  writes the variant with the VQSLOD and culprit attributes and a FILTER of
  `PASS`, a tranche name, or the first tranche's name followed by `+`.
- **TraverseLociByReference**, the traversal engine that walks every reference
  position of a shard, increments the global record counter at each one, calls
  the locus walker's `filter`, and `map`/`reduce` only on accepted sites, and
  stops early once the counter exceeds a positive `maxReads`.

Files:

- `results.dfy` — `Option` (a Java reference that may be null) and `Result`
  (a value or a thrown exception).
- `tranches.dfy` — `Tranche`, retaining, reversing, and the top-down scan
  `Classify` with its `Decision`.
- `apply_recalibration.dfy` — variants, the walker's configuration,
  `Initialise`, the gate, the recal join, per-variant recalibration, the
  per-site `map` with its writes made explicit as an `Emission`, and the
  constant `reduce` family.
- `traverse_loci_by_reference.dfy` — the `Walker` hooks as function values,
  the left fold the traversal computes, the early-stop description, the
  shard `Traverse` method and the always-failing location-list overload.

VQSLOD and truth-sensitivity values are `real`: they are only compared. The
walker's output writer becomes an explicit list of written records. The global
`TraversalStatistics.nRecords` counter becomes an input and an output of
`Traverse`.

Two consequences of the code that a reading of its intent could get wrong:

- Worked example with tranches read at 90, 99 and 100 percent and a
  95 percent level. The code's reversal gives `[T100, T99]`, not
  `[T99, T100]`. The last entry, T99 at -1.5, is therefore the pass threshold:
  -1.0 and -1.5 pass, -2.0 to -5.0 get `T100`, and -6.0 gets `T100+`
  (`ThreeTrancheInitialise`, `ThreeTrancheFilters`).
- A `maxReads` of 3 with the counter at 0 visits four sites, not three. The
  test `nRecords > maxReads` runs after the site has been processed
  (`LimitOfThreeVisitsFour`).

## Model

| member | source | states |
|---|---|---|
| Tranches.Retain | public/java/src/org/broadinstitute/sting/gatk/walkers/variantrecalibration/ApplyRecalibration.java:135-140 | a tranche is kept iff it was read and its truth sensitivity is at least the filter level; never more tranches than were read |
| Tranches.RetainAppend | public/java/src/org/broadinstitute/sting/gatk/walkers/variantrecalibration/ApplyRecalibration.java:135-140 | keeping distributes over concatenation of the read list, so read order is preserved |
| Tranches.Reverse | public/java/src/org/broadinstitute/sting/gatk/walkers/variantrecalibration/ApplyRecalibration.java:141 | position k of the result holds position n-1-k of the input |
| Tranches.Scan | public/java/src/org/broadinstitute/sting/gatk/walkers/variantrecalibration/ApplyRecalibration.java:224-234 | the downward scan returns the highest index below the start whose minimum VQSLOD the score reaches (inclusive), or none exactly when the score is below all of them |
| Tranches.Classify | public/java/src/org/broadinstitute/sting/gatk/walkers/variantrecalibration/ApplyRecalibration.java:224-238 | PASS iff lod >= the last tranche's minimum; a tagged tranche i is below the last, its minimum is reached, and every later tranche's minimum is not (so lod < minimum of i+1, as the FILTER header lines describe); below-all iff lod is under every minimum |
| Tranches.ClassifyRankIsHighestMatch | public/java/src/org/broadinstitute/sting/gatk/walkers/variantrecalibration/ApplyRecalibration.java:224-233 | reaching tranche i's minimum puts the decision at tranche i or a more permissive one (first match from the top wins) |
| Tranches.ClassifyMonotone | public/java/src/org/broadinstitute/sting/gatk/walkers/variantrecalibration/ApplyRecalibration.java:224-238 | a higher score never yields a stricter decision, whatever order the thresholds are in |
| ApplyRecalibration.IgnoreFilterSet | public/java/src/org/broadinstitute/sting/gatk/walkers/variantrecalibration/ApplyRecalibration.java:147-149 | the ignore set holds exactly the names given to `--ignore_filter`, and is empty when the argument is absent |
| ApplyRecalibration.Initialise | public/java/src/org/broadinstitute/sting/gatk/walkers/variantrecalibration/ApplyRecalibration.java:134-141 | fails with the no-tranches user error iff no read tranche reaches the level; otherwise the list is non-empty, holds exactly the qualifying read tranches, and reversed is the kept list in read order |
| ApplyRecalibration.InitialiseReversesReadOrder | public/java/src/org/broadinstitute/sting/gatk/walkers/variantrecalibration/ApplyRecalibration.java:135-141 | tranches read later come first in the working list |
| ApplyRecalibration.ThreeTrancheInitialise | public/java/src/org/broadinstitute/sting/gatk/walkers/variantrecalibration/ApplyRecalibration.java:135-141 | reading T90, T99, T100 at level 95 keeps [T100, T99] |
| ApplyRecalibration.ThreeTrancheFilters | public/java/src/org/broadinstitute/sting/gatk/walkers/variantrecalibration/ApplyRecalibration.java:224-238 | with [T100 at -5.0, T99 at -1.5]: -1.0 and -1.5 pass, -2.0 and -5.0 are T100, -6.0 is T100+ |
| ApplyRecalibration.RecalibratesIffFiltersIgnored | public/java/src/org/broadinstitute/sting/gatk/walkers/variantrecalibration/ApplyRecalibration.java:199 | the gate holds iff the variation class matches the mode and every filter on the record is ignored (an unfiltered record has none) |
| ApplyRecalibration.MatchFrom | public/java/src/org/broadinstitute/sting/gatk/walkers/variantrecalibration/ApplyRecalibration.java:255-263 | returns the first index from the start point whose record ends where the target ends, or none iff no such record follows |
| ApplyRecalibration.MatchingRecal | public/java/src/org/broadinstitute/sting/gatk/walkers/variantrecalibration/ApplyRecalibration.java:255-263 | null iff no recal record ends at the variant's end; otherwise a record from the list with that end and no earlier record with it |
| ApplyRecalibration.FilterFieldFor | public/java/src/org/broadinstitute/sting/gatk/walkers/variantrecalibration/ApplyRecalibration.java:240-244 | the FILTER column is always set: empty (explicit PASS) iff the filter string is "PASS", else exactly that one name |
| ApplyRecalibration.Recalibrate | public/java/src/org/broadinstitute/sting/gatk/walkers/variantrecalibration/ApplyRecalibration.java:201-246 | no match is the not-in-recal-file error, a missing lod the malformed-record error, an unparseable lod the unreadable-lod error, every error names the variant; success iff a match with a parseable lod exists, and then the record differs from the input only in FILTER and in the VQSLOD (the lod string as read) and culprit (the recal record's) attributes, and its FILTER is the classification of the lod |
| ApplyRecalibration.RecalibrateSite | public/java/src/org/broadinstitute/sting/gatk/walkers/variantrecalibration/ApplyRecalibration.java:194-252 | each input variant is written once and in order as its per-variant result; without an error every variant is written; with one, the variants before the first failing one are written and that failing variant's error is reported |
| ApplyRecalibration.Emit | public/java/src/org/broadinstitute/sting/gatk/walkers/variantrecalibration/ApplyRecalibration.java:197-249 | a variant that fails the gate is written unchanged and never raises an error; a gated variant's outcome is exactly its recalibration (so a valid one is written and each error keeps its kind); an error only comes from a gated variant and names it; a written gated variant differs only in FILTER (always set) and the two attributes |
| ApplyRecalibration.RecalibrateSiteSucceedsIff | public/java/src/org/broadinstitute/sting/gatk/walkers/variantrecalibration/ApplyRecalibration.java:197-250 | a site's map call ends without an error iff every gated variant at it recalibrates; otherwise the error reported is the recalibration error of the first gated variant that fails |
| ApplyRecalibration.GatedWrittenRecalibrated | public/java/src/org/broadinstitute/sting/gatk/walkers/variantrecalibration/ApplyRecalibration.java:199-246 | a gated variant written by a site is exactly its recalibrated copy |
| ApplyRecalibration.UngatedWrittenUntouched | public/java/src/org/broadinstitute/sting/gatk/walkers/variantrecalibration/ApplyRecalibration.java:247-249 | a written variant that fails the gate is exactly the input variant |
| ApplyRecalibration.RecalibrateSites | public/java/src/org/broadinstitute/sting/gatk/walkers/variantrecalibration/ApplyRecalibration.java:188-252 | over successive sites, never more records written than read, exactly as many when no error occurs, and an error is always a record error, never the no-tranches one |
| ApplyRecalibration.RecalibrateSitesAppend | public/java/src/org/broadinstitute/sting/gatk/walkers/variantrecalibration/ApplyRecalibration.java:188-252 | processing a + b is processing a, then b unless a failed, with the written records concatenated |
| ApplyRecalibration.RecalibrateSitesOne | public/java/src/org/broadinstitute/sting/gatk/walkers/variantrecalibration/ApplyRecalibration.java:188-252 | a run over a single site is exactly that site's map call |
| ApplyRecalibration.Run | public/java/src/org/broadinstitute/sting/gatk/walkers/variantrecalibration/ApplyRecalibration.java:134-174 | the run ends in the no-tranches error iff no read tranche reaches the level, and then writes nothing; otherwise it is the site-by-site run with the initialised tranches; without an error every input variant is written |
| ApplyRecalibration.TreeReduceAssociative | public/java/src/org/broadinstitute/sting/gatk/walkers/variantrecalibration/ApplyRecalibration.java:279-281 | the shard combine is associative |
| ApplyRecalibration.ReduceAllIsOne | public/java/src/org/broadinstitute/sting/gatk/walkers/variantrecalibration/ApplyRecalibration.java:271-277 | the traversal's fold of this walker's reduce from reduceInit over any map values gives 1 |
| TraverseLociByReference.Traverse | java/src/org/broadinstitute/sting/gatk/traversals/TraverseLociByReference.java:49-92 | a non-locus walker is rejected with the illegal-argument error before any site, and since that result carries no counter the global record counter is left untouched; the traversal itself raises no error for a locus walker; the counter advances by the number of sites visited, which is the first one whose counter trips a positive limit (or all sites); the sum is the left fold of filter/map/reduce over exactly the visited sites from the incoming sum |
| TraverseLociByReference.FoldIsReduceOfAccepted | java/src/org/broadinstitute/sting/gatk/traversals/TraverseLociByReference.java:78-82 | the folded sum equals reduce folded over the map values of the accepted sites only, in order |
| TraverseLociByReference.RejectedSiteKeepsSum | java/src/org/broadinstitute/sting/gatk/traversals/TraverseLociByReference.java:78-82 | a site the filter rejects leaves the sum unchanged |
| TraverseLociByReference.FoldAppend | java/src/org/broadinstitute/sting/gatk/traversals/TraverseLociByReference.java:49-92 | traversing a and then b, passing the sum along, equals traversing a + b |
| TraverseLociByReference.EarlyStopAfterUnique | java/src/org/broadinstitute/sting/gatk/traversals/TraverseLociByReference.java:84-87 | the early-stop description fixes the number of visited sites uniquely |
| TraverseLociByReference.VisitBound | java/src/org/broadinstitute/sting/gatk/traversals/TraverseLociByReference.java:64-87 | with maxReads > 0 at most max(0, maxReads - c0) + 1 sites are visited; with maxReads <= 0 every site is |
| TraverseLociByReference.LimitOfThreeVisitsFour | java/src/org/broadinstitute/sting/gatk/traversals/TraverseLociByReference.java:84-87 | from counter 0 with maxReads 3 and ten sites, exactly four are visited |
| TraverseLociByReference.TraverseLocations | java/src/org/broadinstitute/sting/gatk/traversals/TraverseLociByReference.java:41-46 | the location-list overload never returns a value: a user error for an empty list, otherwise unsupported-operation |

## Left out

- VCF header construction (the FILTER and INFO header lines, `addVQSRStandardHeaderLines`, `writeHeader`, sample collection): output formatting. The interval each FILTER header line describes is stated by `Tranches.Classify` instead.
- `Tranche.readTranches` is not part of this model: the read tranches are an input sequence, in whatever order that reader produces.
- `Double.valueOf` is the abstract `parseLod` of `Config` (`None` for a `NumberFormatException`); NaN, infinities and Java double rounding are not modelled.
- `VariantDataManager.checkVariationClass` is the abstract `checkVariationClass` of `Config`.
- The INFO key names "VQSLOD" and "culprit" and the filter string "PASS" come from `VariantRecalibrator` and `VCFConstants`, which are not part of this model; GATK's values are used.
- Attribute values other than strings: `getAttributeAsString` is modelled on string values only, with absent and null treated alike.
- `VariantContextBuilder` is modelled only by the fields it changes here (FILTER and two attributes); contig, start and end stand for every other field.
- The `tracker == null` early return of `map`: a site always carries its (possibly empty) lists of variants and recal records.
- Logging (`logger`), `printProgress` and `printOnTraversalDone`.
- `RefMetaDataTracker` lookups, `SeekableLocusContextQueue.seek/peek`, `ReferenceLocusIterator`, `getReferenceBase` and `downsampleToCoverage` are folded into one abstract, deterministic `context` function from a site to what the walker's hooks see; random downsampling is therefore a fixed transformation here.
- `Utils.scareUser` is not part of this model; it is taken to throw, as its name and use suggest.
- `TraversalStatistics.nRecords` is an unbounded integer: overflow of the Java counter is not modelled.
- Command-line plumbing (`@Argument`, `@Input`, `@Output`) and shard-level concurrency.
- `onTraversalDone` does nothing and is not modelled.
- RecalibrateSites: the contract states the record counts and the kind of error; the records themselves follow from ApplyRecalibration.RecalibrateSitesOne (one site is one map call) and ApplyRecalibration.RecalibrateSitesAppend (runs compose site by site).
- Exceptions thrown by the walker's hooks or by the collaborators (tracker lookups, seek/peek, reference base) pass straight through `traverse`, which has no handler; they are not modelled, because `filter`, `map`, `reduce` and the per-site context are total functions here. ApplyRecalibration's own user errors are modelled by `Emission` instead.
- `map`'s return value (the constant 1, which nothing uses) is not modelled separately: ApplyRecalibration.ReduceAllIsOne holds whatever values `map` returns, using the fold the traversal defines for `reduce`.
