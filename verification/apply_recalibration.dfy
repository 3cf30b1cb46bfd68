/** The ApplyRecalibration walker: it reads the tranches once, then for every
    input variant at a site either copies it through untouched or joins it to
    its recal record, scores it and writes it with a tranche filter. */
module ApplyRecalibration {
  import opened Results
  import opened Tranches
  import TraverseLociByReference

  /** INFO keys the recalibrator writes into the recal file. */
  const VqsLodKey: string := "VQSLOD"
  const CulpritKey: string := "culprit"

  /** A record's FILTER column: never set (`.`), or a set of filter names, the
      empty set being an explicit PASS. */
  datatype FilterField = Unfiltered | Filters(names: set<string>)

  /** INFO attributes; a key mapped to `None` holds a Java null. */
  type Attributes = map<string, Option<string>>

  /** A variant record, from the input VCFs or from the recal file. */
  datatype Variant = Variant(
    contig: string,
    start: int,
    end: int,
    filters: FilterField,
    attributes: Attributes)

  /** The variants of every input track and the recal records found at one site. */
  datatype Site = Site(variants: seq<Variant>, recals: seq<Variant>)

  /** The walker's arguments; the variation-class check and the parser of a
      lod string are collaborators this model does not define. */
  datatype Config = Config(
    mode: Mode,
    tsFilterLevel: real,
    ignoreInputFilters: Option<seq<string>>,
    checkVariationClass: (Variant, Mode) -> bool,
    parseLod: string -> Option<real>)

  /** The user errors the walker raises; each record error names its record. */
  datatype RecalError =
    | NoTranchesRetained(level: real)
    | NotInRecalFile(variant: Variant)
    | MissingLod(variant: Variant)
    | UnreadableLod(variant: Variant)

  /** What a pass wrote to the output VCF, in order, and the error that ended
      it, if any. Records written before an error stay written. */
  datatype Emission = Emission(written: seq<Variant>, failure: Option<RecalError>)

  /** The names of the filters applied to a record (empty when unfiltered). */
  function FilterNames(f: FilterField): set<string>
  {
    match f
    case Unfiltered => {}
    case Filters(names) => names
  }

  predicate IsNotFiltered(vc: Variant)
  {
    FilterNames(vc.filters) == {}
  }

  /** An attribute's string value, `None` when absent or null. */
  function AttributeAsString(vc: Variant, key: string): Option<string>
  {
    if key in vc.attributes then vc.attributes[key] else None
  }

  /** The filters named by `--ignore_filter`; none when the argument is absent. */
  function IgnoreFilterSet(cfg: Config): (s: set<string>)
    ensures forall f :: f in s <==> cfg.ignoreInputFilters.Some? && f in cfg.ignoreInputFilters.value
  {
    match cfg.ignoreInputFilters
    case None => {}
    case Some(names) => set f | f in names
  }

  //---------------------------------------------------------------------------
  // initialize
  //---------------------------------------------------------------------------

  /** The tranche list the walker works with: the read tranches whose truth
      sensitivity reaches the filter level, last read first; a fatal user
      error when none is retained. */
  function Initialise(read: seq<Tranche>, level: real): (r: Result<seq<Tranche>, RecalError>)
    ensures r.Failure? <==> forall t :: t in read ==> t.ts < level
    ensures r.Failure? ==> r.error == NoTranchesRetained(level)
    ensures r.Success? ==> |r.value| > 0
    ensures r.Success? ==> forall t :: t in r.value <==> t in read && t.ts >= level
    ensures r.Success? ==> Reverse(r.value) == Retain(read, level)
  {
    var kept := Retain(read, level);
    if |kept| == 0 then
      assert forall t :: t in read ==> t !in kept;
      Failure(NoTranchesRetained(level))
    else
      assert kept[0] in read && kept[0].ts >= level;
      ReverseReverse(kept);
      ReverseSameElements(kept);
      Success(Reverse(kept))
  }

  /** Tranches read later come earlier in the working list. */
  lemma {:induction false} InitialiseReversesReadOrder(first: seq<Tranche>, later: seq<Tranche>, level: real)
    ensures Initialise(first + later, level).Success? ==>
              Initialise(first + later, level).value
                == Reverse(Retain(later, level)) + Reverse(Retain(first, level))
  {
    var r := Initialise(first + later, level);
    if r.Success? {
      RetainAppend(first, later, level);
      ReverseReverse(r.value);
      ReverseAppend(Retain(first, level), Retain(later, level));
    }
  }

  //---------------------------------------------------------------------------
  // map
  //---------------------------------------------------------------------------

  /** Whether a variant is recalibrated: it is of the class the mode handles,
      and it is unfiltered or every filter on it is one the user ignores. */
  predicate Recalibrates(cfg: Config, vc: Variant)
  {
    && cfg.checkVariationClass(vc, cfg.mode)
    && (IsNotFiltered(vc) || FilterNames(vc.filters) <= IgnoreFilterSet(cfg))
  }

  /** The unfiltered clause of the gate adds nothing: an unfiltered record has
      no filter outside the ignore set either. */
  lemma RecalibratesIffFiltersIgnored(cfg: Config, vc: Variant)
    ensures Recalibrates(cfg, vc)
        <==> cfg.checkVariationClass(vc, cfg.mode) && FilterNames(vc.filters) <= IgnoreFilterSet(cfg)
  {
  }

  /** Index of the first recal record at or after `from` ending where `target` ends. */
  function MatchFrom(target: Variant, recals: seq<Variant>, from: nat): (k: Option<nat>)
    requires from <= |recals|
    ensures k.Some? ==> from <= k.value < |recals| && recals[k.value].end == target.end
    ensures k.Some? ==> forall j :: from <= j < k.value ==> recals[j].end != target.end
    ensures k.None? <==> forall j :: from <= j < |recals| ==> recals[j].end != target.end
    decreases |recals| - from
  {
    if from == |recals| then None
    else if recals[from].end == target.end then Some(from)
    else MatchFrom(target, recals, from + 1)
  }

  /** The first recal record whose end equals the variant's end; `None` (a
      Java null) exactly when there is no such record. */
  function MatchingRecal(target: Variant, recals: seq<Variant>): (r: Option<Variant>)
    ensures r.None? <==> forall j :: 0 <= j < |recals| ==> recals[j].end != target.end
    ensures r.Some? ==> exists k :: 0 <= k < |recals| && recals[k] == r.value
                                 && r.value.end == target.end
                                 && forall j :: 0 <= j < k ==> recals[j].end != target.end
  {
    match MatchFrom(target, recals, 0)
    case None => None
    case Some(k) => Some(recals[k])
  }

  /** The FILTER column for a filter string: an explicit PASS for "PASS",
      otherwise that single filter name. */
  function FilterFieldFor(filter: string): (f: FilterField)
    ensures f.Filters?
    ensures f.names == {} <==> filter == PassFilter
    ensures filter != PassFilter ==> f.names == {filter}
  {
    if filter == PassFilter then Filters({}) else Filters({filter})
  }

  /** `w` is `vc` with the VQSLOD and culprit attributes set and possibly a
      different FILTER column; nothing else differs. */
  predicate OnlyAnnotated(vc: Variant, w: Variant)
  {
    && w.contig == vc.contig
    && w.start == vc.start
    && w.end == vc.end
    && w.attributes.Keys == vc.attributes.Keys + {VqsLodKey, CulpritKey}
    && forall key :: key in vc.attributes && key != VqsLodKey && key != CulpritKey
         ==> w.attributes[key] == vc.attributes[key]
  }

  /** The error names the record it was raised for. */
  predicate NamesRecord(e: RecalError, vc: Variant)
  {
    !e.NoTranchesRetained? && e.variant == vc
  }

  /** Recalibrates one gated variant: joins it to its recal record, reads the
      lod, and builds the annotated copy with its tranche filter. */
  function Recalibrate(tranches: seq<Tranche>, cfg: Config, vc: Variant, recals: seq<Variant>)
    : (r: Result<Variant, RecalError>)
    requires |tranches| > 0
    ensures r.Failure? ==> NamesRecord(r.error, vc)
    ensures MatchingRecal(vc, recals).None? ==> r == Failure(NotInRecalFile(vc))
    ensures MatchingRecal(vc, recals).Some?
            && AttributeAsString(MatchingRecal(vc, recals).value, VqsLodKey).None?
            ==> r == Failure(MissingLod(vc))
    ensures MatchingRecal(vc, recals).Some?
            && AttributeAsString(MatchingRecal(vc, recals).value, VqsLodKey).Some?
            && cfg.parseLod(AttributeAsString(MatchingRecal(vc, recals).value, VqsLodKey).value).None?
            ==> r == Failure(UnreadableLod(vc))
    ensures r.Success? <==>
              && MatchingRecal(vc, recals).Some?
              && AttributeAsString(MatchingRecal(vc, recals).value, VqsLodKey).Some?
              && cfg.parseLod(AttributeAsString(MatchingRecal(vc, recals).value, VqsLodKey).value).Some?
    ensures r.Success? ==>
              var m := MatchingRecal(vc, recals).value;
              var lodString := AttributeAsString(m, VqsLodKey);
              var lod := cfg.parseLod(lodString.value).value;
              && OnlyAnnotated(vc, r.value)
              && r.value.attributes[VqsLodKey] == lodString
              && r.value.attributes[CulpritKey] == AttributeAsString(m, CulpritKey)
              && r.value.filters == FilterFieldFor(FilterString(tranches, Classify(tranches, lod)))
  {
    match MatchingRecal(vc, recals)
    case None => Failure(NotInRecalFile(vc))
    case Some(recalDatum) =>
      match AttributeAsString(recalDatum, VqsLodKey)
      case None => Failure(MissingLod(vc))
      case Some(lodString) =>
        match cfg.parseLod(lodString)
        case None => Failure(UnreadableLod(vc))
        case Some(lod) =>
          var attributes := vc.attributes[VqsLodKey := Some(lodString)]
                                         [CulpritKey := AttributeAsString(recalDatum, CulpritKey)];
          var filter := FilterString(tranches, Classify(tranches, lod));
          Success(vc.(attributes := attributes, filters := FilterFieldFor(filter)))
  }

  /** What `map` does with one input variant: copy it through if it fails the
      gate, recalibrate it otherwise. Only a gated variant can raise an error. */
  function Emit(tranches: seq<Tranche>, cfg: Config, vc: Variant, recals: seq<Variant>)
    : (r: Result<Variant, RecalError>)
    requires |tranches| > 0
    ensures !Recalibrates(cfg, vc) ==> r == Success(vc)
    ensures Recalibrates(cfg, vc) ==> r == Recalibrate(tranches, cfg, vc, recals)
    ensures r.Failure? ==> Recalibrates(cfg, vc) && NamesRecord(r.error, vc)
    ensures r.Success? && Recalibrates(cfg, vc) ==> OnlyAnnotated(vc, r.value) && r.value.filters.Filters?
  {
    if Recalibrates(cfg, vc) then Recalibrate(tranches, cfg, vc, recals) else Success(vc)
  }

  /** One `map` call: every variant at the site is written once, in order,
      until a gated variant raises an error; records written before the error
      stay written. */
  function RecalibrateSite(tranches: seq<Tranche>, cfg: Config, vcs: seq<Variant>, recals: seq<Variant>)
    : (o: Emission)
    requires |tranches| > 0
    ensures |o.written| <= |vcs|
    ensures o.failure.None? ==> |o.written| == |vcs|
    ensures o.failure.Some? ==> !o.failure.value.NoTranchesRetained?
    ensures o.failure.Some? ==>
              && |o.written| < |vcs|
              && Emit(tranches, cfg, vcs[|o.written|], recals) == Failure(o.failure.value)
    ensures forall k :: 0 <= k < |o.written| ==> Emit(tranches, cfg, vcs[k], recals) == Success(o.written[k])
    decreases |vcs|
  {
    if |vcs| == 0 then Emission([], None)
    else
      var rest := RecalibrateSite(tranches, cfg, vcs[1..], recals);
      assert forall k :: 0 <= k < |rest.written| ==> vcs[1..][k] == vcs[k + 1];
      match Emit(tranches, cfg, vcs[0], recals)
      case Failure(e) => Emission([], Some(e))
      case Success(w) => Emission([w] + rest.written, rest.failure)
  }

  /** A site's `map` call ends without an error exactly when every gated
      variant at it recalibrates; otherwise the error is that of the first
      gated variant that does not. */
  lemma RecalibrateSiteSucceedsIff(tranches: seq<Tranche>, cfg: Config, vcs: seq<Variant>, recals: seq<Variant>)
    requires |tranches| > 0
    ensures RecalibrateSite(tranches, cfg, vcs, recals).failure.None?
            <==> forall k :: 0 <= k < |vcs| && Recalibrates(cfg, vcs[k])
                   ==> Recalibrate(tranches, cfg, vcs[k], recals).Success?
    ensures var o := RecalibrateSite(tranches, cfg, vcs, recals);
            o.failure.Some? ==> Recalibrate(tranches, cfg, vcs[|o.written|], recals) == Failure(o.failure.value)
  {
  }

  /** A gated variant that is written is its recalibrated copy. */
  lemma GatedWrittenRecalibrated(tranches: seq<Tranche>, cfg: Config, vcs: seq<Variant>, recals: seq<Variant>, k: nat)
    requires |tranches| > 0
    requires k < |RecalibrateSite(tranches, cfg, vcs, recals).written|
    requires Recalibrates(cfg, vcs[k])
    ensures Recalibrate(tranches, cfg, vcs[k], recals) == Success(RecalibrateSite(tranches, cfg, vcs, recals).written[k])
  {
  }

  /** Three tranches read at 90, 99 and 100 percent with a 95 percent filter
      level: the two retained ones are kept last-read first. */
  lemma ThreeTrancheInitialise()
    ensures Initialise([Tranche("T90", 90.0, 2.0, Snp), Tranche("T99", 99.0, -1.5, Snp),
                        Tranche("T100", 100.0, -5.0, Snp)], 95.0)
         == Success([Tranche("T100", 100.0, -5.0, Snp), Tranche("T99", 99.0, -1.5, Snp)])
  {
    var t90 := Tranche("T90", 90.0, 2.0, Snp);
    var t99 := Tranche("T99", 99.0, -1.5, Snp);
    var t100 := Tranche("T100", 100.0, -5.0, Snp);
    var read := [t90, t99, t100];
    assert read[1..] == [t99, t100];
    assert read[1..][1..] == [t100];
    assert Retain([t100], 95.0) == [t100];
    assert Retain(read, 95.0) == [t99, t100];
    assert Reverse([t99, t100]) == [t100, t99];
  }

  /** With that list the pass threshold is T99's -1.5 (inclusive), scores
      from T100's -5.0 up to it are tagged T100, and lower ones T100+. */
  lemma ThreeTrancheFilters()
    ensures var ts := [Tranche("T100", 100.0, -5.0, Snp), Tranche("T99", 99.0, -1.5, Snp)];
            && FilterString(ts, Classify(ts, -1.0)) == PassFilter
            && FilterString(ts, Classify(ts, -1.5)) == PassFilter
            && FilterString(ts, Classify(ts, -2.0)) == "T100"
            && FilterString(ts, Classify(ts, -5.0)) == "T100"
            && FilterString(ts, Classify(ts, -6.0)) == "T100+"
  {
  }

  /** A variant that fails the gate is written exactly as it was read. */
  lemma UngatedWrittenUntouched(tranches: seq<Tranche>, cfg: Config, vcs: seq<Variant>, recals: seq<Variant>, k: nat)
    requires |tranches| > 0
    requires k < |RecalibrateSite(tranches, cfg, vcs, recals).written|
    requires !Recalibrates(cfg, vcs[k])
    ensures RecalibrateSite(tranches, cfg, vcs, recals).written[k] == vcs[k]
  {
  }

  /** Number of input variants over a run of sites. */
  function VariantCount(sites: seq<Site>): nat
  {
    if |sites| == 0 then 0 else |sites[0].variants| + VariantCount(sites[1..])
  }

  /** Successive `map` calls over a run of sites, stopping at the first error. */
  function RecalibrateSites(tranches: seq<Tranche>, cfg: Config, sites: seq<Site>): (o: Emission)
    requires |tranches| > 0
    ensures |o.written| <= VariantCount(sites)
    ensures o.failure.None? ==> |o.written| == VariantCount(sites)
    ensures o.failure.Some? ==> !o.failure.value.NoTranchesRetained?
    decreases |sites|
  {
    if |sites| == 0 then Emission([], None)
    else
      var here := RecalibrateSite(tranches, cfg, sites[0].variants, sites[0].recals);
      if here.failure.Some? then here
      else
        var rest := RecalibrateSites(tranches, cfg, sites[1..]);
        Emission(here.written + rest.written, rest.failure)
  }

  /** Running over `a + b` is running over `a`, then over `b` unless `a` failed. */
  lemma {:induction false} RecalibrateSitesAppend(tranches: seq<Tranche>, cfg: Config, a: seq<Site>, b: seq<Site>)
    requires |tranches| > 0
    ensures var ra := RecalibrateSites(tranches, cfg, a);
            var rb := RecalibrateSites(tranches, cfg, b);
            RecalibrateSites(tranches, cfg, a + b)
              == if ra.failure.Some? then ra else Emission(ra.written + rb.written, rb.failure)
    decreases |a|
  {
    if |a| == 0 {
      assert a + b == b;
    } else {
      var ab := a + b;
      assert ab[0] == a[0];
      assert ab[1..] == a[1..] + b;
      var here := RecalibrateSite(tranches, cfg, a[0].variants, a[0].recals);
      if here.failure.None? {
        RecalibrateSitesAppend(tranches, cfg, a[1..], b);
        var ra' := RecalibrateSites(tranches, cfg, a[1..]);
        var rb := RecalibrateSites(tranches, cfg, b);
        if ra'.failure.None? {
          assert here.written + (ra'.written + rb.written) == (here.written + ra'.written) + rb.written;
        }
      }
    }
  }

  /** A run over one site is that site's `map` call. */
  lemma RecalibrateSitesOne(tranches: seq<Tranche>, cfg: Config, s: Site)
    requires |tranches| > 0
    ensures RecalibrateSites(tranches, cfg, [s]) == RecalibrateSite(tranches, cfg, s.variants, s.recals)
  {
    assert [s][1..] == [];
  }

  /** The whole walker: initialise, then `map` every site. When no tranche is
      retained the error comes before any record is written. */
  function Run(cfg: Config, read: seq<Tranche>, sites: seq<Site>): (o: Emission)
    ensures (forall t :: t in read ==> t.ts < cfg.tsFilterLevel)
            ==> o == Emission([], Some(NoTranchesRetained(cfg.tsFilterLevel)))
    ensures (o.failure.Some? && o.failure.value.NoTranchesRetained?)
            <==> forall t :: t in read ==> t.ts < cfg.tsFilterLevel
    ensures (exists t :: t in read && t.ts >= cfg.tsFilterLevel)
            ==> o == RecalibrateSites(Initialise(read, cfg.tsFilterLevel).value, cfg, sites)
    ensures o.failure.None? ==> |o.written| == VariantCount(sites)
    ensures |o.written| <= VariantCount(sites)
  {
    match Initialise(read, cfg.tsFilterLevel)
    case Failure(e) => Emission([], Some(e))
    case Success(tranches) => RecalibrateSites(tranches, cfg, sites)
  }

  //---------------------------------------------------------------------------
  // reduce
  //---------------------------------------------------------------------------

  /** `reduceInit`, `reduce` and `treeReduce`: all 1, unused. */
  function ReduceInit(): int { 1 }
  function Reduce(mapValue: int, reduceSum: int): int { 1 }
  function TreeReduce(lhs: int, rhs: int): int { 1 }

  /** Shard results combine in any grouping. */
  lemma TreeReduceAssociative(a: int, b: int, c: int)
    ensures TreeReduce(TreeReduce(a, b), c) == TreeReduce(a, TreeReduce(b, c))
  {
  }

  /** Driven by the traversal with this walker's `reduce`, whatever values
      `map` returns, the reduced value is `reduceInit`'s 1. */
  lemma ReduceAllIsOne<C>(w: TraverseLociByReference.Walker<C, int, int>, values: seq<int>)
    requires w.LocusWalker? && w.reduce == Reduce
    ensures TraverseLociByReference.ReduceAll(w, ReduceInit(), values) == 1
  {
  }
}
