/**
 * The record model the re-genotyping engine works on: alleles, per-sample
 * genotypes with their inline fields (GT, DP, GQ, AD, PL) and extended FORMAT
 * attributes, and the merged multi-sample record with its INFO attributes.
 * The classifications below (hom-ref, hom-var, no-call, variant, polymorphic in
 * samples) are those of the record library the engine is written against.
 */
module VcfRecords {
  import opened Wrappers

  /** A called allele (its bases and whether it is the reference), or the no-call allele ".". */
  datatype Allele = Called(bases: string, isReference: bool) | NoCall

  /**
   * An attribute value as the record library stores it in an INFO or FORMAT map.
   * `AInt(i)` is an Integer when i fits in 32 bits and a Long otherwise;
   * `ANull` is a key that is present but mapped to null.
   */
  datatype AttrValue =
    | AStr(s: string)
    | AInt(i: int)
    | AReal(r: real)
    | AList(items: seq<AttrValue>)
    | ANull

  /**
   * One sample's genotype. `dp`, `gq`, `ad` and `pl` are the inline fields,
   * `None` when the genotype has none; `ext` holds every other FORMAT attribute.
   * The record library keeps a missing DP or GQ as the value -1, so `Some(-1)`
   * is also a genotype without DP (see `HasDp`) or without GQ (see `HasGq`).
   */
  datatype Genotype = Genotype(
    alleles: seq<Allele>,
    dp: Option<int>,
    gq: Option<int>,
    ad: Option<seq<int>>,
    pl: Option<seq<int>>,
    ext: map<string, AttrValue>)

  /** A merged multi-sample record: allele 0 is the reference allele. */
  datatype VariantContext = VariantContext(
    start: int,
    alleles: seq<Allele>,
    genotypes: seq<Genotype>,
    info: map<string, AttrValue>)

  /** A record as the record library can build one: it has at least the reference allele. */
  type Record = vc: VariantContext | |vc.alleles| > 0 witness VariantContext(0, [Called("N", true)], [], map[])

  /** An allele list as the alternate-allele cap returns it: never empty, the reference is always kept. */
  type NonEmptyAlleles = s: seq<Allele> | |s| > 0 witness [NoCall]

  /** The genomic interval a call covers. */
  datatype Locus = Locus(contig: string, start: int, end: int)

  /** The exceptions the engine can raise, by the Java class that signals them. */
  datatype Error =
    | NumberFormat       // Integer.parseInt / Integer.valueOf on a malformed string
    | IllegalArgument    // parseInt on a value that is neither a String nor a Number
    | ClassCast          // getAttributeAsInt on a value of an unexpected class
    | NullPointer        // a missing attribute array or a missing FORMAT header line
    | IndexOutOfBounds   // an attribute array shorter than the allele count, or an empty AD
    | IllegalState       // several candidate records start at the locus start

  /** The `Number` of a FORMAT header line: a fixed count, or per alt / per allele / per genotype / unbounded. */
  datatype CountType = Fixed | PerAltAllele | PerAllele | PerGenotype | Unbounded

  datatype FormatHeaderLine = FormatHeaderLine(countType: CountType, count: int)

  /** The FORMAT header lines of the output header, by key. */
  type FormatHeader = map<string, FormatHeaderLine>

  const DepthKey := "DP"
  const MinDpKey := "MIN_DP"
  const StrandBiasBySampleKey := "SB"
  const PhasingGtKey := "PGT"
  const ReferenceGenotypeQualityKey := "RGQ"
  const SomaticQualityKey := "SQ"
  const TumorLogOddsKey := "TLOD"
  const AlleleFractionKey := "AF"
  const MleAlleleCountKey := "MLEAC"
  const MleAlleleFrequencyKey := "MLEAF"
  const DiscoveredAllelesKey := "NDA"
  const AsQualKey := "AS_QUAL"
  /** The PGT value written on hom-var genotypes. */
  const PhasedHomVarString := "1|1"
  /** The VCF missing value. */
  const MissingValue := "."

  /** The classification of a genotype by its alleles. */
  datatype GenotypeType = Unavailable | NoCallType | Mixed | HomRef | HomVar | Het

  function TypeOf(alleles: seq<Allele>): (t: GenotypeType)
    ensures t == Unavailable <==> alleles == []
    ensures t == NoCallType <==> alleles != [] && forall i :: 0 <= i < |alleles| ==> alleles[i] == NoCall
    ensures t == HomRef ==> forall i :: 0 <= i < |alleles| ==> alleles[i].Called? && alleles[i].isReference
    ensures t == HomVar ==> forall i :: 0 <= i < |alleles| ==> alleles[i].Called? && !alleles[i].isReference
  {
    if alleles == [] then Unavailable
    else if NoCall in alleles then
      (if forall i :: 0 <= i < |alleles| ==> alleles[i] == NoCall then NoCallType else Mixed)
    else if forall i :: 0 <= i < |alleles| ==> alleles[i] == alleles[0] then
      (if alleles[0].isReference then HomRef else HomVar)
    else Het
  }

  predicate IsHomRef(g: Genotype) { TypeOf(g.alleles) == HomRef }
  predicate IsHomVar(g: Genotype) { TypeOf(g.alleles) == HomVar }
  predicate IsNoCall(g: Genotype) { TypeOf(g.alleles) == NoCallType }

  /** `hasDP`: a DP is present and is not the library's "no DP" value -1. */
  predicate HasDp(g: Genotype) { g.dp.Some? && g.dp.value != -1 }

  /** `hasGQ`: a GQ is present and is not the library's "no GQ" value -1. */
  predicate HasGq(g: Genotype) { g.gq.Some? && g.gq.value != -1 }

  /** The GQ as `hasGQ`/`getGQ` report it: `None` for a missing GQ and for -1. */
  function KnownGq(g: Genotype): (q: Option<int>)
    ensures q.Some? <==> HasGq(g)
    ensures q.Some? ==> q == g.gq
  {
    if HasGq(g) then g.gq else None
  }

  /** A genotype's ploidy is the length of its allele list. */
  function Ploidy(g: Genotype): nat { |g.alleles| }

  /** `n` copies of allele `a`. */
  function Copies(n: nat, a: Allele): (s: seq<Allele>)
    ensures |s| == n && forall i :: 0 <= i < n ==> s[i] == a
  {
    seq(n, _ => a)
  }

  /** The genotype with its alleles replaced by no-calls of the same ploidy. */
  function AsNoCall(g: Genotype): (r: Genotype)
    ensures Ploidy(r) == Ploidy(g)
    ensures r.alleles != [] ==> IsNoCall(r)
    ensures r.(alleles := g.alleles) == g
  {
    g.(alleles := Copies(Ploidy(g), NoCall))
  }

  /** A record is variant when it has at least one alternate allele. */
  predicate IsVariant(vc: VariantContext) { |vc.alleles| > 1 }

  function Reference(vc: VariantContext): Allele
    requires |vc.alleles| > 0
  {
    vc.alleles[0]
  }

  /** Some genotype calls an allele other than the reference (the called chromosomes are not all reference). */
  predicate CallsNonReference(vc: VariantContext)
    requires |vc.alleles| > 0
  {
    exists g :: g in vc.genotypes && exists a :: a in g.alleles && a != NoCall && a != Reference(vc)
  }

  /**
   * The record library's `isPolymorphicInSamples`, the negation of
   * "monomorphic": a variant record that has no genotypes at all, or one some
   * genotype of which calls an allele other than the reference.
   */
  predicate IsPolymorphicInSamples(vc: VariantContext)
    requires |vc.alleles| > 0
  {
    IsVariant(vc) && (vc.genotypes == [] || CallsNonReference(vc))
  }

  /**
   * `List.indexOf`: the position of the first occurrence of `a` in `s`, or -1
   * when `a` does not occur.
   */
  function IndexOf(s: seq<Allele>, a: Allele): (r: int)
    ensures -1 <= r < |s|
    ensures r == -1 <==> a !in s
    ensures r >= 0 ==> s[r] == a && forall j :: 0 <= j < r ==> s[j] != a
  {
    if s == [] then -1
    else if s[0] == a then 0
    else
      var k := IndexOf(s[1..], a);
      if k == -1 then -1 else k + 1
  }

  /** `relevantIndices`: the position in `alleles` of each kept allele, -1 for one that is not there. */
  function RelevantIndices(alleles: seq<Allele>, kept: seq<Allele>): (idx: seq<int>)
    ensures |idx| == |kept|
    ensures forall k :: 0 <= k < |kept| ==> (idx[k] == -1 <==> kept[k] !in alleles)
    ensures forall k :: 0 <= k < |kept| && idx[k] >= 0 ==> idx[k] < |alleles| && alleles[idx[k]] == kept[k]
  {
    seq(|kept|, k requires 0 <= k < |kept| => IndexOf(alleles, kept[k]))
  }
}
