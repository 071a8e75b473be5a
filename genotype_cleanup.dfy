/**
 * Normalisation of per-sample FORMAT fields (`cleanupGenotypeAnnotations`) and
 * the pass that turns data-less GQ0 genotypes into no-calls before INFO-level
 * annotation (`excludeFromAnnotations`, `assignNoCallsAnnotationExcludedGenotypes`).
 */
module GenotypeCleanup {
  import opened Wrappers
  import opened VcfRecords
  import opened AttributeParsing

  /** The depth the cleanup works with: MIN_DP coerced to an int when present, else DP, else 0. */
  function CleanedDepth(g: Genotype): (r: Result<int, Error>)
    ensures MinDpKey in g.ext ==> r == ParseInt(g.ext[MinDpKey])
    ensures MinDpKey !in g.ext ==> r.Success? && (r.value == 0 <==> !HasDp(g) || g.dp.value == 0)
    ensures MinDpKey !in g.ext && HasDp(g) ==> r.value == g.dp.value
  {
    if MinDpKey in g.ext then ParseInt(g.ext[MinDpKey])
    else Success(if HasDp(g) then g.dp.value else 0)
  }

  /** The AD synthesised for a variant site: all of the depth on the reference allele. */
  function SynthesizedAd(nAlleles: nat, depth: int): seq<int>
  {
    seq(nAlleles, j => if j == 0 then depth else 0)
  }

  /**
   * The extended attributes after cleanup (before RGQ): MIN_DP removed, SB
   * removed unless kept, PGT of a hom-var genotype set to "1|1", every other
   * attribute carried over.
   */
  function CleanedAttributes(g: Genotype, keepSB: bool): (m: map<string, AttrValue>)
    ensures MinDpKey !in m
    ensures !keepSB ==> StrandBiasBySampleKey !in m
    ensures PhasingGtKey in m <==> PhasingGtKey in g.ext
    ensures PhasingGtKey in g.ext ==>
      m[PhasingGtKey] == (if IsHomVar(g) then AStr(PhasedHomVarString) else g.ext[PhasingGtKey])
    ensures forall k :: k in g.ext && k != MinDpKey && k != PhasingGtKey && (keepSB || k != StrandBiasBySampleKey) ==>
      (k in m && m[k] == g.ext[k])
    ensures m.Keys <= g.ext.Keys
  {
    var withoutMinDp := g.ext - {MinDpKey};
    var withoutSb := if keepSB then withoutMinDp else withoutMinDp - {StrandBiasBySampleKey};
    if IsHomVar(g) && PhasingGtKey in g.ext then withoutSb[PhasingGtKey := AStr(PhasedHomVarString)] else withoutSb
  }

  /** The AD after cleanup: synthesised when missing at a variant site with data, else unchanged. */
  function CleanedAd(vc: VariantContext, g: Genotype, depth: int): (ad: Option<seq<int>>)
    ensures g.ad.None? && IsVariant(vc) && depth > 0 ==>
      (ad.Some? && |ad.value| == |vc.alleles| && ad.value[0] == depth
       && forall j :: 1 <= j < |vc.alleles| ==> ad.value[j] == 0)
    ensures !(g.ad.None? && IsVariant(vc) && depth > 0) ==> ad == g.ad
  {
    if g.ad.None? && IsVariant(vc) && depth > 0 then Some(SynthesizedAd(|vc.alleles|, depth)) else g.ad
  }

  /**
   * Create-ref mode applied to a genotype whose DP, AD and attributes are
   * already cleaned: with data and a GQ, hom-ref when GQ > 0 and no-call
   * otherwise, GQ moved to RGQ; without, no-call with neither GQ nor DP.
   * PL is dropped and the ploidy kept in every case.
   */
  function AsReferenceGenotype(vc: VariantContext, g: Genotype, depth: int, gq: Option<int>): (r: Genotype)
    requires |vc.alleles| > 0
    ensures Ploidy(r) == Ploidy(g) && r.gq.None? && r.pl.None? && r.ad == g.ad
    ensures depth > 0 && gq.Some? ==>
      (forall j :: 0 <= j < Ploidy(g) ==> r.alleles[j] == if gq.value > 0 then Reference(vc) else NoCall)
      && r.dp == g.dp && r.ext == g.ext[ReferenceGenotypeQualityKey := AInt(gq.value)]
    ensures !(depth > 0 && gq.Some?) ==>
      (forall j :: 0 <= j < Ploidy(g) ==> r.alleles[j] == NoCall) && r.dp.None? && r.ext == g.ext
  {
    if depth > 0 && gq.Some? then
      var calls := if gq.value > 0 then Copies(Ploidy(g), Reference(vc)) else Copies(Ploidy(g), NoCall);
      g.(alleles := calls, gq := None, pl := None, ext := g.ext[ReferenceGenotypeQualityKey := AInt(gq.value)])
    else
      g.(alleles := Copies(Ploidy(g), NoCall), gq := None, dp := None, pl := None)
  }

  /**
   * One genotype after cleanup. MIN_DP, when present, must coerce to an int and
   * becomes the depth; outside create-ref mode GT, GQ and PL are untouched.
   */
  function CleanedGenotype(vc: VariantContext, g: Genotype, createRefGTs: bool, keepSB: bool): (r: Result<Genotype, Error>)
    requires |vc.alleles| > 0
    ensures MinDpKey in g.ext ==> (r.Success? <==> ParseInt(g.ext[MinDpKey]).Success?)
    ensures MinDpKey !in g.ext ==> r.Success?
    ensures r.Success? ==> Ploidy(r.value) == Ploidy(g)
    ensures r.Success? && !createRefGTs ==>
      r.value == g.(dp := r.value.dp, ad := r.value.ad, ext := r.value.ext)
    ensures r.Success? && MinDpKey in g.ext && !createRefGTs ==> r.value.dp == Some(ParseInt(g.ext[MinDpKey]).value)
    ensures r.Success? ==> MinDpKey !in r.value.ext && (!keepSB ==> StrandBiasBySampleKey !in r.value.ext)
    ensures r.Success? && createRefGTs ==> r.value.gq.None? && r.value.pl.None?
    ensures r.Success? <==> CleanedDepth(g).Success?
    ensures r.Success? ==> r.value.ad == CleanedAd(vc, g, CleanedDepth(g).value)
    ensures r.Success? && MinDpKey !in g.ext && !createRefGTs ==> r.value.dp == g.dp
    ensures r.Success? && !createRefGTs ==> r.value.ext == CleanedAttributes(g, keepSB)
    ensures (r.Success? && createRefGTs && CleanedDepth(g).value > 0 && HasGq(g)) ==>
      && (forall j :: 0 <= j < Ploidy(g) ==> r.value.alleles[j] == if g.gq.value > 0 then Reference(vc) else NoCall)
      && r.value.dp == (if MinDpKey in g.ext then Some(CleanedDepth(g).value) else g.dp)
      && r.value.ext == CleanedAttributes(g, keepSB)[ReferenceGenotypeQualityKey := AInt(g.gq.value)]
    ensures (r.Success? && createRefGTs && !(CleanedDepth(g).value > 0 && HasGq(g))) ==>
      && (forall j :: 0 <= j < Ploidy(g) ==> r.value.alleles[j] == NoCall)
      && r.value.dp.None? && r.value.ext == CleanedAttributes(g, keepSB)
  {
    var depth :- CleanedDepth(g);
    var dp := if MinDpKey in g.ext then Some(depth) else g.dp;
    var cleaned := g.(dp := dp, ad := CleanedAd(vc, g, depth), ext := CleanedAttributes(g, keepSB));
    if createRefGTs then Success(AsReferenceGenotype(vc, cleaned, depth, KnownGq(g))) else Success(cleaned)
  }

  /** The attribute steps of the cleanup loop body: MIN_DP dropped, SB dropped unless kept, PGT of a hom-var set. */
  method CleanupAttributes(oldGT: Genotype, keepSB: bool) returns (attrs: map<string, AttrValue>)
    ensures attrs == CleanedAttributes(oldGT, keepSB)
  {
    attrs := oldGT.ext;
    if MinDpKey in oldGT.ext {
      attrs := attrs - {MinDpKey};
    }
    if !keepSB {
      attrs := attrs - {StrandBiasBySampleKey};
    }
    // a hom-var genotype's PGT becomes the phased hom-var value
    if IsHomVar(oldGT) && PhasingGtKey in oldGT.ext {
      attrs := attrs[PhasingGtKey := AStr(PhasedHomVarString)];
    }
  }

  /** The body of the cleanup loop: one genotype, rewritten step by step through a builder. */
  method CleanupGenotype(vc: VariantContext, oldGT: Genotype, createRefGTs: bool, keepSB: bool)
    returns (r: Result<Genotype, Error>)
    requires |vc.alleles| > 0
    ensures r == CleanedGenotype(vc, oldGT, createRefGTs, keepSB)
  {
    var builder := oldGT;
    var depth := if HasDp(oldGT) then oldGT.dp.value else 0;

    // a MIN_DP replaces the depth and becomes the DP
    if MinDpKey in oldGT.ext {
      var parsed := ParseInt(oldGT.ext[MinDpKey]);
      if parsed.Failure? {
        return Failure(parsed.error);
      }
      depth := parsed.value;
      builder := builder.(dp := Some(depth));
    }
    assert CleanedDepth(oldGT) == Success(depth);
    var attrs := CleanupAttributes(oldGT, keepSB);

    // a variant site without AD gets one holding the whole depth on the reference
    if oldGT.ad.None? && IsVariant(vc) && depth > 0 {
      var ad := new int[|vc.alleles|](_ => 0);
      ad[0] := depth;
      assert ad[..] == SynthesizedAd(|vc.alleles|, depth);
      builder := builder.(ad := Some(ad[..]));
    }
    assert builder.ad == CleanedAd(vc, oldGT, depth);
    builder := builder.(ext := attrs);

    if createRefGTs {
      var created := CreateReferenceGenotype(vc, builder, depth, KnownGq(oldGT));
      return Success(created);
    }
    r := Success(builder);
  }

  /** The create-ref step of the cleanup loop body, applied to the cleaned genotype. */
  method CreateReferenceGenotype(vc: VariantContext, cleaned: Genotype, depth: int, gq: Option<int>)
    returns (r: Genotype)
    requires |vc.alleles| > 0
    ensures r == AsReferenceGenotype(vc, cleaned, depth, gq)
  {
    var builder := cleaned;
    var attrs := cleaned.ext;
    // with depth and a GQ the call is hom-ref or, for GQ 0, a no-call
    if depth > 0 && gq.Some? {
      if gq.value > 0 {
        builder := builder.(alleles := Copies(Ploidy(cleaned), Reference(vc)));
      } else {
        builder := builder.(alleles := Copies(Ploidy(cleaned), NoCall));
      }
      // GQ is dropped and its value stored as RGQ
      builder := builder.(gq := None);
      attrs := attrs[ReferenceGenotypeQualityKey := AInt(gq.value)];
    } else {
      builder := builder.(alleles := Copies(Ploidy(cleaned), NoCall), gq := None, dp := None);
    }
    // PL is dropped in create-ref mode
    builder := builder.(pl := None);
    r := builder.(ext := attrs);
  }

  /** The outcome of cleaning each genotype of the record, in order. */
  function CleanupResults(vc: VariantContext, createRefGTs: bool, keepSB: bool): (rs: seq<Result<Genotype, Error>>)
    requires |vc.alleles| > 0
    ensures |rs| == |vc.genotypes|
    ensures forall i :: 0 <= i < |vc.genotypes| ==> rs[i] == CleanedGenotype(vc, vc.genotypes[i], createRefGTs, keepSB)
  {
    seq(|vc.genotypes|, i requires 0 <= i < |vc.genotypes| => CleanedGenotype(vc, vc.genotypes[i], createRefGTs, keepSB))
  }

  /**
   * What `cleanupGenotypeAnnotations` returns: every genotype cleaned, in
   * order, or the error of the first genotype that cannot be cleaned, every
   * genotype before it having been cleaned.
   */
  function CleanedGenotypes(vc: VariantContext, createRefGTs: bool, keepSB: bool): (r: Result<seq<Genotype>, Error>)
    requires |vc.alleles| > 0
    ensures r.Success? <==> AllSucceed(CleanupResults(vc, createRefGTs, keepSB))
    ensures r.Success? ==> |r.value| == |vc.genotypes| && forall i :: 0 <= i < |vc.genotypes| ==>
      r.value[i] == CleanupResults(vc, createRefGTs, keepSB)[i].value
    ensures r.Failure? ==> exists i :: (0 <= i < |vc.genotypes|
      && CleanupResults(vc, createRefGTs, keepSB)[i].Failure? && CleanupResults(vc, createRefGTs, keepSB)[i].error == r.error
      && forall j :: 0 <= j < i ==> CleanupResults(vc, createRefGTs, keepSB)[j].Success?)
  {
    var rs := CleanupResults(vc, createRefGTs, keepSB);
    if AllSucceed(rs) then Success(seq(|rs|, i requires 0 <= i < |rs| => rs[i].value))
    else Failure(FirstFailure(rs))
  }

  /**
   * `cleanupGenotypeAnnotations`: cleans every genotype of the record, in order,
   * and fails as soon as one genotype's MIN_DP cannot be coerced to an int.
   */
  method CleanupGenotypeAnnotations(vc: VariantContext, createRefGTs: bool, keepSB: bool)
    returns (r: Result<seq<Genotype>, Error>)
    requires |vc.alleles| > 0
    ensures r == CleanedGenotypes(vc, createRefGTs, keepSB)
  {
    var recoveredGs: seq<Genotype> := [];
    var i := 0;
    while i < |vc.genotypes|
      invariant 0 <= i <= |vc.genotypes|
      invariant |recoveredGs| == i
      invariant forall j :: 0 <= j < i ==>
        (CleanedGenotype(vc, vc.genotypes[j], createRefGTs, keepSB).Success?
         && recoveredGs[j] == CleanedGenotype(vc, vc.genotypes[j], createRefGTs, keepSB).value)
    {
      var cleaned := CleanupGenotype(vc, vc.genotypes[i], createRefGTs, keepSB);
      if cleaned.Failure? {
        FirstFailureAt(CleanupResults(vc, createRefGTs, keepSB), i);
        return Failure(cleaned.error);
      }
      recoveredGs := recoveredGs + [cleaned.value];
      i := i + 1;
    }
    assert recoveredGs == CleanedGenotypes(vc, createRefGTs, keepSB).value;
    r := Success(recoveredGs);
  }

  /**
   * Cleanup outside create-ref mode is idempotent: a cleaned genotype has no
   * MIN_DP left, its PGT is already rewritten and its AD already present.
   */
  lemma CleanupIsIdempotent(vc: VariantContext, g: Genotype, keepSB: bool)
    requires |vc.alleles| > 0
    requires CleanedGenotype(vc, g, false, keepSB).Success?
    ensures CleanedGenotype(vc, CleanedGenotype(vc, g, false, keepSB).value, false, keepSB)
      == CleanedGenotype(vc, g, false, keepSB)
  {
    var c := CleanedGenotype(vc, g, false, keepSB).value;
    var depth := CleanedDepth(g).value;
    assert c.dp == if MinDpKey in g.ext then Some(depth) else g.dp;
    // a MIN_DP of -1 leaves the genotype without DP, which reads back as depth 0
    assert CleanedDepth(c) == Success(if depth == -1 then 0 else depth);
    assert c.alleles == g.alleles;
    assert CleanedAd(vc, c, CleanedDepth(c).value) == c.ad;
    var m := CleanedAttributes(c, keepSB);
    assert forall k :: k in c.ext <==> k in m;
    assert forall k :: k in m ==> m[k] == c.ext[k];
    assert m == c.ext;
  }

  /**
   * In create-ref mode every genotype of a record whose allele 0 is the
   * reference comes out hom-ref, no-call, or empty.
   */
  lemma CreatedGenotypesAreHomRefOrNoCall(vc: VariantContext, g: Genotype, keepSB: bool)
    requires |vc.alleles| > 0 && vc.alleles[0].Called? && vc.alleles[0].isReference
    requires CleanedGenotype(vc, g, true, keepSB).Success?
    ensures var c := CleanedGenotype(vc, g, true, keepSB).value;
      IsHomRef(c) || IsNoCall(c) || Ploidy(c) == 0
  {
    var c := CleanedGenotype(vc, g, true, keepSB).value;
    if Ploidy(c) > 0 {
      if c.alleles[0] == NoCall {
        assert forall j :: 0 <= j < |c.alleles| ==> c.alleles[j] == NoCall;
      } else {
        assert forall j :: 0 <= j < |c.alleles| ==> c.alleles[j] == vc.alleles[0];
        assert NoCall !in c.alleles;
      }
    }
  }

  /**
   * `excludeFromAnnotations`: a genotype carries no reads when it is hom-ref
   * or no-call, has no DP or DP 0, and has GQ 0.
   */
  predicate ExcludeFromAnnotations(g: Genotype)
  {
    (IsHomRef(g) || IsNoCall(g))
    && (!HasDp(g) || g.dp.value == 0)
    && HasGq(g) && g.gq.value == 0
  }

  /**
   * A genotype excluded from annotations (and without MIN_DP) has no data for
   * the create-ref cleanup either: it comes out a no-call of the same ploidy,
   * without GQ or DP.
   */
  lemma ExcludedGenotypesStayNoCalls(vc: VariantContext, g: Genotype, keepSB: bool)
    requires |vc.alleles| > 0 && ExcludeFromAnnotations(g) && MinDpKey !in g.ext
    ensures CleanedGenotype(vc, g, true, keepSB).Success?
    ensures var c := CleanedGenotype(vc, g, true, keepSB).value;
      Ploidy(c) == Ploidy(g) && IsNoCall(c) && c.gq.None? && c.dp.None?
  {
    assert CleanedDepth(g) == Success(0);
    var c := CleanedGenotype(vc, g, true, keepSB).value;
    assert Ploidy(g) > 0;
    assert forall j :: 0 <= j < Ploidy(c) ==> c.alleles[j] == NoCall;
    assert c.alleles == Copies(Ploidy(g), NoCall);
  }

  /** The genotypes with every excluded one turned into a no-call of the same ploidy. */
  function NoCallsForExcluded(gs: seq<Genotype>): (r: seq<Genotype>)
    ensures |r| == |gs|
    ensures forall i :: 0 <= i < |gs| ==> r[i].(alleles := gs[i].alleles) == gs[i] && Ploidy(r[i]) == Ploidy(gs[i])
    ensures forall i :: 0 <= i < |gs| && ExcludeFromAnnotations(gs[i]) ==> IsNoCall(r[i])
    ensures forall i :: 0 <= i < |gs| && !ExcludeFromAnnotations(gs[i]) ==> r[i] == gs[i]
  {
    seq(|gs|, i requires 0 <= i < |gs| => if ExcludeFromAnnotations(gs[i]) then AsNoCall(gs[i]) else gs[i])
  }

  /** `assignNoCallsAnnotationExcludedGenotypes`, building the output list in a loop. */
  method AssignNoCallsAnnotationExcludedGenotypes(genotypes: seq<Genotype>) returns (r: seq<Genotype>)
    ensures |r| == |genotypes|
    ensures forall i :: 0 <= i < |genotypes| && ExcludeFromAnnotations(genotypes[i]) ==>
      r[i] == AsNoCall(genotypes[i])
    ensures forall i :: 0 <= i < |genotypes| && !ExcludeFromAnnotations(genotypes[i]) ==> r[i] == genotypes[i]
    ensures r == NoCallsForExcluded(genotypes)
  {
    r := [];
    var i := 0;
    while i < |genotypes|
      invariant 0 <= i <= |genotypes|
      invariant r == NoCallsForExcluded(genotypes[..i])
    {
      var oldGT := genotypes[i];
      if ExcludeFromAnnotations(oldGT) {
        r := r + [AsNoCall(oldGT)];
      } else {
        r := r + [oldGT];
      }
      i := i + 1;
    }
    assert genotypes[..i] == genotypes;
  }

  /**
   * The no-call pass keeps every genotype's DP, GQ, AD, PL, attributes and
   * ploidy, and is idempotent: a genotype it converts is still excluded.
   */
  lemma {:induction false} NoCallPassIsIdempotent(gs: seq<Genotype>)
    ensures NoCallsForExcluded(NoCallsForExcluded(gs)) == NoCallsForExcluded(gs)
    ensures forall i :: 0 <= i < |gs| ==>
      NoCallsForExcluded(gs)[i].(alleles := gs[i].alleles) == gs[i] && Ploidy(NoCallsForExcluded(gs)[i]) == Ploidy(gs[i])
  {
    var once := NoCallsForExcluded(gs);
    forall i | 0 <= i < |gs|
      ensures NoCallsForExcluded(once)[i] == once[i]
    {
      if ExcludeFromAnnotations(gs[i]) {
        assert Ploidy(gs[i]) > 0;
        assert IsNoCall(once[i]);
        assert ExcludeFromAnnotations(once[i]);
        assert AsNoCall(once[i]) == once[i];
      }
    }
  }
}
