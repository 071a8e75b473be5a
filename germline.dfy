/**
 * Germline re-genotyping of a merged record: the genotyper is asked for a new
 * call, the genotyper's annotations are carried onto the original INFO, the
 * allele-specific FORMAT fields are subset to the kept alleles, and the record
 * is then annotated and its genotypes cleaned, in an order that differs for
 * polymorphic and monomorphic sites.
 */
module GermlineCalling {
  import opened Wrappers
  import opened VcfRecords
  import opened AttributeParsing
  import opened Collaborators
  import opened GenotypeCleanup

  /** `getAttribute`: the value under `key`, Java null when there is none. */
  function AttributeOrNull(info: map<string, AttrValue>, key: string): (v: AttrValue)
    ensures key !in info ==> v == ANull
    ensures key in info ==> v == info[key]
  {
    if key in info then info[key] else ANull
  }

  /**
   * The INFO of `addGenotypingAnnotations`: the original INFO, with the
   * genotyper's MLEAC and MLEAF always written (null when the genotyper has
   * none), and its NDA and AS_QUAL written only when it has them. Nothing else
   * of the genotyper's INFO survives.
   */
  function GenotypingAnnotations(originalAttributes: map<string, AttrValue>, newInfo: map<string, AttrValue>)
    : (m: map<string, AttrValue>)
    ensures m.Keys == originalAttributes.Keys + {MleAlleleCountKey, MleAlleleFrequencyKey}
      + (newInfo.Keys * {DiscoveredAllelesKey, AsQualKey})
    ensures m[MleAlleleCountKey] == AttributeOrNull(newInfo, MleAlleleCountKey)
    ensures m[MleAlleleFrequencyKey] == AttributeOrNull(newInfo, MleAlleleFrequencyKey)
    ensures DiscoveredAllelesKey in newInfo ==> m[DiscoveredAllelesKey] == newInfo[DiscoveredAllelesKey]
    ensures AsQualKey in newInfo ==> m[AsQualKey] == newInfo[AsQualKey]
    ensures forall k :: (k in originalAttributes && k != MleAlleleCountKey && k != MleAlleleFrequencyKey
      && (k !in newInfo || (k != DiscoveredAllelesKey && k != AsQualKey))) ==> m[k] == originalAttributes[k]
  {
    var attrs := originalAttributes[MleAlleleCountKey := AttributeOrNull(newInfo, MleAlleleCountKey)]
                                   [MleAlleleFrequencyKey := AttributeOrNull(newInfo, MleAlleleFrequencyKey)];
    var attrs := if DiscoveredAllelesKey in newInfo then attrs[DiscoveredAllelesKey := newInfo[DiscoveredAllelesKey]] else attrs;
    if AsQualKey in newInfo then attrs[AsQualKey := newInfo[AsQualKey]] else attrs
  }

  /** `addGenotypingAnnotations`: the genotyper's record with the carried-forward INFO, built by successive puts. */
  method AddGenotypingAnnotations(originalAttributes: map<string, AttrValue>, newVC: Record) returns (r: Record)
    ensures r == newVC.(info := GenotypingAnnotations(originalAttributes, newVC.info))
  {
    var attrs := originalAttributes;
    attrs := attrs[MleAlleleCountKey := AttributeOrNull(newVC.info, MleAlleleCountKey)];
    attrs := attrs[MleAlleleFrequencyKey := AttributeOrNull(newVC.info, MleAlleleFrequencyKey)];
    if DiscoveredAllelesKey in newVC.info {
      attrs := attrs[DiscoveredAllelesKey := newVC.info[DiscoveredAllelesKey]];
    }
    if AsQualKey in newVC.info {
      attrs := attrs[AsQualKey := newVC.info[AsQualKey]];
    }
    r := newVC.(info := attrs);
  }

  /** A FORMAT field declared with the fixed count 1 holds one value, whatever the alleles. */
  predicate IsScalar(line: FormatHeaderLine)
  {
    line.countType == Fixed && line.count == 1
  }

  /** The value of one FORMAT field after subsetting: scalars as they are, the rest re-indexed by the collaborator. */
  function SubsetValue(line: FormatHeaderLine, v: AttrValue, relevantIndices: seq<int>, ext: Externals): (r: AttrValue)
    ensures IsScalar(line) ==> r == v
    ensures !IsScalar(line) ==> r == ext.annotationValueVector(line.countType, v, relevantIndices)
  {
    if IsScalar(line) then v else ext.annotationValueVector(line.countType, v, relevantIndices)
  }

  /**
   * One genotype with every extended FORMAT field subset to the kept alleles;
   * its keys, alleles and standard fields are the same as before.
   */
  function SubsetFormatFields(header: FormatHeader, g: Genotype, relevantIndices: seq<int>, ext: Externals): (r: Genotype)
    requires g.ext.Keys <= header.Keys
    ensures r.alleles == g.alleles && r.dp == g.dp && r.gq == g.gq && r.ad == g.ad && r.pl == g.pl
    ensures r.ext.Keys == g.ext.Keys
    ensures forall k :: k in g.ext && IsScalar(header[k]) ==> r.ext[k] == g.ext[k]
    ensures forall k :: k in g.ext ==> r.ext[k] == SubsetValue(header[k], g.ext[k], relevantIndices, ext)
  {
    g.(ext := map k | k in g.ext :: SubsetValue(header[k], g.ext[k], relevantIndices, ext))
  }

  /** Every extended FORMAT key of every genotype has a header line. */
  predicate AllDeclared(header: FormatHeader, gs: seq<Genotype>)
  {
    forall j :: 0 <= j < |gs| ==> gs[j].ext.Keys <= header.Keys
  }

  /**
   * What `subsetAlleleSpecificFormatFields` returns: every genotype subset, in
   * order; a key without a header line is a null header line dereferenced.
   */
  function SubsetGenotypes(header: FormatHeader, gs: seq<Genotype>, relevantIndices: seq<int>, ext: Externals)
    : (r: Result<seq<Genotype>, Error>)
    ensures r.Success? <==> AllDeclared(header, gs)
    ensures r.Failure? ==> r.error == NullPointer
    ensures r.Success? ==> |r.value| == |gs| && forall j :: 0 <= j < |gs| ==> r.value[j].alleles == gs[j].alleles
    ensures r.Success? ==> forall j :: 0 <= j < |gs| ==>
      r.value[j] == SubsetFormatFields(header, gs[j], relevantIndices, ext)
  {
    if AllDeclared(header, gs) then
      Success(seq(|gs|, j requires 0 <= j < |gs| && AllDeclared(header, gs) => SubsetFormatFields(header, gs[j], relevantIndices, ext)))
    else Failure(NullPointer)
  }

  /** When every field of a genotype is a scalar, subsetting leaves it as it is. */
  lemma ScalarFieldsAreUnchanged(header: FormatHeader, g: Genotype, relevantIndices: seq<int>, ext: Externals)
    requires g.ext.Keys <= header.Keys
    requires forall k :: k in g.ext ==> IsScalar(header[k])
    ensures SubsetFormatFields(header, g, relevantIndices, ext) == g
  {
    var r := SubsetFormatFields(header, g, relevantIndices, ext);
    assert r.ext == g.ext;
  }

  /** The body of the genotype loop: the extended fields of one genotype, key by key. */
  method SubsetGenotypeFields(header: FormatHeader, g: Genotype, relevantIndices: seq<int>, ext: Externals)
    returns (r: Result<Genotype, Error>)
    ensures r.Success? <==> g.ext.Keys <= header.Keys
    ensures r.Failure? ==> r.error == NullPointer
    ensures r.Success? ==> r.value == SubsetFormatFields(header, g, relevantIndices, ext)
  {
    var attrs := g.ext;
    var keys := g.ext.Keys;
    while keys != {}
      invariant keys <= g.ext.Keys && attrs.Keys == g.ext.Keys
      invariant forall k :: k in g.ext && k !in keys ==>
        (k in header && attrs[k] == SubsetValue(header[k], g.ext[k], relevantIndices, ext))
      invariant forall k :: k in keys ==> attrs[k] == g.ext[k]
      decreases keys
    {
      var key :| key in keys;
      if key !in header {
        return Failure(NullPointer);
      }
      var headerLine := header[key];
      var attribute;
      if IsScalar(headerLine) {
        attribute := g.ext[key];
      } else {
        attribute := ext.annotationValueVector(headerLine.countType, g.ext[key], relevantIndices);
      }
      attrs := attrs[key := attribute];
      keys := keys - {key};
    }
    assert attrs == SubsetFormatFields(header, g, relevantIndices, ext).ext;
    r := Success(g.(ext := attrs));
  }

  /** `subsetAlleleSpecificFormatFields`. */
  method SubsetAlleleSpecificFormatFields(header: FormatHeader, originalGs: seq<Genotype>, relevantIndices: seq<int>, ext: Externals)
    returns (r: Result<seq<Genotype>, Error>)
    ensures r == SubsetGenotypes(header, originalGs, relevantIndices, ext)
  {
    var newGTs: seq<Genotype> := [];
    var j := 0;
    while j < |originalGs|
      invariant 0 <= j <= |originalGs| && |newGTs| == j
      invariant AllDeclared(header, originalGs[..j])
      invariant forall i :: 0 <= i < j ==> newGTs[i] == SubsetFormatFields(header, originalGs[i], relevantIndices, ext)
    {
      var g := SubsetGenotypeFields(header, originalGs[j], relevantIndices, ext);
      if g.Failure? {
        assert !(originalGs[j].ext.Keys <= header.Keys);
        return Failure(g.error);
      }
      assert originalGs[..j + 1][..j] == originalGs[..j];
      newGTs := newGTs + [g.value];
      j := j + 1;
    }
    assert originalGs[..j] == originalGs;
    assert newGTs == SubsetGenotypes(header, originalGs, relevantIndices, ext).value;
    r := Success(newGTs);
  }

  /**
   * The genotyper's call with the original INFO and its genotyping annotations,
   * finalized against the original record and then reverse-trimmed.
   */
  function AnnotatedCall(originalVC: Record, regenotypedVC: Record, ext: Externals): (r: Record)
    ensures var withInfo := regenotypedVC.(info := GenotypingAnnotations(originalVC.info, regenotypedVC.info));
      r == ext.reverseTrimAlleles(ext.finalizeAnnotations(withInfo, originalVC))
  {
    var withGenotypingAnnotations := regenotypedVC.(info := GenotypingAnnotations(originalVC.info, regenotypedVC.info));
    ext.reverseTrimAlleles(ext.finalizeAnnotations(withGenotypingAnnotations, originalVC))
  }

  /**
   * The record a variant record with depth becomes once the genotyper has
   * called it, or `None` when the genotyper makes no call or the call is not
   * properly polymorphic and non-variant sites are not wanted.
   */
  function Regenotyped(originalVC: Record, includeNonVariants: bool, ext: Externals, header: FormatHeader)
    : (r: Result<Option<Record>, Error>)
    ensures ext.calculateGenotypes(originalVC, includeNonVariants).None? ==> r == Success(None)
    ensures (ext.calculateGenotypes(originalVC, includeNonVariants).Some?
      && !ext.isProperlyPolymorphic(ext.calculateGenotypes(originalVC, includeNonVariants).value)
      && !includeNonVariants) ==> r == Success(None)
    ensures r.Failure? ==> r.error == NullPointer
    ensures (ext.calculateGenotypes(originalVC, includeNonVariants).Some?
      && (ext.isProperlyPolymorphic(ext.calculateGenotypes(originalVC, includeNonVariants).value) || includeNonVariants)) ==>
      var call := ext.calculateGenotypes(originalVC, includeNonVariants).value;
      var trimmed := AnnotatedCall(originalVC, call, ext);
      var subset := SubsetGenotypes(header, trimmed.genotypes, RelevantIndices(originalVC.alleles, call.alleles), ext);
      (r.Success? <==> AllDeclared(header, trimmed.genotypes))
      && (r.Success? ==> r == Success(Some(trimmed.(genotypes := subset.value))))
  {
    match ext.calculateGenotypes(originalVC, includeNonVariants)
    case None => Success(None)
    case Some(regenotypedVC) =>
      if !(ext.isProperlyPolymorphic(regenotypedVC) || includeNonVariants) then Success(None)
      else
        var trimmed := AnnotatedCall(originalVC, regenotypedVC, ext);
        var relevantIndices := RelevantIndices(originalVC.alleles, regenotypedVC.alleles);
        var updatedGTs :- SubsetGenotypes(header, trimmed.genotypes, relevantIndices, ext);
        Success(Some(trimmed.(genotypes := updatedGTs)))
  }

  /** The gate of a site-depth test read only when `test` holds (Java's `&&`). */
  function DepthGate(test: bool, vc: VariantContext): (r: Result<bool, Error>)
    ensures !test ==> r == Success(false)
    ensures test ==> (r.Success? <==> SiteDepth(vc).Success?)
    ensures test && r.Success? ==> (r.value <==> SiteDepth(vc).value > 0)
  {
    if !test then Success(false)
    else
      var depth :- SiteDepth(vc);
      Success(depth > 0)
  }

  /**
   * The second half of `regenotypeVC`: a record polymorphic in its samples with
   * depth has its excluded genotypes no-called for the annotator and the
   * annotated genotypes cleaned (SB kept or dropped as configured); otherwise,
   * when non-variant sites are wanted, the genotypes are first turned into
   * reference calls and then annotated with the hom-ref skip predicate;
   * otherwise the site is dropped.
   */
  function Finished(result: Record, includeNonVariants: bool, keepSB: bool, ext: Externals): (r: Result<Option<Record>, Error>)
    ensures DepthGate(IsPolymorphicInSamples(result), result).Failure? ==> r == Failure(SiteDepth(result).error)
    ensures DepthGate(IsPolymorphicInSamples(result), result) == Success(false) && !includeNonVariants ==> r == Success(None)
    ensures DepthGate(IsPolymorphicInSamples(result), result) == Success(false) && includeNonVariants ==>
      && (r.Success? <==> CleanedGenotypes(result, true, false).Success?)
      && (r.Success? ==> r == Success(Some(ext.annotateContext(result.(genotypes := CleanedGenotypes(result, true, false).value), true))))
    ensures r.Success? && r.value.Some? && !includeNonVariants ==>
      IsPolymorphicInSamples(result) && SiteDepth(result).Success? && SiteDepth(result).value > 0
    ensures DepthGate(IsPolymorphicInSamples(result), result) == Success(true) ==>
      var annotated := ext.annotateContext(result.(genotypes := NoCallsForExcluded(result.genotypes)), false);
      && (r.Success? <==> CleanedGenotypes(annotated, false, keepSB).Success?)
      && (r.Success? ==> r == Success(Some(annotated.(genotypes := CleanedGenotypes(annotated, false, keepSB).value))))
  {
    var polymorphic :- DepthGate(IsPolymorphicInSamples(result), result);
    if polymorphic then
      var annotated := ext.annotateContext(result.(genotypes := NoCallsForExcluded(result.genotypes)), false);
      var cleaned :- CleanedGenotypes(annotated, false, keepSB);
      Success(Some(annotated.(genotypes := cleaned)))
    else if includeNonVariants then
      var cleaned :- CleanedGenotypes(result, true, false);
      Success(Some(ext.annotateContext(result.(genotypes := cleaned), true)))
    else Success(None)
  }

  /** What `regenotypeVC` returns for a merged record. */
  function GermlineOutcome(originalVC: Record, includeNonVariants: bool, keepSB: bool, ext: Externals, header: FormatHeader)
    : (r: Result<Option<Record>, Error>)
    ensures DepthGate(IsVariant(originalVC), originalVC).Failure? ==> r == Failure(SiteDepth(originalVC).error)
    ensures DepthGate(IsVariant(originalVC), originalVC) == Success(false) ==>
      r == Finished(originalVC, includeNonVariants, keepSB, ext)
    ensures DepthGate(IsVariant(originalVC), originalVC) == Success(true) ==>
      var regenotyped := Regenotyped(originalVC, includeNonVariants, ext, header);
      (regenotyped.Failure? ==> r == Failure(regenotyped.error))
      && (regenotyped == Success(None) ==> r == Success(None))
      && (regenotyped.Success? && regenotyped.value.Some? ==>
            r == Finished(regenotyped.value.value, includeNonVariants, keepSB, ext))
  {
    var regenotype :- DepthGate(IsVariant(originalVC), originalVC);
    if regenotype then
      var regenotyped :- Regenotyped(originalVC, includeNonVariants, ext, header);
      if regenotyped.None? then Success(None) else Finished(regenotyped.value, includeNonVariants, keepSB, ext)
    else Finished(originalVC, includeNonVariants, keepSB, ext)
  }

  /** The re-genotyping half of `regenotypeVC`, for a variant record with depth. */
  method RegenotypeMerged(originalVC: Record, includeNonVariants: bool, ext: Externals, header: FormatHeader)
    returns (r: Result<Option<Record>, Error>)
    ensures r == Regenotyped(originalVC, includeNonVariants, ext, header)
  {
    // the genotyper collaborator yields the called record, QUAL included
    var regenotyped := ext.calculateGenotypes(originalVC, includeNonVariants);
    if regenotyped.None? {
      return Success(None);
    }
    var regenotypedVC := regenotyped.value;
    if !(ext.isProperlyPolymorphic(regenotypedVC) || includeNonVariants) {
      return Success(None);
    }
    // annotations are finalized on the untrimmed alleles, which key their raw data
    var withGenotypingAnnotations := AddGenotypingAnnotations(originalVC.info, regenotypedVC);
    var withAnnotations := ext.finalizeAnnotations(withGenotypingAnnotations, originalVC);
    var relevantIndices := RelevantIndices(originalVC.alleles, regenotypedVC.alleles);
    var trimmed := ext.reverseTrimAlleles(withAnnotations);
    var updatedGTs := SubsetAlleleSpecificFormatFields(header, trimmed.genotypes, relevantIndices, ext);
    if updatedGTs.Failure? {
      return Failure(updatedGTs.error);
    }
    r := Success(Some(trimmed.(genotypes := updatedGTs.value)));
  }

  /** The annotation half of `regenotypeVC`, for the re-genotyped or the original record. */
  method FinishRegenotyping(result: Record, includeNonVariants: bool, keepSB: bool, ext: Externals)
    returns (r: Result<Option<Record>, Error>)
    ensures r == Finished(result, includeNonVariants, keepSB, ext)
  {
    var polymorphic := false;
    if IsPolymorphicInSamples(result) {
      var depth := SiteDepth(result);
      if depth.Failure? {
        return Failure(depth.error);
      }
      polymorphic := depth.value > 0;
    }
    if polymorphic {
      // SB reaches the annotator and is removed afterwards
      var noCalled := AssignNoCallsAnnotationExcludedGenotypes(result.genotypes);
      var annotated := ext.annotateContext(result.(genotypes := noCalled), false);
      var cleaned := CleanupGenotypeAnnotations(annotated, false, keepSB);
      if cleaned.Failure? {
        return Failure(cleaned.error);
      }
      r := Success(Some(annotated.(genotypes := cleaned.value)));
    } else if includeNonVariants {
      // reference genotypes are created before the annotator sees the record
      var cleaned := CleanupGenotypeAnnotations(result, true, false);
      if cleaned.Failure? {
        return Failure(cleaned.error);
      }
      r := Success(Some(ext.annotateContext(result.(genotypes := cleaned.value), true)));
    } else {
      r := Success(None);
    }
  }

  /** `regenotypeVC`. */
  method RegenotypeVC(originalVC: Record, includeNonVariants: bool, keepSB: bool, ext: Externals, header: FormatHeader)
    returns (r: Result<Option<Record>, Error>)
    ensures r == GermlineOutcome(originalVC, includeNonVariants, keepSB, ext, header)
  {
    var result: Record;
    var regenotype := false;
    if IsVariant(originalVC) {
      var depth := SiteDepth(originalVC);
      if depth.Failure? {
        return Failure(depth.error);
      }
      regenotype := depth.value > 0;
    }
    if regenotype {
      var regenotyped := RegenotypeMerged(originalVC, includeNonVariants, ext, header);
      if regenotyped.Failure? {
        return Failure(regenotyped.error);
      }
      if regenotyped.value.None? {
        return Success(None);
      }
      result := regenotyped.value.value;
    } else {
      result := originalVC;
    }
    r := FinishRegenotyping(result, includeNonVariants, keepSB, ext);
  }

  /**
   * A site polymorphic in its samples with depth is emitted, and none of its
   * genotypes carries MIN_DP, nor SB unless SB is kept.
   */
  lemma PolymorphicSitesAreCleaned(result: Record, includeNonVariants: bool, keepSB: bool, ext: Externals)
    requires DepthGate(IsPolymorphicInSamples(result), result) == Success(true)
    requires Finished(result, includeNonVariants, keepSB, ext).Success?
    ensures Finished(result, includeNonVariants, keepSB, ext).value.Some?
    ensures forall g :: g in Finished(result, includeNonVariants, keepSB, ext).value.value.genotypes ==>
      (MinDpKey !in g.ext && (!keepSB ==> StrandBiasBySampleKey !in g.ext))
  {
    var annotated := ext.annotateContext(result.(genotypes := NoCallsForExcluded(result.genotypes)), false);
    var cleaned := CleanedGenotypes(annotated, false, keepSB);
    assert cleaned.Success?;
    forall g | g in cleaned.value
      ensures MinDpKey !in g.ext && (!keepSB ==> StrandBiasBySampleKey !in g.ext)
    {
      var i :| 0 <= i < |cleaned.value| && cleaned.value[i] == g;
      assert CleanedGenotype(annotated, annotated.genotypes[i], false, keepSB).Success?;
    }
  }

  /**
   * A site that is not polymorphic with depth, kept because non-variant sites
   * are wanted, reaches the annotator with every genotype a reference call or a
   * no-call (or empty), without GQ, PL, MIN_DP or SB.
   */
  lemma ReferenceSitesGetReferenceGenotypes(result: Record, keepSB: bool, ext: Externals)
    requires DepthGate(IsPolymorphicInSamples(result), result) == Success(false)
    requires result.alleles[0].Called? && result.alleles[0].isReference
    requires CleanedGenotypes(result, true, false).Success?
    ensures Finished(result, true, keepSB, ext)
      == Success(Some(ext.annotateContext(result.(genotypes := CleanedGenotypes(result, true, false).value), true)))
    ensures forall g :: g in CleanedGenotypes(result, true, false).value ==>
      ((IsHomRef(g) || IsNoCall(g) || Ploidy(g) == 0) && g.gq.None? && g.pl.None?
       && MinDpKey !in g.ext && StrandBiasBySampleKey !in g.ext)
  {
    var cleaned := CleanedGenotypes(result, true, false).value;
    forall g | g in cleaned
      ensures (IsHomRef(g) || IsNoCall(g) || Ploidy(g) == 0) && g.gq.None? && g.pl.None?
        && MinDpKey !in g.ext && StrandBiasBySampleKey !in g.ext
    {
      var i :| 0 <= i < |cleaned| && cleaned[i] == g;
      assert CleanedGenotype(result, result.genotypes[i], true, false).Success?;
      CreatedGenotypesAreHomRefOrNoCall(result, result.genotypes[i], false);
    }
  }

  /**
   * Without non-variant sites, a record is emitted only as a polymorphic site
   * with depth, so no emitted genotype carries MIN_DP, nor SB unless SB is kept.
   */
  lemma EmittedVariantSitesAreCleaned(originalVC: Record, keepSB: bool, ext: Externals, header: FormatHeader)
    requires GermlineOutcome(originalVC, false, keepSB, ext, header).Success?
    requires GermlineOutcome(originalVC, false, keepSB, ext, header).value.Some?
    ensures forall g :: g in GermlineOutcome(originalVC, false, keepSB, ext, header).value.value.genotypes ==>
      (MinDpKey !in g.ext && (!keepSB ==> StrandBiasBySampleKey !in g.ext))
  {
    var regenotype := DepthGate(IsVariant(originalVC), originalVC).value;
    var result := if regenotype then Regenotyped(originalVC, false, ext, header).value.value else originalVC;
    assert GermlineOutcome(originalVC, false, keepSB, ext, header) == Finished(result, false, keepSB, ext);
    PolymorphicSitesAreCleaned(result, false, keepSB, ext);
  }
}
