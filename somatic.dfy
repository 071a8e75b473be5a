/**
 * Somatic re-calling (`callSomaticGenotypes`, `regenotypeSomaticVC`): each
 * sample calls the alternate alleles whose statistic (SQ when present, else
 * TLOD) clears its threshold, plus the reference when the sample is not
 * homoplasmic; an alternate allele survives genome-wide when its summed
 * evidence exceeds the lower of the two thresholds.
 */
module SomaticCalling {
  import opened Wrappers
  import opened VcfRecords
  import opened Collaborators
  import opened AttributeParsing

  /** The thresholds and the alternate-allele cap of one somatic call. */
  datatype SomaticConfig = SomaticConfig(tlodThreshold: real, sqThreshold: real, afTolerance: real, maxAltAlleles: nat)

  function Min(x: real, y: real): real { if x <= y then x else y }

  /** The positions whose score strictly exceeds the threshold, in increasing order. */
  function IndicesAbove(scores: seq<real>, threshold: real): (idx: seq<nat>)
    ensures |idx| <= |scores|
    ensures forall k :: 0 <= k < |idx| ==> idx[k] < |scores| && scores[idx[k]] > threshold
  {
    if scores == [] then []
    else
      var n := |scores| - 1;
      IndicesAbove(scores[..n], threshold) + (if scores[n] > threshold then [n] else [])
  }

  /** `IndicesAbove` lists its positions in strictly increasing order. */
  lemma {:induction false} IndicesAboveIncreasing(scores: seq<real>, threshold: real)
    ensures forall k, l :: 0 <= k < l < |IndicesAbove(scores, threshold)| ==>
      IndicesAbove(scores, threshold)[k] < IndicesAbove(scores, threshold)[l]
  {
    if scores != [] {
      var n := |scores| - 1;
      IndicesAboveIncreasing(scores[..n], threshold);
      var pre := IndicesAbove(scores[..n], threshold);
      var idx := IndicesAbove(scores, threshold);
      assert idx == pre + (if scores[n] > threshold then [n] else []);
      forall k, l | 0 <= k < l < |idx| ensures idx[k] < idx[l] {
        if l < |pre| {
          assert idx[k] == pre[k] && idx[l] == pre[l];
        } else {
          assert idx[k] == pre[k] < n == idx[l];
        }
      }
    }
  }

  /** Every position whose score exceeds the threshold is among `IndicesAbove`. */
  lemma {:induction false} IndicesAboveComplete(scores: seq<real>, threshold: real)
    ensures forall i :: 0 <= i < |scores| && scores[i] > threshold ==> i in IndicesAbove(scores, threshold)
  {
    if scores != [] {
      var n := |scores| - 1;
      IndicesAboveComplete(scores[..n], threshold);
      assert forall i :: 0 <= i < n ==> scores[..n][i] == scores[i];
    }
  }

  /** The alleles whose score strictly exceeds the threshold, in their original order. */
  function AllelesAbove(alleles: seq<Allele>, scores: seq<real>, threshold: real): (r: seq<Allele>)
    requires |scores| == |alleles|
    ensures |r| <= |alleles|
  {
    if alleles == [] then []
    else
      var n := |alleles| - 1;
      AllelesAbove(alleles[..n], scores[..n], threshold) + (if scores[n] > threshold then [alleles[n]] else [])
  }

  /**
   * `AllelesAbove` keeps exactly `alleles[i]` for the positions `i` of
   * `IndicesAbove`, in that order: an allele is kept iff its score exceeds the
   * threshold, and the kept ones keep their relative order.
   */
  lemma {:induction false} AllelesAboveAreIndicesAbove(alleles: seq<Allele>, scores: seq<real>, threshold: real)
    requires |scores| == |alleles|
    ensures |AllelesAbove(alleles, scores, threshold)| == |IndicesAbove(scores, threshold)|
    ensures forall k :: 0 <= k < |IndicesAbove(scores, threshold)| ==>
      AllelesAbove(alleles, scores, threshold)[k] == alleles[IndicesAbove(scores, threshold)[k]]
  {
    if alleles != [] {
      var n := |alleles| - 1;
      AllelesAboveAreIndicesAbove(alleles[..n], scores[..n], threshold);
      AboveSnoc(alleles, scores, threshold);
      IndexedConcat(alleles, n, AllelesAbove(alleles[..n], scores[..n], threshold), IndicesAbove(scores[..n], threshold), scores[n] > threshold);
    }
  }

  /** One step of the definitions of `AllelesAbove` and `IndicesAbove`: the last position is kept iff its score exceeds the threshold. */
  lemma AboveSnoc(alleles: seq<Allele>, scores: seq<real>, threshold: real)
    requires |scores| == |alleles| > 0
    ensures var n := |alleles| - 1;
      && AllelesAbove(alleles, scores, threshold) == AllelesAbove(alleles[..n], scores[..n], threshold) + (if scores[n] > threshold then [alleles[n]] else [])
      && IndicesAbove(scores, threshold) == IndicesAbove(scores[..n], threshold) + (if scores[n] > threshold then [n] else [])
  {
  }

  /** Appending the allele at `n` and its position `n` to a matching pair of lists over `alleles[..n]` keeps them matching. */
  lemma IndexedConcat(alleles: seq<Allele>, n: nat, pre: seq<Allele>, preIdx: seq<nat>, keep: bool)
    requires n < |alleles| && |pre| == |preIdx|
    requires forall k :: 0 <= k < |preIdx| ==> preIdx[k] < n && pre[k] == alleles[..n][preIdx[k]]
    ensures var last, lastIdx := (if keep then [alleles[n]] else []), (if keep then [n] else []);
      && |pre + last| == |preIdx + lastIdx|
      && forall k :: 0 <= k < |preIdx + lastIdx| ==> (pre + last)[k] == alleles[(preIdx + lastIdx)[k]]
  {
  }

  /** What one sample contributes to a call: its statistic and AF per alternate allele, and the threshold it is held to. */
  datatype Evidence = Evidence(likelihoods: seq<real>, alleleFractions: seq<real>, threshold: real)

  /** The FORMAT key of a sample's per-allele statistic: SQ when the sample has it, else TLOD. */
  function StatisticKey(g: Genotype): (key: string)
    ensures key == SomaticQualityKey <==> SomaticQualityKey in g.ext
    ensures key != SomaticQualityKey ==> key == TumorLogOddsKey
  {
    if SomaticQualityKey in g.ext then SomaticQualityKey else TumorLogOddsKey
  }

  /**
   * The sample has a non-null value for `key`. A key mapped to null reads as
   * missing: the array getter then returns its default, null.
   */
  predicate HasValue(g: Genotype, key: string)
  {
    key in g.ext && !g.ext[key].ANull?
  }

  /** The sample has a non-null attribute `key`, it decodes to numbers, and there are at least `n` of them. */
  predicate HasVector(g: Genotype, key: string, n: nat, ext: Externals)
  {
    HasValue(g, key) && ext.attributeAsDoubles(g.ext[key]).Some? && n <= |ext.attributeAsDoubles(g.ext[key]).value|
  }

  /** The first `n` numbers of the sample's attribute `key`. */
  function VectorPrefix(g: Genotype, key: string, n: nat, ext: Externals): seq<real>
    requires HasVector(g, key, n, ext)
  {
    ext.attributeAsDoubles(g.ext[key]).value[..n]
  }

  /**
   * The vectors one sample's calling reads, cut to the `nAlt` alternate alleles.
   * The statistic is SQ when the sample has it and TLOD otherwise. A missing
   * vector or one shorter than `nAlt` fails (Java reads a null or short array),
   * as does a value that does not decode.
   */
  function SampleEvidence(g: Genotype, nAlt: nat, cfg: SomaticConfig, ext: Externals): (r: Result<Evidence, Error>)
    ensures r.Success? ==> |r.value.likelihoods| == nAlt && |r.value.alleleFractions| == nAlt
    ensures r.Success? ==> r.value.threshold == if SomaticQualityKey in g.ext then cfg.sqThreshold else cfg.tlodThreshold
    ensures nAlt > 0 && !HasValue(g, AlleleFractionKey) ==> r.Failure?
    ensures nAlt > 0 && !HasValue(g, StatisticKey(g)) ==> r.Failure?
    ensures nAlt > 0 && SomaticQualityKey !in g.ext && TumorLogOddsKey !in g.ext ==> r.Failure?
    ensures nAlt > 0 ==>
      (r.Success? <==> HasVector(g, StatisticKey(g), nAlt, ext) && HasVector(g, AlleleFractionKey, nAlt, ext))
    ensures r.Success? && nAlt > 0 ==>
      r.value.likelihoods == VectorPrefix(g, StatisticKey(g), nAlt, ext)
      && r.value.alleleFractions == VectorPrefix(g, AlleleFractionKey, nAlt, ext)
  {
    var hasSq := SomaticQualityKey in g.ext;
    var key := StatisticKey(g);
    var threshold := if hasSq then cfg.sqThreshold else cfg.tlodThreshold;
    var lik := if HasValue(g, key) then ext.attributeAsDoubles(g.ext[key]) else Some([]);
    var af := if HasValue(g, AlleleFractionKey) then ext.attributeAsDoubles(g.ext[AlleleFractionKey]) else Some([]);
    if lik.None? || af.None? then Failure(NumberFormat)
    else if nAlt == 0 then Success(Evidence([], [], threshold))
    else if !HasValue(g, AlleleFractionKey) then Failure(NullPointer)
    else if |af.value| == 0 then Failure(IndexOutOfBounds)
    else if !HasValue(g, key) then Failure(NullPointer)
    else if |af.value| < nAlt || |lik.value| < nAlt then Failure(IndexOutOfBounds)
    else Success(Evidence(lik.value[..nAlt], af.value[..nAlt], threshold))
  }

  function SumReals(s: seq<real>): real
  {
    if s == [] then 0.0 else SumReals(s[..|s| - 1]) + s[|s| - 1]
  }

  /**
   * Whether the reference is called too: the summed AF is below 1 - tolerance
   * and the sample has no AD or reference depth above 0 (an empty AD fails).
   */
  function AddsReference(g: Genotype, afTotal: real, afTolerance: real): (r: Result<bool, Error>)
    ensures afTotal >= 1.0 - afTolerance ==> r == Success(false)
    ensures afTotal < 1.0 - afTolerance && g.ad.None? ==> r == Success(true)
    ensures afTotal < 1.0 - afTolerance && g.ad.Some? && |g.ad.value| > 0 ==> r == Success(g.ad.value[0] > 0)
    ensures r.Failure? ==> afTotal < 1.0 - afTolerance && g.ad == Some([])
  {
    if afTotal < 1.0 - afTolerance then
      if g.ad.None? then Success(true)
      else if |g.ad.value| == 0 then Failure(IndexOutOfBounds)
      else Success(g.ad.value[0] > 0)
    else Success(false)
  }

  /** One sample's call: the evidence read, and the alleles called (the reference first, when added). */
  datatype SampleCall = SampleCall(evidence: Evidence, called: seq<Allele>)

  function CallSample(vc: VariantContext, g: Genotype, cfg: SomaticConfig, ext: Externals): (r: Result<SampleCall, Error>)
    requires |vc.alleles| > 0
    ensures SampleEvidence(g, |vc.alleles| - 1, cfg, ext).Failure? ==> r == Failure(SampleEvidence(g, |vc.alleles| - 1, cfg, ext).error)
    ensures SampleEvidence(g, |vc.alleles| - 1, cfg, ext).Success? ==>
      var ev := SampleEvidence(g, |vc.alleles| - 1, cfg, ext).value;
      && (r.Success? <==> AddsReference(g, SumReals(ev.alleleFractions), cfg.afTolerance).Success?)
      && (r.Failure? ==> r.error == AddsReference(g, SumReals(ev.alleleFractions), cfg.afTolerance).error)
      && (r.Success? ==> r.value.evidence == ev)
    ensures r.Success? ==> |r.value.evidence.likelihoods| == |vc.alleles| - 1
    ensures r.Success? ==> r.value.evidence.threshold == if SomaticQualityKey in g.ext then cfg.sqThreshold else cfg.tlodThreshold
  {
    var ev :- SampleEvidence(g, |vc.alleles| - 1, cfg, ext);
    var addRef :- AddsReference(g, SumReals(ev.alleleFractions), cfg.afTolerance);
    var alts := AllelesAbove(vc.alleles[1..], ev.likelihoods, ev.threshold);
    Success(SampleCall(ev, if addRef then [Reference(vc)] + alts else alts))
  }

  /** Every sample of the record can be called. */
  predicate AllSamplesCallable(vc: VariantContext, gs: seq<Genotype>, cfg: SomaticConfig, ext: Externals)
    requires |vc.alleles| > 0
  {
    forall k :: 0 <= k < |gs| ==> CallSample(vc, gs[k], cfg, ext).Success?
  }

  /** The outcome of calling each sample of the record, in order. */
  function CallResults(vc: VariantContext, cfg: SomaticConfig, ext: Externals): (rs: seq<Result<SampleCall, Error>>)
    requires |vc.alleles| > 0
    ensures |rs| == |vc.genotypes|
    ensures forall k :: 0 <= k < |vc.genotypes| ==> rs[k] == CallSample(vc, vc.genotypes[k], cfg, ext)
  {
    seq(|vc.genotypes|, k requires 0 <= k < |vc.genotypes| => CallSample(vc, vc.genotypes[k], cfg, ext))
  }

  /** What one sample adds to alternate allele `i`'s sum: its statistic when it called the allele, else 0. */
  function Contribution(ev: Evidence, i: nat): real
    requires i < |ev.likelihoods|
  {
    if ev.likelihoods[i] > ev.threshold then ev.likelihoods[i] else 0.0
  }

  /** Every evidence in `evs` covers `nAlt` alternate alleles. */
  predicate Covers(evs: seq<Evidence>, nAlt: nat)
  {
    forall k :: 0 <= k < |evs| ==> |evs[k].likelihoods| == nAlt
  }

  /** The summed evidence for alternate allele `i` over the samples' evidence `evs`, in order. */
  function EvidenceSum(evs: seq<Evidence>, i: nat): real
    requires forall k :: 0 <= k < |evs| ==> i < |evs[k].likelihoods|
  {
    if evs == [] then 0.0
    else
      var n := |evs| - 1;
      EvidenceSum(evs[..n], i) + Contribution(evs[n], i)
  }

  /** The evidence of every sample of the record, in order. */
  function Evidences(vc: VariantContext, cfg: SomaticConfig, ext: Externals): (evs: seq<Evidence>)
    requires |vc.alleles| > 0 && AllSamplesCallable(vc, vc.genotypes, cfg, ext)
    ensures |evs| == |vc.genotypes| && Covers(evs, |vc.alleles| - 1)
    ensures forall k :: 0 <= k < |vc.genotypes| ==> evs[k] == CallSample(vc, vc.genotypes[k], cfg, ext).value.evidence
  {
    seq(|vc.genotypes|, k requires 0 <= k < |vc.genotypes| => CallSample(vc, vc.genotypes[k], cfg, ext).value.evidence)
  }

  /** The per-allele sums over the evidence `evs`: 0 for the reference, then each alternate allele's evidence sum. */
  function ScoresOver(evs: seq<Evidence>, nAlt: nat): (scores: seq<real>)
    requires Covers(evs, nAlt)
    ensures |scores| == nAlt + 1 && scores[0] == 0.0
  {
    [0.0] + seq(nAlt, i requires 0 <= i < nAlt => EvidenceSum(evs, i))
  }

  /** The per-allele evidence sums of the record, index 0 (the reference) always 0. */
  function SomaticScores(vc: VariantContext, cfg: SomaticConfig, ext: Externals): (scores: seq<real>)
    requires |vc.alleles| > 0 && AllSamplesCallable(vc, vc.genotypes, cfg, ext)
    ensures |scores| == |vc.alleles| && scores[0] == 0.0
  {
    ScoresOver(Evidences(vc, cfg, ext), |vc.alleles| - 1)
  }

  /** The sums after one more sample: its contribution added at every alternate allele's position. */
  function WithContribution(sums: seq<real>, ev: Evidence): (r: seq<real>)
    requires |sums| == |ev.likelihoods| + 1
  {
    [sums[0]] + seq(|ev.likelihoods|, j requires 0 <= j < |ev.likelihoods| => sums[j + 1] + Contribution(ev, j))
  }

  /** The record with every sample's genotype set to its called alleles (its ploidy the number called). */
  function CalledRecord(vc: VariantContext, cfg: SomaticConfig, ext: Externals): (r: VariantContext)
    requires |vc.alleles| > 0 && AllSamplesCallable(vc, vc.genotypes, cfg, ext)
    ensures r.alleles == vc.alleles && r.info == vc.info && r.start == vc.start && |r.genotypes| == |vc.genotypes|
    ensures forall k :: 0 <= k < |vc.genotypes| ==>
      r.genotypes[k] == vc.genotypes[k].(alleles := CallSample(vc, vc.genotypes[k], cfg, ext).value.called)
  {
    vc.(genotypes := seq(|vc.genotypes|, k requires 0 <= k < |vc.genotypes| =>
      vc.genotypes[k].(alleles := CallSample(vc, vc.genotypes[k], cfg, ext).value.called)))
  }

  /** The reference followed by the alternate alleles whose summed evidence exceeds min(TLOD, SQ) threshold. */
  function SurvivingAlleles(vc: VariantContext, cfg: SomaticConfig, ext: Externals): (r: seq<Allele>)
    requires |vc.alleles| > 0 && AllSamplesCallable(vc, vc.genotypes, cfg, ext)
    ensures 0 < |r| <= |vc.alleles| && r[0] == Reference(vc)
  {
    [Reference(vc)] + AllelesAbove(vc.alleles[1..], SomaticScores(vc, cfg, ext)[1..], Min(cfg.tlodThreshold, cfg.sqThreshold))
  }

  /**
   * The survivors are the reference followed by exactly the alternate alleles
   * at the positions whose summed evidence exceeds min(TLOD, SQ) threshold, in
   * their original order.
   */
  lemma SurvivorsAreAllelesAboveThreshold(vc: VariantContext, cfg: SomaticConfig, ext: Externals)
    requires |vc.alleles| > 0 && AllSamplesCallable(vc, vc.genotypes, cfg, ext)
    ensures var above := IndicesAbove(SomaticScores(vc, cfg, ext)[1..], Min(cfg.tlodThreshold, cfg.sqThreshold));
      |SurvivingAlleles(vc, cfg, ext)| == 1 + |above|
      && forall k :: 1 <= k < |SurvivingAlleles(vc, cfg, ext)| ==> SurvivingAlleles(vc, cfg, ext)[k] == vc.alleles[above[k - 1] + 1]
  {
    var scores := SomaticScores(vc, cfg, ext);
    AfterHeadAreIndicesAbove(Reference(vc), vc.alleles, scores, Min(cfg.tlodThreshold, cfg.sqThreshold));
  }

  /** `AllelesAboveAreIndicesAbove` for the alleles after the first, with a head allele put in front. */
  lemma AfterHeadAreIndicesAbove(head: Allele, alleles: seq<Allele>, scores: seq<real>, threshold: real)
    requires 0 < |alleles| == |scores|
    ensures var r, above := [head] + AllelesAbove(alleles[1..], scores[1..], threshold), IndicesAbove(scores[1..], threshold);
      |r| == 1 + |above| && forall k :: 1 <= k < |r| ==> r[k] == alleles[above[k - 1] + 1]
  {
    AllelesAboveAreIndicesAbove(alleles[1..], scores[1..], threshold);
  }

  /** The survivors, capped when the record has more alternate alleles than the maximum. */
  function AllelesToKeep(vc: VariantContext, cfg: SomaticConfig, ext: Externals): (keep: seq<Allele>)
    requires |vc.alleles| > 0 && AllSamplesCallable(vc, vc.genotypes, cfg, ext)
    ensures |keep| > 0
    ensures |vc.alleles| - 1 <= cfg.maxAltAlleles ==> keep == SurvivingAlleles(vc, cfg, ext)
    ensures |vc.alleles| - 1 > cfg.maxAltAlleles ==>
      keep == ext.filterToMaxNumberOfAltAlleles(cfg.maxAltAlleles, SurvivingAlleles(vc, cfg, ext), SomaticScores(vc, cfg, ext))
  {
    if |vc.alleles| - 1 > cfg.maxAltAlleles
    then ext.filterToMaxNumberOfAltAlleles(cfg.maxAltAlleles, SurvivingAlleles(vc, cfg, ext), SomaticScores(vc, cfg, ext))
    else SurvivingAlleles(vc, cfg, ext)
  }

  /**
   * What a somatic call of a variant record with data returns: no record when
   * only the reference is kept; the called record itself when every allele is
   * kept; otherwise the record subset to the kept alleles and trimmed, when it
   * is properly polymorphic.
   */
  function SomaticOutcome(vc: VariantContext, cfg: SomaticConfig, ext: Externals, header: FormatHeader): (r: Option<Record>)
    requires |vc.alleles| > 0 && AllSamplesCallable(vc, vc.genotypes, cfg, ext)
    ensures |AllelesToKeep(vc, cfg, ext)| == 1 ==> r.None?
    ensures |AllelesToKeep(vc, cfg, ext)| == |vc.alleles| > 1 ==> r == Some(CalledRecord(vc, cfg, ext))
    ensures r.Some? && |AllelesToKeep(vc, cfg, ext)| != |vc.alleles| ==> ext.isProperlyPolymorphic(r.value)
    ensures 1 < |AllelesToKeep(vc, cfg, ext)| != |vc.alleles| ==>
      var called, keep := CalledRecord(vc, cfg, ext), AllelesToKeep(vc, cfg, ext);
      var subset := ext.subsetSomaticAlleles(header, called.genotypes, keep, RelevantIndices(vc.alleles, keep));
      var trimmed := ext.trimAlleles(called.(alleles := keep, genotypes := subset));
      r == (if ext.isProperlyPolymorphic(trimmed) then Some(trimmed) else None)
  {
    var called := CalledRecord(vc, cfg, ext);
    var keep := AllelesToKeep(vc, cfg, ext);
    if |keep| == 1 then None
    else if |keep| == |called.alleles| then Some(called)
    else
      var reduced := ext.subsetSomaticAlleles(header, called.genotypes, keep, RelevantIndices(called.alleles, keep));
      var trimmed := ext.trimAlleles(called.(alleles := keep, genotypes := reduced));
      if ext.isProperlyPolymorphic(trimmed) then Some(trimmed) else None
  }

  /** Extending a prefix of the alleles by one position adds that allele when its score exceeds the threshold. */
  lemma AllelesAboveExtend(alleles: seq<Allele>, scores: seq<real>, threshold: real, i: nat)
    requires |scores| == |alleles| && i < |alleles|
    ensures AllelesAbove(alleles[..i + 1], scores[..i + 1], threshold)
      == AllelesAbove(alleles[..i], scores[..i], threshold) + (if scores[i] > threshold then [alleles[i]] else [])
  {
    assert alleles[..i + 1][..i] == alleles[..i];
    assert scores[..i + 1][..i] == scores[..i];
  }

  /** Extending a prefix by one element adds that element to its sum. */
  lemma SumRealsExtend(s: seq<real>, i: nat)
    requires i < |s|
    ensures SumReals(s[..i + 1]) == SumReals(s[..i]) + s[i]
  {
    assert s[..i + 1][..i] == s[..i];
  }

  /** The sums once the first `i` alternate alleles of one sample have been added. */
  ghost function PartlyContributed(before: seq<real>, ev: Evidence, i: nat): (r: seq<real>)
    requires |before| == |ev.likelihoods| + 1 && i <= |ev.likelihoods|
    ensures |r| == |before|
  {
    seq(|before|, j requires 0 <= j < |before| => if 1 <= j <= i then before[j] + Contribution(ev, j - 1) else before[j])
  }

  /** Adding allele `i` changes only its own position. */
  lemma ContributedStep(before: seq<real>, ev: Evidence, i: nat)
    requires |before| == |ev.likelihoods| + 1 && i < |ev.likelihoods|
    ensures ev.likelihoods[i] > ev.threshold ==>
      PartlyContributed(before, ev, i + 1) == PartlyContributed(before, ev, i)[i + 1 := before[i + 1] + ev.likelihoods[i]]
    ensures ev.likelihoods[i] <= ev.threshold ==> PartlyContributed(before, ev, i + 1) == PartlyContributed(before, ev, i)
    ensures PartlyContributed(before, ev, i)[i + 1] == before[i + 1]
  {
  }

  /** With every allele added the sums are `WithContribution`. */
  lemma FullyContributed(before: seq<real>, ev: Evidence)
    requires |before| == |ev.likelihoods| + 1
    ensures PartlyContributed(before, ev, |ev.likelihoods|) == WithContribution(before, ev)
  {
  }

  /**
   * The allele loop of one sample: the AF total, the alternate alleles whose
   * statistic exceeds the threshold, and each one's statistic added to `sums`
   * at its allele's position.
   */
  method ScreenAlleles(alts: seq<Allele>, ev: Evidence, sums: array<real>) returns (variantAFtotal: real, calledAlleles: seq<Allele>)
    requires |ev.likelihoods| == |alts| && |ev.alleleFractions| == |alts| && sums.Length == |alts| + 1
    modifies sums
    ensures variantAFtotal == SumReals(ev.alleleFractions)
    ensures calledAlleles == AllelesAbove(alts, ev.likelihoods, ev.threshold)
    ensures sums[..] == WithContribution(old(sums[..]), ev)
  {
    variantAFtotal := 0.0;
    calledAlleles := [];
    ghost var before := sums[..];
    var i := 0;
    assert sums[..] == PartlyContributed(before, ev, 0);
    while i < |alts|
      invariant 0 <= i <= |alts|
      invariant variantAFtotal == SumReals(ev.alleleFractions[..i])
      invariant calledAlleles == AllelesAbove(alts[..i], ev.likelihoods[..i], ev.threshold)
      invariant sums[..] == PartlyContributed(before, ev, i)
    {
      SumRealsExtend(ev.alleleFractions, i);
      AllelesAboveExtend(alts, ev.likelihoods, ev.threshold, i);
      ContributedStep(before, ev, i);
      variantAFtotal := variantAFtotal + ev.alleleFractions[i];
      if ev.likelihoods[i] > ev.threshold {
        calledAlleles := calledAlleles + [alts[i]];
        ghost var current := sums[..];
        sums[i + 1] := sums[i + 1] + ev.likelihoods[i];
        assert sums[..] == current[i + 1 := before[i + 1] + ev.likelihoods[i]];
      }
      i := i + 1;
    }
    assert alts[..i] == alts && ev.likelihoods[..i] == ev.likelihoods && ev.alleleFractions[..i] == ev.alleleFractions;
    FullyContributed(before, ev);
  }

  /** The body of the genotype loop of `callSomaticGenotypes`: one sample called, its evidence added to `sums`. */
  method ScreenSample(vc: VariantContext, g: Genotype, cfg: SomaticConfig, ext: Externals, sums: array<real>)
    returns (r: Result<Genotype, Error>)
    requires |vc.alleles| > 0 && sums.Length == |vc.alleles|
    modifies sums
    ensures r.Success? <==> CallSample(vc, g, cfg, ext).Success?
    ensures r.Failure? ==> r.error == CallSample(vc, g, cfg, ext).error
    ensures r.Success? ==> r.value == g.(alleles := CallSample(vc, g, cfg, ext).value.called)
    ensures r.Success? ==> sums[..] == WithContribution(old(sums[..]), CallSample(vc, g, cfg, ext).value.evidence)
  {
    var evidence := SampleEvidence(g, |vc.alleles| - 1, cfg, ext);
    if evidence.Failure? {
      return Failure(evidence.error);
    }
    var ev := evidence.value;
    var variantAFtotal, calledAlleles := ScreenAlleles(vc.alleles[1..], ev, sums);
    // AF total below 1 - tolerance: the reference joins the called alleles, first
    if variantAFtotal < 1.0 - cfg.afTolerance {
      if g.ad.Some? && |g.ad.value| == 0 {
        return Failure(IndexOutOfBounds);
      }
      if g.ad.None? || g.ad.value[0] > 0 {
        calledAlleles := [Reference(vc)] + calledAlleles;
      }
    }
    r := Success(g.(alleles := calledAlleles));
  }

  /** Appending one sample's evidence adds its contribution to every allele's sum. */
  lemma ScoresOverAppend(evs: seq<Evidence>, ev: Evidence, nAlt: nat)
    requires Covers(evs, nAlt) && |ev.likelihoods| == nAlt
    ensures Covers(evs + [ev], nAlt)
    ensures ScoresOver(evs + [ev], nAlt) == WithContribution(ScoresOver(evs, nAlt), ev)
  {
    assert (evs + [ev])[..|evs|] == evs;
    var after := ScoresOver(evs + [ev], nAlt);
    var before := WithContribution(ScoresOver(evs, nAlt), ev);
    forall j | 1 <= j <= nAlt ensures after[j] == before[j] {
      assert after[j] == EvidenceSum(evs + [ev], j - 1);
    }
  }

  /** The genotypes, evidence and sums the loop has built once every sample is called are the specified ones. */
  lemma ScreenedAreSpecified(vc: VariantContext, cfg: SomaticConfig, ext: Externals,
                             newGenotypes: seq<Genotype>, evs: seq<Evidence>, sums: seq<real>)
    requires |vc.alleles| > 0 && AllSamplesCallable(vc, vc.genotypes, cfg, ext)
    requires |newGenotypes| == |vc.genotypes| && |evs| == |vc.genotypes| && Covers(evs, |vc.alleles| - 1)
    requires forall j :: 0 <= j < |vc.genotypes| ==>
      newGenotypes[j] == vc.genotypes[j].(alleles := CallSample(vc, vc.genotypes[j], cfg, ext).value.called)
      && evs[j] == CallSample(vc, vc.genotypes[j], cfg, ext).value.evidence
    requires sums == ScoresOver(evs, |vc.alleles| - 1)
    ensures newGenotypes == CalledRecord(vc, cfg, ext).genotypes
    ensures sums == SomaticScores(vc, cfg, ext)
  {
    assert evs == Evidences(vc, cfg, ext);
  }

  /**
   * The genotype loop of `callSomaticGenotypes`: every sample called in turn,
   * the per-allele sums accumulated in an array; the first sample that cannot
   * be called aborts the loop with its error.
   */
  method ScreenSamples(vc: VariantContext, cfg: SomaticConfig, ext: Externals)
    returns (r: Result<(seq<Genotype>, seq<real>), Error>)
    requires |vc.alleles| > 0
    ensures r.Success? <==> AllSamplesCallable(vc, vc.genotypes, cfg, ext)
    ensures r.Failure? ==> r.error == FirstFailure(CallResults(vc, cfg, ext))
    ensures r.Success? ==> r.value.0 == CalledRecord(vc, cfg, ext).genotypes && r.value.1 == SomaticScores(vc, cfg, ext)
  {
    var gs := vc.genotypes;
    var nAlt := |vc.alleles| - 1;
    var perAlleleLikelihoodSums := new real[|vc.alleles|](_ => 0.0);
    var newGenotypes: seq<Genotype> := [];
    ghost var evs: seq<Evidence> := [];
    assert forall j :: 0 <= j < |vc.alleles| ==> perAlleleLikelihoodSums[..][j] == ScoresOver(evs, nAlt)[j];
    var k := 0;
    while k < |gs|
      invariant 0 <= k <= |gs|
      invariant |newGenotypes| == k && |evs| == k && Covers(evs, nAlt)
      invariant forall j :: 0 <= j < k ==> (CallSample(vc, gs[j], cfg, ext).Success?
        && newGenotypes[j] == gs[j].(alleles := CallSample(vc, gs[j], cfg, ext).value.called)
        && evs[j] == CallSample(vc, gs[j], cfg, ext).value.evidence)
      invariant perAlleleLikelihoodSums[..] == ScoresOver(evs, nAlt)
    {
      var called := ScreenSample(vc, gs[k], cfg, ext, perAlleleLikelihoodSums);
      if called.Failure? {
        FirstFailureAt(CallResults(vc, cfg, ext), k);
        return Failure(called.error);
      }
      ghost var ev := CallSample(vc, gs[k], cfg, ext).value.evidence;
      ScoresOverAppend(evs, ev, nAlt);
      evs := evs + [ev];
      newGenotypes := newGenotypes + [called.value];
      k := k + 1;
    }
    ScreenedAreSpecified(vc, cfg, ext, newGenotypes, evs, perAlleleLikelihoodSums[..]);
    r := Success((newGenotypes, perAlleleLikelihoodSums[..]));
  }

  /** The survival loop: the reference, then each alternate allele whose score exceeds the threshold. */
  method SelectAllelesToKeep(alleles: seq<Allele>, scores: seq<real>, minThreshold: real) returns (keep: seq<Allele>)
    requires |alleles| > 0 && |scores| == |alleles|
    ensures keep == [alleles[0]] + AllelesAbove(alleles[1..], scores[1..], minThreshold)
  {
    ghost var alts, altScores := alleles[1..], scores[1..];
    keep := [alleles[0]];
    var i := 1;
    while i < |scores|
      invariant 1 <= i <= |scores|
      invariant keep == [alleles[0]] + AllelesAbove(alts[..i - 1], altScores[..i - 1], minThreshold)
    {
      AllelesAboveExtend(alts, altScores, minThreshold, i - 1);
      if scores[i] > minThreshold {
        keep := keep + [alleles[i]];
      }
      i := i + 1;
    }
    assert alts[..i - 1] == alts && altScores[..i - 1] == altScores;
  }

  /** `callSomaticGenotypes`. */
  method CallSomaticGenotypes(vc: VariantContext, cfg: SomaticConfig, ext: Externals, header: FormatHeader)
    returns (r: Result<Option<Record>, Error>)
    requires |vc.alleles| > 0
    ensures r.Success? <==> AllSamplesCallable(vc, vc.genotypes, cfg, ext)
    ensures r.Failure? ==> r.error == FirstFailure(CallResults(vc, cfg, ext))
    ensures r.Success? ==> r.value == SomaticOutcome(vc, cfg, ext, header)
  {
    var screened := ScreenSamples(vc, cfg, ext);
    if screened.Failure? {
      return Failure(screened.error);
    }
    var (newGenotypes, perAlleleLikelihoodSums) := screened.value;
    var regenotypedVC := vc.(genotypes := newGenotypes);

    // survival is judged against min(TLOD, SQ) threshold
    var minThreshold := Min(cfg.tlodThreshold, cfg.sqThreshold);
    var allelesToKeep := SelectAllelesToKeep(vc.alleles, perAlleleLikelihoodSums, minThreshold);
    if |regenotypedVC.alleles| - 1 > cfg.maxAltAlleles {
      allelesToKeep := ext.filterToMaxNumberOfAltAlleles(cfg.maxAltAlleles, allelesToKeep, perAlleleLikelihoodSums);
    }
    assert allelesToKeep == AllelesToKeep(vc, cfg, ext);

    if |allelesToKeep| == 1 {
      return Success(None);
    }
    // every allele kept: the called record is the result
    if |allelesToKeep| == |regenotypedVC.alleles| {
      return Success(Some(regenotypedVC));
    }
    var relevantIndices := RelevantIndices(regenotypedVC.alleles, allelesToKeep);
    var reducedGenotypes := ext.subsetSomaticAlleles(header, regenotypedVC.genotypes, allelesToKeep, relevantIndices);
    var subsetVC := regenotypedVC.(alleles := allelesToKeep, genotypes := reducedGenotypes);
    var trimmedVC := ext.trimAlleles(subsetVC);
    if ext.isProperlyPolymorphic(trimmedVC) {
      r := Success(Some(trimmedVC));
    } else {
      r := Success(None);
    }
  }

  /** Sample `g` calls alternate allele `i`: its statistic for `i` exceeds its threshold. */
  predicate CallsAlt(vc: VariantContext, g: Genotype, cfg: SomaticConfig, ext: Externals, i: nat)
    requires |vc.alleles| > 0 && CallSample(vc, g, cfg, ext).Success? && i < |vc.alleles| - 1
  {
    var ev := CallSample(vc, g, cfg, ext).value.evidence;
    ev.likelihoods[i] > ev.threshold
  }

  /** The alleles kept by `AllelesAbove` are exactly those whose score exceeds the threshold. */
  lemma AllelesAboveMembership(alleles: seq<Allele>, scores: seq<real>, threshold: real)
    requires |scores| == |alleles|
    ensures forall i :: 0 <= i < |alleles| && scores[i] > threshold ==> alleles[i] in AllelesAbove(alleles, scores, threshold)
    ensures forall a :: a in AllelesAbove(alleles, scores, threshold) ==>
      exists i :: 0 <= i < |alleles| && alleles[i] == a && scores[i] > threshold
  {
    AllelesAboveAreIndicesAbove(alleles, scores, threshold);
    IndicesAboveComplete(scores, threshold);
    var idx := IndicesAbove(scores, threshold);
    var r := AllelesAbove(alleles, scores, threshold);
    forall i | 0 <= i < |alleles| && scores[i] > threshold ensures alleles[i] in r {
      var k :| 0 <= k < |idx| && idx[k] == i;
      assert r[k] == alleles[i];
    }
    forall a | a in r ensures exists i :: 0 <= i < |alleles| && alleles[i] == a && scores[i] > threshold {
      var k :| 0 <= k < |r| && r[k] == a;
      assert alleles[idx[k]] == a && scores[idx[k]] > threshold;
    }
  }

  /**
   * A sample calls exactly the alternate alleles whose statistic exceeds its
   * threshold (SQ's when it has SQ, else TLOD's); the reference is called
   * besides, and first, iff the sample's summed AF is below 1 - tolerance and it
   * has no AD or a reference depth above 0.
   */
  lemma SampleCallsAllelesAboveThreshold(vc: VariantContext, g: Genotype, cfg: SomaticConfig, ext: Externals)
    requires |vc.alleles| > 0 && vc.alleles[0] !in vc.alleles[1..]
    requires CallSample(vc, g, cfg, ext).Success?
    ensures var c := CallSample(vc, g, cfg, ext).value;
      c.evidence.threshold == (if SomaticQualityKey in g.ext then cfg.sqThreshold else cfg.tlodThreshold)
      && (forall i :: 0 <= i < |vc.alleles| - 1 ==> (vc.alleles[i + 1] in c.called <== CallsAlt(vc, g, cfg, ext, i)))
      && (forall a :: a in c.called && a != vc.alleles[0] ==>
            exists i :: 0 <= i < |vc.alleles| - 1 && vc.alleles[i + 1] == a && CallsAlt(vc, g, cfg, ext, i))
      && ((vc.alleles[0] in c.called) <==>
            (SumReals(c.evidence.alleleFractions) < 1.0 - cfg.afTolerance && (g.ad.None? || g.ad.value[0] > 0)))
      && (vc.alleles[0] in c.called ==> c.called[0] == vc.alleles[0])
  {
    var c := CallSample(vc, g, cfg, ext).value;
    var alts := vc.alleles[1..];
    var above := AllelesAbove(alts, c.evidence.likelihoods, c.evidence.threshold);
    AllelesAboveMembership(alts, c.evidence.likelihoods, c.evidence.threshold);
    assert vc.alleles[0] !in above;
    forall a | a in c.called && a != vc.alleles[0]
      ensures exists i :: 0 <= i < |vc.alleles| - 1 && vc.alleles[i + 1] == a && CallsAlt(vc, g, cfg, ext, i)
    {
      assert a in above;
      var i :| 0 <= i < |alts| && alts[i] == a && c.evidence.likelihoods[i] > c.evidence.threshold;
      assert vc.alleles[i + 1] == a && CallsAlt(vc, g, cfg, ext, i);
    }
  }

  /**
   * A sample's called list is the reference (when added) followed by the
   * alternate alleles at the positions whose statistic exceeds its threshold,
   * once each and in allele order.
   */
  lemma CalledAllelesByPosition(vc: VariantContext, g: Genotype, cfg: SomaticConfig, ext: Externals)
    requires |vc.alleles| > 0 && CallSample(vc, g, cfg, ext).Success?
    ensures var c := CallSample(vc, g, cfg, ext).value;
      var addRef := AddsReference(g, SumReals(c.evidence.alleleFractions), cfg.afTolerance);
      var above := IndicesAbove(c.evidence.likelihoods, c.evidence.threshold);
      && addRef.Success?
      && (addRef.value ==>
            && |c.called| == 1 + |above| && c.called[0] == Reference(vc)
            && forall k :: 1 <= k < |c.called| ==> c.called[k] == vc.alleles[above[k - 1] + 1])
      && (!addRef.value ==>
            && |c.called| == |above|
            && forall k :: 0 <= k < |c.called| ==> c.called[k] == vc.alleles[above[k] + 1])
  {
    CalledList(vc, g, cfg, ext);
    var c := CallSample(vc, g, cfg, ext).value;
    var ev := c.evidence;
    var addRef := AddsReference(g, SumReals(ev.alleleFractions), cfg.afTolerance).value;
    if addRef {
      ReferenceThenAlternatesAbove(vc.alleles, c.called, ev.likelihoods, ev.threshold);
    } else {
      AlternatesAbove(vc.alleles, c.called, ev.likelihoods, ev.threshold);
    }
  }

  /** A called sample's list: the reference when the AF/AD rule adds it, then `AllelesAbove` of its statistic. */
  lemma CalledList(vc: VariantContext, g: Genotype, cfg: SomaticConfig, ext: Externals)
    requires |vc.alleles| > 0 && CallSample(vc, g, cfg, ext).Success?
    ensures var c := CallSample(vc, g, cfg, ext).value;
      var addRef := AddsReference(g, SumReals(c.evidence.alleleFractions), cfg.afTolerance);
      var alts := AllelesAbove(vc.alleles[1..], c.evidence.likelihoods, c.evidence.threshold);
      && |c.evidence.likelihoods| == |vc.alleles| - 1
      && addRef.Success?
      && c.called == if addRef.value then [Reference(vc)] + alts else alts
  {
  }

  /** The reference followed by the alternates above threshold, by position in the full allele list. */
  lemma ReferenceThenAlternatesAbove(alleles: seq<Allele>, called: seq<Allele>, scores: seq<real>, threshold: real)
    requires |alleles| > 0 && |scores| == |alleles| - 1
    requires called == [alleles[0]] + AllelesAbove(alleles[1..], scores, threshold)
    ensures var above := IndicesAbove(scores, threshold);
      |called| == 1 + |above| && called[0] == alleles[0]
      && forall k :: 1 <= k < |called| ==> called[k] == alleles[above[k - 1] + 1]
  {
    AllelesAboveAreIndicesAbove(alleles[1..], scores, threshold);
  }

  /** The alternates above threshold alone, by position in the full allele list. */
  lemma AlternatesAbove(alleles: seq<Allele>, called: seq<Allele>, scores: seq<real>, threshold: real)
    requires |alleles| > 0 && |scores| == |alleles| - 1
    requires called == AllelesAbove(alleles[1..], scores, threshold)
    ensures var above := IndicesAbove(scores, threshold);
      |called| == |above| && forall k :: 0 <= k < |called| ==> called[k] == alleles[above[k] + 1]
  {
    AllelesAboveAreIndicesAbove(alleles[1..], scores, threshold);
  }

  /**
   * A sample's called list by position: the reference first when it is called,
   * then the alternate alleles at the above-threshold positions of its
   * statistic, each once and in allele order, so its length (the sample's new
   * ploidy) is the number of those positions plus one for the reference.
   */
  lemma SampleCallsAlternatesInOrder(vc: VariantContext, g: Genotype, cfg: SomaticConfig, ext: Externals)
    requires |vc.alleles| > 0 && vc.alleles[0] !in vc.alleles[1..]
    requires CallSample(vc, g, cfg, ext).Success?
    ensures var c := CallSample(vc, g, cfg, ext).value;
      var above := IndicesAbove(c.evidence.likelihoods, c.evidence.threshold);
      && (vc.alleles[0] in c.called ==>
            && |c.called| == 1 + |above| && c.called[0] == vc.alleles[0]
            && forall k :: 1 <= k < |c.called| ==> c.called[k] == vc.alleles[above[k - 1] + 1])
      && (vc.alleles[0] !in c.called ==>
            && |c.called| == |above|
            && forall k :: 0 <= k < |c.called| ==> c.called[k] == vc.alleles[above[k] + 1])
  {
    CalledAllelesByPosition(vc, g, cfg, ext);
    ReferenceCalledIffAdded(vc, g, cfg, ext);
  }

  /** With distinct alleles, the reference is among a sample's called alleles exactly when the sample adds it. */
  lemma ReferenceCalledIffAdded(vc: VariantContext, g: Genotype, cfg: SomaticConfig, ext: Externals)
    requires |vc.alleles| > 0 && vc.alleles[0] !in vc.alleles[1..]
    requires CallSample(vc, g, cfg, ext).Success?
    ensures var c := CallSample(vc, g, cfg, ext).value;
      var addRef := AddsReference(g, SumReals(c.evidence.alleleFractions), cfg.afTolerance);
      addRef.Success? && ((vc.alleles[0] in c.called) <==> addRef.value)
  {
    CalledAllelesByPosition(vc, g, cfg, ext);
    var c := CallSample(vc, g, cfg, ext).value;
    var addRef := AddsReference(g, SumReals(c.evidence.alleleFractions), cfg.afTolerance).value;
    var above := IndicesAbove(c.evidence.likelihoods, c.evidence.threshold);
    if !addRef {
      forall k | 0 <= k < |c.called| ensures c.called[k] != vc.alleles[0] {
        assert c.called[k] == vc.alleles[1..][above[k]];
      }
    }
  }

  /**
   * With non-negative thresholds an allele's evidence sum is never negative, is
   * 0 when no sample calls the allele, and is at least the statistic of every
   * sample that calls it.
   */
  lemma {:induction false} EvidenceSumBounds(evs: seq<Evidence>, i: nat)
    requires forall k :: 0 <= k < |evs| ==> i < |evs[k].likelihoods| && evs[k].threshold >= 0.0
    ensures EvidenceSum(evs, i) >= 0.0
    ensures (forall k :: 0 <= k < |evs| ==> evs[k].likelihoods[i] <= evs[k].threshold) ==> EvidenceSum(evs, i) == 0.0
    ensures forall k :: 0 <= k < |evs| && evs[k].likelihoods[i] > evs[k].threshold ==> EvidenceSum(evs, i) >= evs[k].likelihoods[i]
  {
    if evs != [] {
      var n := |evs| - 1;
      assert forall k :: 0 <= k < n ==> evs[..n][k] == evs[k];
      EvidenceSumBounds(evs[..n], i);
    }
  }

  /**
   * Against a non-negative bound no sample's threshold is below, an allele's
   * evidence sum exceeds the bound exactly when some sample's statistic exceeds
   * that sample's threshold.
   */
  lemma EvidenceSumExceeds(evs: seq<Evidence>, i: nat, bound: real)
    requires 0.0 <= bound
    requires forall k :: 0 <= k < |evs| ==> i < |evs[k].likelihoods| && bound <= evs[k].threshold
    ensures EvidenceSum(evs, i) > bound <==> exists k :: 0 <= k < |evs| && evs[k].likelihoods[i] > evs[k].threshold
  {
    EvidenceSumBounds(evs, i);
  }

  /**
   * With non-negative thresholds an alternate allele survives the genome-wide
   * screen exactly when at least one sample called it: no allele is kept that no
   * sample supports, and none that a sample called is dropped before the cap.
   */
  lemma SurvivesIffCalledBySomeSample(vc: VariantContext, cfg: SomaticConfig, ext: Externals, i: nat)
    requires |vc.alleles| > 0 && i < |vc.alleles| - 1
    requires AllSamplesCallable(vc, vc.genotypes, cfg, ext)
    requires cfg.tlodThreshold >= 0.0 && cfg.sqThreshold >= 0.0
    ensures SomaticScores(vc, cfg, ext)[i + 1] > Min(cfg.tlodThreshold, cfg.sqThreshold)
      <==> exists k :: 0 <= k < |vc.genotypes| && CallsAlt(vc, vc.genotypes[k], cfg, ext, i)
  {
    var evs := Evidences(vc, cfg, ext);
    ScoreIsEvidenceSum(vc, cfg, ext, i);
    EvidencesAboveLowerThreshold(vc, cfg, ext);
    EvidenceSumExceeds(evs, i, Min(cfg.tlodThreshold, cfg.sqThreshold));
    SomeSampleCallsAlt(vc, cfg, ext, i);
  }

  /** An alternate allele's score is its evidence sum over the samples. */
  lemma ScoreIsEvidenceSum(vc: VariantContext, cfg: SomaticConfig, ext: Externals, i: nat)
    requires |vc.alleles| > 0 && AllSamplesCallable(vc, vc.genotypes, cfg, ext) && i < |vc.alleles| - 1
    ensures SomaticScores(vc, cfg, ext)[i + 1] == EvidenceSum(Evidences(vc, cfg, ext), i)
  {
  }

  /** Some sample calls alternate allele `i` exactly when some sample's evidence for `i` is above its threshold. */
  lemma SomeSampleCallsAlt(vc: VariantContext, cfg: SomaticConfig, ext: Externals, i: nat)
    requires |vc.alleles| > 0 && AllSamplesCallable(vc, vc.genotypes, cfg, ext) && i < |vc.alleles| - 1
    ensures var evs := Evidences(vc, cfg, ext);
      (exists k :: 0 <= k < |vc.genotypes| && CallsAlt(vc, vc.genotypes[k], cfg, ext, i))
      <==> exists k :: 0 <= k < |evs| && evs[k].likelihoods[i] > evs[k].threshold
  {
    CalledAltHasEvidenceAbove(vc, cfg, ext, i);
    EvidenceAboveIsCalledAlt(vc, cfg, ext, i);
  }

  /** A sample that calls alternate allele `i` has evidence for `i` above its threshold. */
  lemma CalledAltHasEvidenceAbove(vc: VariantContext, cfg: SomaticConfig, ext: Externals, i: nat)
    requires |vc.alleles| > 0 && AllSamplesCallable(vc, vc.genotypes, cfg, ext) && i < |vc.alleles| - 1
    ensures var evs := Evidences(vc, cfg, ext);
      (exists k :: 0 <= k < |vc.genotypes| && CallsAlt(vc, vc.genotypes[k], cfg, ext, i))
      ==> exists k :: 0 <= k < |evs| && evs[k].likelihoods[i] > evs[k].threshold
  {
    if exists k :: 0 <= k < |vc.genotypes| && CallsAlt(vc, vc.genotypes[k], cfg, ext, i) {
      var k :| 0 <= k < |vc.genotypes| && CallsAlt(vc, vc.genotypes[k], cfg, ext, i);
      CallsAltIsEvidenceAbove(vc, cfg, ext, i, k);
    }
  }

  /** A sample whose evidence for alternate allele `i` is above its threshold calls `i`. */
  lemma EvidenceAboveIsCalledAlt(vc: VariantContext, cfg: SomaticConfig, ext: Externals, i: nat)
    requires |vc.alleles| > 0 && AllSamplesCallable(vc, vc.genotypes, cfg, ext) && i < |vc.alleles| - 1
    ensures var evs := Evidences(vc, cfg, ext);
      (exists k :: 0 <= k < |evs| && evs[k].likelihoods[i] > evs[k].threshold)
      ==> exists k :: 0 <= k < |vc.genotypes| && CallsAlt(vc, vc.genotypes[k], cfg, ext, i)
  {
    var evs := Evidences(vc, cfg, ext);
    if exists k :: 0 <= k < |evs| && evs[k].likelihoods[i] > evs[k].threshold {
      var k :| 0 <= k < |evs| && evs[k].likelihoods[i] > evs[k].threshold;
      CallsAltIsEvidenceAbove(vc, cfg, ext, i, k);
    }
  }

  /** Every sample is held to a threshold no lower than min(TLOD, SQ) threshold. */
  lemma EvidencesAboveLowerThreshold(vc: VariantContext, cfg: SomaticConfig, ext: Externals)
    requires |vc.alleles| > 0 && AllSamplesCallable(vc, vc.genotypes, cfg, ext)
    ensures forall k :: 0 <= k < |vc.genotypes| ==> Min(cfg.tlodThreshold, cfg.sqThreshold) <= Evidences(vc, cfg, ext)[k].threshold
  {
  }

  /** Sample `k` calls alternate allele `i` exactly when its evidence for `i` is above its threshold. */
  lemma CallsAltIsEvidenceAbove(vc: VariantContext, cfg: SomaticConfig, ext: Externals, i: nat, k: nat)
    requires |vc.alleles| > 0 && AllSamplesCallable(vc, vc.genotypes, cfg, ext)
    requires i < |vc.alleles| - 1 && k < |vc.genotypes|
    ensures var ev := Evidences(vc, cfg, ext)[k];
      CallsAlt(vc, vc.genotypes[k], cfg, ext, i) <==> ev.likelihoods[i] > ev.threshold
  {
  }

  /** The whole somatic call of a record: the outcome, or the first sample's failure. */
  function SomaticCall(vc: VariantContext, cfg: SomaticConfig, ext: Externals, header: FormatHeader): (r: Result<Option<Record>, Error>)
    requires |vc.alleles| > 0
    ensures r.Success? <==> AllSamplesCallable(vc, vc.genotypes, cfg, ext)
    ensures r.Failure? ==> exists k :: (0 <= k < |vc.genotypes| && CallSample(vc, vc.genotypes[k], cfg, ext) == Failure(r.error)
      && forall j :: 0 <= j < k ==> CallSample(vc, vc.genotypes[j], cfg, ext).Success?)
    ensures r.Success? ==> r.value == SomaticOutcome(vc, cfg, ext, header)
  {
    if AllSamplesCallable(vc, vc.genotypes, cfg, ext) then Success(SomaticOutcome(vc, cfg, ext, header))
    else Failure(FirstFailure(CallResults(vc, cfg, ext)))
  }

  /**
   * What `regenotypeSomaticVC` returns: a variant record whose site depth is
   * above 0 is called; any other record is returned as it is when non-variant
   * sites are included, and dropped otherwise. The site depth is read only for
   * a variant record.
   */
  function SomaticRegenotyped(vc: Record, includeNonVariants: bool, cfg: SomaticConfig, ext: Externals, header: FormatHeader)
    : (r: Result<Option<Record>, Error>)
    ensures !IsVariant(vc) ==> r == Success(if includeNonVariants then Some(vc) else None)
    ensures IsVariant(vc) && SiteDepth(vc).Failure? ==> r == Failure(SiteDepth(vc).error)
    ensures IsVariant(vc) && SiteDepth(vc).Success? ==>
      r == if SiteDepth(vc).value > 0 then SomaticCall(vc, cfg, ext, header)
           else Success(if includeNonVariants then Some(vc) else None)
  {
    var depth := if IsVariant(vc) then SiteDepth(vc) else Success(0);
    if depth.Failure? then Failure(depth.error)
    else if depth.value > 0 then SomaticCall(vc, cfg, ext, header)
    else if includeNonVariants then Success(Some(vc))
    else Success(None)
  }

  /** `regenotypeSomaticVC`. */
  method RegenotypeSomaticVC(vc: Record, includeNonVariants: bool, cfg: SomaticConfig, ext: Externals, header: FormatHeader)
    returns (r: Result<Option<Record>, Error>)
    ensures r == SomaticRegenotyped(vc, includeNonVariants, cfg, ext, header)
  {
    if IsVariant(vc) {
      var depth := SiteDepth(vc);
      if depth.Failure? {
        return Failure(depth.error);
      }
      if depth.value > 0 {
        r := CallSomaticGenotypes(vc, cfg, ext, header);
        return;
      }
    }
    if includeNonVariants {
      r := Success(Some(vc));
    } else {
      r := Success(None);
    }
  }

  /**
   * Without the cap, an alternate allele that some sample calls is among the
   * alleles a somatic call keeps (the thresholds being non-negative).
   */
  lemma CalledAlleleIsKept(vc: VariantContext, cfg: SomaticConfig, ext: Externals, i: nat)
    requires |vc.alleles| > 0 && AllSamplesCallable(vc, vc.genotypes, cfg, ext)
    requires 0.0 <= cfg.tlodThreshold && 0.0 <= cfg.sqThreshold
    requires i < |vc.alleles| - 1 && |vc.alleles| - 1 <= cfg.maxAltAlleles
    requires exists k :: 0 <= k < |vc.genotypes| && CallsAlt(vc, vc.genotypes[k], cfg, ext, i)
    ensures vc.alleles[i + 1] in AllelesToKeep(vc, cfg, ext)
  {
    SurvivesIffCalledBySomeSample(vc, cfg, ext, i);
    AllelesAboveMembership(vc.alleles[1..], SomaticScores(vc, cfg, ext)[1..], Min(cfg.tlodThreshold, cfg.sqThreshold));
    assert vc.alleles[1..][i] == vc.alleles[i + 1];
  }
}
