/**
 * The per-locus entry point of the engine: the candidate records overlapping
 * a locus are narrowed, merged into one record, and re-genotyped by the
 * somatic or the germline path.
 */
module GenotypeGVCFsEngine {
  import opened Wrappers
  import opened VcfRecords
  import opened Collaborators
  import opened SomaticCalling
  import opened GermlineCalling

  /** The settings the engine is built with and that `callRegion` reads. */
  datatype Engine = Engine(
    /** Group-by-locus traversal: prefer the candidate that starts at the locus. */
    includeNonVariants: bool,
    keepSB: bool,
    /** The genotyper's maximum number of alternate alleles. */
    maxAltAlleles: nat,
    outputHeader: FormatHeader,
    ext: Externals)

  /** The candidates that start exactly where the locus starts, in order. */
  function MatchingStart(loc: Locus, variants: seq<VariantContext>): (r: seq<VariantContext>)
    ensures |r| <= |variants|
    ensures forall k :: 0 <= k < |r| ==> r[k].start == loc.start
  {
    if variants == [] then []
    else
      var n := |variants| - 1;
      MatchingStart(loc, variants[..n]) + (if variants[n].start == loc.start then [variants[n]] else [])
  }

  /** The filter keeps exactly the candidates that start at the locus start. */
  lemma {:induction false} MatchingStartMembers(loc: Locus, variants: seq<VariantContext>)
    ensures forall v :: v in MatchingStart(loc, variants) <==> v in variants && v.start == loc.start
  {
    if variants != [] {
      var n := |variants| - 1;
      MatchingStartMembers(loc, variants[..n]);
      assert variants == variants[..n] + [variants[n]];
    }
  }

  /** A candidate that starts at the locus start makes the filter keep at least one. */
  lemma {:induction false} MatchIsKept(loc: Locus, variants: seq<VariantContext>, i: nat)
    requires i < |variants| && variants[i].start == loc.start
    ensures |MatchingStart(loc, variants)| >= 1
  {
    var n := |variants| - 1;
    if i < n {
      MatchIsKept(loc, variants[..n], i);
    }
  }

  /** Two distinct candidates start at the locus start. */
  predicate TwoStartAt(loc: Locus, variants: seq<VariantContext>)
  {
    exists i, j :: 0 <= i < j < |variants| && variants[i].start == loc.start && variants[j].start == loc.start
  }

  /** Two candidates that start at the locus start make the filter keep at least two. */
  lemma {:induction false} PairIsKept(loc: Locus, variants: seq<VariantContext>, i: nat, j: nat)
    requires i < j < |variants| && variants[i].start == loc.start && variants[j].start == loc.start
    ensures |MatchingStart(loc, variants)| >= 2
  {
    var n := |variants| - 1;
    var prefix := variants[..n];
    if j < n {
      PairIsKept(loc, prefix, i, j);
    } else {
      MatchIsKept(loc, prefix, i);
    }
  }

  /** A filter that keeps a candidate has a candidate that starts at the locus start. */
  lemma {:induction false} KeptOneHasMatch(loc: Locus, variants: seq<VariantContext>)
    requires |MatchingStart(loc, variants)| >= 1
    ensures exists i :: 0 <= i < |variants| && variants[i].start == loc.start
  {
    var n := |variants| - 1;
    if variants[n].start != loc.start {
      var prefix := variants[..n];
      KeptOneHasMatch(loc, prefix);
      var i :| 0 <= i < |prefix| && prefix[i].start == loc.start;
      assert variants[i] == prefix[i];
    }
  }

  /** A filter that keeps at least two candidates has kept two distinct ones. */
  lemma {:induction false} KeptTwoIsPair(loc: Locus, variants: seq<VariantContext>)
    requires |MatchingStart(loc, variants)| >= 2
    ensures TwoStartAt(loc, variants)
  {
    var n := |variants| - 1;
    var prefix := variants[..n];
    if |MatchingStart(loc, prefix)| >= 2 {
      KeptTwoIsPair(loc, prefix);
      var i, j :| 0 <= i < j < |prefix| && prefix[i].start == loc.start && prefix[j].start == loc.start;
      assert variants[i] == prefix[i] && variants[j] == prefix[j];
    } else {
      // the last candidate matches, and so does one in the prefix
      KeptOneHasMatch(loc, prefix);
      var i :| 0 <= i < |prefix| && prefix[i].start == loc.start;
      assert variants[i] == prefix[i];
    }
  }

  /** The filter keeps at least two candidates exactly when two distinct candidates start at the locus start. */
  lemma MatchingStartPairs(loc: Locus, variants: seq<VariantContext>)
    ensures |MatchingStart(loc, variants)| >= 2 <==> TwoStartAt(loc, variants)
  {
    if TwoStartAt(loc, variants) {
      var i, j :| 0 <= i < j < |variants| && variants[i].start == loc.start && variants[j].start == loc.start;
      PairIsKept(loc, variants, i, j);
    }
    if |MatchingStart(loc, variants)| >= 2 {
      KeptTwoIsPair(loc, variants);
    }
  }

  /**
   * `getVariantSubsetToProcess`: outside group-by-locus traversal every
   * candidate is processed; within it, the one candidate starting at the locus
   * start if there is exactly one, every candidate if there is none, and more
   * than one is an illegal state.
   */
  function GetVariantSubsetToProcess(loc: Locus, variants: seq<VariantContext>, includeNonVariants: bool)
    : (r: Result<seq<VariantContext>, Error>)
    ensures !includeNonVariants ==> r == Success(variants)
    ensures includeNonVariants ==> (r.Failure? <==> TwoStartAt(loc, variants))
    ensures r.Failure? ==> r.error == IllegalState
    ensures (forall i :: 0 <= i < |variants| ==> variants[i].start != loc.start) ==> r == Success(variants)
    ensures includeNonVariants && r.Success? && (exists i :: 0 <= i < |variants| && variants[i].start == loc.start) ==>
      exists i :: 0 <= i < |variants| && variants[i].start == loc.start && r.value == [variants[i]]
  {
    if !includeNonVariants then Success(variants)
    else
      var matchingStart := MatchingStart(loc, variants);
      MatchingStartPairs(loc, variants);
      if |matchingStart| == 0 then
        assert forall i :: 0 <= i < |variants| ==> variants[i].start != loc.start by {
          forall i | 0 <= i < |variants| && variants[i].start == loc.start ensures false {
            MatchIsKept(loc, variants, i);
          }
        }
        Success(variants)
      else if |matchingStart| == 1 then
        MatchingStartMembers(loc, variants);
        assert matchingStart[0] in matchingStart;
        Success(matchingStart)
      else Failure(IllegalState)
  }

  /** What `callRegion` returns for the candidates at a locus. */
  function RegionOutcome(engine: Engine, loc: Locus, variants: seq<VariantContext>, somaticInput: bool,
                         tlodThreshold: real, sqThreshold: real, afTolerance: real, outputNonVariants: bool)
    : (r: Result<Option<Record>, Error>)
    ensures engine.includeNonVariants && TwoStartAt(loc, variants) ==> r == Failure(IllegalState)
    ensures GetVariantSubsetToProcess(loc, variants, engine.includeNonVariants).Failure? ==> r == Failure(IllegalState)
    ensures GetVariantSubsetToProcess(loc, variants, engine.includeNonVariants).Success? ==>
      var merged := engine.ext.merge(GetVariantSubsetToProcess(loc, variants, engine.includeNonVariants).value, loc);
      r == if somaticInput
           then SomaticRegenotyped(merged, outputNonVariants,
                  SomaticConfig(tlodThreshold, sqThreshold, afTolerance, engine.maxAltAlleles), engine.ext, engine.outputHeader)
           else GermlineOutcome(merged, outputNonVariants, engine.keepSB, engine.ext, engine.outputHeader)
    ensures (engine.includeNonVariants && (exists i :: 0 <= i < |variants| && variants[i].start == loc.start)
      && !TwoStartAt(loc, variants)) ==>
      exists i :: 0 <= i < |variants| && variants[i].start == loc.start
        && r == if somaticInput
                then SomaticRegenotyped(engine.ext.merge([variants[i]], loc), outputNonVariants,
                       SomaticConfig(tlodThreshold, sqThreshold, afTolerance, engine.maxAltAlleles), engine.ext, engine.outputHeader)
                else GermlineOutcome(engine.ext.merge([variants[i]], loc), outputNonVariants, engine.keepSB, engine.ext, engine.outputHeader)
    ensures !engine.includeNonVariants && !somaticInput ==>
      r == GermlineOutcome(engine.ext.merge(variants, loc), outputNonVariants, engine.keepSB, engine.ext, engine.outputHeader)
  {
    var variantsToProcess :- GetVariantSubsetToProcess(loc, variants, engine.includeNonVariants);
    var mergedVC := engine.ext.merge(variantsToProcess, loc);
    if somaticInput then
      SomaticRegenotyped(mergedVC, outputNonVariants,
        SomaticConfig(tlodThreshold, sqThreshold, afTolerance, engine.maxAltAlleles), engine.ext, engine.outputHeader)
    else GermlineOutcome(mergedVC, outputNonVariants, engine.keepSB, engine.ext, engine.outputHeader)
  }

  /** `callRegion`: narrow the candidates, merge them, and re-genotype the merged record. */
  method CallRegion(engine: Engine, loc: Locus, variants: seq<VariantContext>, somaticInput: bool,
                    tlodThreshold: real, sqThreshold: real, afTolerance: real, outputNonVariants: bool)
    returns (r: Result<Option<Record>, Error>)
    ensures r == RegionOutcome(engine, loc, variants, somaticInput, tlodThreshold, sqThreshold, afTolerance, outputNonVariants)
  {
    var variantsToProcess := GetVariantSubsetToProcess(loc, variants, engine.includeNonVariants);
    if variantsToProcess.Failure? {
      return Failure(variantsToProcess.error);
    }
    var mergedVC := engine.ext.merge(variantsToProcess.value, loc);
    if somaticInput {
      var cfg := SomaticConfig(tlodThreshold, sqThreshold, afTolerance, engine.maxAltAlleles);
      r := RegenotypeSomaticVC(mergedVC, outputNonVariants, cfg, engine.ext, engine.outputHeader);
    } else {
      r := RegenotypeVC(mergedVC, outputNonVariants, engine.keepSB, engine.ext, engine.outputHeader);
    }
  }
}
