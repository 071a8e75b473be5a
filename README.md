# GenotypeGVCFs engine — a Dafny model

This project models the per-locus re-genotyping engine of GATK's
GenotypeGVCFs (`GenotypeGVCFsEngine`). It takes the candidate records that
overlap one locus and narrows them to those to process. It merges them into one
multi-sample record and re-genotypes that record along one of two paths:

- **somatic**: each sample is called against its SQ or TLOD threshold, and
  alleles with too little evidence are dropped genome-wide;
- **germline**: the genotyper is called, its annotations are carried over,
  allele-specific FORMAT fields are subset, and the annotations and genotype
  fields are cleaned.

The engine's own rules are modelled as they are written. These are:

- genotype field normalisation (MIN_DP, SB, PGT, AD, reference genotypes and RGQ);
- the annotation-exclusion no-call pass;
- the engine's integer coercion;
- per-sample somatic calling, evidence sums and allele survival;
- the germline control flow and its two helpers;
- candidate selection and the `callRegion` dispatch.

The code the engine calls but does not own is a parameter (`Collaborators.Externals`):

- the merger;
- the genotyper;
- the annotation engine;
- allele trimming and subsetting;
- the value-vector re-indexing;
- decoding attributes into doubles.

Every Java exception the modelled code can raise becomes a `Failure` of
`VcfRecords.Error`. A Java `null` result is `None`. A `null` stored in a map is
`AttrValue.ANull`.

Files, in dependency order:

| file | module | contents |
|---|---|---|
| wrappers.dfy | `Wrappers` | `Option`, `Result` |
| records.dfy | `VcfRecords` | alleles, genotypes, records, attribute values, FORMAT header lines, the keys the engine reads, the record library's genotype classification, `indexOf` |
| parsing.dfy | `AttributeParsing` | `parseInt`, `Integer.parseInt`, `intValue`, `getAttributeAsInt` |
| collaborators.dfy | `Collaborators` | the external code, as total functions |
| genotype_cleanup.dfy | `GenotypeCleanup` | `cleanupGenotypeAnnotations`, `excludeFromAnnotations`, `assignNoCallsAnnotationExcludedGenotypes` |
| somatic.dfy | `SomaticCalling` | `callSomaticGenotypes`, `regenotypeSomaticVC` |
| germline.dfy | `GermlineCalling` | `regenotypeVC`, `addGenotypingAnnotations`, `subsetAlleleSpecificFormatFields` |
| engine.dfy | `GenotypeGVCFsEngine` | `getVariantSubsetToProcess`, `callRegion` |

The loops of the source are methods with `while` loops, proved against
specification functions:

- `cleanupGenotypeAnnotations`;
- the no-call pass;
- the somatic per-sample loop, which accumulates into an `array<real>`;
- the allele survival loop;
- the FORMAT-subsetting loops.

The straight-line code that updates a builder or a map step by step is also
written as methods: `addGenotypingAnnotations`'s map puts, the body of the
cleanup loop, and the two halves of `regenotypeVC`.

Each method's `ensures` ties its result to the specification function. The
functions' own contracts and the lemmas state the engine's rules about them.
Where a collaborator decides a value (the genotyper, the annotators, the
trimmers, the subsetters), the contracts state which collaborator is called,
on which record and arguments, and where its result goes, since nothing more is
known about it.

The record library keeps a missing genotype DP or GQ as the value -1. The
model reads a DP of -1 as no DP (`VcfRecords.HasDp`), so a MIN_DP of -1 moved
into DP leaves the genotype without DP, as it does in the library. It reads a
GQ of -1 as no GQ (`VcfRecords.HasGq`, `VcfRecords.KnownGq`), so create-ref
mode turns such a genotype into a no-call without DP or RGQ, and
`excludeFromAnnotations` does not see a GQ there.

The germline output of a polymorphic site is taken from the annotated record
(`GenotypeGVCFsEngine.java:189-190`). That record was built from the no-call
converted genotypes, so the model cleans the genotypes the annotator returned,
not the unconverted ones. It follows the code here. It does not follow a
reading in which the no-call conversion only affects what the annotator sees.

## Model

| member | source | states |
|---|---|---|
| Wrappers.FirstFailure | src/main/java/org/broadinstitute/hellbender/tools/walkers/GenotypeGVCFsEngine.java:450-458 | the error of a failure that comes after nothing but successes: what a loop stopping at its first exception raises |
| Wrappers.FirstFailureAt | src/main/java/org/broadinstitute/hellbender/tools/walkers/GenotypeGVCFsEngine.java:450-458 | a failure preceded only by successes is the first failure, whatever follows it |
| VcfRecords.IndexOf | src/main/java/org/broadinstitute/hellbender/tools/walkers/GenotypeGVCFsEngine.java:339 | `indexOf`: -1 exactly when the allele is absent, otherwise the position of its first occurrence |
| VcfRecords.RelevantIndices | src/main/java/org/broadinstitute/hellbender/tools/walkers/GenotypeGVCFsEngine.java:166 | one index per kept allele; -1 exactly for an allele missing from the original list, otherwise a position holding that allele |
| VcfRecords.AsNoCall | src/main/java/org/broadinstitute/hellbender/tools/walkers/GenotypeGVCFsEngine.java:523-525 | a no-call genotype of the same ploidy; every other field unchanged |
| VcfRecords.KnownGq | src/main/java/org/broadinstitute/hellbender/tools/walkers/GenotypeGVCFsEngine.java:481 | `hasGQ`/`getGQ`: a GQ is known exactly when present and not -1, and is then the stored GQ |
| AttributeParsing.ParseDecimalInt | src/main/java/org/broadinstitute/hellbender/tools/walkers/GenotypeGVCFsEngine.java:537 | `Integer.parseInt`: succeeds iff the string is an optional sign followed by at least one digit and its value fits in 32 bits, and then returns that value; every failure is NumberFormatException |
| AttributeParsing.ParseDecimalIntRoundTrip | src/main/java/org/broadinstitute/hellbender/tools/walkers/GenotypeGVCFsEngine.java:537 | every 32-bit int spelled in decimal parses back to itself |
| AttributeParsing.Wrap32 | src/main/java/org/broadinstitute/hellbender/tools/walkers/GenotypeGVCFsEngine.java:539 | `intValue` of an integral number: an int congruent to the input modulo 2^32; the identity on ints |
| AttributeParsing.RealToInt | src/main/java/org/broadinstitute/hellbender/tools/walkers/GenotypeGVCFsEngine.java:539 | `intValue` of a floating-point number: in range; within 1 of the input toward zero when the input is in range; the int bound on that side when it is not |
| AttributeParsing.ParseInt | src/main/java/org/broadinstitute/hellbender/tools/walkers/GenotypeGVCFsEngine.java:535-543 | a String parses as `Integer.parseInt`; an integral Number gives its low 32 bits and a floating-point one its saturated truncation; exactly the other values raise IllegalArgumentException |
| AttributeParsing.GetAttributeAsInt | src/main/java/org/broadinstitute/hellbender/tools/walkers/GenotypeGVCFsEngine.java:154 | an absent, null or "." value gives the default; an Integer gives itself; any other String is parsed by `Integer.parseInt`; a Long, Double or list raises ClassCastException |
| AttributeParsing.SiteDepth | src/main/java/org/broadinstitute/hellbender/tools/walkers/GenotypeGVCFsEngine.java:154 | `getAttributeAsInt(DP, 0)`: 0 when DP is absent; an Integer DP as itself; a String DP through `Integer.parseInt` |
| GenotypeCleanup.CleanedAttributes | src/main/java/org/broadinstitute/hellbender/tools/walkers/GenotypeGVCFsEngine.java:451-470 | MIN_DP removed; SB removed unless kept; PGT present iff it was, "1\|1" on hom-var genotypes and unchanged otherwise; every other key carried over; no key added |
| GenotypeCleanup.CleanedDepth | src/main/java/org/broadinstitute/hellbender/tools/walkers/GenotypeGVCFsEngine.java:454-461 | MIN_DP coerced by `parseInt` when present; otherwise DP when the genotype has one, else 0, and 0 exactly when there is no DP or DP is 0 |
| GenotypeCleanup.CleanupAttributes | src/main/java/org/broadinstitute/hellbender/tools/walkers/GenotypeGVCFsEngine.java:451-470 | the attribute steps of the loop body, applied to a mutable map, give `CleanedAttributes` |
| GenotypeCleanup.CleanedAd | src/main/java/org/broadinstitute/hellbender/tools/walkers/GenotypeGVCFsEngine.java:472-477 | with no AD, a variant site and depth > 0: AD has one entry per site allele, AD[0] = depth and the rest 0; otherwise AD unchanged |
| GenotypeCleanup.AsReferenceGenotype | src/main/java/org/broadinstitute/hellbender/tools/walkers/GenotypeGVCFsEngine.java:479-499 | ploidy kept, GQ and PL removed, AD kept. Depth > 0 with a GQ: all reference when GQ > 0, else all no-call; DP kept; RGQ = old GQ. Otherwise all no-call, DP removed, attributes unchanged |
| GenotypeCleanup.CleanedGenotype | src/main/java/org/broadinstitute/hellbender/tools/walkers/GenotypeGVCFsEngine.java:450-501 | succeeds iff the depth (MIN_DP coerced, else DP, else 0) can be read; ploidy kept; AD is `CleanedAd` of that depth in both modes; DP becomes the coerced MIN_DP; outside create-ref mode the attributes are `CleanedAttributes` and GT, GQ and PL are untouched; in create-ref mode, with depth > 0 and a GQ (not -1), GT is all reference when GQ > 0 and all no-call otherwise, DP is kept and GQ moves to RGQ; without, GT is all no-call, DP is removed and no RGQ is written; GQ and PL are removed |
| GenotypeCleanup.CleanupGenotype | src/main/java/org/broadinstitute/hellbender/tools/walkers/GenotypeGVCFsEngine.java:450-501 | the loop body, built through a mutable attribute map and builder, equals `CleanedGenotype` |
| GenotypeCleanup.CreateReferenceGenotype | src/main/java/org/broadinstitute/hellbender/tools/walkers/GenotypeGVCFsEngine.java:479-499 | the create-ref branch, built step by step, equals `AsReferenceGenotype` |
| GenotypeCleanup.CleanedGenotypes | src/main/java/org/broadinstitute/hellbender/tools/walkers/GenotypeGVCFsEngine.java:447-504 | succeeds iff every genotype cleans; then one output per input, in order, each the cleaned genotype; otherwise the error of the first genotype that fails, every earlier one having cleaned |
| GenotypeCleanup.CleanupGenotypeAnnotations | src/main/java/org/broadinstitute/hellbender/tools/walkers/GenotypeGVCFsEngine.java:447-504 | the loop returns `CleanedGenotypes`, including the first failure's error |
| GenotypeCleanup.CleanupIsIdempotent | src/main/java/org/broadinstitute/hellbender/tools/walkers/GenotypeGVCFsEngine.java:447-504 | outside create-ref mode, cleaning a cleaned genotype changes nothing |
| GenotypeCleanup.CreatedGenotypesAreHomRefOrNoCall | src/main/java/org/broadinstitute/hellbender/tools/walkers/GenotypeGVCFsEngine.java:479-495 | in create-ref mode every genotype becomes hom-ref, no-call or empty |
| GenotypeCleanup.AssignNoCallsAnnotationExcludedGenotypes | src/main/java/org/broadinstitute/hellbender/tools/walkers/GenotypeGVCFsEngine.java:518-532 | same length and order; excluded genotypes become no-calls of the same ploidy with other fields kept; all others unchanged |
| GenotypeCleanup.NoCallsForExcluded | src/main/java/org/broadinstitute/hellbender/tools/walkers/GenotypeGVCFsEngine.java:518-532 | same length; only alleles change, and ploidy is kept; excluded genotypes become no-calls; the others are unchanged |
| GenotypeCleanup.ExcludedGenotypesStayNoCalls | src/main/java/org/broadinstitute/hellbender/tools/walkers/GenotypeGVCFsEngine.java:509-513 | a genotype excluded from annotations (hom-ref or no-call, no DP or DP 0, GQ 0) without MIN_DP also comes out of the create-ref cleanup as a no-call of its ploidy without GQ or DP |
| GenotypeCleanup.NoCallPassIsIdempotent | src/main/java/org/broadinstitute/hellbender/tools/walkers/GenotypeGVCFsEngine.java:509-531 | running the no-call pass twice gives the result of running it once |
| SomaticCalling.IndicesAbove | src/main/java/org/broadinstitute/hellbender/tools/walkers/GenotypeGVCFsEngine.java:320-324 | at most one position per score, all in bounds, each with a score above the threshold |
| SomaticCalling.IndicesAboveIncreasing | src/main/java/org/broadinstitute/hellbender/tools/walkers/GenotypeGVCFsEngine.java:320-324 | the positions are listed in strictly increasing order, so surviving alleles keep their original order |
| SomaticCalling.IndicesAboveComplete | src/main/java/org/broadinstitute/hellbender/tools/walkers/GenotypeGVCFsEngine.java:320-324 | every position whose score exceeds the threshold is listed |
| SomaticCalling.AllelesAboveAreIndicesAbove | src/main/java/org/broadinstitute/hellbender/tools/walkers/GenotypeGVCFsEngine.java:290-297 | the alleles kept are those at the above-threshold positions, in their original order |
| SomaticCalling.AllelesAboveMembership | src/main/java/org/broadinstitute/hellbender/tools/walkers/GenotypeGVCFsEngine.java:320-324 | every allele above the threshold is kept, and every kept allele has a position above the threshold |
| SomaticCalling.AllelesAboveExtend | src/main/java/org/broadinstitute/hellbender/tools/walkers/GenotypeGVCFsEngine.java:290-297 | screening one more allele appends it exactly when its score exceeds the threshold |
| SomaticCalling.StatisticKey | src/main/java/org/broadinstitute/hellbender/tools/walkers/GenotypeGVCFsEngine.java:283-285 | the statistic is SQ exactly when the sample has SQ, and TLOD otherwise |
| SomaticCalling.SampleEvidence | src/main/java/org/broadinstitute/hellbender/tools/walkers/GenotypeGVCFsEngine.java:284-298 | with alternate alleles: succeeds iff the statistic (SQ when present, else TLOD) and AF both hold a non-null value that decodes to at least one number per alternate allele, and then holds exactly those leading values; a missing or null AF or statistic fails; the threshold is sqThreshold with SQ, else tlodThreshold |
| SomaticCalling.CallSample | src/main/java/org/broadinstitute/hellbender/tools/walkers/GenotypeGVCFsEngine.java:281-306 | one sample: a failure to read the evidence, or an empty AD when the reference would be added, is the sample's error; otherwise its evidence is exactly `SampleEvidence`'s, one statistic per alternate allele held to sqThreshold with SQ and tlodThreshold without; its called list by position is stated by `CalledAllelesByPosition` |
| SomaticCalling.CalledAllelesByPosition | src/main/java/org/broadinstitute/hellbender/tools/walkers/GenotypeGVCFsEngine.java:290-305 | the called list is the reference when the AF/AD rule adds it, then the alternates at the above-threshold positions of the statistic, once each in allele order; its length is that count plus one for an added reference |
| SomaticCalling.AddsReference | src/main/java/org/broadinstitute/hellbender/tools/walkers/GenotypeGVCFsEngine.java:300 | the reference is added iff summed AF < 1 - tolerance and (no AD or AD[0] > 0); an empty AD fails, and only then |
| SomaticCalling.SomaticScores | src/main/java/org/broadinstitute/hellbender/tools/walkers/GenotypeGVCFsEngine.java:279 | one sum per allele, and the reference's sum is 0 |
| SomaticCalling.CalledRecord | src/main/java/org/broadinstitute/hellbender/tools/walkers/GenotypeGVCFsEngine.java:304-310 | the regenotyped record keeps the alleles, INFO and start, and each genotype becomes its sample's called alleles with every other field kept |
| SomaticCalling.SurvivorsAreAllelesAboveThreshold | src/main/java/org/broadinstitute/hellbender/tools/walkers/GenotypeGVCFsEngine.java:316-324 | the reference first, then exactly the alternate alleles at the positions whose summed evidence exceeds min(TLOD, SQ) threshold, in order |
| SomaticCalling.ScoresOverAppend | src/main/java/org/broadinstitute/hellbender/tools/walkers/GenotypeGVCFsEngine.java:294-297 | adding one sample's evidence to the sums adds its statistic at each allele it calls and nothing elsewhere |
| SomaticCalling.ScreenAlleles | src/main/java/org/broadinstitute/hellbender/tools/walkers/GenotypeGVCFsEngine.java:290-298 | the allele loop: the AF total, the alternate alleles above the threshold in order, and the sums array updated by that sample's contribution |
| SomaticCalling.AllelesToKeep | src/main/java/org/broadinstitute/hellbender/tools/walkers/GenotypeGVCFsEngine.java:316-328 | never empty; the survivors when the alternate count is within the maximum, otherwise the cap applied to the survivors and the per-allele sums |
| SomaticCalling.SomaticOutcome | src/main/java/org/broadinstitute/hellbender/tools/walkers/GenotypeGVCFsEngine.java:330-350 | only the reference kept gives null; every allele kept gives the regenotyped record with no polymorphism check; otherwise the regenotyped record subset by the somatic subsetter to the kept alleles at their original positions and trimmed, returned exactly when it is properly polymorphic, else null |
| SomaticCalling.ScreenSample | src/main/java/org/broadinstitute/hellbender/tools/walkers/GenotypeGVCFsEngine.java:281-306 | one sample's call, or its error; on success the sums array becomes the old sums plus that sample's contribution |
| SomaticCalling.ScreenSamples | src/main/java/org/broadinstitute/hellbender/tools/walkers/GenotypeGVCFsEngine.java:277-307 | succeeds iff every sample is callable, else the first failure; on success the called genotypes and the per-allele sums |
| SomaticCalling.SelectAllelesToKeep | src/main/java/org/broadinstitute/hellbender/tools/walkers/GenotypeGVCFsEngine.java:316-324 | the reference followed by the alternate alleles whose sum exceeds the threshold, in order |
| SomaticCalling.CallSomaticGenotypes | src/main/java/org/broadinstitute/hellbender/tools/walkers/GenotypeGVCFsEngine.java:276-351 | succeeds iff every sample is callable; fails with the first sample's error; otherwise returns `SomaticOutcome` |
| SomaticCalling.SomaticCall | src/main/java/org/broadinstitute/hellbender/tools/walkers/GenotypeGVCFsEngine.java:276-351 | succeeds iff every sample can be called, and then returns `SomaticOutcome`; a failure is the error of some sample all of whose predecessors can be called |
| SomaticCalling.SampleCallsAllelesAboveThreshold | src/main/java/org/broadinstitute/hellbender/tools/walkers/GenotypeGVCFsEngine.java:284-303 | SQ chooses the threshold; every alternate above threshold is called and every called non-reference allele is one; the reference is called iff the AF/AD condition holds, and then first; the order and count are in `SampleCallsAlternatesInOrder` |
| SomaticCalling.SampleCallsAlternatesInOrder | src/main/java/org/broadinstitute/hellbender/tools/walkers/GenotypeGVCFsEngine.java:290-305 | with distinct alleles the called list is the reference when called, then exactly the alternates above threshold, by position and in allele order, so the new ploidy is their number plus one for the reference |
| SomaticCalling.EvidenceSumBounds | src/main/java/org/broadinstitute/hellbender/tools/walkers/GenotypeGVCFsEngine.java:281-307 | with non-negative thresholds: an allele's sum is non-negative, 0 when no sample calls it, and at least the statistic of every sample that calls it |
| SomaticCalling.EvidenceSumExceeds | src/main/java/org/broadinstitute/hellbender/tools/walkers/GenotypeGVCFsEngine.java:319-323 | against a non-negative bound below every sample's threshold, a sum exceeds the bound iff some sample calls the allele |
| SomaticCalling.SurvivesIffCalledBySomeSample | src/main/java/org/broadinstitute/hellbender/tools/walkers/GenotypeGVCFsEngine.java:319-323 | with non-negative thresholds an alternate allele passes min(TLOD, SQ) iff some sample called it |
| SomaticCalling.CalledAlleleIsKept | src/main/java/org/broadinstitute/hellbender/tools/walkers/GenotypeGVCFsEngine.java:316-328 | below the cap, an alternate allele some sample called is kept |
| SomaticCalling.SomaticRegenotyped | src/main/java/org/broadinstitute/hellbender/tools/walkers/GenotypeGVCFsEngine.java:258-266 | non-variant or depth-0 records are returned when non-variants are included, else null; depth is read only for variant records; a bad depth fails; otherwise the somatic call |
| SomaticCalling.RegenotypeSomaticVC | src/main/java/org/broadinstitute/hellbender/tools/walkers/GenotypeGVCFsEngine.java:254-267 | the dispatch returns `SomaticRegenotyped` |
| GermlineCalling.AttributeOrNull | src/main/java/org/broadinstitute/hellbender/tools/walkers/GenotypeGVCFsEngine.java:236 | `getAttribute`: the stored value, or null when absent |
| GermlineCalling.GenotypingAnnotations | src/main/java/org/broadinstitute/hellbender/tools/walkers/GenotypeGVCFsEngine.java:233-245 | keys are the original ones plus MLEAC, MLEAF and the new record's NDA and AS_QUAL; MLEAC and MLEAF always overwritten (null if absent); NDA and AS_QUAL overwritten only when present; all else original |
| GermlineCalling.AddGenotypingAnnotations | src/main/java/org/broadinstitute/hellbender/tools/walkers/GenotypeGVCFsEngine.java:233-245 | the new record with only its INFO replaced by `GenotypingAnnotations` |
| GermlineCalling.SubsetValue | src/main/java/org/broadinstitute/hellbender/tools/walkers/GenotypeGVCFsEngine.java:211-218 | a field declared with fixed count 1 passes through unchanged; any other field is re-indexed by the relevant indices according to its count type |
| GermlineCalling.SubsetFormatFields | src/main/java/org/broadinstitute/hellbender/tools/walkers/GenotypeGVCFsEngine.java:206-221 | alleles, DP, GQ, AD and PL unchanged; same FORMAT keys; each field's value is its subset value under its own header line |
| GermlineCalling.SubsetGenotypes | src/main/java/org/broadinstitute/hellbender/tools/walkers/GenotypeGVCFsEngine.java:204-224 | succeeds iff every key has a header line, else NullPointerException; then one genotype per input, in order, each the input with its fields subset |
| GermlineCalling.ScalarFieldsAreUnchanged | src/main/java/org/broadinstitute/hellbender/tools/walkers/GenotypeGVCFsEngine.java:211-212 | a genotype whose fields are all scalars is returned as it is |
| GermlineCalling.SubsetGenotypeFields | src/main/java/org/broadinstitute/hellbender/tools/walkers/GenotypeGVCFsEngine.java:206-222 | the key loop fails iff a key is undeclared, else returns `SubsetFormatFields` |
| GermlineCalling.SubsetAlleleSpecificFormatFields | src/main/java/org/broadinstitute/hellbender/tools/walkers/GenotypeGVCFsEngine.java:204-224 | the genotype loop returns `SubsetGenotypes` |
| GermlineCalling.AnnotatedCall | src/main/java/org/broadinstitute/hellbender/tools/walkers/GenotypeGVCFsEngine.java:164-167 | the call gets the original INFO plus its genotyping annotations, is finalized against the original record, and only then reverse-trimmed |
| GermlineCalling.Regenotyped | src/main/java/org/broadinstitute/hellbender/tools/walkers/GenotypeGVCFsEngine.java:156-172 | no call, or a call not properly polymorphic when non-variants are excluded, gives null; otherwise the annotated, reverse-trimmed call with its FORMAT fields subset to the called alleles' original positions; the only failure is an undeclared FORMAT key |
| GermlineCalling.DepthGate | src/main/java/org/broadinstitute/hellbender/tools/walkers/GenotypeGVCFsEngine.java:154 | the site depth is read only when the first test holds; then the gate passes iff depth > 0 and fails iff the depth cannot be read |
| GermlineCalling.Finished | src/main/java/org/broadinstitute/hellbender/tools/walkers/GenotypeGVCFsEngine.java:184-197 | a bad site depth fails with its error; a site polymorphic in its samples with depth gets the no-call pass, then the annotator, then a cleanup of the annotated genotypes (the cleanup's error, else that record); a kept monomorphic site is cleaned in create-ref mode and then annotated; otherwise the site is dropped; an emitted site without non-variants was polymorphic with depth > 0 |
| GermlineCalling.GermlineOutcome | src/main/java/org/broadinstitute/hellbender/tools/walkers/GenotypeGVCFsEngine.java:148-198 | a bad site depth fails; a non-variant or depth-0 record goes straight to the annotation half; otherwise a genotyper failure propagates, a null call gives null, and a call goes to the annotation half |
| GermlineCalling.RegenotypeMerged | src/main/java/org/broadinstitute/hellbender/tools/walkers/GenotypeGVCFsEngine.java:156-172 | the genotyping half of the method returns `Regenotyped` |
| GermlineCalling.FinishRegenotyping | src/main/java/org/broadinstitute/hellbender/tools/walkers/GenotypeGVCFsEngine.java:184-197 | the annotation half of the method returns `Finished` |
| GermlineCalling.RegenotypeVC | src/main/java/org/broadinstitute/hellbender/tools/walkers/GenotypeGVCFsEngine.java:148-198 | the method returns `GermlineOutcome` |
| GermlineCalling.PolymorphicSitesAreCleaned | src/main/java/org/broadinstitute/hellbender/tools/walkers/GenotypeGVCFsEngine.java:184-190 | a site polymorphic in samples with depth is emitted, with no MIN_DP and no SB (unless kept) on any genotype |
| GermlineCalling.ReferenceSitesGetReferenceGenotypes | src/main/java/org/broadinstitute/hellbender/tools/walkers/GenotypeGVCFsEngine.java:191-194 | a kept monomorphic site reaches the annotator with hom-ref, no-call or empty genotypes lacking GQ, PL, MIN_DP and SB |
| GermlineCalling.EmittedVariantSitesAreCleaned | src/main/java/org/broadinstitute/hellbender/tools/walkers/GenotypeGVCFsEngine.java:184-197 | without non-variant sites, every emitted genotype lacks MIN_DP, and SB unless kept |
| GenotypeGVCFsEngine.MatchingStart | src/main/java/org/broadinstitute/hellbender/tools/walkers/GenotypeGVCFsEngine.java:358-359 | no more candidates than given, each starting at the locus start |
| GenotypeGVCFsEngine.MatchingStartMembers | src/main/java/org/broadinstitute/hellbender/tools/walkers/GenotypeGVCFsEngine.java:358-359 | exactly the candidates starting at the locus start are kept |
| GenotypeGVCFsEngine.MatchIsKept | src/main/java/org/broadinstitute/hellbender/tools/walkers/GenotypeGVCFsEngine.java:358-359 | a candidate starting at the locus start leaves at least one after the filter |
| GenotypeGVCFsEngine.KeptOneHasMatch | src/main/java/org/broadinstitute/hellbender/tools/walkers/GenotypeGVCFsEngine.java:358-359 | one left after the filter means some candidate starts at the locus start |
| GenotypeGVCFsEngine.PairIsKept | src/main/java/org/broadinstitute/hellbender/tools/walkers/GenotypeGVCFsEngine.java:358-364 | two candidates starting at the locus start leave at least two after the filter |
| GenotypeGVCFsEngine.KeptTwoIsPair | src/main/java/org/broadinstitute/hellbender/tools/walkers/GenotypeGVCFsEngine.java:358-364 | at least two after the filter means two distinct candidates start at the locus start |
| GenotypeGVCFsEngine.MatchingStartPairs | src/main/java/org/broadinstitute/hellbender/tools/walkers/GenotypeGVCFsEngine.java:358-372 | the filter keeps at least two iff two distinct candidates start at the locus start |
| GenotypeGVCFsEngine.GetVariantSubsetToProcess | src/main/java/org/broadinstitute/hellbender/tools/walkers/GenotypeGVCFsEngine.java:356-375 | unchanged list when the flag is off or nothing matches; a failure iff two candidates match, always IllegalStateException; otherwise the matching candidate alone |
| GenotypeGVCFsEngine.RegionOutcome | src/main/java/org/broadinstitute/hellbender/tools/walkers/GenotypeGVCFsEngine.java:124-141 | an ambiguous candidate set raises IllegalStateException; otherwise the merge of the selected candidates goes to the somatic path when the input is somatic and to the germline path otherwise; in group-by-locus traversal a single candidate at the locus start is merged alone |
| GenotypeGVCFsEngine.CallRegion | src/main/java/org/broadinstitute/hellbender/tools/walkers/GenotypeGVCFsEngine.java:124-141 | the method returns `RegionOutcome` |

## Left out

- The collaborators are not modelled; the engine receives them as the total functions in `Collaborators.Externals`. These are:
  - the merger;
  - `MinimalGenotypingEngine.calculateGenotypes`;
  - the annotation engine's `annotateContext` and `finalizeAnnotations`;
  - `reverseTrimAlleles`, `trimAlleles` and `isProperlyPolymorphic`;
  - `filterToMaxNumberOfAltAllelesBasedOnScores`;
  - `subsetSomaticAlleles`;
  - `generateAnnotationValueVector` together with `attributeToList`;
  - the decoding inside `getAttributeAsDoubleArray`.
- Each collaborator is taken to be deterministic. Collaborators return records with at least one allele, which is the record library's construction invariant (`VcfRecords.Record`). The alternate-allele cap always returns a non-empty list.
- `annotationShouldBeSkippedForHomRefSites` (an `instanceof` test on annotation classes) is the boolean argument of `annotateContext`. The annotations themselves are outside the model.
- The reference context and the features are not modelled. This covers `ref.setWindow`, `setReferenceContext` and the reference base handed to the merger. They only reach the collaborators.
- `initialize`, `setupVCFWriter` and `createMinimalArgs` are left out. They build headers and argument objects and do no per-locus work.
- Logging is left out.
- SQ, TLOD and AF values are `real`. IEEE rounding, NaN and infinities are outside the model.
- `VcfRecords.IsPolymorphicInSamples`, `IsVariant` and the genotype classification follow the record library's definitions. They are not in the modelled file.
- The record library's lazy decoding is not modelled, nor are its allele validation and `GenotypesContext` sample indexing. Genotypes are a plain sequence.
- AttributeParsing.ParseDecimalInt: accepts only ASCII digits, while `Integer.parseInt` also accepts other Unicode decimal digits.
- AttributeParsing.GetAttributeAsInt: compares the value with "." by string equality. The record library compares by reference, which holds for the parser's interned constant.
- HashMap iteration order in `subsetAlleleSpecificFormatFields` is a nondeterministic choice of key. The result does not depend on it, because every failure there is the same NullPointerException.
- The constant key strings (DP, MIN_DP, SB, PGT, RGQ, SQ, TLOD, AF, MLEAC, MLEAF, NDA, AS_QUAL, "1\|1") are taken from GATK's constants file. That file is not part of this model.
- `Utils.nonNull(originalVC)` at the head of `regenotypeVC` and `regenotypeSomaticVC` cannot fire: the merger is a total function returning a record.
