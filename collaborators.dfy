/**
 * The code the engine calls but does not own, as total functions handed to it:
 * the merger, the genotyper, the annotation engine, the allele trimming and
 * subsetting utilities, and the record library's attribute decoding.
 */
module Collaborators {
  import opened Wrappers
  import opened VcfRecords

  datatype Externals = Externals(
    /** `ReferenceConfidenceVariantContextMerger.merge` of the candidates at a locus. */
    merge: (seq<VariantContext>, Locus) -> Record,
    /** `calculateGenotypes`; the flag selects the force-output engine; `None` is "no confident call". */
    calculateGenotypes: (Record, bool) -> Option<Record>,
    /** `annotateContext`; false: every annotation is requested (`a -> true`); true: the hom-ref skip predicate is passed instead. */
    annotateContext: (Record, bool) -> Record,
    /** `finalizeAnnotations(vc, originalVC)`. */
    finalizeAnnotations: (Record, Record) -> Record,
    reverseTrimAlleles: Record -> Record,
    /** `trimAlleles(vc, true, true)`. */
    trimAlleles: Record -> Record,
    isProperlyPolymorphic: Record -> bool,
    /** `filterToMaxNumberOfAltAllelesBasedOnScores(max, alleles, scores)`. */
    filterToMaxNumberOfAltAlleles: (nat, seq<Allele>, seq<real>) -> NonEmptyAlleles,
    /** `subsetSomaticAlleles(header, genotypes, allelesToKeep, relevantIndices)`. */
    subsetSomaticAlleles: (FormatHeader, seq<Genotype>, seq<Allele>, seq<int>) -> seq<Genotype>,
    /** `generateAnnotationValueVector(countType, attributeToList(value), relevantIndices)`. */
    annotationValueVector: (CountType, AttrValue, seq<int>) -> AttrValue,
    /** `getAttributeAsDoubleArray` of a present value; `None` when a number cannot be parsed. */
    attributeAsDoubles: AttrValue -> Option<seq<real>>)
}
