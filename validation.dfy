/**
 * validateIngress: the annotations are validated first (rooted at
 * `annotations`), then the spec (rooted at `spec`) by the standalone host
 * checks and, when the raw mergeable-type annotation says `master` or
 * `minion`, by that variant's shape checks; the result is one ordered list.
 */
module Validation {
  import opened FieldErrors
  import opened Annotations
  import opened IngressSpecs

  /** The parts of an Ingress resource the engine reads. */
  datatype Ingress = Ingress(annotations: AnnotationMap, spec: IngressSpec)

  /** The shape variant of an Ingress. */
  datatype Variant = Standalone | Master | Minion

  const AnnotationsRoot: Path := [Child("annotations")]

  const SpecRoot: Path := [Child("spec")]

  /**
   * The variant named by the raw (unvalidated) mergeable-type annotation:
   * exactly `master` or `minion`; anything else, or no annotation, is standalone.
   */
  function SelectVariant(annotations: AnnotationMap): Variant
  {
    if MergeableIngressTypeKey in annotations && annotations[MergeableIngressTypeKey] == "master" then Master
    else if MergeableIngressTypeKey in annotations && annotations[MergeableIngressTypeKey] == "minion" then Minion
    else Standalone
  }

  /** The variant-specific shape checks; a standalone Ingress has none beyond the host checks. */
  function ShapeErrors(v: Variant, spec: IngressSpec, base: Path): ErrorList
  {
    match v
    case Standalone => []
    case Master => ValidateMasterSpec(spec, base)
    case Minion => ValidateMinionSpec(spec, base)
  }

  /** The errors of an Ingress: annotation errors, then host errors, then shape errors. */
  function ValidateIngress(ing: Ingress, isPlus: bool): (errs: ErrorList)
    ensures |errs| >= |ValidateIngressAnnotations(ing.annotations, isPlus, AnnotationsRoot)|
  {
    ValidateIngressAnnotations(ing.annotations, isPlus, AnnotationsRoot)
    + ValidateIngressSpec(ing.spec, SpecRoot)
    + ShapeErrors(SelectVariant(ing.annotations), ing.spec, SpecRoot)
  }

  /**
   * Only the exact values `master` and `minion` select a mergeable variant.
   * This restates SelectVariant's definition in the caller's terms; the
   * composition's substance is in ValidIff, AnnotationErrorsFirst and
   * SpecErrorsRooted.
   */
  lemma VariantSelection(annotations: AnnotationMap)
    ensures SelectVariant(annotations) == Master <==>
      MergeableIngressTypeKey in annotations && annotations[MergeableIngressTypeKey] == "master"
    ensures SelectVariant(annotations) == Minion <==>
      MergeableIngressTypeKey in annotations && annotations[MergeableIngressTypeKey] == "minion"
    ensures MergeableIngressTypeKey !in annotations ==> SelectVariant(annotations) == Standalone
  {
  }

  /** Every shape error lies below the path the spec is rooted at. */
  lemma ShapeErrorsBelowBase(v: Variant, spec: IngressSpec, base: Path)
    ensures forall e :: e in ShapeErrors(v, spec, base) ==> |e.path| > |base| && e.path[..|base|] == base
  {
  }

  /**
   * The composition order: the annotation errors come first, as a prefix every
   * path of which starts at `annotations`, and every error after them is a
   * spec error, whose path starts at `spec`.
   */
  lemma AnnotationErrorsFirst(ing: Ingress, isPlus: bool)
    ensures var errs := ValidateIngress(ing, isPlus);
      var annErrs := ValidateIngressAnnotations(ing.annotations, isPlus, AnnotationsRoot);
      && errs[..|annErrs|] == annErrs
      && (forall i :: 0 <= i < |annErrs| ==> errs[i].path[0] == Child("annotations"))
      && (forall i :: |annErrs| <= i < |errs| ==> |errs[i].path| > 1 && errs[i].path[0] == Child("spec"))
  {
    var specErrs := ValidateIngressSpec(ing.spec, SpecRoot) + ShapeErrors(SelectVariant(ing.annotations), ing.spec, SpecRoot);
    AnnotationErrorsRooted(ing.annotations, isPlus);
    SpecErrorsRooted(ing.spec, SelectVariant(ing.annotations));
    RootedConcat(ValidateIngressAnnotations(ing.annotations, isPlus, AnnotationsRoot), specErrs);
  }

  /** Every annotation error's path starts at `annotations`. */
  lemma AnnotationErrorsRooted(annotations: AnnotationMap, isPlus: bool)
    ensures forall e :: e in ValidateIngressAnnotations(annotations, isPlus, AnnotationsRoot) ==>
      |e.path| > 0 && e.path[0] == Child("annotations")
  {
  }

  /** Every host and shape error's path starts at `spec` and goes below it. */
  lemma SpecErrorsRooted(spec: IngressSpec, v: Variant)
    ensures forall e :: e in ValidateIngressSpec(spec, SpecRoot) + ShapeErrors(v, spec, SpecRoot) ==>
      |e.path| > 1 && e.path[0] == Child("spec")
  {
    StandaloneErrorsBelowBase(spec, SpecRoot);
    ShapeErrorsBelowBase(v, spec, SpecRoot);
    forall e | e in ValidateIngressSpec(spec, SpecRoot) + ShapeErrors(v, spec, SpecRoot)
      ensures |e.path| > 1 && e.path[0] == Child("spec")
    {
      assert e.path[..1] == SpecRoot;
    }
  }

  /** Positions in a + b below |a| hold a's errors, the rest hold b's. */
  lemma RootedConcat(a: ErrorList, b: ErrorList)
    requires forall e :: e in a ==> |e.path| > 0 && e.path[0] == Child("annotations")
    requires forall e :: e in b ==> |e.path| > 1 && e.path[0] == Child("spec")
    ensures (a + b)[..|a|] == a
    ensures forall i :: 0 <= i < |a| ==> (a + b)[i].path[0] == Child("annotations")
    ensures forall i :: |a| <= i < |a + b| ==> |(a + b)[i].path| > 1 && (a + b)[i].path[0] == Child("spec")
  {
    forall i | 0 <= i < |a|
      ensures (a + b)[i].path[0] == Child("annotations")
    {
      assert (a + b)[i] == a[i] && a[i] in a;
    }
    forall i | |a| <= i < |a + b|
      ensures |(a + b)[i].path| > 1 && (a + b)[i].path[0] == Child("spec")
    {
      assert (a + b)[i] == b[i - |a|] && b[i - |a|] in b;
    }
  }

  /**
   * Without a recognised mergeable type, the spec gets the standalone checks
   * only. A reading of ValidateIngress's definition for this case, not an
   * independent result; see ValidIff for what the composition guarantees.
   */
  lemma UnrecognisedTypeIsStandalone(ing: Ingress, isPlus: bool)
    requires MergeableIngressTypeKey !in ing.annotations ||
             (ing.annotations[MergeableIngressTypeKey] != "master" && ing.annotations[MergeableIngressTypeKey] != "minion")
    ensures ValidateIngress(ing, isPlus)
         == ValidateIngressAnnotations(ing.annotations, isPlus, AnnotationsRoot) + ValidateIngressSpec(ing.spec, SpecRoot)
  {
    assert SelectVariant(ing.annotations) == Standalone;
  }

  /**
   * A master or minion keeps the standalone host checks: its errors are the
   * annotation errors, then the host errors, then its variant's shape errors.
   * A reading of ValidateIngress's definition for these cases, not an
   * independent result; see ValidIff for what the composition guarantees.
   */
  lemma MergeableKeepsHostChecks(ing: Ingress, isPlus: bool)
    requires MergeableIngressTypeKey in ing.annotations
    ensures var annErrs := ValidateIngressAnnotations(ing.annotations, isPlus, AnnotationsRoot);
      var hostErrs := ValidateIngressSpec(ing.spec, SpecRoot);
      && (ing.annotations[MergeableIngressTypeKey] == "master" ==>
            ValidateIngress(ing, isPlus) == annErrs + hostErrs + ValidateMasterSpec(ing.spec, SpecRoot))
      && (ing.annotations[MergeableIngressTypeKey] == "minion" ==>
            ValidateIngress(ing, isPlus) == annErrs + hostErrs + ValidateMinionSpec(ing.spec, SpecRoot))
  {
  }

  /** What a variant's shape requires, as a predicate on the spec. */
  predicate ShapeHolds(v: Variant, spec: IngressSpec)
  {
    match v
    case Standalone => true
    case Master => IsMasterShape(spec)
    case Minion => IsMinionShape(spec)
  }

  /**
   * An Ingress is accepted exactly when its annotations pass, its hosts are
   * present and distinct, and its spec has the shape its variant requires.
   */
  lemma ValidIff(ing: Ingress, isPlus: bool)
    ensures ValidateIngress(ing, isPlus) == [] <==>
      && ValidateIngressAnnotations(ing.annotations, isPlus, AnnotationsRoot) == []
      && IsValidStandalone(ing.spec)
      && ShapeHolds(SelectVariant(ing.annotations), ing.spec)
  {
    StandaloneValid(ing.spec, SpecRoot);
    MasterShape(ing.spec, SpecRoot);
    MinionShape(ing.spec, SpecRoot);
  }

  /** No annotations and a single rule with a host: nothing is reported. */
  lemma EmptyInput(host: string, isPlus: bool)
    requires host != ""
    ensures ValidateIngress(Ingress(map[], IngressSpec([IngressRule(host, NoHttp)], [])), isPlus) == []
  {
    var ing := Ingress(map[], IngressSpec([IngressRule(host, NoHttp)], []));
    NoAnnotationsNoErrors(isPlus, AnnotationsRoot);
    ValidIff(ing, isPlus);
  }
}
