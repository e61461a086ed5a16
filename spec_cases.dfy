/**
 * The spec-level scenarios of the validation test suite (standalone, master,
 * minion and whole-Ingress tables), stated on the model as exact error lists.
 */
module SpecCases {
  import opened FieldErrors
  import opened Annotations
  import opened IngressSpecs
  import opened Validation

  function OneRule(host: string, http: HttpRuleValue): IngressSpec
  {
    IngressSpec([IngressRule(host, http)], [])
  }

  function TwoHosts(): IngressSpec
  {
    IngressSpec([IngressRule("foo.example.com", NoHttp), IngressRule("bar.example.com", NoHttp)], [])
  }

  function RootPaths(): HttpRuleValue { Http([IngressPath("/")]) }

  // ---------------------------------------------------------------------------
  // validateIngressSpec
  // ---------------------------------------------------------------------------

  /** The standalone table: one good host, no rules, an empty host, a repeated host. */
  lemma StandaloneCases()
    ensures ValidateIngressSpec(OneRule("foo.example.com", NoHttp), SpecRoot) == []
    ensures ValidateIngressSpec(IngressSpec([], []), SpecRoot) == [RequiredError(RulesPath(SpecRoot), "")]
    ensures ValidateIngressSpec(OneRule("", NoHttp), SpecRoot) == [RequiredError(HostPath(SpecRoot, 0), "")]
    ensures ValidateIngressSpec(
              IngressSpec([IngressRule("foo.example.com", NoHttp), IngressRule("foo.example.com", NoHttp)], []), SpecRoot)
         == [DuplicateError(HostPath(SpecRoot, 1), "foo.example.com")]
  {
  }

  // ---------------------------------------------------------------------------
  // validateMasterSpec
  // ---------------------------------------------------------------------------

  /** The master table: an empty path list passes, two rules and one path are too many. */
  lemma MasterCases()
    ensures ValidateMasterSpec(OneRule("foo.example.com", Http([])), SpecRoot) == []
    ensures ValidateMasterSpec(TwoHosts(), SpecRoot) == [TooManyError(RulesPath(SpecRoot), 2, 1)]
    ensures ValidateMasterSpec(OneRule("foo.example.com", RootPaths()), SpecRoot)
         == [TooManyError(PathsPath(SpecRoot), 1, 0)]
  {
  }

  // ---------------------------------------------------------------------------
  // validateMinionSpec
  // ---------------------------------------------------------------------------

  /** The minion table: one path passes; two rules, no path and a TLS entry are reported. */
  lemma MinionCases()
    ensures ValidateMinionSpec(OneRule("foo.example.com", RootPaths()), SpecRoot) == []
    ensures ValidateMinionSpec(TwoHosts(), SpecRoot) == [TooManyError(RulesPath(SpecRoot), 2, 1)]
    ensures ValidateMinionSpec(OneRule("foo.example.com", Http([])), SpecRoot)
         == [RequiredError(PathsPath(SpecRoot), "must include at least one path")]
    ensures ValidateMinionSpec(
              IngressSpec([IngressRule("foo.example.com", RootPaths())], [IngressTls(["foo.example.com"])]), SpecRoot)
         == [TooManyError(TlsPath(SpecRoot), 1, 0)]
  {
  }

  // ---------------------------------------------------------------------------
  // validateIngress
  // ---------------------------------------------------------------------------

  /** A bad mergeable type and an empty host: the annotation error, then the host error. */
  lemma InvalidIngressCase()
    ensures ValidateIngress(Ingress(map[MergeableIngressTypeKey := "invalid"], OneRule("", NoHttp)), false)
         == [InvalidError(AnnotationsRoot + [Child(MergeableIngressTypeKey)], "invalid", "must be one of: 'master' or 'minion'"),
             RequiredError(HostPath(SpecRoot, 0), "")]
  {
    var ann := map[MergeableIngressTypeKey := "invalid"];
    AnnotationErrorsOneKey(ann, false, AnnotationsRoot, MergeableIngressTypeKey);
    MergeableTypeRule(ann, false, AnnotationsRoot);
  }

  /** A master with a path: the master's TooMany at the path list. */
  lemma InvalidMasterCase()
    ensures ValidateIngress(Ingress(map[MergeableIngressTypeKey := "master"], OneRule("example.com", RootPaths())), false)
         == [TooManyError(PathsPath(SpecRoot), 1, 0)]
  {
    var ann := map[MergeableIngressTypeKey := "master"];
    AnnotationErrorsOneKey(ann, false, AnnotationsRoot, MergeableIngressTypeKey);
    MergeableTypeRule(ann, false, AnnotationsRoot);
  }

  /** A minion whose rule has no HTTP part: the minion's Required at the path list. */
  lemma InvalidMinionCase()
    ensures ValidateIngress(Ingress(map[MergeableIngressTypeKey := "minion"], OneRule("example.com", NoHttp)), false)
         == [RequiredError(PathsPath(SpecRoot), "must include at least one path")]
  {
    var ann := map[MergeableIngressTypeKey := "minion"];
    AnnotationErrorsOneKey(ann, false, AnnotationsRoot, MergeableIngressTypeKey);
    MergeableTypeRule(ann, false, AnnotationsRoot);
  }
}
