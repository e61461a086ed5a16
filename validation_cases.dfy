/**
 * The scenarios of the validation test suite, stated on the model: each lemma
 * gives the exact error list the validators produce on one table's inputs.
 * Annotation errors are rooted at `annotations`, spec errors at `spec`, as in
 * the suite.
 */
module ValidationCases {
  import opened FieldErrors
  import opened Annotations
  import opened IngressSpecs
  import opened Validation

  function AnnotationPath(k: string): Path { AnnotationsRoot + [Child(k)] }

  /** A two-entry annotation map under distinct keys holds exactly those two entries. */
  lemma PairMap(k1: string, v1: string, k2: string, v2: string)
    requires KeyLess(k1, k2)
    ensures var m := map[k1 := v1, k2 := v2];
      m.Keys == {k1, k2} && m[k1] == v1 && m[k2] == v2
  {
    KeyLessIrreflexive(k1);
  }

  /**
   * Two present annotations, each reporting one error: the error of the lower
   * key comes first.
   */
  lemma PairErrors(ann: AnnotationMap, isPlus: bool, k1: string, k2: string, x: FieldError, y: FieldError)
    requires ann.Keys == {k1, k2} && KeyLess(k1, k2)
    requires KeyErrors(ValidateIngressAnnotations(ann, isPlus, AnnotationsRoot), k1) == [x]
    requires KeyErrors(ValidateIngressAnnotations(ann, isPlus, AnnotationsRoot), k2) == [y]
    ensures ValidateIngressAnnotations(ann, isPlus, AnnotationsRoot) == [x, y]
  {
    TwoKeyErrors(ann, isPlus, AnnotationsRoot, k1, k2, [x], [y]);
  }

  lemma HealthChecksBeforeLBMethod()
    ensures KeyLess(HealthChecksKey, LBMethodKey)
  {
    TableKeyOrder(0, 4);
  }

  lemma LBMethodBeforeMergeableType()
    ensures KeyLess(LBMethodKey, MergeableIngressTypeKey)
  {
    TableKeyOrder(4, 6);
  }

  // ---------------------------------------------------------------------------
  // Annotation tables, either tier
  // ---------------------------------------------------------------------------

  /** nginx.org/mergeable-ingress-type on its own: master and minion pass, empty and other values fail. */
  lemma MergeableTypeCases(isPlus: bool)
    ensures ValidateIngressAnnotations(map[MergeableIngressTypeKey := "master"], isPlus, AnnotationsRoot) == []
    ensures ValidateIngressAnnotations(map[MergeableIngressTypeKey := "minion"], isPlus, AnnotationsRoot) == []
    ensures ValidateIngressAnnotations(map[MergeableIngressTypeKey := ""], isPlus, AnnotationsRoot)
         == [RequiredError(AnnotationPath(MergeableIngressTypeKey), "")]
    ensures ValidateIngressAnnotations(map[MergeableIngressTypeKey := "abc"], isPlus, AnnotationsRoot)
         == [InvalidError(AnnotationPath(MergeableIngressTypeKey), "abc", "must be one of: 'master' or 'minion'")]
  {
    MergeableAlone("master", isPlus);
    MergeableAlone("minion", isPlus);
    MergeableAlone("", isPlus);
    MergeableAlone("abc", isPlus);
  }

  lemma MergeableAlone(v: string, isPlus: bool)
    ensures var errs := ValidateIngressAnnotations(map[MergeableIngressTypeKey := v], isPlus, AnnotationsRoot);
      var path := AnnotationPath(MergeableIngressTypeKey);
      && (v == "" ==> errs == [RequiredError(path, "")])
      && (v != "" && v != "master" && v != "minion" ==>
            errs == [InvalidError(path, v, "must be one of: 'master' or 'minion'")])
      && (v == "master" || v == "minion" ==> errs == [])
  {
    var ann := map[MergeableIngressTypeKey := v];
    AnnotationErrorsOneKey(ann, isPlus, AnnotationsRoot, MergeableIngressTypeKey);
    MergeableTypeRule(ann, isPlus, AnnotationsRoot);
  }

  /** The snippet annotations, single- and multi-line, are accepted on either tier. */
  lemma SnippetCases(isPlus: bool)
    ensures ValidateIngressAnnotations(map[ServerSnippetsKey := "snippet-1"], isPlus, AnnotationsRoot) == []
    ensures ValidateIngressAnnotations(map[ServerSnippetsKey := "snippet-1\nsnippet-2\nsnippet-3"], isPlus, AnnotationsRoot) == []
    ensures ValidateIngressAnnotations(map[LocationSnippetsKey := "snippet-1"], isPlus, AnnotationsRoot) == []
    ensures ValidateIngressAnnotations(map[LocationSnippetsKey := "snippet-1\nsnippet-2\nsnippet-3"], isPlus, AnnotationsRoot) == []
  {
    SnippetAlone(ServerSnippetsKey, "snippet-1", isPlus);
    SnippetAlone(ServerSnippetsKey, "snippet-1\nsnippet-2\nsnippet-3", isPlus);
    SnippetAlone(LocationSnippetsKey, "snippet-1", isPlus);
    SnippetAlone(LocationSnippetsKey, "snippet-1\nsnippet-2\nsnippet-3", isPlus);
  }

  lemma SnippetAlone(k: string, v: string, isPlus: bool)
    requires k == ServerSnippetsKey || k == LocationSnippetsKey
    ensures ValidateIngressAnnotations(map[k := v], isPlus, AnnotationsRoot) == []
  {
    AnnotationErrorsOneKey(map[k := v], isPlus, AnnotationsRoot, k);
    SnippetRules(map[k := v], isPlus, AnnotationsRoot);
  }

  /** nginx.org/lb-method on its own, on each tier. */
  lemma LBMethodCases()
    ensures ValidateIngressAnnotations(map[LBMethodKey := "random"], false, AnnotationsRoot) == []
    ensures ValidateIngressAnnotations(map[LBMethodKey := "least_time header"], false, AnnotationsRoot)
         == [InvalidError(AnnotationPath(LBMethodKey), "least_time header", LBMethodDetail("least_time header"))]
    ensures ValidateIngressAnnotations(map[LBMethodKey := "least_time header"], true, AnnotationsRoot) == []
    ensures forall isPlus: bool ::
      ValidateIngressAnnotations(map[LBMethodKey := "invalid_method"], isPlus, AnnotationsRoot)
      == [InvalidError(AnnotationPath(LBMethodKey), "invalid_method", LBMethodDetail("invalid_method"))]
  {
    LBMethodExamples();
    LBMethodAlone("random", false);
    LBMethodAlone("least_time header", false);
    LBMethodAlone("least_time header", true);
    LBMethodAlone("invalid_method", false);
    LBMethodAlone("invalid_method", true);
  }

  lemma LBMethodAlone(v: string, isPlus: bool)
    ensures var errs := ValidateIngressAnnotations(map[LBMethodKey := v], isPlus, AnnotationsRoot);
      && (IsLBMethod(v, isPlus) ==> errs == [])
      && (!IsLBMethod(v, isPlus) ==>
            errs == [InvalidError(AnnotationPath(LBMethodKey), v, LBMethodDetail(v))])
  {
    var ann := map[LBMethodKey := v];
    AnnotationErrorsOneKey(ann, isPlus, AnnotationsRoot, LBMethodKey);
    LBMethodRule(ann, isPlus, AnnotationsRoot);
  }

  /** nginx.org/server-tokens: a non-boolean is rejected on the base tier and accepted on Plus. */
  lemma ServerTokensCases()
    ensures ValidateIngressAnnotations(map[ServerTokensKey := "custom_setting"], false, AnnotationsRoot)
         == [InvalidError(AnnotationPath(ServerTokensKey), "custom_setting", "must be a valid boolean")]
    ensures ValidateIngressAnnotations(map[ServerTokensKey := "custom_setting"], true, AnnotationsRoot) == []
  {
    BoolExamples();
    var ann := map[ServerTokensKey := "custom_setting"];
    AnnotationErrorsOneKey(ann, false, AnnotationsRoot, ServerTokensKey);
    AnnotationErrorsOneKey(ann, true, AnnotationsRoot, ServerTokensKey);
    ServerTokensRule(ann, false, AnnotationsRoot);
    ServerTokensRule(ann, true, AnnotationsRoot);
  }

  // ---------------------------------------------------------------------------
  // Base tier: two annotations, tier gating
  // ---------------------------------------------------------------------------

  /** Two bad annotations on the base tier are reported in key order. */
  lemma BaseTierTwoErrorsInKeyOrder()
    ensures ValidateIngressAnnotations(
              map[LBMethodKey := "invalid_method", MergeableIngressTypeKey := "invalid"], false, AnnotationsRoot)
         == [InvalidError(AnnotationPath(LBMethodKey), "invalid_method", LBMethodDetail("invalid_method")),
             InvalidError(AnnotationPath(MergeableIngressTypeKey), "invalid", "must be one of: 'master' or 'minion'")]
  {
    TableKeyOrder(4, 6);
    PairMap(LBMethodKey, "invalid_method", MergeableIngressTypeKey, "invalid");
    LBMethodAndMergeable(map[LBMethodKey := "invalid_method", MergeableIngressTypeKey := "invalid"]);
  }

  lemma LBMethodAndMergeable(ann: AnnotationMap)
    requires ann.Keys == {LBMethodKey, MergeableIngressTypeKey}
    requires ann[LBMethodKey] == "invalid_method" && ann[MergeableIngressTypeKey] == "invalid"
    ensures ValidateIngressAnnotations(ann, false, AnnotationsRoot)
         == [InvalidError(AnnotationPath(LBMethodKey), "invalid_method", LBMethodDetail("invalid_method")),
             InvalidError(AnnotationPath(MergeableIngressTypeKey), "invalid", "must be one of: 'master' or 'minion'")]
  {
    InvalidMethodRejected(ann, false);
    InvalidTypeRejected(ann, false);
    LBMethodBeforeMergeableType();
    PairErrors(ann, false, LBMethodKey, MergeableIngressTypeKey,
      InvalidError(AnnotationPath(LBMethodKey), "invalid_method", LBMethodDetail("invalid_method")),
      InvalidError(AnnotationPath(MergeableIngressTypeKey), "invalid", "must be one of: 'master' or 'minion'"));
  }

  /** nginx.org/lb-method `invalid_method` is reported under its key on either tier, whatever else is present. */
  lemma InvalidMethodRejected(ann: AnnotationMap, isPlus: bool)
    requires LBMethodKey in ann && ann[LBMethodKey] == "invalid_method"
    ensures KeyErrors(ValidateIngressAnnotations(ann, isPlus, AnnotationsRoot), LBMethodKey)
         == [InvalidError(AnnotationPath(LBMethodKey), "invalid_method", LBMethodDetail("invalid_method"))]
  {
    LBMethodExamples();
    LBMethodRule(ann, isPlus, AnnotationsRoot);
  }

  /** Mergeable type `invalid` is reported under its key, whatever else is present. */
  lemma InvalidTypeRejected(ann: AnnotationMap, isPlus: bool)
    requires MergeableIngressTypeKey in ann && ann[MergeableIngressTypeKey] == "invalid"
    ensures KeyErrors(ValidateIngressAnnotations(ann, isPlus, AnnotationsRoot), MergeableIngressTypeKey)
         == [InvalidError(AnnotationPath(MergeableIngressTypeKey), "invalid", "must be one of: 'master' or 'minion'")]
  {
    MergeableTypeRule(ann, isPlus, AnnotationsRoot);
  }

  /** On the base tier each Plus-only annotation alone is one Forbidden error, whatever its value. */
  lemma PlusOnlyCases(v: string)
    ensures ValidateIngressAnnotations(map[HealthChecksKey := v], false, AnnotationsRoot)
         == [ForbiddenError(AnnotationPath(HealthChecksKey), PlusRequired)]
    ensures ValidateIngressAnnotations(map[HealthChecksMandatoryKey := v], false, AnnotationsRoot)
         == [ForbiddenError(AnnotationPath(HealthChecksMandatoryKey), PlusRequired)]
    ensures ValidateIngressAnnotations(map[HealthChecksMandatoryQueueKey := v], false, AnnotationsRoot)
         == [ForbiddenError(AnnotationPath(HealthChecksMandatoryQueueKey), PlusRequired)]
    ensures ValidateIngressAnnotations(map[SlowStartKey := v], false, AnnotationsRoot)
         == [ForbiddenError(AnnotationPath(SlowStartKey), PlusRequired)]
  {
    PlusOnlyAlone(0, v);
    PlusOnlyAlone(1, v);
    PlusOnlyAlone(2, v);
    PlusOnlyAlone(3, v);
  }

  lemma PlusOnlyAlone(n: nat, v: string)
    requires n < |RuleTable| && RuleTable[n].plusOnly
    ensures var k := RuleTable[n].key;
      ValidateIngressAnnotations(map[k := v], false, AnnotationsRoot) == [ForbiddenError(AnnotationPath(k), PlusRequired)]
  {
    var r := RuleTable[n];
    assert r in RuleTable;
    AnnotationErrorsOneKey(map[r.key := v], false, AnnotationsRoot, r.key);
    TierGating(map[r.key := v], false, AnnotationsRoot, r);
  }

  // ---------------------------------------------------------------------------
  // Plus tier
  // ---------------------------------------------------------------------------

  /** Two bad annotations on Plus are reported in key order: nginx.com before nginx.org. */
  lemma PlusTwoErrorsInKeyOrder()
    ensures ValidateIngressAnnotations(
              map[HealthChecksKey := "not_a_boolean", LBMethodKey := "invalid_method"], true, AnnotationsRoot)
         == [InvalidError(AnnotationPath(HealthChecksKey), "not_a_boolean", "must be a valid boolean"),
             InvalidError(AnnotationPath(LBMethodKey), "invalid_method", LBMethodDetail("invalid_method"))]
  {
    TableKeyOrder(0, 4);
    PairMap(HealthChecksKey, "not_a_boolean", LBMethodKey, "invalid_method");
    HealthChecksAndLBMethod(map[HealthChecksKey := "not_a_boolean", LBMethodKey := "invalid_method"]);
  }

  lemma HealthChecksAndLBMethod(ann: AnnotationMap)
    requires ann.Keys == {HealthChecksKey, LBMethodKey}
    requires ann[HealthChecksKey] == "not_a_boolean" && ann[LBMethodKey] == "invalid_method"
    ensures ValidateIngressAnnotations(ann, true, AnnotationsRoot)
         == [InvalidError(AnnotationPath(HealthChecksKey), "not_a_boolean", "must be a valid boolean"),
             InvalidError(AnnotationPath(LBMethodKey), "invalid_method", LBMethodDetail("invalid_method"))]
  {
    NotABooleanRejected(ann);
    InvalidMethodRejected(ann, true);
    HealthChecksBeforeLBMethod();
    PairErrors(ann, true, HealthChecksKey, LBMethodKey,
      InvalidError(AnnotationPath(HealthChecksKey), "not_a_boolean", "must be a valid boolean"),
      InvalidError(AnnotationPath(LBMethodKey), "invalid_method", LBMethodDetail("invalid_method")));
  }

  /** On Plus, nginx.com/health-checks `not_a_boolean` is reported under its key, whatever else is present. */
  lemma NotABooleanRejected(ann: AnnotationMap)
    requires HealthChecksKey in ann && ann[HealthChecksKey] == "not_a_boolean"
    ensures KeyErrors(ValidateIngressAnnotations(ann, true, AnnotationsRoot), HealthChecksKey)
         == [InvalidError(AnnotationPath(HealthChecksKey), "not_a_boolean", "must be a valid boolean")]
  {
    BoolExamples();
    HealthChecksRule(ann, AnnotationsRoot);
  }

  /** nginx.com/health-checks and nginx.com/slow-start on their own on Plus. */
  lemma PlusValueCases()
    ensures ValidateIngressAnnotations(map[HealthChecksKey := "true"], true, AnnotationsRoot) == []
    ensures ValidateIngressAnnotations(map[HealthChecksKey := "not_a_boolean"], true, AnnotationsRoot)
         == [InvalidError(AnnotationPath(HealthChecksKey), "not_a_boolean", "must be a valid boolean")]
    ensures ValidateIngressAnnotations(map[SlowStartKey := "60s"], true, AnnotationsRoot) == []
    ensures ValidateIngressAnnotations(map[SlowStartKey := "not_a_time"], true, AnnotationsRoot)
         == [InvalidError(AnnotationPath(SlowStartKey), "not_a_time", "must be a valid time")]
  {
    BoolExamples();
    TimeExamples();
    HealthChecksAlone("true");
    HealthChecksAlone("not_a_boolean");
    SlowStartAlone("60s");
    SlowStartAlone("not_a_time");
  }

  lemma HealthChecksAlone(v: string)
    ensures var errs := ValidateIngressAnnotations(map[HealthChecksKey := v], true, AnnotationsRoot);
      && (IsBool(v) ==> errs == [])
      && (!IsBool(v) ==> errs == [InvalidError(AnnotationPath(HealthChecksKey), v, "must be a valid boolean")])
  {
    AnnotationErrorsOneKey(map[HealthChecksKey := v], true, AnnotationsRoot, HealthChecksKey);
    HealthChecksRule(map[HealthChecksKey := v], AnnotationsRoot);
  }

  lemma SlowStartAlone(v: string)
    ensures var errs := ValidateIngressAnnotations(map[SlowStartKey := v], true, AnnotationsRoot);
      && (IsTime(v) ==> errs == [])
      && (!IsTime(v) ==> errs == [InvalidError(AnnotationPath(SlowStartKey), v, "must be a valid time")])
  {
    AnnotationErrorsOneKey(map[SlowStartKey := v], true, AnnotationsRoot, SlowStartKey);
    SlowStartRule(map[SlowStartKey := v], AnnotationsRoot);
  }

  // ---------------------------------------------------------------------------
  // Plus tier: the health-check dependency chain
  // ---------------------------------------------------------------------------

  /** A three-entry annotation map under increasing keys holds exactly those three entries. */
  lemma TripleMap(k1: string, v1: string, k2: string, v2: string, k3: string, v3: string)
    requires KeyLess(k1, k2) && KeyLess(k2, k3)
    ensures var m := map[k1 := v1, k2 := v2, k3 := v3];
      m.Keys == {k1, k2, k3} && m[k1] == v1 && m[k2] == v2 && m[k3] == v3
  {
    KeyLessTransitive(k1, k2, k3);
    KeyLessIrreflexive(k1);
    KeyLessIrreflexive(k2);
  }

  /** nginx.com/health-checks-mandatory alone on Plus: its parent must be set. */
  lemma MandatoryAlone()
    ensures ValidateIngressAnnotations(map[HealthChecksMandatoryKey := "true"], true, AnnotationsRoot)
         == [ForbiddenError(AnnotationPath(HealthChecksMandatoryKey), ParentUnsetDetail(HealthChecksKey))]
  {
    var ann := map[HealthChecksMandatoryKey := "true"];
    BoolExamples();
    AnnotationErrorsOneKey(ann, true, AnnotationsRoot, HealthChecksMandatoryKey);
    MandatoryLevel(ann, AnnotationsRoot);
  }

  /**
   * nginx.com/health-checks-mandatory beside a boolean nginx.com/health-checks
   * on Plus: only the dependent annotation can be reported.
   */
  lemma MandatoryOnlyReported(ann: AnnotationMap)
    requires ann.Keys == {HealthChecksKey, HealthChecksMandatoryKey} && IsBool(ann[HealthChecksKey])
    ensures ValidateIngressAnnotations(ann, true, AnnotationsRoot)
         == KeyErrors(ValidateIngressAnnotations(ann, true, AnnotationsRoot), HealthChecksMandatoryKey)
  {
    HealthChecksRule(ann, AnnotationsRoot);
    OnlyKeyReported(ann, true, AnnotationsRoot, HealthChecksMandatoryKey, HealthChecksKey, HealthChecksKey);
  }

  /**
   * nginx.com/health-checks-mandatory beside nginx.com/health-checks on Plus:
   * a non-boolean value of its own is reported first; a boolean one is reported
   * only when the parent is not exactly `true`.
   */
  lemma MandatoryWithParent(ann: AnnotationMap)
    requires ann.Keys == {HealthChecksKey, HealthChecksMandatoryKey} && IsBool(ann[HealthChecksKey])
    ensures var errs := ValidateIngressAnnotations(ann, true, AnnotationsRoot);
      var parent, v := ann[HealthChecksKey], ann[HealthChecksMandatoryKey];
      var path := AnnotationPath(HealthChecksMandatoryKey);
      && (!IsBool(v) ==> errs == [InvalidError(path, v, "must be a valid boolean")])
      && (IsBool(v) && parent == "true" ==> errs == [])
      && (IsBool(v) && parent != "true" ==>
            errs == [ForbiddenError(path, ParentNotTrueDetail(HealthChecksKey))])
  {
    MandatoryOnlyReported(ann);
    if IsBool(ann[HealthChecksMandatoryKey]) {
      MandatoryLevel(ann, AnnotationsRoot);
    } else {
      MandatoryValue(ann, AnnotationsRoot);
    }
  }

  /** The nginx.com/health-checks-mandatory rows of the Plus table. */
  lemma MandatoryCases()
    ensures ValidateIngressAnnotations(
              map[HealthChecksKey := "true", HealthChecksMandatoryKey := "true"], true, AnnotationsRoot) == []
    ensures ValidateIngressAnnotations(
              map[HealthChecksKey := "true", HealthChecksMandatoryKey := "not_a_boolean"], true, AnnotationsRoot)
         == [InvalidError(AnnotationPath(HealthChecksMandatoryKey), "not_a_boolean", "must be a valid boolean")]
    ensures ValidateIngressAnnotations(
              map[HealthChecksKey := "false", HealthChecksMandatoryKey := "true"], true, AnnotationsRoot)
         == [ForbiddenError(AnnotationPath(HealthChecksMandatoryKey), ParentNotTrueDetail(HealthChecksKey))]
  {
    BoolExamples();
    TableKeyOrder(0, 1);
    PairMap(HealthChecksKey, "true", HealthChecksMandatoryKey, "true");
    MandatoryWithParent(map[HealthChecksKey := "true", HealthChecksMandatoryKey := "true"]);
    PairMap(HealthChecksKey, "true", HealthChecksMandatoryKey, "not_a_boolean");
    MandatoryWithParent(map[HealthChecksKey := "true", HealthChecksMandatoryKey := "not_a_boolean"]);
    PairMap(HealthChecksKey, "false", HealthChecksMandatoryKey, "true");
    MandatoryWithParent(map[HealthChecksKey := "false", HealthChecksMandatoryKey := "true"]);
  }

  /** nginx.com/health-checks-mandatory-queue alone on Plus: its parent must be set. */
  lemma QueueAlone()
    ensures ValidateIngressAnnotations(map[HealthChecksMandatoryQueueKey := "5"], true, AnnotationsRoot)
         == [ForbiddenError(AnnotationPath(HealthChecksMandatoryQueueKey),
                            ParentUnsetDetail(HealthChecksMandatoryKey))]
  {
    var ann := map[HealthChecksMandatoryQueueKey := "5"];
    NumberExamples();
    AnnotationErrorsOneKey(ann, true, AnnotationsRoot, HealthChecksMandatoryQueueKey);
    QueueLevel(ann, AnnotationsRoot);
  }

  /**
   * The full chain on Plus with nginx.com/health-checks `true` and a boolean
   * middle level: only the queue can be reported.
   */
  lemma QueueOnlyReported(ann: AnnotationMap)
    requires ann.Keys == {HealthChecksKey, HealthChecksMandatoryKey, HealthChecksMandatoryQueueKey}
    requires ann[HealthChecksKey] == "true" && IsBool(ann[HealthChecksMandatoryKey])
    ensures ValidateIngressAnnotations(ann, true, AnnotationsRoot)
         == KeyErrors(ValidateIngressAnnotations(ann, true, AnnotationsRoot), HealthChecksMandatoryQueueKey)
  {
    var errs := ValidateIngressAnnotations(ann, true, AnnotationsRoot);
    assert KeyErrors(errs, HealthChecksKey) == [] by {
      BoolExamples();
      HealthChecksRule(ann, AnnotationsRoot);
    }
    assert KeyErrors(errs, HealthChecksMandatoryKey) == [] by {
      MandatoryLevel(ann, AnnotationsRoot);
    }
    OnlyKeyReported(ann, true, AnnotationsRoot, HealthChecksMandatoryQueueKey, HealthChecksKey, HealthChecksMandatoryKey);
  }

  /**
   * The full chain on Plus with nginx.com/health-checks `true` and a boolean
   * middle level: the queue is reported for a non-numeric value of its own
   * first, then for a middle level that is not exactly `true`.
   */
  lemma ChainWithQueue(ann: AnnotationMap)
    requires ann.Keys == {HealthChecksKey, HealthChecksMandatoryKey, HealthChecksMandatoryQueueKey}
    requires ann[HealthChecksKey] == "true" && IsBool(ann[HealthChecksMandatoryKey])
    ensures var errs := ValidateIngressAnnotations(ann, true, AnnotationsRoot);
      var middle, q := ann[HealthChecksMandatoryKey], ann[HealthChecksMandatoryQueueKey];
      var path := AnnotationPath(HealthChecksMandatoryQueueKey);
      && (!IsNonNegativeInt(q) ==> errs == [InvalidError(path, q, "must be a non-negative integer")])
      && (IsNonNegativeInt(q) && middle == "true" ==> errs == [])
      && (IsNonNegativeInt(q) && middle != "true" ==>
            errs == [ForbiddenError(path, ParentNotTrueDetail(HealthChecksMandatoryKey))])
  {
    QueueOnlyReported(ann);
    if IsNonNegativeInt(ann[HealthChecksMandatoryQueueKey]) {
      QueueLevel(ann, AnnotationsRoot);
    } else {
      QueueValue(ann, AnnotationsRoot);
    }
  }

  /** The nginx.com/health-checks-mandatory-queue rows of the Plus table. */
  lemma QueueCases()
    ensures ValidateIngressAnnotations(
              map[HealthChecksKey := "true", HealthChecksMandatoryKey := "true",
                  HealthChecksMandatoryQueueKey := "5"], true, AnnotationsRoot) == []
    ensures ValidateIngressAnnotations(
              map[HealthChecksKey := "true", HealthChecksMandatoryKey := "true",
                  HealthChecksMandatoryQueueKey := "not_a_number"], true, AnnotationsRoot)
         == [InvalidError(AnnotationPath(HealthChecksMandatoryQueueKey), "not_a_number", "must be a non-negative integer")]
    ensures ValidateIngressAnnotations(
              map[HealthChecksKey := "true", HealthChecksMandatoryKey := "false",
                  HealthChecksMandatoryQueueKey := "5"], true, AnnotationsRoot)
         == [ForbiddenError(AnnotationPath(HealthChecksMandatoryQueueKey),
                            ParentNotTrueDetail(HealthChecksMandatoryKey))]
  {
    BoolExamples();
    NumberExamples();
    TableKeyOrder(0, 1);
    TableKeyOrder(1, 2);
    TripleMap(HealthChecksKey, "true", HealthChecksMandatoryKey, "true", HealthChecksMandatoryQueueKey, "5");
    ChainWithQueue(map[HealthChecksKey := "true", HealthChecksMandatoryKey := "true", HealthChecksMandatoryQueueKey := "5"]);
    TripleMap(HealthChecksKey, "true", HealthChecksMandatoryKey, "true", HealthChecksMandatoryQueueKey, "not_a_number");
    ChainWithQueue(map[HealthChecksKey := "true", HealthChecksMandatoryKey := "true",
                       HealthChecksMandatoryQueueKey := "not_a_number"]);
    TripleMap(HealthChecksKey, "true", HealthChecksMandatoryKey, "false", HealthChecksMandatoryQueueKey, "5");
    ChainWithQueue(map[HealthChecksKey := "true", HealthChecksMandatoryKey := "false", HealthChecksMandatoryQueueKey := "5"]);
  }
}
