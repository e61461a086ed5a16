/**
 * The annotation validators: one rule per recognised annotation key, some of
 * them reserved to the NGINX Plus tier and some depending on the raw value of
 * another annotation, and the annotation-set validator that runs them all and
 * reports the errors sorted by annotation key.
 */
module Annotations {
  import opened FieldErrors

  /** The annotations of an Ingress: an unordered string-to-string mapping. */
  type AnnotationMap = map<string, string>

  const HealthChecksKey := "nginx.com/health-checks"
  const HealthChecksMandatoryKey := "nginx.com/health-checks-mandatory"
  const HealthChecksMandatoryQueueKey := "nginx.com/health-checks-mandatory-queue"
  const SlowStartKey := "nginx.com/slow-start"
  const LBMethodKey := "nginx.org/lb-method"
  const LocationSnippetsKey := "nginx.org/location-snippets"
  const MergeableIngressTypeKey := "nginx.org/mergeable-ingress-type"
  const ServerSnippetsKey := "nginx.org/server-snippets"
  const ServerTokensKey := "nginx.org/server-tokens"

  const PlusRequired := "annotation requires NGINX Plus"

  // ---------------------------------------------------------------------------
  // Value grammars
  // ---------------------------------------------------------------------------

  /** The literals Go's strconv.ParseBool accepts. */
  const BoolLiterals: set<string> :=
    {"1", "t", "T", "TRUE", "true", "True", "0", "f", "F", "FALSE", "false", "False"}

  predicate IsBool(s: string) { s in BoolLiterals }

  /** A non-negative decimal integer: one or more ASCII digits. */
  predicate IsNonNegativeInt(s: string) { s != [] && AllDigits(s) }

  /** The number of leading decimal digits of s. */
  function DigitRun(s: string): (n: nat)
    ensures n <= |s| && AllDigits(s[..n]) && (n < |s| ==> !IsDigit(s[n]))
  {
    if s == [] || !IsDigit(s[0]) then 0
    else
      var n := 1 + DigitRun(s[1..]);
      assert s[..n] == [s[0]] + s[1..][..n - 1];
      n
  }

  /** The length of the time unit s starts with (`ms`, or one of s m h d w M y), or 0. */
  function UnitLength(s: string): (n: nat)
    ensures n <= |s|
  {
    if |s| >= 2 && s[..2] == "ms" then 2
    else if s != [] && s[0] in "smhdwMy" then 1
    else 0
  }

  /**
   * An nginx time literal: one or more groups of digits, each with an optional
   * unit, optionally separated by single spaces (`60s`, `1h 30m`, `500ms`).
   */
  predicate IsTime(s: string)
    decreases |s|
  {
    var n := DigitRun(s);
    n > 0 &&
      var rest := s[n..];
      var tail := rest[UnitLength(rest)..];
      tail == [] || IsTime(if tail[0] == ' ' then tail[1..] else tail)
  }

  /** Load-balancing methods of the base tier. */
  const BaseLBMethods: set<string> :=
    {"round_robin", "least_conn", "ip_hash", "random", "random two", "random two least_conn"}

  /** Load-balancing methods of the Plus tier: the base ones and the time-based ones. */
  const PlusLBMethods: set<string> := BaseLBMethods +
    {"least_time header", "least_time last_byte", "least_time header inflight",
     "least_time last_byte inflight", "random two least_time=header", "random two least_time=last_byte"}

  predicate IsLBMethod(s: string, isPlus: bool)
  {
    if isPlus then s in PlusLBMethods else s in BaseLBMethods
  }

  /** The detail of a rejected load-balancing method: the method, quoted. */
  function LBMethodDetail(lbMethod: string): string
  {
    "Invalid load balancing method: \"" + lbMethod + "\""
  }

  /** The base-tier methods are a strict subset of the Plus-tier methods. */
  lemma LBMethodTiers()
    ensures BaseLBMethods < PlusLBMethods
    ensures forall s :: IsLBMethod(s, false) ==> IsLBMethod(s, true)
    ensures IsLBMethod("least_time header", true) && !IsLBMethod("least_time header", false)
  {
    assert "least_time header" in PlusLBMethods - BaseLBMethods;
  }

  // ---------------------------------------------------------------------------
  // The static rule table
  // ---------------------------------------------------------------------------

  /** What a rule demands of the annotation's own value. */
  datatype ValueKind = LBMethod | MergeableType | Boolean | NonNegativeInt | Time | ServerTokens | Snippets

  /** A rule may depend on another annotation being set to `true`. */
  datatype Dependency = NoDependency | DependsOn(parent: string)

  datatype Rule = Rule(key: string, plusOnly: bool, kind: ValueKind, dependency: Dependency)

  /** One rule per recognised annotation key, in increasing key order. */
  const RuleTable: seq<Rule> := [
    Rule(HealthChecksKey, true, Boolean, NoDependency),
    Rule(HealthChecksMandatoryKey, true, Boolean, DependsOn(HealthChecksKey)),
    Rule(HealthChecksMandatoryQueueKey, true, NonNegativeInt, DependsOn(HealthChecksMandatoryKey)),
    Rule(SlowStartKey, true, Time, NoDependency),
    Rule(LBMethodKey, false, LBMethod, NoDependency),
    Rule(LocationSnippetsKey, false, Snippets, NoDependency),
    Rule(MergeableIngressTypeKey, false, MergeableType, NoDependency),
    Rule(ServerSnippetsKey, false, Snippets, NoDependency),
    Rule(ServerTokensKey, false, ServerTokens, NoDependency)
  ]

  predicate IsKnownKey(k: string) { exists r :: r in RuleTable && r.key == k }

  predicate IsPlusOnlyKey(k: string) { exists r :: r in RuleTable && r.key == k && r.plusOnly }

  // ---------------------------------------------------------------------------
  // One rule
  // ---------------------------------------------------------------------------

  /** The check of a value against its kind alone (no tier gate, no dependency). */
  function CheckValue(kind: ValueKind, value: string, isPlus: bool, path: Path): (errs: ErrorList)
    ensures |errs| <= 1
    ensures forall e :: e in errs ==> e.path == path && e.kind in {Required, Invalid}
    ensures forall e :: e in errs ==> e.detail != PlusRequired
  {
    match kind
    case LBMethod =>
      if IsLBMethod(value, isPlus) then []
      else [InvalidError(path, value, LBMethodDetail(value))]
    case MergeableType =>
      if value == "" then [RequiredError(path, "")]
      else if value != "master" && value != "minion" then [InvalidError(path, value, "must be one of: 'master' or 'minion'")]
      else []
    case Boolean =>
      if IsBool(value) then [] else [InvalidError(path, value, "must be a valid boolean")]
    case NonNegativeInt =>
      if IsNonNegativeInt(value) then [] else [InvalidError(path, value, "must be a non-negative integer")]
    case Time =>
      if IsTime(value) then [] else [InvalidError(path, value, "must be a valid time")]
    case ServerTokens =>
      // On Plus the value may be any string (a custom header value).
      if isPlus || IsBool(value) then [] else [InvalidError(path, value, "must be a valid boolean")]
    case Snippets =>
      []
  }

  /** The detail of a dependent annotation whose parent annotation is absent. */
  function ParentUnsetDetail(parent: string): string
  {
    "related annotation " + parent + ": must be set"
  }

  /** The detail of a dependent annotation whose parent is present but not exactly `true`. */
  function ParentNotTrueDetail(parent: string): string
  {
    "related annotation " + parent + ": must be true"
  }

  /**
   * The check of one present annotation once its tier allows it: the value's
   * own check first, and only when that passes, the raw value of the
   * annotation it depends on, which must be set and be exactly `true`.
   */
  function CheckUngated(rule: Rule, value: string, annotations: AnnotationMap, isPlus: bool, base: Path): (errs: ErrorList)
    ensures |errs| <= 1
    ensures forall e :: e in errs ==> e.path == base + [Child(rule.key)] && ErrorKey(e) == rule.key
    ensures forall e :: e in errs ==> e.detail != PlusRequired
  {
    var path := base + [Child(rule.key)];
    var valueErrs := CheckValue(rule.kind, value, isPlus, path);
    if valueErrs != [] then valueErrs
    else
      match rule.dependency
      case NoDependency => []
      case DependsOn(parent) =>
        if parent !in annotations then [ForbiddenError(path, ParentUnsetDetail(parent))]
        else if annotations[parent] != "true" then [ForbiddenError(path, ParentNotTrueDetail(parent))]
        else []
  }

  /** The check of one present annotation: the tier gate first, then CheckUngated. */
  function CheckRule(rule: Rule, value: string, annotations: AnnotationMap, isPlus: bool, base: Path): (errs: ErrorList)
    ensures |errs| <= 1
    ensures forall e :: e in errs ==> e.path == base + [Child(rule.key)] && ErrorKey(e) == rule.key
  {
    var path := base + [Child(rule.key)];
    assert ErrorKey(ForbiddenError(path, PlusRequired)) == rule.key;
    if rule.plusOnly && !isPlus then [ForbiddenError(path, PlusRequired)]
    else CheckUngated(rule, value, annotations, isPlus, base)
  }

  // ---------------------------------------------------------------------------
  // The annotation set
  // ---------------------------------------------------------------------------

  /** The annotation key an error is reported under: its path's last child name. */
  function ErrorKey(e: FieldError): string
  {
    if e.path != [] && e.path[|e.path| - 1].Child? then e.path[|e.path| - 1].name else ""
  }

  /** Runs the given rules, in order, on the annotations that are present. */
  function ValidateRules(rules: seq<Rule>, annotations: AnnotationMap, isPlus: bool, base: Path): (errs: ErrorList)
    ensures forall e :: e in errs ==>
      e.path == base + [Child(ErrorKey(e))] && ErrorKey(e) in annotations &&
      exists n :: 0 <= n < |rules| && rules[n].key == ErrorKey(e)
  {
    if rules == [] then []
    else
      var r := rules[0];
      var head := if r.key in annotations then CheckRule(r, annotations[r.key], annotations, isPlus, base) else [];
      head + ValidateRules(rules[1..], annotations, isPlus, base)
  }

  /**
   * validateIngressAnnotations: every recognised annotation that is present is
   * checked; unrecognised keys are ignored; errors come out sorted by key.
   */
  function ValidateIngressAnnotations(annotations: AnnotationMap, isPlus: bool, base: Path): (errs: ErrorList)
    ensures forall e :: e in errs ==> e.path == base + [Child(ErrorKey(e))] && ErrorKey(e) in annotations
  {
    ValidateRules(RuleTable, annotations, isPlus, base)
  }

  // ---------------------------------------------------------------------------
  // Key order
  // ---------------------------------------------------------------------------

  /** Strict lexicographic order on keys (Go's string comparison). */
  predicate KeyLess(a: string, b: string)
  {
    LessFrom(a, b, 0)
  }

  /** a is below b when both are compared from position i on. */
  predicate LessFrom(a: string, b: string, i: nat)
    decreases |b| - i
  {
    if i >= |b| then false
    else if i >= |a| then true
    else if a[i] != b[i] then a[i] < b[i]
    else LessFrom(a, b, i + 1)
  }

  lemma {:induction false} LessFromIrreflexive(a: string, i: nat)
    ensures !LessFrom(a, a, i)
    decreases |a| - i
  {
    if i < |a| { LessFromIrreflexive(a, i + 1); }
  }

  lemma {:induction false} LessFromTransitive(a: string, b: string, c: string, i: nat)
    requires LessFrom(a, b, i) && LessFrom(b, c, i)
    ensures LessFrom(a, c, i)
    decreases |b| - i
  {
    if i < |a| && a[i] == b[i] && b[i] == c[i] {
      LessFromTransitive(a, b, c, i + 1);
    }
  }

  lemma KeyLessIrreflexive(a: string)
    ensures !KeyLess(a, a)
  {
    LessFromIrreflexive(a, 0);
  }

  lemma KeyLessTransitive(a: string, b: string, c: string)
    requires KeyLess(a, b) && KeyLess(b, c)
    ensures KeyLess(a, c)
  {
    LessFromTransitive(a, b, c, 0);
  }

  /** Keys that agree on positions i..k-1 and then differ upward at k are ordered. */
  lemma {:induction false} LessAt(a: string, b: string, i: nat, k: nat)
    requires i <= k < |b| && k <= |a|
    requires forall j :: i <= j < k ==> a[j] == b[j]
    requires k == |a| || a[k] < b[k]
    ensures LessFrom(a, b, i)
    decreases k - i
  {
    if i < k { LessAt(a, b, i + 1, k); }
  }

  ghost predicate StrictlySortedKeys(rules: seq<Rule>)
  {
    forall i, j :: 0 <= i < j < |rules| ==> KeyLess(rules[i].key, rules[j].key)
  }

  /** Each key of the rule table is below the next one. */
  lemma RuleTableNeighbours()
    ensures forall k :: 0 <= k < |RuleTable| - 1 ==> KeyLess(RuleTable[k].key, RuleTable[k + 1].key)
  {
    forall k | 0 <= k < |RuleTable| - 1
      ensures KeyLess(RuleTable[k].key, RuleTable[k + 1].key)
    {
      if k == 0 {
        HealthChecksKeyBelowNext();
      } else if k == 1 {
        MandatoryKeyBelowNext();
      } else if k == 2 {
        QueueKeyBelowNext();
      } else if k == 3 {
        SlowStartKeyBelowNext();
      } else if k == 4 {
        LBMethodKeyBelowNext();
      } else if k == 5 {
        LocationSnippetsKeyBelowNext();
      } else if k == 6 {
        MergeableTypeKeyBelowNext();
      } else {
        ServerSnippetsKeyBelowNext();
      }
    }
  }

  // Each LessAt call below names the first position at which the two keys differ.

  lemma HealthChecksKeyBelowNext()
    ensures KeyLess(HealthChecksKey, HealthChecksMandatoryKey)
  {
    LessAt(HealthChecksKey, HealthChecksMandatoryKey, 0, 23);
  }

  lemma MandatoryKeyBelowNext()
    ensures KeyLess(HealthChecksMandatoryKey, HealthChecksMandatoryQueueKey)
  {
    LessAt(HealthChecksMandatoryKey, HealthChecksMandatoryQueueKey, 0, 33);
  }

  lemma QueueKeyBelowNext()
    ensures KeyLess(HealthChecksMandatoryQueueKey, SlowStartKey)
  {
    LessAt(HealthChecksMandatoryQueueKey, SlowStartKey, 0, 10);
  }

  lemma SlowStartKeyBelowNext()
    ensures KeyLess(SlowStartKey, LBMethodKey)
  {
    LessAt(SlowStartKey, LBMethodKey, 0, 6);
  }

  lemma LBMethodKeyBelowNext()
    ensures KeyLess(LBMethodKey, LocationSnippetsKey)
  {
    LessAt(LBMethodKey, LocationSnippetsKey, 0, 11);
  }

  lemma LocationSnippetsKeyBelowNext()
    ensures KeyLess(LocationSnippetsKey, MergeableIngressTypeKey)
  {
    LessAt(LocationSnippetsKey, MergeableIngressTypeKey, 0, 10);
  }

  lemma MergeableTypeKeyBelowNext()
    ensures KeyLess(MergeableIngressTypeKey, ServerSnippetsKey)
  {
    LessAt(MergeableIngressTypeKey, ServerSnippetsKey, 0, 10);
  }

  lemma ServerSnippetsKeyBelowNext()
    ensures KeyLess(ServerSnippetsKey, ServerTokensKey)
  {
    LessAt(ServerSnippetsKey, ServerTokensKey, 0, 17);
  }

  /** The rule table lists its keys in strictly increasing order. */
  lemma RuleTableSorted()
    ensures StrictlySortedKeys(RuleTable)
  {
    RuleTableNeighbours();
    forall i, j | 0 <= i < j < |RuleTable|
      ensures KeyLess(RuleTable[i].key, RuleTable[j].key)
    {
      NeighboursChain(RuleTable, i, j);
    }
  }

  /** Any two keys of the rule table are ordered as their positions are. */
  lemma TableKeyOrder(i: nat, j: nat)
    requires i < j < |RuleTable|
    ensures KeyLess(RuleTable[i].key, RuleTable[j].key)
  {
    RuleTableSorted();
  }

  /** Ordered neighbours give ordered pairs, by transitivity. */
  lemma {:induction false} NeighboursChain(rules: seq<Rule>, i: nat, j: nat)
    requires i < j < |rules|
    requires forall k :: 0 <= k < |rules| - 1 ==> KeyLess(rules[k].key, rules[k + 1].key)
    ensures KeyLess(rules[i].key, rules[j].key)
  {
    if j > i + 1 {
      NeighboursChain(rules, i, j - 1);
      KeyLessTransitive(rules[i].key, rules[j - 1].key, rules[j].key);
    }
  }

  // ---------------------------------------------------------------------------
  // Properties of the annotation-set validator
  // ---------------------------------------------------------------------------

  /** The errors of a list reported under annotation key k, in list order. */
  function KeyErrors(errs: ErrorList, k: string): (r: ErrorList)
    ensures |r| <= |errs|
  {
    if errs == [] then []
    else (if ErrorKey(errs[0]) == k then [errs[0]] else []) + KeyErrors(errs[1..], k)
  }

  /** The errors reported under k are exactly the errors of the list whose key is k. */
  lemma {:induction false} KeyErrorsMembers(errs: ErrorList, k: string)
    ensures forall e :: e in KeyErrors(errs, k) <==> e in errs && ErrorKey(e) == k
  {
    if errs != [] {
      KeyErrorsMembers(errs[1..], k);
      assert errs == [errs[0]] + errs[1..];
    }
  }

  /** Every error of a list is reported under its own key. */
  lemma KeyErrorsMember(errs: ErrorList, e: FieldError)
    requires e in errs
    ensures e in KeyErrors(errs, ErrorKey(e))
  {
    KeyErrorsMembers(errs, ErrorKey(e));
  }

  lemma {:induction false} KeyErrorsAppend(a: ErrorList, b: ErrorList, k: string)
    ensures KeyErrors(a + b, k) == KeyErrors(a, k) + KeyErrors(b, k)
  {
    if a == [] {
      assert a + b == b;
    } else {
      assert (a + b)[1..] == a[1..] + b;
      KeyErrorsAppend(a[1..], b, k);
      var h := if ErrorKey(a[0]) == k then [a[0]] else [];
      calc {
        KeyErrors(a + b, k);
        h + KeyErrors(a[1..] + b, k);
        h + (KeyErrors(a[1..], k) + KeyErrors(b, k));
        (h + KeyErrors(a[1..], k)) + KeyErrors(b, k);
      }
    }
  }

  /** Errors sorted by strictly increasing annotation key. */
  ghost predicate SortedByKey(errs: ErrorList)
  {
    forall i, j :: 0 <= i < j < |errs| ==> KeyLess(ErrorKey(errs[i]), ErrorKey(errs[j]))
  }

  /** An error list with no error under key k reports nothing under k. */
  lemma KeyErrorsNone(errs: ErrorList, k: string)
    requires forall e :: e in errs ==> ErrorKey(e) != k
    ensures KeyErrors(errs, k) == []
  {
  }

  /** Prepending at most one error under a key below all of a sorted list's keys keeps it sorted. */
  lemma SortedPrepend(head: ErrorList, tail: ErrorList, k: string)
    requires |head| <= 1 && forall e :: e in head ==> ErrorKey(e) == k
    requires SortedByKey(tail) && forall e :: e in tail ==> KeyLess(k, ErrorKey(e))
    ensures SortedByKey(head + tail)
  {
    var errs := head + tail;
    forall i, j | 0 <= i < j < |errs|
      ensures KeyLess(ErrorKey(errs[i]), ErrorKey(errs[j]))
    {
      if i < |head| {
        assert errs[i] in head && errs[j] in tail;
      } else {
        assert errs[i] == tail[i - |head|] && errs[j] == tail[j - |head|];
      }
    }
  }

  lemma {:induction false} ValidateRulesSorted(rules: seq<Rule>, annotations: AnnotationMap, isPlus: bool, base: Path)
    requires StrictlySortedKeys(rules)
    ensures SortedByKey(ValidateRules(rules, annotations, isPlus, base))
  {
    if rules != [] {
      var r := rules[0];
      var head := if r.key in annotations then CheckRule(r, annotations[r.key], annotations, isPlus, base) else [];
      var tail := ValidateRules(rules[1..], annotations, isPlus, base);
      ValidateRulesSorted(rules[1..], annotations, isPlus, base);
      forall e | e in tail ensures KeyLess(r.key, ErrorKey(e)) {
        var m :| 0 <= m < |rules| - 1 && rules[1..][m].key == ErrorKey(e);
        assert KeyLess(r.key, rules[m + 1].key);
      }
      SortedPrepend(head, tail, r.key);
    }
  }

  /** What one rule reports under key k: all of its errors when k is its key, none otherwise. */
  lemma KeyErrorsOfRule(r: Rule, annotations: AnnotationMap, isPlus: bool, base: Path, k: string)
    ensures var head := if r.key in annotations then CheckRule(r, annotations[r.key], annotations, isPlus, base) else [];
      KeyErrors(head, k) == if k == r.key then head else []
  {
    var head := if r.key in annotations then CheckRule(r, annotations[r.key], annotations, isPlus, base) else [];
    if head != [] {
      assert head == [head[0]] && head[0] in head;
    }
  }

  /** In a strictly sorted table, no rule after the first reports under the first rule's key. */
  lemma LaterRulesOtherKeys(rules: seq<Rule>, annotations: AnnotationMap, isPlus: bool, base: Path)
    requires StrictlySortedKeys(rules) && rules != []
    ensures forall e :: e in ValidateRules(rules[1..], annotations, isPlus, base) ==> ErrorKey(e) != rules[0].key
  {
    var k := rules[0].key;
    KeyLessIrreflexive(k);
    forall e | e in ValidateRules(rules[1..], annotations, isPlus, base) ensures ErrorKey(e) != k {
      var m :| 0 <= m < |rules| - 1 && rules[1..][m].key == ErrorKey(e);
      assert KeyLess(k, rules[m + 1].key);
    }
  }

  lemma {:induction false} ValidateRulesPerKey(rules: seq<Rule>, annotations: AnnotationMap, isPlus: bool, base: Path, n: nat)
    requires StrictlySortedKeys(rules) && n < |rules|
    ensures var r := rules[n];
      KeyErrors(ValidateRules(rules, annotations, isPlus, base), r.key)
      == if r.key in annotations then CheckRule(r, annotations[r.key], annotations, isPlus, base) else []
  {
    var r := rules[0];
    var head := if r.key in annotations then CheckRule(r, annotations[r.key], annotations, isPlus, base) else [];
    var tail := ValidateRules(rules[1..], annotations, isPlus, base);
    var k := rules[n].key;
    assert ValidateRules(rules, annotations, isPlus, base) == head + tail;
    KeyErrorsAppend(head, tail, k);
    KeyErrorsOfRule(r, annotations, isPlus, base, k);
    if n == 0 {
      LaterRulesOtherKeys(rules, annotations, isPlus, base);
      KeyErrorsNone(tail, k);
    } else {
      assert k != r.key by {
        assert KeyLess(r.key, k);
        KeyLessIrreflexive(k);
      }
      ValidateRulesPerKey(rules[1..], annotations, isPlus, base, n - 1);
    }
  }

  /**
   * The annotation errors are sorted by annotation key, whatever the mapping,
   * and no key is reported twice.
   */
  lemma AnnotationErrorsSorted(annotations: AnnotationMap, isPlus: bool, base: Path)
    ensures var errs := ValidateIngressAnnotations(annotations, isPlus, base);
      SortedByKey(errs) &&
      forall i, j :: 0 <= i < j < |errs| ==> ErrorKey(errs[i]) != ErrorKey(errs[j])
  {
    RuleTableSorted();
    ValidateRulesSorted(RuleTable, annotations, isPlus, base);
    var errs := ValidateIngressAnnotations(annotations, isPlus, base);
    forall i, j | 0 <= i < j < |errs| ensures ErrorKey(errs[i]) != ErrorKey(errs[j]) {
      KeyLessIrreflexive(ErrorKey(errs[i]));
    }
  }

  /**
   * What is reported under each key: the key's own rule's verdict when the key
   * is present, nothing otherwise (and nothing for unrecognised keys).
   */
  lemma AnnotationErrorsPerKey(annotations: AnnotationMap, isPlus: bool, base: Path, k: string)
    ensures var errs := KeyErrors(ValidateIngressAnnotations(annotations, isPlus, base), k);
      (k !in annotations || !IsKnownKey(k) ==> errs == []) &&
      forall r :: r in RuleTable && r.key == k && k in annotations ==>
        errs == CheckRule(r, annotations[k], annotations, isPlus, base)
  {
    var all := ValidateIngressAnnotations(annotations, isPlus, base);
    var errs := KeyErrors(all, k);
    if k !in annotations || !IsKnownKey(k) {
      forall e | e in all ensures ErrorKey(e) != k {
        var n :| 0 <= n < |RuleTable| && RuleTable[n].key == ErrorKey(e);
        assert RuleTable[n] in RuleTable;
      }
      KeyErrorsNone(all, k);
    }
    RuleTableSorted();
    forall r | r in RuleTable && r.key == k && k in annotations
      ensures errs == CheckRule(r, annotations[k], annotations, isPlus, base)
    {
      var n :| 0 <= n < |RuleTable| && RuleTable[n] == r;
      ValidateRulesPerKey(RuleTable, annotations, isPlus, base, n);
    }
  }

  /** What a list with head e reports under k: e if it is under k, then the tail's. */
  lemma KeyErrorsCons(e: FieldError, tail: ErrorList, k: string)
    ensures KeyErrors([e] + tail, k) == (if ErrorKey(e) == k then [e] else []) + KeyErrors(tail, k)
  {
    assert ([e] + tail)[1..] == tail;
  }

  /** Rules none of whose keys is present report nothing. */
  lemma {:induction false} ValidateRulesAbsent(rules: seq<Rule>, annotations: AnnotationMap, isPlus: bool, base: Path)
    requires forall r :: r in rules ==> r.key !in annotations
    ensures ValidateRules(rules, annotations, isPlus, base) == []
  {
    if rules != [] {
      assert rules[0] in rules;
      assert forall r :: r in rules[1..] ==> r in rules;
      ValidateRulesAbsent(rules[1..], annotations, isPlus, base);
    }
  }

  /** An Ingress without annotations has no annotation errors. */
  lemma NoAnnotationsNoErrors(isPlus: bool, base: Path)
    ensures ValidateIngressAnnotations(map[], isPlus, base) == []
  {
    ValidateRulesAbsent(RuleTable, map[], isPlus, base);
  }

  /** A list whose every error is under key k is exactly what it reports under k. */
  lemma {:induction false} KeyErrorsAll(errs: ErrorList, k: string)
    requires forall e :: e in errs ==> ErrorKey(e) == k
    ensures KeyErrors(errs, k) == errs
  {
    if errs != [] {
      assert errs[0] in errs;
      assert forall e :: e in errs[1..] ==> e in errs;
      KeyErrorsAll(errs[1..], k);
      assert errs == [errs[0]] + errs[1..];
      KeyErrorsCons(errs[0], errs[1..], k);
    }
  }

  /**
   * In a key-sorted list under two keys k1 < k2, the errors under k1 come
   * first: an error under k2 can only be the last one.
   */
  lemma SortedTwoKeysBoundary(errs: ErrorList, k1: string, k2: string) returns (m: nat)
    requires SortedByKey(errs) && KeyLess(k1, k2)
    requires forall e :: e in errs ==> ErrorKey(e) == k1 || ErrorKey(e) == k2
    ensures m <= |errs|
    ensures forall i :: 0 <= i < m ==> ErrorKey(errs[i]) == k1
    ensures forall i :: m <= i < |errs| ==> ErrorKey(errs[i]) == k2
  {
    if forall i :: 0 <= i < |errs| ==> ErrorKey(errs[i]) == k1 {
      m := |errs|;
    } else {
      m :| 0 <= m < |errs| && ErrorKey(errs[m]) != k1;
      assert errs[m] in errs;
      forall i | 0 <= i < m ensures ErrorKey(errs[i]) == k1 {
        assert errs[i] in errs && KeyLess(ErrorKey(errs[i]), k2);
        KeyLessIrreflexive(k2);
      }
      if |errs| > m + 1 {
        var later := ErrorKey(errs[m + 1]);
        assert errs[m + 1] in errs && KeyLess(k2, later);
        if later == k1 {
          KeyLessTransitive(k1, k2, k1);
          KeyLessIrreflexive(k1);
        } else {
          KeyLessIrreflexive(k2);
        }
      }
    }
  }

  /** A list whose first m errors are under k1 and the rest under k2 splits by key there. */
  lemma SplitAtBoundary(errs: ErrorList, m: nat, k1: string, k2: string)
    requires m <= |errs| && k1 != k2
    requires forall i :: 0 <= i < m ==> ErrorKey(errs[i]) == k1
    requires forall i :: m <= i < |errs| ==> ErrorKey(errs[i]) == k2
    ensures errs == KeyErrors(errs, k1) + KeyErrors(errs, k2)
  {
    var low, high := errs[..m], errs[m..];
    assert errs == low + high;
    KeyErrorsAppend(low, high, k1);
    KeyErrorsAppend(low, high, k2);
    KeyErrorsAll(low, k1);
    KeyErrorsNone(low, k2);
    KeyErrorsAll(high, k2);
    KeyErrorsNone(high, k1);
    assert KeyErrors(errs, k1) == low + [] == low;
    assert KeyErrors(errs, k2) == [] + high == high;
  }

  /** A key-sorted list under two keys k1 < k2 is its k1 errors followed by its k2 errors. */
  lemma SortedTwoKeys(errs: ErrorList, k1: string, k2: string)
    requires SortedByKey(errs) && KeyLess(k1, k2)
    requires forall e :: e in errs ==> ErrorKey(e) == k1 || ErrorKey(e) == k2
    ensures errs == KeyErrors(errs, k1) + KeyErrors(errs, k2)
  {
    assert k1 != k2 by { KeyLessIrreflexive(k1); }
    var m := SortedTwoKeysBoundary(errs, k1, k2);
    SplitAtBoundary(errs, m, k1, k2);
  }

  /** With a single annotation present, every annotation error is under its key. */
  lemma AnnotationErrorsOneKey(annotations: AnnotationMap, isPlus: bool, base: Path, k: string)
    requires annotations.Keys == {k}
    ensures ValidateIngressAnnotations(annotations, isPlus, base)
         == KeyErrors(ValidateIngressAnnotations(annotations, isPlus, base), k)
  {
    KeyErrorsAll(ValidateIngressAnnotations(annotations, isPlus, base), k);
  }

  /** With two annotations present, the lower key's errors come before the higher key's. */
  lemma AnnotationErrorsTwoKeys(annotations: AnnotationMap, isPlus: bool, base: Path, k1: string, k2: string)
    requires annotations.Keys == {k1, k2} && KeyLess(k1, k2)
    ensures var errs := ValidateIngressAnnotations(annotations, isPlus, base);
      errs == KeyErrors(errs, k1) + KeyErrors(errs, k2)
  {
    AnnotationErrorsSorted(annotations, isPlus, base);
    SortedTwoKeys(ValidateIngressAnnotations(annotations, isPlus, base), k1, k2);
  }

  /**
   * With two annotations present, the errors are the lower key's errors
   * followed by the higher key's.
   */
  lemma TwoKeyErrors(annotations: AnnotationMap, isPlus: bool, base: Path, k1: string, k2: string,
                     low: ErrorList, high: ErrorList)
    requires annotations.Keys == {k1, k2} && KeyLess(k1, k2)
    requires KeyErrors(ValidateIngressAnnotations(annotations, isPlus, base), k1) == low
    requires KeyErrors(ValidateIngressAnnotations(annotations, isPlus, base), k2) == high
    ensures ValidateIngressAnnotations(annotations, isPlus, base) == low + high
  {
    AnnotationErrorsTwoKeys(annotations, isPlus, base, k1, k2);
  }

  /**
   * When the only other keys present are a and b and neither reports anything,
   * the annotation errors are exactly those under k (absent keys never report).
   */
  lemma OnlyKeyReported(annotations: AnnotationMap, isPlus: bool, base: Path, k: string, a: string, b: string)
    requires annotations.Keys <= {k, a, b}
    requires KeyErrors(ValidateIngressAnnotations(annotations, isPlus, base), a) == []
    requires KeyErrors(ValidateIngressAnnotations(annotations, isPlus, base), b) == []
    ensures ValidateIngressAnnotations(annotations, isPlus, base)
         == KeyErrors(ValidateIngressAnnotations(annotations, isPlus, base), k)
  {
    var errs := ValidateIngressAnnotations(annotations, isPlus, base);
    forall e | e in errs ensures ErrorKey(e) == k {
      // e is reported under its own key, which is present and so is k, a or b;
      // a and b report nothing.
      var key := ErrorKey(e);
      assert key in annotations.Keys;
      assert key == k || key == a || key == b;
      KeyErrorsMember(errs, e);
    }
    KeyErrorsAll(errs, k);
  }

  /** The errors under the n-th rule's key: that rule's verdict, if the key is present. */
  lemma RuleAt(annotations: AnnotationMap, isPlus: bool, base: Path, n: nat)
    requires n < |RuleTable|
    ensures var r := RuleTable[n];
      KeyErrors(ValidateIngressAnnotations(annotations, isPlus, base), r.key)
      == if r.key in annotations then CheckRule(r, annotations[r.key], annotations, isPlus, base) else []
  {
    RuleTableSorted();
    ValidateRulesPerKey(RuleTable, annotations, isPlus, base, n);
  }

  /**
   * A present annotation whose rule has no dependency and whose tier allows it
   * reports exactly what its value check reports.
   */
  lemma IndependentRule(annotations: AnnotationMap, isPlus: bool, base: Path, n: nat, k: string, kind: ValueKind)
    requires n < |RuleTable| && RuleTable[n].key == k && RuleTable[n].kind == kind
    requires RuleTable[n].dependency == NoDependency && (isPlus || !RuleTable[n].plusOnly)
    requires k in annotations
    ensures KeyErrors(ValidateIngressAnnotations(annotations, isPlus, base), k)
         == CheckValue(kind, annotations[k], isPlus, base + [Child(k)])
  {
    RuleAt(annotations, isPlus, base, n);
  }

  /**
   * Tier gating: on the base tier a present Plus-only annotation yields exactly
   * one error, Forbidden "annotation requires NGINX Plus"; otherwise (Plus, or a
   * key that is not gated) the annotation is checked as if there were no gate,
   * so on Plus no error carries that detail.
   */
  lemma TierGating(annotations: AnnotationMap, isPlus: bool, base: Path, r: Rule)
    requires r in RuleTable && r.key in annotations
    ensures var errs := KeyErrors(ValidateIngressAnnotations(annotations, isPlus, base), r.key);
      && (r.plusOnly && !isPlus ==> errs == [ForbiddenError(base + [Child(r.key)], PlusRequired)])
      && (!r.plusOnly || isPlus ==> errs == CheckUngated(r, annotations[r.key], annotations, isPlus, base))
  {
    AnnotationErrorsPerKey(annotations, isPlus, base, r.key);
  }

  /** On Plus no annotation error is a tier error; on the base tier only gated keys get one. */
  lemma TierErrorsOnlyForGatedKeys(annotations: AnnotationMap, isPlus: bool, base: Path)
    ensures forall e :: e in ValidateIngressAnnotations(annotations, isPlus, base) && e.detail == PlusRequired ==>
      !isPlus && IsPlusOnlyKey(ErrorKey(e))
  {
    forall e | e in ValidateIngressAnnotations(annotations, isPlus, base) && e.detail == PlusRequired
      ensures !isPlus && IsPlusOnlyKey(ErrorKey(e))
    {
      var k := ErrorKey(e);
      AnnotationErrorsPerKey(annotations, isPlus, base, k);
      KeyErrorsMember(ValidateIngressAnnotations(annotations, isPlus, base), e);
      var r :| r in RuleTable && r.key == k;
      assert e in CheckRule(r, annotations[k], annotations, isPlus, base);
    }
  }

  /**
   * A dependent annotation on Plus: its own value check comes first; only when
   * that passes is the parent consulted: absent gives "must be set", present
   * but not exactly `true` gives "must be true", `true` gives no error.
   */
  lemma DependencyRule(annotations: AnnotationMap, base: Path, r: Rule)
    requires r in RuleTable && r.key in annotations && r.dependency.DependsOn?
    ensures var errs := KeyErrors(ValidateIngressAnnotations(annotations, true, base), r.key);
      var path := base + [Child(r.key)];
      var parent := r.dependency.parent;
      var own := CheckValue(r.kind, annotations[r.key], true, path);
      && (own != [] ==> errs == own)
      && (own == [] && parent !in annotations ==>
            errs == [ForbiddenError(path, ParentUnsetDetail(parent))])
      && (own == [] && parent in annotations && annotations[parent] != "true" ==>
            errs == [ForbiddenError(path, ParentNotTrueDetail(parent))])
      && (own == [] && parent in annotations && annotations[parent] == "true" ==> errs == [])
  {
    var n :| 0 <= n < |RuleTable| && RuleTable[n] == r;
    RuleAt(annotations, true, base, n);
  }

  /**
   * nginx.com/health-checks-mandatory on Plus: a boolean value is reported only
   * for its parent nginx.com/health-checks, which must be set and be `true`.
   */
  lemma MandatoryLevel(annotations: AnnotationMap, base: Path)
    requires HealthChecksMandatoryKey in annotations && IsBool(annotations[HealthChecksMandatoryKey])
    ensures var errs := KeyErrors(ValidateIngressAnnotations(annotations, true, base), HealthChecksMandatoryKey);
      var path := base + [Child(HealthChecksMandatoryKey)];
      && (HealthChecksKey !in annotations ==>
            errs == [ForbiddenError(path, ParentUnsetDetail(HealthChecksKey))])
      && (HealthChecksKey in annotations && annotations[HealthChecksKey] != "true" ==>
            errs == [ForbiddenError(path, ParentNotTrueDetail(HealthChecksKey))])
      && (HealthChecksKey in annotations && annotations[HealthChecksKey] == "true" ==> errs == [])
  {
    var r := RuleTable[1];
    assert r == Rule(HealthChecksMandatoryKey, true, Boolean, DependsOn(HealthChecksKey));
    assert CheckValue(r.kind, annotations[HealthChecksMandatoryKey], true, base + [Child(HealthChecksMandatoryKey)]) == [];
    DependencyRule(annotations, base, r);
  }

  /**
   * nginx.com/health-checks-mandatory-queue on Plus: a non-negative integer
   * value is reported only for its parent nginx.com/health-checks-mandatory,
   * which must be set and be `true`.
   */
  lemma QueueLevel(annotations: AnnotationMap, base: Path)
    requires HealthChecksMandatoryQueueKey in annotations && IsNonNegativeInt(annotations[HealthChecksMandatoryQueueKey])
    ensures var errs := KeyErrors(ValidateIngressAnnotations(annotations, true, base), HealthChecksMandatoryQueueKey);
      var path := base + [Child(HealthChecksMandatoryQueueKey)];
      && (HealthChecksMandatoryKey !in annotations ==>
            errs == [ForbiddenError(path, ParentUnsetDetail(HealthChecksMandatoryKey))])
      && (HealthChecksMandatoryKey in annotations && annotations[HealthChecksMandatoryKey] != "true" ==>
            errs == [ForbiddenError(path, ParentNotTrueDetail(HealthChecksMandatoryKey))])
      && (HealthChecksMandatoryKey in annotations && annotations[HealthChecksMandatoryKey] == "true" ==> errs == [])
  {
    var r := RuleTable[2];
    assert r == Rule(HealthChecksMandatoryQueueKey, true, NonNegativeInt, DependsOn(HealthChecksMandatoryKey));
    assert CheckValue(r.kind, annotations[HealthChecksMandatoryQueueKey], true, base + [Child(HealthChecksMandatoryQueueKey)]) == [];
    DependencyRule(annotations, base, r);
  }

  /** On Plus a non-boolean nginx.com/health-checks-mandatory is reported for its value, whatever its parent. */
  lemma MandatoryValue(annotations: AnnotationMap, base: Path)
    requires HealthChecksMandatoryKey in annotations && !IsBool(annotations[HealthChecksMandatoryKey])
    ensures KeyErrors(ValidateIngressAnnotations(annotations, true, base), HealthChecksMandatoryKey)
         == [InvalidError(base + [Child(HealthChecksMandatoryKey)], annotations[HealthChecksMandatoryKey], "must be a valid boolean")]
  {
    var r := RuleTable[1];
    var v, path := annotations[HealthChecksMandatoryKey], base + [Child(HealthChecksMandatoryKey)];
    assert r == Rule(HealthChecksMandatoryKey, true, Boolean, DependsOn(HealthChecksKey));
    assert CheckValue(r.kind, v, true, path) == [InvalidError(path, v, "must be a valid boolean")];
    DependencyRule(annotations, base, r);
  }

  /** On Plus a non-numeric nginx.com/health-checks-mandatory-queue is reported for its value, whatever its parent. */
  lemma QueueValue(annotations: AnnotationMap, base: Path)
    requires HealthChecksMandatoryQueueKey in annotations && !IsNonNegativeInt(annotations[HealthChecksMandatoryQueueKey])
    ensures KeyErrors(ValidateIngressAnnotations(annotations, true, base), HealthChecksMandatoryQueueKey)
         == [InvalidError(base + [Child(HealthChecksMandatoryQueueKey)], annotations[HealthChecksMandatoryQueueKey],
                          "must be a non-negative integer")]
  {
    var r := RuleTable[2];
    var v, path := annotations[HealthChecksMandatoryQueueKey], base + [Child(HealthChecksMandatoryQueueKey)];
    assert r == Rule(HealthChecksMandatoryQueueKey, true, NonNegativeInt, DependsOn(HealthChecksMandatoryKey));
    assert CheckValue(r.kind, v, true, path) == [InvalidError(path, v, "must be a non-negative integer")];
    DependencyRule(annotations, base, r);
  }

  /**
   * The three-level chain health-checks -> health-checks-mandatory ->
   * health-checks-mandatory-queue: each level only needs its immediate parent
   * set to `true`; with every level well-typed and every parent `true`, none
   * of the three keys is reported.
   */
  lemma HealthChecksChain(annotations: AnnotationMap, base: Path)
    requires HealthChecksMandatoryKey in annotations && IsBool(annotations[HealthChecksMandatoryKey])
    requires HealthChecksMandatoryQueueKey in annotations && IsNonNegativeInt(annotations[HealthChecksMandatoryQueueKey])
    ensures var errs := ValidateIngressAnnotations(annotations, true, base);
      && (annotations[HealthChecksMandatoryKey] == "true" ==> KeyErrors(errs, HealthChecksMandatoryQueueKey) == [])
      && (HealthChecksKey !in annotations ==>
            KeyErrors(errs, HealthChecksMandatoryKey)
            == [ForbiddenError(base + [Child(HealthChecksMandatoryKey)], ParentUnsetDetail(HealthChecksKey))])
      && (HealthChecksKey in annotations && annotations[HealthChecksKey] == "true" &&
          annotations[HealthChecksMandatoryKey] == "true" ==>
            KeyErrors(errs, HealthChecksKey) == [] &&
            KeyErrors(errs, HealthChecksMandatoryKey) == [] &&
            KeyErrors(errs, HealthChecksMandatoryQueueKey) == [])
  {
    MandatoryLevel(annotations, base);
    QueueLevel(annotations, base);
    if HealthChecksKey in annotations {
      assert IsBool("true");
      HealthChecksRule(annotations, base);
    }
  }

  /**
   * nginx.org/mergeable-ingress-type, on either tier: empty is Required, a value
   * other than exactly `master` or `minion` is Invalid, and those two pass.
   */
  lemma MergeableTypeRule(annotations: AnnotationMap, isPlus: bool, base: Path)
    requires MergeableIngressTypeKey in annotations
    ensures var v := annotations[MergeableIngressTypeKey];
      var errs := KeyErrors(ValidateIngressAnnotations(annotations, isPlus, base), MergeableIngressTypeKey);
      var path := base + [Child(MergeableIngressTypeKey)];
      && (v == "" ==> errs == [RequiredError(path, "")])
      && (v != "" && v != "master" && v != "minion" ==>
            errs == [InvalidError(path, v, "must be one of: 'master' or 'minion'")])
      && (errs == [] <==> v == "master" || v == "minion")
  {
    var v := annotations[MergeableIngressTypeKey];
    var path := base + [Child(MergeableIngressTypeKey)];
    assert RuleTable[6].key == MergeableIngressTypeKey &&
      CheckRule(RuleTable[6], v, annotations, isPlus, base)
      == if v == "" then [RequiredError(path, "")]
         else if v != "master" && v != "minion" then [InvalidError(path, v, "must be one of: 'master' or 'minion'")]
         else [];
    RuleAt(annotations, isPlus, base, 6);
  }

  /** nginx.org/lb-method passes exactly when the value is a method of the tier. */
  lemma LBMethodRule(annotations: AnnotationMap, isPlus: bool, base: Path)
    requires LBMethodKey in annotations
    ensures var v := annotations[LBMethodKey];
      var errs := KeyErrors(ValidateIngressAnnotations(annotations, isPlus, base), LBMethodKey);
      && (errs == [] <==> IsLBMethod(v, isPlus))
      && (!IsLBMethod(v, isPlus) ==>
            errs == [InvalidError(base + [Child(LBMethodKey)], v, LBMethodDetail(v))])
  {
    var v := annotations[LBMethodKey];
    assert RuleTable[4].key == LBMethodKey &&
      CheckRule(RuleTable[4], v, annotations, isPlus, base)
      == if IsLBMethod(v, isPlus) then []
         else [InvalidError(base + [Child(LBMethodKey)], v, LBMethodDetail(v))];
    RuleAt(annotations, isPlus, base, 4);
  }

  /** nginx.org/server-tokens must be a boolean on the base tier and may be anything on Plus. */
  lemma ServerTokensRule(annotations: AnnotationMap, isPlus: bool, base: Path)
    requires ServerTokensKey in annotations
    ensures var v := annotations[ServerTokensKey];
      var errs := KeyErrors(ValidateIngressAnnotations(annotations, isPlus, base), ServerTokensKey);
      && (errs == [] <==> isPlus || IsBool(v))
      && (!isPlus && !IsBool(v) ==>
            errs == [InvalidError(base + [Child(ServerTokensKey)], v, "must be a valid boolean")])
  {
    var v := annotations[ServerTokensKey];
    assert RuleTable[8].key == ServerTokensKey &&
      CheckRule(RuleTable[8], v, annotations, isPlus, base)
      == if isPlus || IsBool(v) then [] else [InvalidError(base + [Child(ServerTokensKey)], v, "must be a valid boolean")];
    RuleAt(annotations, isPlus, base, 8);
  }

  /** The snippet annotations take free-form text and are never reported. */
  lemma SnippetRules(annotations: AnnotationMap, isPlus: bool, base: Path)
    ensures KeyErrors(ValidateIngressAnnotations(annotations, isPlus, base), ServerSnippetsKey) == []
    ensures KeyErrors(ValidateIngressAnnotations(annotations, isPlus, base), LocationSnippetsKey) == []
  {
    assert RuleTable[5].key == LocationSnippetsKey && RuleTable[7].key == ServerSnippetsKey;
    assert forall v :: CheckRule(RuleTable[5], v, annotations, isPlus, base) == [];
    assert forall v :: CheckRule(RuleTable[7], v, annotations, isPlus, base) == [];
    RuleAt(annotations, isPlus, base, 5);
    RuleAt(annotations, isPlus, base, 7);
  }

  /** On Plus, nginx.com/health-checks passes exactly when it is a boolean. */
  lemma HealthChecksRule(annotations: AnnotationMap, base: Path)
    requires HealthChecksKey in annotations
    ensures var v := annotations[HealthChecksKey];
      var errs := KeyErrors(ValidateIngressAnnotations(annotations, true, base), HealthChecksKey);
      && (errs == [] <==> IsBool(v))
      && (!IsBool(v) ==> errs == [InvalidError(base + [Child(HealthChecksKey)], v, "must be a valid boolean")])
  {
    IndependentRule(annotations, true, base, 0, HealthChecksKey, Boolean);
  }

  /** On Plus, nginx.com/slow-start passes exactly when it is a time literal. */
  lemma SlowStartRule(annotations: AnnotationMap, base: Path)
    requires SlowStartKey in annotations
    ensures var v := annotations[SlowStartKey];
      var errs := KeyErrors(ValidateIngressAnnotations(annotations, true, base), SlowStartKey);
      && (errs == [] <==> IsTime(v))
      && (!IsTime(v) ==> errs == [InvalidError(base + [Child(SlowStartKey)], v, "must be a valid time")])
  {
    IndependentRule(annotations, true, base, 3, SlowStartKey, Time);
  }

  // The value grammars on the example values of the test suite.

  lemma LBMethodExamples()
    ensures IsLBMethod("random", false) && IsLBMethod("least_time header", true)
    ensures !IsLBMethod("least_time header", false)
    ensures !IsLBMethod("invalid_method", false) && !IsLBMethod("invalid_method", true)
  {
    LBMethodTiers();
  }

  lemma BoolExamples()
    ensures IsBool("true") && IsBool("false") && !IsBool("not_a_boolean") && !IsBool("custom_setting")
  {
  }

  lemma NumberExamples()
    ensures IsNonNegativeInt("5") && !IsNonNegativeInt("not_a_number")
  {
    assert !IsDigit("not_a_number"[0]);
  }

  lemma TimeExamples()
    ensures IsTime("60s") && !IsTime("not_a_time")
  {
    assert DigitRun("60s") == 2;
    assert "60s"[2..] == "s";
    assert DigitRun("not_a_time") == 0;
  }
}
