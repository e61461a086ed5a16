/**
 * The three shape variants of an Ingress spec (standalone, master, minion):
 * validateIngressSpec, validateMasterSpec and validateMinionSpec. Each is a
 * function from the spec and the path it is rooted at to an ordered error list.
 */
module IngressSpecs {
  import opened FieldErrors

  datatype IngressPath = IngressPath(path: string)

  /** The HTTP part of a rule may be absent altogether or carry a path list. */
  datatype HttpRuleValue = NoHttp | Http(paths: seq<IngressPath>)

  datatype IngressRule = IngressRule(host: string, http: HttpRuleValue)

  datatype IngressTls = IngressTls(hosts: seq<string>)

  datatype IngressSpec = IngressSpec(rules: seq<IngressRule>, tls: seq<IngressTls>)

  /** The number of HTTP paths of a rule; a rule without an HTTP part has none. */
  function PathCount(rule: IngressRule): nat
  {
    match rule.http
    case NoHttp => 0
    case Http(paths) => |paths|
  }

  // ---------------------------------------------------------------------------
  // Field paths below the spec
  // ---------------------------------------------------------------------------

  function RulesPath(base: Path): Path { base + [Child("rules")] }

  function HostPath(base: Path, i: nat): Path { base + [Child("rules"), Index(i), Child("host")] }

  /** The path list of the first (and only) rule of a master or minion. */
  function PathsPath(base: Path): Path { base + [Child("rules"), Index(0), Child("http"), Child("paths")] }

  function TlsPath(base: Path): Path { base + [Child("tls")] }

  /** Distinct rule indices give distinct host paths. */
  lemma HostPathInjective(base: Path, i: nat, j: nat)
    ensures HostPath(base, i) == HostPath(base, j) ==> i == j
  {
    if HostPath(base, i) == HostPath(base, j) {
      assert HostPath(base, i)[|base| + 1] == Index(i);
    }
  }

  // ---------------------------------------------------------------------------
  // Standalone
  // ---------------------------------------------------------------------------

  /**
   * The host checks of rules[i..], in rule order, given the non-empty hosts
   * already seen: an empty host is Required, a host seen before is a
   * Duplicate at the later index, and any other host joins the seen set.
   */
  function HostErrors(rules: seq<IngressRule>, i: nat, seen: set<string>, base: Path): (errs: ErrorList)
    requires i <= |rules|
    ensures |errs| <= |rules| - i
    decreases |rules| - i
  {
    if i == |rules| then []
    else
      var h := rules[i].host;
      if h == "" then [RequiredError(HostPath(base, i), "")] + HostErrors(rules, i + 1, seen, base)
      else if h in seen then [DuplicateError(HostPath(base, i), h)] + HostErrors(rules, i + 1, seen, base)
      else HostErrors(rules, i + 1, seen + {h}, base)
  }

  /**
   * validateIngressSpec: a spec without rules has one Required error at
   * `rules`; otherwise every rule's host is checked, in rule order.
   */
  function ValidateIngressSpec(spec: IngressSpec, base: Path): (errs: ErrorList)
    ensures spec.rules == [] ==> errs == [RequiredError(RulesPath(base), "")]
    ensures |errs| <= |spec.rules| || |errs| == 1
  {
    if spec.rules == [] then [RequiredError(RulesPath(base), "")]
    else HostErrors(spec.rules, 0, {}, base)
  }

  // An independent definition of the host checks: rule i is judged on its own
  // against the rules before it.

  /** Some rule before index i has host h. */
  predicate HostSeenBefore(rules: seq<IngressRule>, i: nat, h: string)
    requires i <= |rules|
  {
    exists j :: 0 <= j < i && rules[j].host == h
  }

  /** The verdict on rule i's host alone: Required, Duplicate or nothing. */
  function HostVerdict(rules: seq<IngressRule>, i: nat, base: Path): ErrorList
    requires i < |rules|
  {
    var h := rules[i].host;
    if h == "" then [RequiredError(HostPath(base, i), "")]
    else if HostSeenBefore(rules, i, h) then [DuplicateError(HostPath(base, i), h)]
    else []
  }

  /** The verdicts of rules[i..], concatenated in rule order. */
  function HostVerdicts(rules: seq<IngressRule>, i: nat, base: Path): ErrorList
    requires i <= |rules|
    decreases |rules| - i
  {
    if i == |rules| then [] else HostVerdict(rules, i, base) + HostVerdicts(rules, i + 1, base)
  }

  /** The non-empty hosts among the first i rules. */
  function SeenHosts(rules: seq<IngressRule>, i: nat): set<string>
    requires i <= |rules|
  {
    set j | 0 <= j < i && rules[j].host != "" :: rules[j].host
  }

  /**
   * Running the checks with the set of hosts seen so far gives exactly the
   * rule-by-rule verdicts: the seen set is all the state the loop needs.
   */
  lemma {:induction false} HostErrorsMatchVerdicts(rules: seq<IngressRule>, i: nat, base: Path)
    requires i <= |rules|
    ensures HostErrors(rules, i, SeenHosts(rules, i), base) == HostVerdicts(rules, i, base)
    decreases |rules| - i
  {
    if i < |rules| {
      var h := rules[i].host;
      var seen := SeenHosts(rules, i);
      assert h != "" ==> (h in seen <==> HostSeenBefore(rules, i, h));
      if h == "" {
        assert SeenHosts(rules, i + 1) == seen;
      } else if h in seen {
        assert SeenHosts(rules, i + 1) == seen;
      } else {
        assert SeenHosts(rules, i + 1) == seen + {h};
      }
      HostErrorsMatchVerdicts(rules, i + 1, base);
    }
  }

  /** The standalone errors of a spec with rules are its rules' host verdicts. */
  lemma StandaloneIsVerdicts(spec: IngressSpec, base: Path)
    requires spec.rules != []
    ensures ValidateIngressSpec(spec, base) == HostVerdicts(spec.rules, 0, base)
  {
    assert SeenHosts(spec.rules, 0) == {};
    HostErrorsMatchVerdicts(spec.rules, 0, base);
  }

  /** The verdicts of rules[i..] are rule i's verdict followed by those of rules[i+1..]. */
  lemma VerdictsCons(rules: seq<IngressRule>, i: nat, base: Path)
    requires i < |rules|
    ensures HostVerdicts(rules, i, base) == HostVerdict(rules, i, base) + HostVerdicts(rules, i + 1, base)
  {
  }

  /** Every error among the verdicts of rules[i..] comes from the verdict of some rule there. */
  lemma {:induction false} VerdictsSound(rules: seq<IngressRule>, i: nat, base: Path, e: FieldError) returns (k: nat)
    requires i <= |rules| && e in HostVerdicts(rules, i, base)
    ensures i <= k < |rules| && e in HostVerdict(rules, k, base)
    decreases |rules| - i
  {
    assert i < |rules|;
    VerdictsCons(rules, i, base);
    if e in HostVerdict(rules, i, base) {
      k := i;
    } else {
      k := VerdictsSound(rules, i + 1, base, e);
    }
  }

  /** Every error of the verdict of a rule in rules[i..] is among their verdicts. */
  lemma {:induction false} VerdictsComplete(rules: seq<IngressRule>, i: nat, k: nat, base: Path, e: FieldError)
    requires i <= k < |rules| && e in HostVerdict(rules, k, base)
    ensures e in HostVerdicts(rules, i, base)
    decreases k - i
  {
    VerdictsCons(rules, i, base);
    if k > i {
      VerdictsComplete(rules, i + 1, k, base, e);
    }
  }

  /** Every rule has a host and no two rules share one. */
  predicate IsValidStandalone(spec: IngressSpec)
  {
    && spec.rules != []
    && (forall i :: 0 <= i < |spec.rules| ==> spec.rules[i].host != "")
    && (forall i, j :: 0 <= i < j < |spec.rules| ==> spec.rules[i].host != spec.rules[j].host)
  }

  /** A spec with present, distinct hosts passes the standalone checks. */
  lemma StandaloneAccepts(spec: IngressSpec, base: Path)
    requires IsValidStandalone(spec)
    ensures ValidateIngressSpec(spec, base) == []
  {
    var rules := spec.rules;
    StandaloneIsVerdicts(spec, base);
    forall k | 0 <= k < |rules|
      ensures HostVerdict(rules, k, base) == []
    {
      assert !HostSeenBefore(rules, k, rules[k].host);
    }
    var errs := HostVerdicts(rules, 0, base);
    if errs != [] {
      var k := VerdictsSound(rules, 0, base, errs[0]);
    }
  }

  /** A spec that passes the standalone checks has rules, and present, distinct hosts. */
  lemma StandaloneRejects(spec: IngressSpec, base: Path)
    requires ValidateIngressSpec(spec, base) == []
    ensures IsValidStandalone(spec)
  {
    var rules := spec.rules;
    StandaloneIsVerdicts(spec, base);
    forall k | 0 <= k < |rules|
      ensures HostVerdict(rules, k, base) == []
    {
      if HostVerdict(rules, k, base) != [] {
        VerdictsComplete(rules, 0, k, base, HostVerdict(rules, k, base)[0]);
      }
    }
    forall i | 0 <= i < |rules|
      ensures rules[i].host != ""
    {
      assert HostVerdict(rules, i, base) == [];
    }
    forall i, j | 0 <= i < j < |rules|
      ensures rules[i].host != rules[j].host
    {
      assert HostVerdict(rules, j, base) == [];
    }
  }

  /** The standalone validator passes exactly the specs IsValidStandalone describes. */
  lemma StandaloneValid(spec: IngressSpec, base: Path)
    ensures ValidateIngressSpec(spec, base) == [] <==> IsValidStandalone(spec)
  {
    if ValidateIngressSpec(spec, base) == [] {
      StandaloneRejects(spec, base);
    }
    if IsValidStandalone(spec) {
      StandaloneAccepts(spec, base);
    }
  }

  /**
   * Where each standalone error sits: a Required error at `rules` only when
   * there are no rules; a Required error at rule i's host exactly when that
   * host is empty; a Duplicate at rule i's host exactly when a non-empty host
   * repeats the host of an earlier rule; and nothing else.
   */
  lemma StandaloneErrors(spec: IngressSpec, base: Path)
    requires spec.rules != []
    ensures var errs := ValidateIngressSpec(spec, base);
      && (forall e :: e in errs ==>
            exists i :: 0 <= i < |spec.rules| && e.path == HostPath(base, i) &&
              ((spec.rules[i].host == "" && e == RequiredError(e.path, "")) ||
               (spec.rules[i].host != "" && HostSeenBefore(spec.rules, i, spec.rules[i].host) &&
                e == DuplicateError(e.path, spec.rules[i].host))))
      && (forall i :: 0 <= i < |spec.rules| && spec.rules[i].host == "" ==>
            RequiredError(HostPath(base, i), "") in errs)
      && (forall i :: 0 <= i < |spec.rules| && spec.rules[i].host != "" && HostSeenBefore(spec.rules, i, spec.rules[i].host) ==>
            DuplicateError(HostPath(base, i), spec.rules[i].host) in errs)
  {
    var rules := spec.rules;
    StandaloneIsVerdicts(spec, base);
    forall e | e in ValidateIngressSpec(spec, base)
      ensures exists i :: (0 <= i < |rules| && e.path == HostPath(base, i) &&
              ((rules[i].host == "" && e == RequiredError(e.path, "")) ||
               (rules[i].host != "" && HostSeenBefore(rules, i, rules[i].host) &&
                e == DuplicateError(e.path, rules[i].host))))
    {
      var k := VerdictsSound(rules, 0, base, e);
      assert e.path == HostPath(base, k);
    }
    forall i | 0 <= i < |rules| && (rules[i].host == "" || HostSeenBefore(rules, i, rules[i].host))
      ensures HostVerdict(rules, i, base)[0] in ValidateIngressSpec(spec, base)
    {
      VerdictsComplete(rules, 0, i, base, HostVerdict(rules, i, base)[0]);
    }
  }

  /** A Duplicate error is never reported at the first rule carrying a host. */
  lemma NoDuplicateAtFirstOccurrence(spec: IngressSpec, base: Path, i: nat)
    requires i < |spec.rules| && !HostSeenBefore(spec.rules, i, spec.rules[i].host)
    ensures forall e :: e in ValidateIngressSpec(spec, base) && e.path == HostPath(base, i) ==> e.kind != Duplicate
  {
    StandaloneErrors(spec, base);
    forall e | e in ValidateIngressSpec(spec, base) && e.path == HostPath(base, i)
      ensures e.kind != Duplicate
    {
      var k :| 0 <= k < |spec.rules| && e.path == HostPath(base, k) &&
              ((spec.rules[k].host == "" && e == RequiredError(e.path, "")) ||
               (spec.rules[k].host != "" && HostSeenBefore(spec.rules, k, spec.rules[k].host) &&
                e == DuplicateError(e.path, spec.rules[k].host)));
      HostPathInjective(base, i, k);
    }
  }

  /** Every standalone error lies below the path the spec is rooted at. */
  lemma StandaloneErrorsBelowBase(spec: IngressSpec, base: Path)
    ensures forall e :: e in ValidateIngressSpec(spec, base) ==> |e.path| > |base| && e.path[..|base|] == base
  {
    if spec.rules != [] {
      StandaloneErrors(spec, base);
    }
  }

  // ---------------------------------------------------------------------------
  // Master
  // ---------------------------------------------------------------------------

  /**
   * validateMasterSpec: more than one rule is TooMany at `rules` (bound 1) and
   * nothing else is checked; a single rule may carry no HTTP paths (TooMany
   * at its path list, bound 0).
   */
  function ValidateMasterSpec(spec: IngressSpec, base: Path): (errs: ErrorList)
    ensures |errs| <= 1
    ensures forall e :: e in errs ==> e.kind == TooMany
  {
    if |spec.rules| > 1 then [TooManyError(RulesPath(base), |spec.rules|, 1)]
    else if |spec.rules| == 1 && PathCount(spec.rules[0]) > 0 then
      [TooManyError(PathsPath(base), PathCount(spec.rules[0]), 0)]
    else []
  }

  /** A master carries at most one rule and no HTTP paths. */
  predicate IsMasterShape(spec: IngressSpec)
  {
    |spec.rules| <= 1 && forall r :: r in spec.rules ==> PathCount(r) == 0
  }

  /** The master check passes exactly on master-shaped specs, and says which bound failed. */
  lemma MasterShape(spec: IngressSpec, base: Path)
    ensures var errs := ValidateMasterSpec(spec, base);
      && (errs == [] <==> IsMasterShape(spec))
      && (|spec.rules| > 1 ==> errs == [TooManyError(RulesPath(base), |spec.rules|, 1)])
      && (|spec.rules| == 1 && PathCount(spec.rules[0]) > 0 ==>
            errs == [TooManyError(PathsPath(base), PathCount(spec.rules[0]), 0)])
  {
    if |spec.rules| == 1 {
      assert spec.rules[0] in spec.rules;
    }
  }

  // ---------------------------------------------------------------------------
  // Minion
  // ---------------------------------------------------------------------------

  /** The rule part of the minion check: one rule at most, and it must have paths. */
  function MinionRuleErrors(spec: IngressSpec, base: Path): (errs: ErrorList)
    ensures |errs| <= 1
  {
    if |spec.rules| > 1 then [TooManyError(RulesPath(base), |spec.rules|, 1)]
    else if |spec.rules| == 1 && PathCount(spec.rules[0]) == 0 then
      [RequiredError(PathsPath(base), "must include at least one path")]
    else []
  }

  /** The TLS part of the minion check: a minion declares no TLS entries. */
  function MinionTlsErrors(spec: IngressSpec, base: Path): (errs: ErrorList)
    ensures |errs| <= 1
  {
    if |spec.tls| > 0 then [TooManyError(TlsPath(base), |spec.tls|, 0)] else []
  }

  /** validateMinionSpec: the rule-count or path error first, then the TLS error. */
  function ValidateMinionSpec(spec: IngressSpec, base: Path): (errs: ErrorList)
    ensures |errs| <= 2
  {
    MinionRuleErrors(spec, base) + MinionTlsErrors(spec, base)
  }

  /** A minion carries at most one rule, every rule has a path, and there is no TLS. */
  predicate IsMinionShape(spec: IngressSpec)
  {
    && |spec.rules| <= 1
    && (forall r :: r in spec.rules ==> PathCount(r) > 0)
    && spec.tls == []
  }

  /**
   * The minion check passes exactly on minion-shaped specs; more than one rule
   * gives only the rule-count error (the rules' paths are not looked at), a
   * single rule without paths gives Required, and TLS entries give TooMany
   * at `tls`, after any rule error.
   */
  lemma MinionShape(spec: IngressSpec, base: Path)
    ensures var errs := ValidateMinionSpec(spec, base);
      && (errs == [] <==> IsMinionShape(spec))
      && (|spec.rules| > 1 && spec.tls == [] ==> errs == [TooManyError(RulesPath(base), |spec.rules|, 1)])
      && (|spec.rules| > 1 ==> forall e :: e in errs ==> e.kind == TooMany)
      && (|spec.rules| == 1 && PathCount(spec.rules[0]) == 0 && spec.tls == [] ==>
            errs == [RequiredError(PathsPath(base), "must include at least one path")])
      && (spec.tls != [] ==> |errs| >= 1 && errs[|errs| - 1] == TooManyError(TlsPath(base), |spec.tls|, 0))
  {
    if |spec.rules| == 1 {
      assert spec.rules[0] in spec.rules;
    }
  }
}
