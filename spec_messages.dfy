/**
 * The spec-level rows of the validation test suite carried through to the
 * strings the suite compares: each row lemma states the rendered lines of one
 * row, as errorListToStrings produces them. Literal texts are assembled one
 * join at a time, each join a small lemma of its own, so that no proof step
 * has to compare long string literals.
 */
module SpecMessages {
  import opened FieldErrors
  import opened Annotations
  import opened IngressSpecs
  import opened Validation
  import opened SpecCases

  // ---------------------------------------------------------------------------
  // Rendering of short lists
  // ---------------------------------------------------------------------------

  lemma RenderedOne(e: FieldError)
    ensures Rendered([e]) == [ErrorString(e)]
  {
    assert [e][..0] == [];
  }

  // ---------------------------------------------------------------------------
  // Path texts
  // ---------------------------------------------------------------------------

  lemma SmallNumerals()
    ensures NatToString(0) == "0" && NatToString(1) == "1" && NatToString(2) == "2"
  {
  }

  lemma SpecRootText()
    ensures PathString(SpecRoot) == "spec"
  {
    assert SpecRoot[..0] == [];
  }

  lemma RulesText()
    ensures PathString(RulesPath(SpecRoot)) == "spec.rules"
  {
    PathStringChild(SpecRoot, "rules");
    SpecRootText();
    RulesJoin(PathString(SpecRoot));
  }

  lemma TlsText()
    ensures PathString(TlsPath(SpecRoot)) == "spec.tls"
  {
    PathStringChild(SpecRoot, "tls");
    SpecRootText();
    TlsJoin(PathString(SpecRoot));
  }

  /** `spec.rules[i]` for the two indices the suite reports. */
  lemma RuleText(i: nat)
    requires i <= 1
    ensures i == 0 ==> PathString(RulesPath(SpecRoot) + [Index(i)]) == "spec.rules[0]"
    ensures i == 1 ==> PathString(RulesPath(SpecRoot) + [Index(i)]) == "spec.rules[1]"
  {
    PathStringIndex(RulesPath(SpecRoot), i);
    RulesText();
    SmallNumerals();
    IndexJoin(PathString(RulesPath(SpecRoot)), NatToString(i));
  }

  lemma HostText(i: nat)
    requires i <= 1
    ensures i == 0 ==> PathString(HostPath(SpecRoot, i)) == "spec.rules[0].host"
    ensures i == 1 ==> PathString(HostPath(SpecRoot, i)) == "spec.rules[1].host"
  {
    var rule := RulesPath(SpecRoot) + [Index(i)];
    assert HostPath(SpecRoot, i) == rule + [Child("host")];
    PathStringChild(rule, "host");
    RuleText(i);
    HostJoin(PathString(rule));
  }

  lemma PathsText()
    ensures PathString(PathsPath(SpecRoot)) == "spec.rules[0].http.paths"
  {
    var rule := RulesPath(SpecRoot) + [Index(0)];
    var http := rule + [Child("http")];
    assert PathsPath(SpecRoot) == http + [Child("paths")];
    PathStringChild(http, "paths");
    PathStringChild(rule, "http");
    RuleText(0);
    HttpJoin(PathString(rule));
    PathsJoin(PathString(http));
  }

  // ---------------------------------------------------------------------------
  // Message lines
  // ---------------------------------------------------------------------------

  lemma NoRulesLine()
    ensures ErrorString(RequiredError(RulesPath(SpecRoot), "")) == "spec.rules: Required value"
  {
    RequiredMessage(RulesPath(SpecRoot), "");
    RulesText();
    RequiredJoin(PathString(RulesPath(SpecRoot)));
  }

  lemma EmptyHostLine()
    ensures ErrorString(RequiredError(HostPath(SpecRoot, 0), "")) == "spec.rules[0].host: Required value"
  {
    RequiredMessage(HostPath(SpecRoot, 0), "");
    HostText(0);
    RequiredJoin(PathString(HostPath(SpecRoot, 0)));
  }

  lemma DuplicateHostLine()
    ensures ErrorString(DuplicateError(HostPath(SpecRoot, 1), "foo.example.com"))
         == "spec.rules[1].host: Duplicate value: \"foo.example.com\""
  {
    DuplicateMessage(HostPath(SpecRoot, 1), "foo.example.com");
    HostText(1);
    DuplicateJoin(PathString(HostPath(SpecRoot, 1)), "foo.example.com");
  }

  lemma NoPathLine()
    ensures ErrorString(RequiredError(PathsPath(SpecRoot), "must include at least one path"))
         == "spec.rules[0].http.paths: Required value: must include at least one path"
  {
    RequiredMessage(PathsPath(SpecRoot), "must include at least one path");
    PathsText();
    NoPathJoin(PathString(PathsPath(SpecRoot)), "must include at least one path");
  }

  lemma TwoRulesLine()
    ensures ErrorString(TooManyError(RulesPath(SpecRoot), 2, 1)) == "spec.rules: Too many: 2: must have at most 1 items"
  {
    var p := PathString(RulesPath(SpecRoot));
    TooManyMessage(RulesPath(SpecRoot), 2, 1);
    RulesText();
    SmallNumerals();
    TooManyHeadJoin(p, NatToString(2));
    TwoRulesTailJoin(p + ": Too many: " + NatToString(2), NatToString(1));
  }

  lemma OnePathLine()
    ensures ErrorString(TooManyError(PathsPath(SpecRoot), 1, 0))
         == "spec.rules[0].http.paths: Too many: 1: must have at most 0 items"
  {
    var p := PathString(PathsPath(SpecRoot));
    TooManyMessage(PathsPath(SpecRoot), 1, 0);
    PathsText();
    SmallNumerals();
    TooManyHeadJoin(p, NatToString(1));
    PathTailJoin(p + ": Too many: " + NatToString(1), NatToString(0));
  }

  lemma OneTlsLine()
    ensures ErrorString(TooManyError(TlsPath(SpecRoot), 1, 0)) == "spec.tls: Too many: 1: must have at most 0 items"
  {
    var p := PathString(TlsPath(SpecRoot));
    TooManyMessage(TlsPath(SpecRoot), 1, 0);
    TlsText();
    SmallNumerals();
    TooManyHeadJoin(p, NatToString(1));
    TlsTailJoin(p + ": Too many: " + NatToString(1), NatToString(0));
  }

  // ---------------------------------------------------------------------------
  // The rows, as the lines the suite expects
  // ---------------------------------------------------------------------------

  /** The standalone table's failing rows: no rules, an empty host, a repeated host. */
  lemma StandaloneLines()
    ensures Rendered(ValidateIngressSpec(IngressSpec([], []), SpecRoot)) == ["spec.rules: Required value"]
    ensures Rendered(ValidateIngressSpec(OneRule("", NoHttp), SpecRoot)) == ["spec.rules[0].host: Required value"]
    ensures Rendered(ValidateIngressSpec(
              IngressSpec([IngressRule("foo.example.com", NoHttp), IngressRule("foo.example.com", NoHttp)], []), SpecRoot))
         == ["spec.rules[1].host: Duplicate value: \"foo.example.com\""]
  {
    StandaloneCases();
    RenderedOne(RequiredError(RulesPath(SpecRoot), ""));
    RenderedOne(RequiredError(HostPath(SpecRoot, 0), ""));
    RenderedOne(DuplicateError(HostPath(SpecRoot, 1), "foo.example.com"));
    NoRulesLine();
    EmptyHostLine();
    DuplicateHostLine();
  }

  /** The master table's failing rows: two rules, and one path. */
  lemma MasterLines()
    ensures Rendered(ValidateMasterSpec(TwoHosts(), SpecRoot)) == ["spec.rules: Too many: 2: must have at most 1 items"]
    ensures Rendered(ValidateMasterSpec(OneRule("foo.example.com", RootPaths()), SpecRoot))
         == ["spec.rules[0].http.paths: Too many: 1: must have at most 0 items"]
  {
    MasterCases();
    RenderedOne(TooManyError(RulesPath(SpecRoot), 2, 1));
    RenderedOne(TooManyError(PathsPath(SpecRoot), 1, 0));
    TwoRulesLine();
    OnePathLine();
  }

  /** The minion table's failing rows: two rules, no path, and a TLS entry. */
  lemma MinionLines()
    ensures Rendered(ValidateMinionSpec(TwoHosts(), SpecRoot)) == ["spec.rules: Too many: 2: must have at most 1 items"]
    ensures Rendered(ValidateMinionSpec(OneRule("foo.example.com", Http([])), SpecRoot))
         == ["spec.rules[0].http.paths: Required value: must include at least one path"]
    ensures Rendered(ValidateMinionSpec(
              IngressSpec([IngressRule("foo.example.com", RootPaths())], [IngressTls(["foo.example.com"])]), SpecRoot))
         == ["spec.tls: Too many: 1: must have at most 0 items"]
  {
    MinionCases();
    RenderedOne(TooManyError(RulesPath(SpecRoot), 2, 1));
    RenderedOne(RequiredError(PathsPath(SpecRoot), "must include at least one path"));
    RenderedOne(TooManyError(TlsPath(SpecRoot), 1, 0));
    TwoRulesLine();
    NoPathLine();
    OneTlsLine();
  }

  /**
   * The whole-Ingress row with a bad mergeable type and an empty host: two
   * lines, the second being the suite's exact host line.
   */
  lemma InvalidIngressHostLine()
    ensures var lines := Rendered(ValidateIngress(Ingress(map[MergeableIngressTypeKey := "invalid"], OneRule("", NoHttp)), false));
      |lines| == 2 && lines[1] == "spec.rules[0].host: Required value"
  {
    var errs := ValidateIngress(Ingress(map[MergeableIngressTypeKey := "invalid"], OneRule("", NoHttp)), false);
    InvalidIngressCase();
    RenderedPointwise(errs);
    EmptyHostLine();
  }

  /** The whole-Ingress rows for a master with a path and a minion without one. */
  lemma MergeableIngressLines()
    ensures Rendered(ValidateIngress(Ingress(map[MergeableIngressTypeKey := "master"], OneRule("example.com", RootPaths())), false))
         == ["spec.rules[0].http.paths: Too many: 1: must have at most 0 items"]
    ensures Rendered(ValidateIngress(Ingress(map[MergeableIngressTypeKey := "minion"], OneRule("example.com", NoHttp)), false))
         == ["spec.rules[0].http.paths: Required value: must include at least one path"]
  {
    InvalidMasterCase();
    InvalidMinionCase();
    RenderedOne(TooManyError(PathsPath(SpecRoot), 1, 0));
    RenderedOne(RequiredError(PathsPath(SpecRoot), "must include at least one path"));
    OnePathLine();
    NoPathLine();
  }

  // ---------------------------------------------------------------------------
  // Solver plumbing. The lemmas below model nothing: each joins string
  // literals one step at a time, because one step that compares two long
  // literals costs the verifier more than a chain of short ones.
  // ---------------------------------------------------------------------------

  lemma RulesJoin(a: string)
    requires a == "spec"
    ensures a + "." + "rules" == "spec.rules"
  {
  }

  lemma TlsJoin(a: string)
    requires a == "spec"
    ensures a + "." + "tls" == "spec.tls"
  {
  }

  lemma IndexJoin(a: string, n: string)
    requires a == "spec.rules" && (n == "0" || n == "1")
    ensures n == "0" ==> a + "[" + n + "]" == "spec.rules[0]"
    ensures n == "1" ==> a + "[" + n + "]" == "spec.rules[1]"
  {
  }

  lemma HostJoin(a: string)
    requires a == "spec.rules[0]" || a == "spec.rules[1]"
    ensures a == "spec.rules[0]" ==> a + "." + "host" == "spec.rules[0].host"
    ensures a == "spec.rules[1]" ==> a + "." + "host" == "spec.rules[1].host"
  {
  }

  lemma HttpJoin(a: string)
    requires a == "spec.rules[0]"
    ensures a + "." + "http" == "spec.rules[0].http"
  {
  }

  lemma PathsJoin(a: string)
    requires a == "spec.rules[0].http"
    ensures a + "." + "paths" == "spec.rules[0].http.paths"
  {
  }

  lemma RequiredJoin(a: string)
    requires a == "spec.rules" || a == "spec.rules[0].host"
    ensures a == "spec.rules" ==> a + ": Required value" == "spec.rules: Required value"
    ensures a == "spec.rules[0].host" ==> a + ": Required value" == "spec.rules[0].host: Required value"
  {
  }

  lemma DuplicateJoin(a: string, v: string)
    requires a == "spec.rules[1].host" && v == "foo.example.com"
    ensures a + ": Duplicate value: \"" + v + "\"" == "spec.rules[1].host: Duplicate value: \"foo.example.com\""
  {
  }

  lemma NoPathJoin(a: string, d: string)
    requires a == "spec.rules[0].http.paths" && d == "must include at least one path"
    ensures a + ": Required value: " + d == "spec.rules[0].http.paths: Required value: must include at least one path"
  {
    var h := a + ": Required value: ";
    NoPathHeadJoin(a);
    NoPathMiddleJoin(h);
    NoPathTailJoin(h + "must include");
    DetailSplit(d);
    assert h + d == (h + "must include") + " at least one path";
  }

  lemma NoPathHeadJoin(a: string)
    requires a == "spec.rules[0].http.paths"
    ensures a + ": Required value: " == "spec.rules[0].http.paths: Required value: "
  {
  }

  lemma NoPathMiddleJoin(h: string)
    requires h == "spec.rules[0].http.paths: Required value: "
    ensures h + "must include" == "spec.rules[0].http.paths: Required value: must include"
  {
  }

  lemma NoPathTailJoin(h: string)
    requires h == "spec.rules[0].http.paths: Required value: must include"
    ensures h + " at least one path" == "spec.rules[0].http.paths: Required value: must include at least one path"
  {
  }

  lemma DetailSplit(d: string)
    requires d == "must include at least one path"
    ensures d == "must include" + " at least one path"
  {
  }

  /** The head of a TooMany line: the path, the kind and the actual count. */
  lemma TooManyHeadJoin(a: string, x: string)
    requires (a == "spec.rules" && x == "2") || (a == "spec.rules[0].http.paths" && x == "1") || (a == "spec.tls" && x == "1")
    ensures a == "spec.rules" ==> a + ": Too many: " + x == "spec.rules: Too many: 2"
    ensures a == "spec.rules[0].http.paths" ==> a + ": Too many: " + x == "spec.rules[0].http.paths: Too many: 1"
    ensures a == "spec.tls" ==> a + ": Too many: " + x == "spec.tls: Too many: 1"
  {
  }

  lemma TwoRulesTailJoin(h: string, y: string)
    requires h == "spec.rules: Too many: 2" && y == "1"
    ensures h + ": must have at most " + y + " items" == "spec.rules: Too many: 2: must have at most 1 items"
  {
  }

  lemma PathTailJoin(h: string, y: string)
    requires h == "spec.rules[0].http.paths: Too many: 1" && y == "0"
    ensures h + ": must have at most " + y + " items" == "spec.rules[0].http.paths: Too many: 1: must have at most 0 items"
  {
  }

  lemma TlsTailJoin(h: string, y: string)
    requires h == "spec.tls: Too many: 1" && y == "0"
    ensures h + ": must have at most " + y + " items" == "spec.tls: Too many: 1: must have at most 0 items"
  {
  }
}
