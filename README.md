# Ingress validation engine (NGINX Ingress Controller, `internal/k8s`)

This project models the engine that validates Kubernetes Ingress resources
before they are turned into NGINX configuration, and proves properties of the
model. The engine has four layers, each a pure function from its input (and,
for the annotation and top-level layers, the NGINX Plus tier) to an ordered
list of field errors; all but the top level also take the root field path
their errors are placed under:

- `validateIngressAnnotations`: every recognised annotation that is present
  is checked against a static rule table. The table holds the key, whether
  the key needs NGINX Plus, the value grammar, and the parent annotation it
  depends on, if any. Unknown keys are ignored. Errors come out sorted by
  annotation key.
- `validateIngressSpec`: the standalone checks. A spec with no rules is
  Required at `spec.rules`. An empty host is Required. A host that appeared
  before is a Duplicate, reported at the later index.
- `validateMasterSpec` / `validateMinionSpec`: the shape checks of a mergeable
  master (at most one rule, no HTTP paths) and of a minion (at most one rule,
  which has paths, and no TLS).
- `validateIngress`: the annotation errors, then the standalone host errors,
  then the shape errors of the variant that the raw
  `nginx.org/mergeable-ingress-type` value selects.

A field error has a path (`annotations.nginx.org/lb-method`,
`spec.rules[1].host`), a kind (Required, Invalid, Duplicate, TooMany,
Forbidden), a bad value and a detail. `errorListToStrings` renders each error
with its one-line message. That step is modelled as a method with a loop,
proved against a recursive rendering function.

The production validators' source is not part of this model. The
validators are modelled from the test suite `internal/k8s/validation_test.go`,
whose tables fix inputs, outputs and message texts. Where no test row
decides a behaviour, the model makes its own choice; "## Left out" names
the main such choices, and every other branch is as the definitions state. The model cites the test lines each member
reproduces.

Files:

- `field_errors.dfy` (module `FieldErrors`): the error model, path and
  message rendering, decimal numerals, `ErrorListToStrings`.
- `annotations.dfy` (module `Annotations`): value grammars, the rule table,
  the per-rule check, the annotation-set validator and its properties.
- `ingress_spec.dfy` (module `IngressSpecs`): the standalone, master and
  minion spec validators and their properties.
- `validation.dfy` (module `Validation`): variant selection and the
  top-level composition.
- `validation_cases.dfy` (module `ValidationCases`) and `spec_cases.dfy`
  (module `SpecCases`): the rows of the test tables, each stated as the exact
  error list the model produces.
- `spec_messages.dfy` (module `SpecMessages`): the failing spec-level rows
  carried through to the exact message lines the suite compares.

## Model

| member | source | states |
|---|---|---|
| FieldErrors.NatToString | internal/k8s/validation_test.go:634 | a count renders as a non-empty run of digits without a leading zero |
| FieldErrors.DecimalRoundTrip | internal/k8s/validation_test.go:634 | reading back the rendered count gives the count (round trip) |
| FieldErrors.NatToStringInjective | internal/k8s/validation_test.go:634 | distinct counts render differently |
| FieldErrors.PathStringChild | internal/k8s/validation_test.go:53 | a child path renders as its parent, a dot and the child name |
| FieldErrors.PathStringIndex | internal/k8s/validation_test.go:585 | an index path renders as its parent and `[i]` |
| FieldErrors.RequiredMessage | internal/k8s/validation_test.go:53 | a Required message is `<path>: Required value`, with `: <detail>` when there is a detail |
| FieldErrors.InvalidMessage | internal/k8s/validation_test.go:52 | an Invalid message is `<path>: Invalid value: "<value>": <detail>` |
| FieldErrors.DuplicateMessage | internal/k8s/validation_test.go:585 | a Duplicate message is `<path>: Duplicate value: "<value>"` |
| FieldErrors.TooManyMessage | internal/k8s/validation_test.go:83 | a TooMany message is `<path>: Too many: <n>: must have at most <m> items` |
| FieldErrors.ForbiddenMessage | internal/k8s/validation_test.go:411 | a Forbidden message is `<path>: Forbidden: <detail>` |
| FieldErrors.RenderedPointwise | internal/k8s/validation_test.go:781-789 | the rendering of a list has one line per error, and line i is error i's message |
| FieldErrors.ErrorListToStrings | internal/k8s/validation_test.go:781-789 | the loop returns the rendering of the list: same length, same order, line i is error i's message |
| Annotations.LBMethodTiers | internal/k8s/validation_test.go:178-201 | every base-tier load-balancing method is a Plus method; `least_time header` is Plus-only |
| Annotations.CheckValue | internal/k8s/validation_test.go:160-201 | a value check reports at most one error, at the annotation's path, Required or Invalid, never the Plus detail |
| Annotations.CheckRule | internal/k8s/validation_test.go:203-251 | one rule reports at most one error, at its own key's path |
| Annotations.ValidateRules | internal/k8s/validation_test.go:287 | every error is at `<base>.<key>` for a present key that some rule of the list names |
| Annotations.ValidateIngressAnnotations | internal/k8s/validation_test.go:287 | every annotation error is at `<base>.<key>` for a present key |
| Annotations.KeyErrorsMembers | internal/k8s/validation_test.go:133-142 | the errors selected under key k are exactly the errors whose key is k |
| Annotations.KeyErrorsAppend | internal/k8s/validation_test.go:133-142 | selecting by key distributes over concatenation |
| Annotations.RuleTableSorted | internal/k8s/validation_test.go:142 | the rule table's keys are strictly increasing |
| Annotations.TableKeyOrder | internal/k8s/validation_test.go:142 | any two table keys are ordered as their positions |
| Annotations.ValidateRulesSorted | internal/k8s/validation_test.go:133-142 | a strictly sorted rule list yields errors sorted by key |
| Annotations.ValidateRulesPerKey | internal/k8s/validation_test.go:133-142 | in a sorted table, the errors under rule n's key are that rule's verdict, or nothing when its key is absent |
| Annotations.AnnotationErrorsSorted | internal/k8s/validation_test.go:133-142 | annotation errors are sorted by key for every mapping, and no key is reported twice |
| Annotations.AnnotationErrorsPerKey | internal/k8s/validation_test.go:287 | an absent or unknown key reports nothing; a present known key reports exactly its rule's verdict |
| Annotations.NoAnnotationsNoErrors | internal/k8s/validation_test.go:127-130 | no annotations, no errors |
| Annotations.AnnotationErrorsOneKey | internal/k8s/validation_test.go:144-175 | with one key present, every error is under that key |
| Annotations.SortedTwoKeys | internal/k8s/validation_test.go:133-142 | a key-sorted list over k1 < k2 is its k1 errors followed by its k2 errors |
| Annotations.TwoKeyErrors | internal/k8s/validation_test.go:133-142 | with two keys present, the errors are the lower key's followed by the higher key's |
| Annotations.OnlyKeyReported | internal/k8s/validation_test.go:406-423 | when at most two other keys are present and both report nothing, the result is exactly what k reports |
| Annotations.RuleAt | internal/k8s/validation_test.go:287 | what is reported under table rule n's key is that rule's verdict on the value, or nothing when absent |
| Annotations.IndependentRule | internal/k8s/validation_test.go:370-385 | a present annotation whose rule has no dependency, on a tier that allows it, reports exactly its value check |
| Annotations.TierGating | internal/k8s/validation_test.go:203-241 | on the base tier a present Plus-only key yields exactly one Forbidden "annotation requires NGINX Plus"; otherwise the ungated check applies |
| Annotations.TierErrorsOnlyForGatedKeys | internal/k8s/validation_test.go:203-241 | an error with the Plus detail only occurs on the base tier, and only under a Plus-only key |
| Annotations.DependencyRule | internal/k8s/validation_test.go:404-464 | on Plus a dependent key's own value is checked first; if it passes, an absent parent gives "must be set", a parent other than `true` gives "must be true", `true` gives nothing |
| Annotations.MandatoryLevel | internal/k8s/validation_test.go:387-423 | a boolean health-checks-mandatory is reported only for its parent health-checks: unset, not `true`, or fine |
| Annotations.QueueLevel | internal/k8s/validation_test.go:426-464 | a numeric health-checks-mandatory-queue is reported only for its parent health-checks-mandatory |
| Annotations.MandatoryValue | internal/k8s/validation_test.go:396-404 | a non-boolean health-checks-mandatory is Invalid "must be a valid boolean", whatever its parent |
| Annotations.QueueValue | internal/k8s/validation_test.go:436-444 | a non-numeric queue is Invalid "must be a non-negative integer", whatever its parent |
| Annotations.HealthChecksChain | internal/k8s/validation_test.go:426-433 | with every level well-typed and every parent `true`, none of the three chain keys is reported |
| Annotations.MergeableTypeRule | internal/k8s/validation_test.go:144-175 | mergeable type: empty is Required, a value other than `master` and `minion` is Invalid, those two pass, on either tier |
| Annotations.LBMethodRule | internal/k8s/validation_test.go:177-201 | lb-method passes exactly when the value is a method of the tier; otherwise Invalid with the quoted method |
| Annotations.ServerTokensRule | internal/k8s/validation_test.go:243-251 | server-tokens must be a boolean on the base tier and may be any value on Plus |
| Annotations.SnippetRules | internal/k8s/validation_test.go:253-281 | the snippet annotations are never reported |
| Annotations.HealthChecksRule | internal/k8s/validation_test.go:370-385 | on Plus, health-checks passes exactly when it is a boolean |
| Annotations.SlowStartRule | internal/k8s/validation_test.go:466-481 | on Plus, slow-start passes exactly when it is a time |
| Annotations.LBMethodExamples | internal/k8s/validation_test.go:177-201 | `random` is a base method; `least_time header` is Plus-only; `invalid_method` is neither |
| Annotations.NumberExamples | internal/k8s/validation_test.go:426-444 | `5` is a non-negative integer and `not_a_number` is not |
| Annotations.TimeExamples | internal/k8s/validation_test.go:466-481 | `60s` is a time and `not_a_time` is not |
| IngressSpecs.HostErrors | internal/k8s/validation_test.go:592 | the host checks of rules i.. give at most one error per rule |
| IngressSpecs.ValidateIngressSpec | internal/k8s/validation_test.go:551-558 | no rules gives exactly one Required at `rules` |
| IngressSpecs.HostErrorsMatchVerdicts | internal/k8s/validation_test.go:560-587 | the left-to-right scan with a seen-set equals the per-rule verdicts (empty host, host seen before, or nothing) |
| IngressSpecs.VerdictsSound | internal/k8s/validation_test.go:560-587 | every reported error is the verdict of some rule |
| IngressSpecs.VerdictsComplete | internal/k8s/validation_test.go:560-587 | every rule's verdict is reported |
| IngressSpecs.StandaloneValid | internal/k8s/validation_test.go:540-549 | no error exactly when there are rules, every host is non-empty and the hosts are pairwise distinct |
| IngressSpecs.StandaloneErrors | internal/k8s/validation_test.go:560-587 | each error is Required at an empty host's path or Duplicate at a host seen before; every empty host is reported |
| IngressSpecs.NoDuplicateAtFirstOccurrence | internal/k8s/validation_test.go:574-587 | the first occurrence of a host is never the one reported as Duplicate |
| IngressSpecs.StandaloneErrorsBelowBase | internal/k8s/validation_test.go:592 | every standalone error lies below the spec's root path |
| IngressSpecs.HostPathInjective | internal/k8s/validation_test.go:585 | distinct rule indices give distinct host paths |
| IngressSpecs.ValidateMasterSpec | internal/k8s/validation_test.go:663 | a master check reports at most one error, always TooMany |
| IngressSpecs.MasterShape | internal/k8s/validation_test.go:602-658 | no error exactly on master shape; more than one rule is TooMany at `rules` with bound 1; one rule with paths is TooMany at its paths with bound 0 |
| IngressSpecs.ValidateMinionSpec | internal/k8s/validation_test.go:761 | a minion check reports at most two errors |
| IngressSpecs.MinionShape | internal/k8s/validation_test.go:673-756 | no error exactly on minion shape; more than one rule gives only TooMany; one rule without paths is Required; TLS entries give TooMany at `tls` with bound 0, last |
| Validation.ValidateIngress | internal/k8s/validation_test.go:112 | the result is at least as long as the annotation errors |
| Validation.VariantSelection | internal/k8s/validation_test.go:57-108 | only the exact raw values `master` and `minion` select a mergeable variant; no annotation is standalone |
| Validation.AnnotationErrorsFirst | internal/k8s/validation_test.go:52-53 | the annotation errors form the prefix, all under `annotations`; every later error is under `spec` |
| Validation.RootedConcat | internal/k8s/validation_test.go:51-53 | in a concatenation the first part's positions hold its errors and the rest hold the second part's |
| Validation.SpecErrorsRooted | internal/k8s/validation_test.go:53-105 | every host and shape error lies strictly below `spec` |
| Validation.UnrecognisedTypeIsStandalone | internal/k8s/validation_test.go:37-55 | without a recognised mergeable type, the result is the annotation errors followed by the standalone errors |
| Validation.MergeableKeepsHostChecks | internal/k8s/validation_test.go:57-108 | a master or minion gets the annotation errors, the host errors, then its shape errors |
| Validation.ValidIff | internal/k8s/validation_test.go:21-33 | an Ingress is accepted exactly when its annotations pass, its hosts are present and distinct, and its variant's shape holds |
| Validation.EmptyInput | internal/k8s/validation_test.go:21-33 | no annotations and one rule with a host: no error |
| ValidationCases.PairErrors | internal/k8s/validation_test.go:133-142 | two present keys, one error each: the lower key's error first |
| ValidationCases.MergeableTypeCases | internal/k8s/validation_test.go:144-175 | the mergeable-type rows: `master` and `minion` pass, `` is Required, `abc` is Invalid |
| ValidationCases.MergeableAlone | internal/k8s/validation_test.go:144-175 | the mergeable type alone, for every value |
| ValidationCases.SnippetCases | internal/k8s/validation_test.go:253-281 | single- and multi-line snippets pass on either tier |
| ValidationCases.LBMethodCases | internal/k8s/validation_test.go:177-201 | `random` passes on the base tier; `least_time header` fails there and passes on Plus; `invalid_method` fails on both |
| ValidationCases.LBMethodAlone | internal/k8s/validation_test.go:177-201 | lb-method alone, for every value and tier |
| ValidationCases.ServerTokensCases | internal/k8s/validation_test.go:243-251 | `custom_setting` is Invalid on the base tier and accepted on Plus |
| ValidationCases.BaseTierTwoErrorsInKeyOrder | internal/k8s/validation_test.go:133-142 | the two base-tier errors come in key order: lb-method, then mergeable type |
| ValidationCases.LBMethodAndMergeable | internal/k8s/validation_test.go:133-142 | the same for any map with exactly those two entries |
| ValidationCases.InvalidMethodRejected | internal/k8s/validation_test.go:195-201 | `invalid_method` is reported under lb-method on either tier, whatever else is present |
| ValidationCases.InvalidTypeRejected | internal/k8s/validation_test.go:168-175 | `invalid` is reported under the mergeable type, whatever else is present |
| ValidationCases.PlusOnlyCases | internal/k8s/validation_test.go:203-241 | on the base tier each Plus-only key alone is one Forbidden error, whatever its value |
| ValidationCases.PlusOnlyAlone | internal/k8s/validation_test.go:203-241 | the same for any Plus-only table rule |
| ValidationCases.PlusTwoErrorsInKeyOrder | internal/k8s/validation_test.go:309-318 | the two Plus errors come in key order: health-checks, then lb-method |
| ValidationCases.HealthChecksAndLBMethod | internal/k8s/validation_test.go:309-318 | the same for any map with exactly those two entries |
| ValidationCases.NotABooleanRejected | internal/k8s/validation_test.go:378-385 | on Plus, health-checks `not_a_boolean` is reported under its key, whatever else is present |
| ValidationCases.PlusValueCases | internal/k8s/validation_test.go:370-481 | health-checks `true` and slow-start `60s` pass; `not_a_boolean` and `not_a_time` are Invalid |
| ValidationCases.HealthChecksAlone | internal/k8s/validation_test.go:370-385 | health-checks alone on Plus, for every value |
| ValidationCases.SlowStartAlone | internal/k8s/validation_test.go:466-481 | slow-start alone on Plus, for every value |
| ValidationCases.MandatoryAlone | internal/k8s/validation_test.go:406-413 | health-checks-mandatory alone: Forbidden, its parent must be set |
| ValidationCases.MandatoryOnlyReported | internal/k8s/validation_test.go:387-423 | with a boolean parent, only the mandatory key can be reported |
| ValidationCases.MandatoryWithParent | internal/k8s/validation_test.go:387-423 | mandatory with a boolean parent: its value error, the parent-not-true error, or nothing |
| ValidationCases.MandatoryCases | internal/k8s/validation_test.go:387-423 | the mandatory rows with a parent: valid, not a boolean, parent `false` |
| ValidationCases.QueueAlone | internal/k8s/validation_test.go:446-453 | the queue key alone: Forbidden, its parent must be set |
| ValidationCases.QueueOnlyReported | internal/k8s/validation_test.go:426-464 | with health-checks `true` and a boolean mandatory, only the queue key can be reported |
| ValidationCases.ChainWithQueue | internal/k8s/validation_test.go:426-464 | the queue with both ancestors: its value error, the parent-not-true error, or nothing |
| ValidationCases.QueueCases | internal/k8s/validation_test.go:426-464 | the queue rows with both ancestors: valid, not a number, parent `false` |
| SpecCases.StandaloneCases | internal/k8s/validation_test.go:534-598 | the standalone table: one host passes; no rules, an empty host and a repeated host give their errors |
| SpecCases.MasterCases | internal/k8s/validation_test.go:600-669 | the master table: no paths passes; two rules and one path are TooMany |
| SpecCases.MinionCases | internal/k8s/validation_test.go:671-767 | the minion table: one path passes; two rules, no path and a TLS entry give their errors |
| SpecCases.InvalidIngressCase | internal/k8s/validation_test.go:36-55 | a bad mergeable type and an empty host: the annotation error, then the host error |
| SpecCases.InvalidMasterCase | internal/k8s/validation_test.go:57-86 | a master with a path: only TooMany at the path list |
| SpecCases.InvalidMinionCase | internal/k8s/validation_test.go:87-108 | a minion without an HTTP part: only Required at the path list |
| SpecMessages.StandaloneLines | internal/k8s/validation_test.go:551-588 | the failing standalone rows render to exactly the suite's lines: `spec.rules: Required value`, `spec.rules[0].host: Required value`, and the Duplicate line for `foo.example.com` at `spec.rules[1].host` |
| SpecMessages.MasterLines | internal/k8s/validation_test.go:622-658 | the failing master rows render to exactly the suite's two TooMany lines |
| SpecMessages.MinionLines | internal/k8s/validation_test.go:697-757 | the failing minion rows render to exactly the suite's TooMany, Required and TLS lines |
| SpecMessages.InvalidIngressHostLine | internal/k8s/validation_test.go:35-55 | the whole-Ingress row with a bad type and an empty host renders to two lines, the second exactly `spec.rules[0].host: Required value` |
| SpecMessages.MergeableIngressLines | internal/k8s/validation_test.go:57-108 | the whole-Ingress master and minion rows render to exactly the suite's path-list lines |

## Left out

- The production validators' source is not part of this model. Their behaviour is taken from the test tables above. The main branches no row decides are listed below.
- The Kubernetes API types (`networking.Ingress`, `field.Path`, `field.Error`) are reduced to the fields the engine reads. The error model is a datatype, not Go's struct.
- The test harness (`assertErrors`, `testing.T`, `reflect.DeepEqual`, sub-test names) is not modelled. Each test row becomes a lemma that states the exact error list.
- The expected strings of the annotation rows, and the annotation line of the whole-Ingress row at line 52, are not restated character by character. For those rows the message format is proved generically for each error kind, and paths render by the child and index lemmas. The `spec.*` lines of the failing spec, master and minion rows, and of the three whole-Ingress rows at lines 35-108, are proved exactly, in `spec_messages.dfy`.
- Go's `%q` quoting of the bad value is modelled as plain double quotes. Escaping of quotes and control characters inside a value is not modelled.
- The non-negative-integer grammar accepts one or more ASCII digits. Go's `ParseInt` sign handling and 64-bit range limit are not modelled.
- The time grammar (digit runs with optional units `ms s m h d w M y`, optionally separated by single spaces, so `1h30m` and `1h 30m` are both accepted) and the two load-balancing method sets stand in for the production parsers. They agree with every value the suite uses.
- A master or minion with zero rules gets no shape error. The standalone part already reports `spec.rules` Required.
- A minion with both a rule error and TLS entries reports the rule error first. No test pins this order.
- The boolean grammar is the twelve literals Go's `strconv.ParseBool` accepts (`1`, `t`, `T`, `TRUE`, `true`, `True` and their false counterparts). So `health-checks` set to `1` on Plus, or `server-tokens` set to `T` on the base tier, is accepted. The suite uses only `true`, `false` and two non-boolean values.
- Empty hosts never count as seen hosts. Two rules with empty hosts give a Required error at each host and no Duplicate. No row has two empty hosts.
- A master or minion with more than one rule reports the TooMany error at `spec.rules` and does not check the paths of its rules; a minion still reports TLS entries after it. The suite's two-rule rows have rules without HTTP parts, so they do not decide this.
- A dependent annotation (`health-checks-mandatory`, `health-checks-mandatory-queue`) has its own value checked before its parent. So a bad value with a missing or non-`true` parent reports only the Invalid value error. No test pairs a bad value with a bad parent.
- The parent of a dependent annotation must be the literal string `true`. A parent such as `True`, `1` or `t` passes the boolean check on its own key, yet the dependent key still reports "must be true". No test uses such a parent.
- A host that appears more than twice gets one Duplicate error at every occurrence after the first, e.g. at `spec.rules[1].host` and `spec.rules[2].host` for three equal hosts. The suite has only one repeated pair.
- An empty value is reported as Required only for the mergeable type. For the other checked annotations (lb-method, health-checks, the mandatory flag and queue, slow-start, server-tokens on the base tier) an empty value is Invalid under that annotation's grammar. No test uses an empty value for those keys.
- The top-level composition is the model's own choice: it always runs the standalone host checks, then the shape checks of the variant the raw mergeable type selects. The rows at lines 57-108 are consistent with this: their hosts are non-empty and distinct, so the host checks add nothing there. A composition that skips the host checks for a master or minion would give the same results on every row of the suite.
