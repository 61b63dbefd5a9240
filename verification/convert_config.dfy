/** The serving-config compiler: turns the `hosting` section of firebase.json
    into the `ServingConfig` the Hosting REST API accepts.

    Presence follows JavaScript truthiness where the source tests a value
    (`spec.source || spec.glob`, `if (rewrite.destination)`, `if (redirect.type)`)
    and key presence where it uses `_.has`. A `None` field is an absent key. */
module ConvertConfig {
  import opened Wrappers
  import opened Assoc
  import opened JsText
  import opened HostingApi

  // ---------------------------------------------------------------------
  // Input shapes
  // ---------------------------------------------------------------------

  /** One redirect, rewrite or header record of firebase.json; `headers`
      holds the `{key, value}` list as pairs. */
  datatype RuleSpec = RuleSpec(
    source: Option<string>,
    glob: Option<string>,
    regex: Option<string>,
    destination: Option<string>,
    dynamicLinks: Option<bool>,
    functionName: Option<string>,
    run: Option<CloudRunRewriteDetails>,
    redirectType: Option<int>,
    headers: Option<seq<(string, string)>>)

  /** A snapshot of the `hosting` section; a rule list is `None` when the key
      is absent or does not hold an array. */
  datatype HostingSpec = HostingSpec(
    redirects: Option<seq<RuleSpec>>,
    rewrites: Option<seq<RuleSpec>>,
    headers: Option<seq<RuleSpec>>,
    cleanUrls: Option<bool>,
    trailingSlash: Option<bool>,
    appAssociation: Option<AppAssociationBehavior>,
    i18n: Option<I18nConfig>)

  /** The caller's configuration object, which the compiler updates in place
      (the Cloud Run region default is written back into the rewrite records). */
  class HostingConfig {
    var redirects: Option<seq<RuleSpec>>
    var rewrites: Option<seq<RuleSpec>>
    var headers: Option<seq<RuleSpec>>
    var cleanUrls: Option<bool>
    var trailingSlash: Option<bool>
    var appAssociation: Option<AppAssociationBehavior>
    var i18n: Option<I18nConfig>

    constructor (spec: HostingSpec)
      ensures Spec() == spec
    {
      redirects, rewrites, headers := spec.redirects, spec.rewrites, spec.headers;
      cleanUrls, trailingSlash := spec.cleanUrls, spec.trailingSlash;
      appAssociation, i18n := spec.appAssociation, spec.i18n;
    }

    function Spec(): HostingSpec
      reads this
    {
      HostingSpec(redirects, rewrites, headers, cleanUrls, trailingSlash, appAssociation, i18n)
    }
  }

  // ---------------------------------------------------------------------
  // Errors
  // ---------------------------------------------------------------------

  datatype RuleKind = RewriteRule | RedirectRule | HeaderRule

  function KindName(kind: RuleKind): string {
    match kind
    case RewriteRule => "rewrite"
    case RedirectRule => "redirect"
    case HeaderRule => "header"
  }

  datatype ConfigError =
    | ConflictingPattern(kind: RuleKind)
    | MissingPattern(kind: RuleKind)
    | UnknownRewrite(rule: RuleSpec)

  /** The message of a pattern error; it names the kind of rule. */
  function PatternErrorMessage(e: ConfigError): (msg: string)
    requires !e.UnknownRewrite?
    ensures Contains(msg, KindName(e.kind))
  {
    var prefix := "Cannot specify a ";
    var name := KindName(e.kind);
    var suffix := if e.ConflictingPattern? then " pattern with both a glob and regex."
                  else " with no pattern (either a glob or regex required).";
    var msg := prefix + name + suffix;
    assert msg[|prefix|..|prefix| + |name|] == name;
    assert MatchesAt(msg, name, |prefix|);
    msg
  }

  // ---------------------------------------------------------------------
  // extractPattern
  // ---------------------------------------------------------------------

  /** A string that JavaScript treats as true: present and non-empty. */
  predicate Truthy(s: Option<string>) {
    s.Some? && s.value != ""
  }

  /** Exactly one of the glob candidate (`source || glob`) and `regex` must be
      truthy; its raw string is the pattern, `source` taking precedence. */
  function ExtractPattern(kind: RuleKind, rule: RuleSpec): (r: Result<MatcherPattern, ConfigError>)
    ensures var hasGlob := Truthy(rule.source) || Truthy(rule.glob);
      && (r == Failure(ConflictingPattern(kind)) <==> hasGlob && Truthy(rule.regex))
      && (r == Failure(MissingPattern(kind)) <==> !hasGlob && !Truthy(rule.regex))
      && (r.Success? <==> hasGlob != Truthy(rule.regex))
    ensures Truthy(rule.source) && !Truthy(rule.regex) ==> r == Success(Glob(rule.source.value))
    ensures !Truthy(rule.source) && Truthy(rule.glob) && !Truthy(rule.regex) ==>
      r == Success(Glob(rule.glob.value))
    ensures !Truthy(rule.source) && !Truthy(rule.glob) && Truthy(rule.regex) ==>
      r == Success(Regex(rule.regex.value))
  {
    var glob := if Truthy(rule.source) then rule.source else rule.glob;
    var regex := rule.regex;
    if Truthy(glob) && Truthy(regex) then Failure(ConflictingPattern(kind))
    else if Truthy(glob) then Success(Glob(glob.value))
    else if Truthy(regex) then Success(Regex(regex.value))
    else Failure(MissingPattern(kind))
  }

  // ---------------------------------------------------------------------
  // One rule of each kind
  // ---------------------------------------------------------------------

  const DefaultRegion := "us-central1"

  /** `Object.assign({ region: "us-central1" }, run)`: the service is kept,
      an explicit region is kept, a missing one becomes the default. */
  function WithDefaultRegion(run: CloudRunRewriteDetails): (r: CloudRunRewriteDetails)
    ensures r.serviceId == run.serviceId
    ensures run.region.Some? ==> r == run
    ensures run.region.None? ==> r.region == Some(DefaultRegion)
  {
    run.(region := if run.region.Some? then run.region else Some(DefaultRegion))
  }

  /** One rewrite: the target is chosen by the fixed priority path, function,
      Dynamic Links, Cloud Run; a rewrite with none of them is an error. */
  function CompileRewrite(rule: RuleSpec): (r: Result<Rewrite, ConfigError>)
    ensures ExtractPattern(RewriteRule, rule).Failure? ==>
      r == Failure(ExtractPattern(RewriteRule, rule).error)
    ensures r.Success? ==> r.value.pattern == ExtractPattern(RewriteRule, rule).value
    ensures r.Success? ==>
      && (r.value.PathRewrite? <==> Truthy(rule.destination))
      && (r.value.FunctionRewrite? <==> !Truthy(rule.destination) && Truthy(rule.functionName))
      && (r.value.DynamicLinksRewrite? <==>
            !Truthy(rule.destination) && !Truthy(rule.functionName) && rule.dynamicLinks == Some(true))
      && (r.value.CloudRunRewrite? <==> TakesRunBranch(rule))
    ensures r.Success? && r.value.PathRewrite? ==> r.value.path == rule.destination.value
    ensures r.Success? && r.value.FunctionRewrite? ==> r.value.functionName == rule.functionName.value
    ensures r.Success? && r.value.DynamicLinksRewrite? ==> r.value.dynamicLinks
    ensures r.Success? && r.value.CloudRunRewrite? ==> r.value.run == WithDefaultRegion(rule.run.value)
    ensures r.Failure? ==>
      ExtractPattern(RewriteRule, rule).Failure? || r == Failure(UnknownRewrite(rule))
    ensures r == Failure(UnknownRewrite(rule)) <==>
      && ExtractPattern(RewriteRule, rule).Success?
      && !Truthy(rule.destination) && !Truthy(rule.functionName)
      && rule.dynamicLinks != Some(true) && rule.run.None?
  {
    var pattern :- ExtractPattern(RewriteRule, rule);
    if Truthy(rule.destination) then Success(PathRewrite(pattern, rule.destination.value))
    else if Truthy(rule.functionName) then Success(FunctionRewrite(pattern, rule.functionName.value))
    else if rule.dynamicLinks == Some(true) then Success(DynamicLinksRewrite(pattern, true))
    else if rule.run.Some? then Success(CloudRunRewrite(pattern, WithDefaultRegion(rule.run.value)))
    else Failure(UnknownRewrite(rule))
  }

  /** One redirect: the location is the destination or the empty string,
      and the status code is set exactly when `type` is a non-zero number. */
  function CompileRedirect(rule: RuleSpec): (r: Result<Redirect, ConfigError>)
    ensures ExtractPattern(RedirectRule, rule).Failure? ==>
      r == Failure(ExtractPattern(RedirectRule, rule).error)
    ensures ExtractPattern(RedirectRule, rule).Success? ==> r.Success?
    ensures r.Success? ==>
      && r.value.pattern == ExtractPattern(RedirectRule, rule).value
      && r.value.location == rule.destination.GetOr("")
      && (r.value.statusCode.Some? <==> rule.redirectType.Some? && rule.redirectType.value != 0)
      && (r.value.statusCode.Some? ==> r.value.statusCode == rule.redirectType)
  {
    var pattern :- ExtractPattern(RedirectRule, rule);
    var location := if Truthy(rule.destination) then rule.destination.value else "";
    var status := if rule.redirectType.Some? && rule.redirectType.value != 0 then rule.redirectType else None;
    Success(Redirect(pattern, status, location))
  }

  /** The one key that assigning on a plain object `{}` does not create:
      `obj["__proto__"] = v` calls the setter inherited from
      `Object.prototype`, which ignores a string `v`. */
  const ProtoKey := "__proto__"

  /** The pairs that become own properties when assigned in order on a plain
      object: every pair except those keyed `__proto__`, order kept. */
  function OwnPairs(pairs: seq<(string, string)>): (r: seq<(string, string)>)
    ensures forall p :: p in r <==> p in pairs && p.0 != ProtoKey
    ensures (set i | 0 <= i < |r| :: r[i].0) == (set i | 0 <= i < |pairs| :: pairs[i].0) - {ProtoKey}
  {
    if |pairs| == 0 then []
    else
      var init := pairs[..|pairs| - 1];
      var last := pairs[|pairs| - 1];
      assert pairs == init + [last];
      var rest := OwnPairs(init);
      if last.0 == ProtoKey then rest else rest + [last]
  }

  /** One header rule: the `{key, value}` list becomes a dictionary whose keys
      are exactly the listed keys other than `__proto__`; a missing list gives
      an empty one. */
  function CompileHeader(rule: RuleSpec): (r: Result<Header, ConfigError>)
    ensures ExtractPattern(HeaderRule, rule).Failure? ==>
      r == Failure(ExtractPattern(HeaderRule, rule).error)
    ensures ExtractPattern(HeaderRule, rule).Success? ==> r.Success?
    ensures r.Success? ==> r.value.pattern == ExtractPattern(HeaderRule, rule).value
    ensures r.Success? && rule.headers.None? ==> r.value.headers == map[]
    ensures r.Success? && rule.headers.Some? ==>
      r.value.headers.Keys ==
        (set i | 0 <= i < |rule.headers.value| :: rule.headers.value[i].0) - {ProtoKey}
  {
    var pattern :- ExtractPattern(HeaderRule, rule);
    Success(Header(pattern, LastWins(OwnPairs(rule.headers.GetOr([])))))
  }

  /** `trailingSlash === true` adds, `=== false` removes, anything else leaves
      the policy unset. */
  function TrailingSlashPolicy(trailingSlash: Option<bool>): (p: Option<TrailingSlashBehavior>)
    ensures p == Some(ADD) <==> trailingSlash == Some(true)
    ensures p == Some(REMOVE) <==> trailingSlash == Some(false)
    ensures p.None? <==> trailingSlash.None?
  {
    match trailingSlash
    case Some(true) => Some(ADD)
    case Some(false) => Some(REMOVE)
    case None => None
  }

  // ---------------------------------------------------------------------
  // convertConfig
  // ---------------------------------------------------------------------

  function CompileAll<B>(rules: Option<seq<RuleSpec>>, f: RuleSpec -> Result<B, ConfigError>)
    : Result<Option<seq<B>>, ConfigError>
  {
    match rules
    case None => Success(None)
    case Some(rs) =>
      match MapResult(rs, f)
      case Failure(e) => Failure(e)
      case Success(out) => Success(Some(out))
  }

  /** What `convertConfig` returns (or throws) for a configuration object:
      rewrites, then redirects, then headers are compiled, so the first failing
      rule in that order decides the error. */
  function Compile(spec: HostingSpec): Result<ServingConfig, ConfigError> {
    var rewrites :- CompileAll(spec.rewrites, CompileRewrite);
    var redirects :- CompileAll(spec.redirects, CompileRedirect);
    var headers :- CompileAll(spec.headers, CompileHeader);
    Success(ServingConfig(headers, redirects, rewrites, spec.cleanUrls,
                          TrailingSlashPolicy(spec.trailingSlash), spec.appAssociation, spec.i18n))
  }

  /** The rewrite takes the Cloud Run branch, whose region default is written
      back into the caller's record. */
  predicate TakesRunBranch(rule: RuleSpec) {
    && ExtractPattern(RewriteRule, rule).Success?
    && !Truthy(rule.destination) && !Truthy(rule.functionName) && rule.dynamicLinks != Some(true)
    && rule.run.Some?
  }

  function Touch(rule: RuleSpec): RuleSpec {
    if TakesRunBranch(rule) then rule.(run := Some(WithDefaultRegion(rule.run.value))) else rule
  }

  /** The caller's rewrite list after `convertConfig`: every rewrite handled
      before the first failing one has been touched; the failing one and those
      after it are as they were. */
  function WriteBack(rules: seq<RuleSpec>): seq<RuleSpec> {
    if |rules| == 0 then []
    else if CompileRewrite(rules[0]).Failure? then rules
    else [Touch(rules[0])] + WriteBack(rules[1..])
  }

  function WriteBackAll(rules: Option<seq<RuleSpec>>): Option<seq<RuleSpec>> {
    match rules
    case None => None
    case Some(rs) => Some(WriteBack(rs))
  }

  ghost function TouchedUpTo(rules: seq<RuleSpec>, n: nat): seq<RuleSpec> {
    seq(|rules|, j requires 0 <= j < |rules| => if j < n then Touch(rules[j]) else rules[j])
  }

  lemma {:induction false} WriteBackIsTouchedPrefix(rules: seq<RuleSpec>, n: nat)
    requires n <= |rules|
    requires forall j :: 0 <= j < n ==> CompileRewrite(rules[j]).Success?
    requires n < |rules| ==> CompileRewrite(rules[n]).Failure?
    ensures WriteBack(rules) == TouchedUpTo(rules, n)
  {
    if |rules| > 0 && n > 0 {
      WriteBackIsTouchedPrefix(rules[1..], n - 1);
      assert TouchedUpTo(rules, n) == [Touch(rules[0])] + TouchedUpTo(rules[1..], n - 1);
    } else if |rules| > 0 {
      assert TouchedUpTo(rules, 0) == rules;
    }
  }

  // ---------------------------------------------------------------------
  // Properties of the compiled configuration
  // ---------------------------------------------------------------------

  /** An empty configuration object compiles to a `ServingConfig` with no
      field set. */
  lemma CompileEmpty()
    ensures Compile(HostingSpec(None, None, None, None, None, None, None)) == Success(EmptyServingConfig)
  {
  }

  /** Each present rule list is compiled index for index, in input order. */
  lemma CompileSectionsInOrder(spec: HostingSpec)
    requires Compile(spec).Success?
    ensures Compile(spec).value.rewrites.Some? <==> spec.rewrites.Some?
    ensures Compile(spec).value.redirects.Some? <==> spec.redirects.Some?
    ensures Compile(spec).value.headers.Some? <==> spec.headers.Some?
    ensures spec.rewrites.Some? ==>
      && |Compile(spec).value.rewrites.value| == |spec.rewrites.value|
      && forall i :: 0 <= i < |spec.rewrites.value| ==>
           CompileRewrite(spec.rewrites.value[i]) == Success(Compile(spec).value.rewrites.value[i])
    ensures spec.redirects.Some? ==>
      && |Compile(spec).value.redirects.value| == |spec.redirects.value|
      && forall i :: 0 <= i < |spec.redirects.value| ==>
           CompileRedirect(spec.redirects.value[i]) == Success(Compile(spec).value.redirects.value[i])
    ensures spec.headers.Some? ==>
      && |Compile(spec).value.headers.value| == |spec.headers.value|
      && forall i :: 0 <= i < |spec.headers.value| ==>
           CompileHeader(spec.headers.value[i]) == Success(Compile(spec).value.headers.value[i])
  {
  }

  /** `cleanUrls`, `appAssociation` and `i18n` are copied exactly when their
      key is present, even when the value is false; `trailingSlash` becomes a
      policy. */
  lemma CompileScalarFields(spec: HostingSpec)
    requires Compile(spec).Success?
    ensures Compile(spec).value.cleanUrls == spec.cleanUrls
    ensures Compile(spec).value.appAssociation == spec.appAssociation
    ensures Compile(spec).value.i18n == spec.i18n
    ensures Compile(spec).value.trailingSlashBehavior == TrailingSlashPolicy(spec.trailingSlash)
  {
  }

  /** Whether compilation fails depends only on the rules: it succeeds exactly
      when every rule of every present list compiles. */
  lemma CompileSucceedsIff(spec: HostingSpec)
    ensures Compile(spec).Success? <==>
      && (spec.rewrites.Some? ==> forall i :: 0 <= i < |spec.rewrites.value| ==>
            CompileRewrite(spec.rewrites.value[i]).Success?)
      && (spec.redirects.Some? ==> forall i :: 0 <= i < |spec.redirects.value| ==>
            CompileRedirect(spec.redirects.value[i]).Success?)
      && (spec.headers.Some? ==> forall i :: 0 <= i < |spec.headers.value| ==>
            CompileHeader(spec.headers.value[i]).Success?)
  {
  }

  /** The error reported is the one of the first failing rewrite. */
  lemma CompileFailsAtFirstRewrite(spec: HostingSpec, k: nat)
    requires spec.rewrites.Some? && k < |spec.rewrites.value|
    requires CompileRewrite(spec.rewrites.value[k]).Failure?
    requires forall j :: 0 <= j < k ==> CompileRewrite(spec.rewrites.value[j]).Success?
    ensures Compile(spec) == Failure(CompileRewrite(spec.rewrites.value[k]).error)
  {
    MapResultFirstFailure(spec.rewrites.value, CompileRewrite, k);
  }

  /** Redirects are only looked at once every rewrite compiles; then the first
      failing redirect decides the error. */
  lemma CompileFailsAtFirstRedirect(spec: HostingSpec, k: nat)
    requires CompileAll(spec.rewrites, CompileRewrite).Success?
    requires spec.redirects.Some? && k < |spec.redirects.value|
    requires CompileRedirect(spec.redirects.value[k]).Failure?
    requires forall j :: 0 <= j < k ==> CompileRedirect(spec.redirects.value[j]).Success?
    ensures Compile(spec) == Failure(CompileRedirect(spec.redirects.value[k]).error)
  {
    MapResultFirstFailure(spec.redirects.value, CompileRedirect, k);
  }

  /** Headers come last: with rewrites and redirects compiling, the first
      failing header rule decides the error. */
  lemma CompileFailsAtFirstHeader(spec: HostingSpec, k: nat)
    requires CompileAll(spec.rewrites, CompileRewrite).Success?
    requires CompileAll(spec.redirects, CompileRedirect).Success?
    requires spec.headers.Some? && k < |spec.headers.value|
    requires CompileHeader(spec.headers.value[k]).Failure?
    requires forall j :: 0 <= j < k ==> CompileHeader(spec.headers.value[j]).Success?
    ensures Compile(spec) == Failure(CompileHeader(spec.headers.value[k]).error)
  {
    MapResultFirstFailure(spec.headers.value, CompileHeader, k);
  }

  /** Assigning the pairs in order on a plain object: the value of an own
      key is that of the last pair carrying it. */
  lemma {:induction false} OwnPairsLastWins(pairs: seq<(string, string)>, i: nat)
    requires i < |pairs| && pairs[i].0 != ProtoKey
    requires forall j :: i < j < |pairs| ==> pairs[j].0 != pairs[i].0
    ensures pairs[i].0 in LastWins(OwnPairs(pairs))
    ensures LastWins(OwnPairs(pairs))[pairs[i].0] == pairs[i].1
  {
    var init := pairs[..|pairs| - 1];
    var last := pairs[|pairs| - 1];
    var rest := OwnPairs(init);
    assert (rest + [last])[..|rest|] == rest;
    if i < |pairs| - 1 {
      assert forall j :: i < j < |init| ==> init[j] == pairs[j];
      OwnPairsLastWins(init, i);
    }
  }

  /** In a header rule, a later entry for the same key overwrites an earlier
      one: the value stored is the one of the last entry carrying the key. */
  lemma HeaderLastWins(rule: RuleSpec, i: nat)
    requires CompileHeader(rule).Success?
    requires rule.headers.Some? && i < |rule.headers.value|
    requires rule.headers.value[i].0 != ProtoKey
    requires forall j :: i < j < |rule.headers.value| ==> rule.headers.value[j].0 != rule.headers.value[i].0
    ensures CompileHeader(rule).value.headers[rule.headers.value[i].0] == rule.headers.value[i].1
  {
    OwnPairsLastWins(rule.headers.value, i);
  }

  /** A `__proto__` entry never becomes a header, whatever its value. */
  lemma HeaderProtoIgnored(rule: RuleSpec, value: string)
    requires CompileHeader(rule).Success? && rule.headers.Some?
    ensures CompileHeader(rule.(headers := Some(rule.headers.value + [(ProtoKey, value)])))
      == CompileHeader(rule)
  {
    var pairs := rule.headers.value + [(ProtoKey, value)];
    assert pairs[..|pairs| - 1] == rule.headers.value;
  }

  /** The loop `for (const h of header.headers || []) headers[h.key] = h.value`
      on the plain object `{}`. */
  method AssignHeaders(pairs: seq<(string, string)>) returns (m: map<string, string>)
    ensures m == LastWins(OwnPairs(pairs))
  {
    m := map[];
    for i := 0 to |pairs|
      invariant m == LastWins(OwnPairs(pairs[..i]))
    {
      var prefix := pairs[..i + 1];
      assert prefix[..i] == pairs[..i];
      if pairs[i].0 != ProtoKey {
        var own := OwnPairs(pairs[..i]);
        assert (own + [pairs[i]])[..|own|] == own;
        m := m[pairs[i].0 := pairs[i].1];
      }
    }
    assert pairs[..|pairs|] == pairs;
  }

  /** The written-back record compiles to the same rewrite. */
  lemma TouchKeepsRewrite(rule: RuleSpec)
    ensures CompileRewrite(Touch(rule)) == CompileRewrite(rule)
    ensures Touch(Touch(rule)) == Touch(rule)
  {
  }

  lemma {:induction false} WriteBackPointwise(rules: seq<RuleSpec>)
    ensures |WriteBack(rules)| == |rules|
    ensures forall i :: 0 <= i < |rules| ==> CompileRewrite(WriteBack(rules)[i]) == CompileRewrite(rules[i])
  {
    if |rules| > 0 && CompileRewrite(rules[0]).Success? {
      WriteBackPointwise(rules[1..]);
      TouchKeepsRewrite(rules[0]);
      assert forall i :: 1 <= i < |rules| ==> WriteBack(rules)[i] == WriteBack(rules[1..])[i - 1];
    }
  }

  /** The side effect on the caller's rewrites does not change what the
      configuration compiles to: converting the updated object again gives the
      same `ServingConfig` (or the same error). */
  lemma CompileWriteBackStable(spec: HostingSpec)
    ensures Compile(spec.(rewrites := WriteBackAll(spec.rewrites))) == Compile(spec)
  {
    if spec.rewrites.Some? {
      WriteBackPointwise(spec.rewrites.value);
      MapResultPointwise(WriteBack(spec.rewrites.value), spec.rewrites.value, CompileRewrite);
    }
  }

  /** Writing back a second time changes nothing more. */
  lemma {:induction false} WriteBackIdempotent(rules: seq<RuleSpec>)
    ensures WriteBack(WriteBack(rules)) == WriteBack(rules)
  {
    if |rules| > 0 && CompileRewrite(rules[0]).Success? {
      TouchKeepsRewrite(rules[0]);
      WriteBackIdempotent(rules[1..]);
      assert WriteBack(rules)[1..] == WriteBack(rules[1..]);
    }
  }

  /** The rewrite section of `convertConfig`: each rewrite is compiled in
      order and a Cloud Run target gets its region default written back into
      the caller's record. */
  method CompileRewrites(config: HostingConfig) returns (r: Result<Option<seq<Rewrite>>, ConfigError>)
    modifies config
    ensures r == CompileAll(old(config.rewrites), CompileRewrite)
    ensures config.Spec() == old(config.Spec()).(rewrites := WriteBackAll(old(config.rewrites)))
  {
    if config.rewrites.None? {
      return Success(None);
    }
    ghost var spec := config.Spec();
    var rules := config.rewrites.value;
    var compiled: seq<Rewrite> := [];
    var i := 0;
    assert TouchedUpTo(rules, 0) == rules;
    while i < |rules|
      invariant 0 <= i <= |rules|
      invariant config.Spec() == spec.(rewrites := Some(TouchedUpTo(rules, i)))
      invariant |compiled| == i
      invariant forall j :: 0 <= j < i ==> CompileRewrite(rules[j]) == Success(compiled[j])
    {
      var rule := rules[i];
      var pattern := ExtractPattern(RewriteRule, rule);
      if pattern.Failure? {
        MapResultFirstFailure(rules, CompileRewrite, i);
        WriteBackIsTouchedPrefix(rules, i);
        return Failure(pattern.error);
      }
      var rewrite: Rewrite;
      assert config.rewrites.value[i] == rule;
      if Truthy(rule.destination) {
        rewrite := PathRewrite(pattern.value, rule.destination.value);
        assert TouchedUpTo(rules, i)[i := Touch(rule)] == TouchedUpTo(rules, i);
      } else if Truthy(rule.functionName) {
        rewrite := FunctionRewrite(pattern.value, rule.functionName.value);
        assert TouchedUpTo(rules, i)[i := Touch(rule)] == TouchedUpTo(rules, i);
      } else if rule.dynamicLinks == Some(true) {
        rewrite := DynamicLinksRewrite(pattern.value, true);
        assert TouchedUpTo(rules, i)[i := Touch(rule)] == TouchedUpTo(rules, i);
      } else if rule.run.Some? {
        var run := WithDefaultRegion(rule.run.value);
        assert TakesRunBranch(rule);
        config.rewrites := Some(config.rewrites.value[i := rule.(run := Some(run))]);
        rewrite := CloudRunRewrite(pattern.value, run);
      } else {
        MapResultFirstFailure(rules, CompileRewrite, i);
        WriteBackIsTouchedPrefix(rules, i);
        return Failure(UnknownRewrite(rule));
      }
      assert TouchedUpTo(rules, i + 1) == TouchedUpTo(rules, i)[i := Touch(rule)];
      compiled := compiled + [rewrite];
      i := i + 1;
    }
    WriteBackIsTouchedPrefix(rules, i);
    assert MapResult(rules, CompileRewrite).value == compiled;
    return Success(Some(compiled));
  }

  /** The header section of `convertConfig`: each rule's `{key, value}` list
      is copied into a dictionary in order. */
  method CompileHeaders(rules: seq<RuleSpec>) returns (r: Result<seq<Header>, ConfigError>)
    ensures r == MapResult(rules, CompileHeader)
  {
    var compiled: seq<Header> := [];
    for i := 0 to |rules|
      invariant |compiled| == i
      invariant forall j :: 0 <= j < i ==> CompileHeader(rules[j]) == Success(compiled[j])
    {
      var pattern := ExtractPattern(HeaderRule, rules[i]);
      if pattern.Failure? {
        MapResultFirstFailure(rules, CompileHeader, i);
        return Failure(pattern.error);
      }
      var headers := AssignHeaders(rules[i].headers.GetOr([]));
      compiled := compiled + [Header(pattern.value, headers)];
    }
    assert MapResult(rules, CompileHeader).value == compiled;
    return Success(compiled);
  }

  /** `convertConfig(config)`: an absent configuration gives an empty
      `ServingConfig`; otherwise the output is built field by field and the
      Cloud Run region default is written back into each handled rewrite. */
  method ConvertConfig(config: HostingConfig?) returns (r: Result<ServingConfig, ConfigError>)
    modifies config
    ensures config == null ==> r == Success(EmptyServingConfig)
    ensures config != null ==> r == Compile(old(config.Spec()))
    ensures config != null ==>
      config.Spec() == old(config.Spec()).(rewrites := WriteBackAll(old(config.rewrites)))
  {
    var out := EmptyServingConfig;
    if config == null {
      return Success(out);
    }

    var rewrites := CompileRewrites(config);
    if rewrites.Failure? {
      return Failure(rewrites.error);
    }
    out := out.(rewrites := rewrites.value);

    if config.redirects.Some? {
      var redirects := MapResult(config.redirects.value, CompileRedirect);
      if redirects.Failure? {
        return Failure(redirects.error);
      }
      out := out.(redirects := Some(redirects.value));
    }

    if config.headers.Some? {
      var headers := CompileHeaders(config.headers.value);
      if headers.Failure? {
        return Failure(headers.error);
      }
      out := out.(headers := Some(headers.value));
    }

    if config.cleanUrls.Some? {
      out := out.(cleanUrls := config.cleanUrls);
    }
    if config.trailingSlash == Some(true) {
      out := out.(trailingSlashBehavior := Some(ADD));
    } else if config.trailingSlash == Some(false) {
      out := out.(trailingSlashBehavior := Some(REMOVE));
    }
    if config.appAssociation.Some? {
      out := out.(appAssociation := config.appAssociation);
    }
    if config.i18n.Some? {
      out := out.(i18n := config.i18n);
    }
    return Success(out);
  }
}
