/** The tag derivation of `RepoAnalyzer.analyzeRepo`, the one the command line
    actually uses. The GitHub reads it performs are replaced by their results
    (`RepoFacts`), which makes the analysis a pure function. It keeps
    duplicates, matches requirements text case-sensitively and consults a
    fixed list of dependency keys. */
module Analyzer {
  import opened Collections
  import opened Tagger

  /** What reading and parsing `package.json` produced: no content (the fetch
      returned null or an empty string), a parse failure, or the two parsed
      dependency maps (an absent map is the empty map). */
  datatype ManifestFetch =
    | NoContent
    | Unparsable
    | Parsed(dependencies: map<string, string>, devDependencies: map<string, string>)

  /** The already-fetched facts about one repository: the four existence
      checks, then the manifest and requirements reads, which are consulted
      only when the corresponding existence check succeeded. */
  datatype RepoFacts = RepoFacts(
    hasPackageJson: bool,
    hasDockerfile: bool,
    hasPythonRequirements: bool,
    hasCI: bool,
    packageJson: ManifestFetch,
    requirements: Option<string>)

  datatype RepoAnalysis = RepoAnalysis(
    hasPackageJson: bool,
    hasDockerfile: bool,
    hasCI: bool,
    hasPythonRequirements: bool,
    frameworks: seq<string>,
    tools: seq<string>,
    dependencies: Option<map<string, string>>)

  /** The package.json checks, in source order, as single-tag rules; `nestjs`
      is checked twice, under two keys. */
  const PackageFrameworkRules: seq<TagMapping> := [
    TagMapping("react", Framework, ["react"]),
    TagMapping("nextjs", Framework, ["next"]),
    TagMapping("nuxt", Framework, ["nuxt"]),
    TagMapping("vue", Framework, ["vue"]),
    TagMapping("angular", Framework, ["@angular/core"]),
    TagMapping("express", Framework, ["express"]),
    TagMapping("fastify", Framework, ["fastify"]),
    TagMapping("nestjs", Framework, ["nestjs"]),
    TagMapping("nestjs", Framework, ["@nestjs/core"])
  ]

  const PackageToolRules: seq<TagMapping> := [
    TagMapping("typescript", Tool, ["typescript"]),
    TagMapping("testing", Tool, ["jest", "vitest"]),
    TagMapping("linting", Tool, ["eslint"]),
    TagMapping("formatting", Tool, ["prettier"])
  ]

  /** The tags carried by the two flags. */
  const FlagTags: seq<string> := [DockerTag, CITag]

  /** `{...dependencies, ...devDependencies}`: the union of both key sets, the
      `devDependencies` value winning on a clash. */
  function MergeDependencies(deps: map<string, string>, devDeps: map<string, string>): (r: map<string, string>)
    ensures r.Keys == deps.Keys + devDeps.Keys
    ensures forall k :: k in devDeps ==> r[k] == devDeps[k]
    ensures forall k :: k in deps && k !in devDeps ==> r[k] == deps[k]
  {
    deps + devDeps
  }

  /** The tags of the rules that match, one push per matching rule, in rule
      order; duplicates are kept. */
  function PushMatching(rules: seq<TagMapping>, deps: map<string, string>): (r: seq<string>)
    ensures |r| <= |rules|
    decreases |rules|
  {
    if |rules| == 0 then []
    else
      var last := rules[|rules| - 1];
      PushMatching(rules[..|rules| - 1], deps) + (if MatchesDependencies(last, deps) then [last.tag] else [])
  }

  /** A tag is pushed exactly when some rule carrying it matches. */
  lemma {:induction false} PushMatchingMembers(rules: seq<TagMapping>, deps: map<string, string>)
    ensures forall t :: t in PushMatching(rules, deps) <==> exists m :: m in rules && m.tag == t && MatchesDependencies(m, deps)
    decreases |rules|
  {
    if |rules| > 0 {
      var last := rules[|rules| - 1];
      assert forall x :: x in rules <==> x in rules[..|rules| - 1] || x == last;
      PushMatchingMembers(rules[..|rules| - 1], deps);
    }
  }

  lemma {:induction false} PushMatchingConcat(a: seq<TagMapping>, b: seq<TagMapping>, deps: map<string, string>)
    ensures PushMatching(a + b, deps) == PushMatching(a, deps) + PushMatching(b, deps)
    decreases |b|
  {
    if |b| == 0 {
      assert a + b == a;
    } else {
      assert (a + b)[..|a + b| - 1] == a + b[..|b| - 1];
      PushMatchingConcat(a, b[..|b| - 1], deps);
    }
  }

  /** What `analyzePackageJson` contributes: the merged dependency map and the
      frameworks and tools it pushes. */
  datatype PackageResult = PackageResult(dependencies: Option<map<string, string>>, frameworks: seq<string>, tools: seq<string>)

  function AnalyzePackageJson(fetch: ManifestFetch): (r: PackageResult)
    ensures r.dependencies ==
              if fetch.Parsed? then Some(MergeDependencies(fetch.dependencies, fetch.devDependencies)) else None
    ensures !fetch.Parsed? ==> r.frameworks == [] && r.tools == []
  {
    match fetch
    case NoContent => PackageResult(None, [], [])
    case Unparsable => PackageResult(None, [], [])
    case Parsed(deps, devDeps) =>
      var all := MergeDependencies(deps, devDeps);
      PackageResult(Some(all), PushMatching(PackageFrameworkRules, all), PushMatching(PackageToolRules, all))
  }

  /** The tags `analyzePackageJson` pushes: those of the checks the merged
      map satisfies, never a Python framework tag nor a flag tag. */
  lemma PackageJsonTags(fetch: ManifestFetch)
    ensures var r := AnalyzePackageJson(fetch);
            fetch.Parsed? ==> forall t :: t in r.frameworks <==>
              exists m :: m in PackageFrameworkRules && m.tag == t && MatchesDependencies(m, r.dependencies.value)
    ensures var r := AnalyzePackageJson(fetch);
            fetch.Parsed? ==> forall t :: t in r.tools <==>
              exists m :: m in PackageToolRules && m.tag == t && MatchesDependencies(m, r.dependencies.value)
    ensures forall t :: t in AnalyzePackageJson(fetch).frameworks ==> t !in PythonFrameworkTags
    ensures forall t :: t in AnalyzePackageJson(fetch).tools ==> t !in FlagTags
  {
    if fetch.Parsed? {
      var all := MergeDependencies(fetch.dependencies, fetch.devDependencies);
      PackageRulesAvoidOtherTags();
      PushMatchingMembers(PackageFrameworkRules, all);
      PushMatchingMembers(PackageToolRules, all);
    }
  }

  /** No package.json check yields a Python framework tag or a flag tag. */
  lemma PackageRulesAvoidOtherTags()
    ensures forall m :: m in PackageFrameworkRules ==> m.tag !in PythonFrameworkTags
    ensures forall m :: m in PackageToolRules ==> m.tag !in FlagTags
  {
  }

  /** `analyzePythonRequirements` on fetched text: case-sensitive substring
      tests, in the order django, flask, fastapi. */
  function AnalyzePythonRequirements(content: string): (r: seq<string>)
    ensures forall t :: t in r <==> t in PythonFrameworkTags && Contains(content, t)
    ensures NoDuplicates(r)
  {
    (if Contains(content, "django") then ["django"] else [])
    + (if Contains(content, "flask") then ["flask"] else [])
    + (if Contains(content, "fastapi") then ["fastapi"] else [])
  }

  /** Requirements text the analyzer reads: the file exists and its content
      is non-empty. */
  predicate ReadsRequirements(f: RepoFacts) {
    f.hasPythonRequirements && f.requirements.Some? && f.requirements.value != ""
  }

  function PackagePart(f: RepoFacts): PackageResult {
    if f.hasPackageJson then AnalyzePackageJson(f.packageJson) else PackageResult(None, [], [])
  }

  function PythonPart(f: RepoFacts): seq<string> {
    if ReadsRequirements(f) then AnalyzePythonRequirements(f.requirements.value) else []
  }

  /** The number of flag tags `analyzeRepo` appends at the end of `tools`. */
  function FlagCount(f: RepoFacts): nat {
    (if f.hasDockerfile then 1 else 0) + (if f.hasCI then 1 else 0)
  }

  /** `analyzeRepo`: package.json tags first, then requirements frameworks;
      the flag tools `docker` and `github-actions` last. Without a parsed
      package.json the dependency map stays absent. */
  function AnalyzeRepo(f: RepoFacts): (a: RepoAnalysis)
    ensures a.hasPackageJson == f.hasPackageJson && a.hasDockerfile == f.hasDockerfile
    ensures a.hasCI == f.hasCI && a.hasPythonRequirements == f.hasPythonRequirements
    ensures a.dependencies ==
              if f.hasPackageJson && f.packageJson.Parsed?
              then Some(MergeDependencies(f.packageJson.dependencies, f.packageJson.devDependencies))
              else None
  {
    var pkg := PackagePart(f);
    var py := PythonPart(f);
    var tools := pkg.tools + (if f.hasDockerfile then [DockerTag] else []) + (if f.hasCI then [CITag] else []);
    RepoAnalysis(f.hasPackageJson, f.hasDockerfile, f.hasCI, f.hasPythonRequirements,
                 pkg.frameworks + py, tools, pkg.dependencies)
  }

  /** Which tags `analyzeRepo` reports: a package.json check that matches the
      merged map, a Python framework name in the requirements text, a flag. */
  lemma AnalyzeRepoTags(f: RepoFacts)
    ensures var a := AnalyzeRepo(f);
            forall t :: t in a.frameworks <==>
              || (a.dependencies.Some? && exists m :: m in PackageFrameworkRules && m.tag == t && MatchesDependencies(m, a.dependencies.value))
              || (ReadsRequirements(f) && t in PythonFrameworkTags && Contains(f.requirements.value, t))
    ensures var a := AnalyzeRepo(f);
            forall t :: t in a.tools <==>
              || (a.dependencies.Some? && exists m :: m in PackageToolRules && m.tag == t && MatchesDependencies(m, a.dependencies.value))
              || (f.hasDockerfile && t == DockerTag)
              || (f.hasCI && t == CITag)
    ensures !f.hasPackageJson ==> forall t :: t in AnalyzeRepo(f).frameworks ==> t in PythonFrameworkTags
    ensures !f.hasPackageJson ==> forall t :: t in AnalyzeRepo(f).tools ==> t in FlagTags
  {
    if f.hasPackageJson {
      PackageJsonTags(f.packageJson);
    }
  }

  /** Package.json frameworks precede requirements frameworks; the flag
      tools come last, `docker` before `github-actions`. */
  lemma AnalyzeRepoOrder(f: RepoFacts)
    ensures var fw := AnalyzeRepo(f).frameworks;
            forall i, j :: 0 <= i < j < |fw| && fw[i] in PythonFrameworkTags ==> fw[j] in PythonFrameworkTags
    ensures FlagCount(f) <= |AnalyzeRepo(f).tools|
    ensures var tools := AnalyzeRepo(f).tools;
            forall i :: 0 <= i < |tools| - FlagCount(f) ==> tools[i] !in FlagTags
    ensures var tools := AnalyzeRepo(f).tools;
            f.hasCI ==> tools[|tools| - 1] == CITag
    ensures var tools := AnalyzeRepo(f).tools;
            f.hasDockerfile ==> tools[|tools| - FlagCount(f)] == DockerTag
  {
    if f.hasPackageJson {
      PackageJsonTags(f.packageJson);
    }
  }

  // ---------------------------------------------------------------------------
  // Properties of the analysis

  /** The package.json framework checks push `nestjs` twice when both of
      its keys are truthy. */
  lemma NestjsPushCount(all: map<string, string>)
    requires Truthy(all, "nestjs") && Truthy(all, "@nestjs/core")
    ensures Count(PushMatching(PackageFrameworkRules, all), "nestjs") == 2
  {
    var rules := PackageFrameworkRules;
    var front, back := rules[..7], rules[7..];
    assert rules == front + back;
    PushMatchingMembers(front, all);
    assert "nestjs" !in PushMatching(front, all) by {
      forall m | m in front ensures m.tag != "nestjs" { }
    }
    assert back[0].patterns[0] == "nestjs" && back[1].patterns[0] == "@nestjs/core";
    assert back[..1][..0] == [] && back[..2] == back;
    assert PushMatching(back, all) == ["nestjs", "nestjs"];
    PushMatchingConcat(front, back, all);
    CountConcat(PushMatching(front, all), ["nestjs", "nestjs"], "nestjs");
  }

  /** Both `nestjs` keys truthy: `nestjs` is reported twice, there is no
      de-duplication. */
  lemma NestjsPushedTwice(f: RepoFacts)
    requires f.hasPackageJson && f.packageJson.Parsed?
    requires var all := MergeDependencies(f.packageJson.dependencies, f.packageJson.devDependencies);
             Truthy(all, "nestjs") && Truthy(all, "@nestjs/core")
    ensures Count(AnalyzeRepo(f).frameworks, "nestjs") == 2
  {
    var all := MergeDependencies(f.packageJson.dependencies, f.packageJson.devDependencies);
    NestjsPushCount(all);
    CountConcat(PushMatching(PackageFrameworkRules, all), PythonPart(f), "nestjs");
    assert Count(PythonPart(f), "nestjs") == 0;
  }

  /** The package.json tool checks push `testing` once at most: once when
      `jest` or `vitest` is truthy, never otherwise. */
  lemma TestingPushCount(all: map<string, string>)
    ensures Count(PushMatching(PackageToolRules, all), "testing") ==
            if Truthy(all, "jest") || Truthy(all, "vitest") then 1 else 0
  {
    var rules := PackageToolRules;
    var front, mid, back := rules[..1], rules[1..2], rules[2..];
    assert rules == front + mid + back;
    PushMatchingMembers(front, all);
    PushMatchingMembers(back, all);
    assert "testing" !in PushMatching(front, all) by {
      forall m | m in front ensures m.tag != "testing" { }
    }
    assert "testing" !in PushMatching(back, all) by {
      forall m | m in back ensures m.tag != "testing" { }
    }
    var testing := mid[0];
    assert testing.patterns[0] == "jest" && testing.patterns[1] == "vitest" && |testing.patterns| == 2;
    assert mid[..0] == [];
    assert MatchesDependencies(testing, all) <==> Truthy(all, "jest") || Truthy(all, "vitest");
    PushMatchingConcat(front + mid, back, all);
    PushMatchingConcat(front, mid, all);
    CountConcat(PushMatching(front, all) + PushMatching(mid, all), PushMatching(back, all), "testing");
    CountConcat(PushMatching(front, all), PushMatching(mid, all), "testing");
    assert Count(["testing"], "testing") == 1 by { assert ["testing"][..0] == []; }
  }

  /** `testing` is reported at most once, and exactly when `jest` or
      `vitest` is a truthy dependency. */
  lemma TestingPushedAtMostOnce(f: RepoFacts)
    ensures Count(AnalyzeRepo(f).tools, "testing") <= 1
    ensures "testing" in AnalyzeRepo(f).tools <==>
              AnalyzeRepo(f).dependencies.Some? &&
              (Truthy(AnalyzeRepo(f).dependencies.value, "jest") || Truthy(AnalyzeRepo(f).dependencies.value, "vitest"))
  {
    var a := AnalyzeRepo(f);
    var pkg := PackagePart(f);
    var flags := (if f.hasDockerfile then [DockerTag] else []) + (if f.hasCI then [CITag] else []);
    assert a.tools == pkg.tools + flags;
    assert "testing" !in flags;
    CountConcat(pkg.tools, flags, "testing");
    if a.dependencies.Some? {
      assert pkg.tools == PushMatching(PackageToolRules, a.dependencies.value);
      TestingPushCount(a.dependencies.value);
    } else {
      assert pkg.tools == [];
    }
  }

  /** The same text `Django==4.2` the engine tags `django` yields no framework
      here: the analyzer's substring test is case-sensitive. */
  lemma PythonMatchIsCaseSensitive()
    ensures AnalyzeRepo(RepoFacts(false, false, true, true, NoContent, Some("Django==4.2\nrequests")))
         == RepoAnalysis(false, false, true, true, [], [CITag], None)
  {
    var text := "Django==4.2\nrequests";
    AbsentCharBlocksContains(text, "django", 'd');
    AbsentCharBlocksContains(text, "flask", 'f');
    AbsentCharBlocksContains(text, "fastapi", 'f');
  }

  /** An empty or missing requirements text adds nothing. */
  lemma EmptyRequirementsAddNothing(f: RepoFacts)
    requires f.requirements.None? || f.requirements == Some("")
    ensures forall t :: t in AnalyzeRepo(f).frameworks ==> t !in PythonFrameworkTags
  {
    PackageJsonTags(f.packageJson);
  }

  // ---------------------------------------------------------------------------
  // The analyzer against the tagging engine

  /** The engine context built from the same facts: the same merged
      dependency map, the same flags, the requirements text when the file
      exists. */
  function ContextOf(f: RepoFacts): (ctx: TagContext)
    ensures ctx.dependencies == AnalyzeRepo(f).dependencies
    ensures ctx.hasDockerfile == f.hasDockerfile && ctx.hasCI == f.hasCI
    ensures HasRequirementsText(ctx) <==> ReadsRequirements(f)
  {
    TagContext(PackagePart(f).dependencies, f.hasDockerfile, f.hasCI, f.hasPythonRequirements,
               if f.hasPythonRequirements then f.requirements else None)
  }

  /** Rule `d` of the catalog fires whenever check `m` of the analyzer does. */
  ghost predicate Covers(d: TagMapping, m: TagMapping) {
    d.tag == m.tag && d.kind == m.kind && forall p :: p in m.patterns ==> p in d.patterns
  }

  /** Each package.json framework check has a catalog rule that covers it. */
  lemma FrameworkCheckCovered(i: nat) returns (d: TagMapping)
    requires i < |PackageFrameworkRules|
    ensures d in DefaultMappings && Covers(d, PackageFrameworkRules[i])
  {
    var fr, sr := FrontendFrameworkRules, ServerFrameworkRules;
    d := if i == 0 then fr[0] else if i == 1 then fr[1] else if i == 2 then fr[3]
         else if i == 3 then fr[2] else if i == 4 then fr[4] else if i == 5 then sr[0]
         else if i == 6 then sr[1] else sr[2];
    InDefaultCatalog(d);
  }

  /** Each package.json tool check has a catalog rule that covers it. */
  lemma ToolCheckCovered(i: nat) returns (d: TagMapping)
    requires i < |PackageToolRules|
    ensures d in DefaultMappings && Covers(d, PackageToolRules[i])
  {
    var qr := QualityToolRules;
    d := if i == 0 then qr[3] else if i == 1 then qr[0] else if i == 2 then qr[1] else qr[2];
    InDefaultCatalog(d);
  }

  /** A covering rule matches whenever the covered check does. */
  lemma CoveredMatch(d: TagMapping, m: TagMapping, deps: map<string, string>)
    requires Covers(d, m) && MatchesDependencies(m, deps)
    ensures MatchesDependencies(d, deps)
  {
    var i :| 0 <= i < |m.patterns| && Truthy(deps, m.patterns[i]);
    assert m.patterns[i] in d.patterns;
    var j :| 0 <= j < |d.patterns| && d.patterns[j] == m.patterns[i];
  }

  /** An engine whose catalog covers every package.json check and holds the
      three Python framework rules. */
  ghost predicate CoversChecks(e: Engine) {
    && (forall m :: m in PackageFrameworkRules ==> exists d :: d in e.mappings && Covers(d, m))
    && (forall m :: m in PackageToolRules ==> exists d :: d in e.mappings && Covers(d, m))
    && (forall m :: m in PythonFrameworkRules ==> m in e.mappings)
  }

  lemma DefaultEngineCoversChecks()
    ensures CoversChecks(DefaultEngine)
  {
    forall m | m in PackageFrameworkRules ensures exists d :: d in DefaultMappings && Covers(d, m) {
      var i :| 0 <= i < |PackageFrameworkRules| && PackageFrameworkRules[i] == m;
      var d := FrameworkCheckCovered(i);
    }
    forall m | m in PackageToolRules ensures exists d :: d in DefaultMappings && Covers(d, m) {
      var i :| 0 <= i < |PackageToolRules| && PackageToolRules[i] == m;
      var d := ToolCheckCovered(i);
    }
    forall m | m in PythonFrameworkRules ensures m in DefaultMappings {
      InDefaultCatalog(m);
    }
  }

  /** A package.json check that fires is matched by a rule of a covering
      engine, for the same tag and kind. */
  /** The package.json framework checks are framework rules and the tool
      checks are tool rules. */
  lemma PackageRuleKinds()
    ensures forall m :: m in PackageFrameworkRules ==> m.kind == Framework
    ensures forall m :: m in PackageToolRules ==> m.kind == Tool
  {
  }

  lemma PackageCheckInEngine(e: Engine, ctx: TagContext, m: TagMapping)
    requires CoversChecks(e) && ctx.dependencies.Some?
    requires m in PackageFrameworkRules || m in PackageToolRules
    requires MatchesDependencies(m, ctx.dependencies.value)
    ensures m.kind == Framework ==> m.tag in GenerateTags(e, ctx).frameworks
    ensures m.kind == Tool ==> m.tag in GenerateTags(e, ctx).tools
  {
    var d :| d in e.mappings && Covers(d, m);
    CoveredMatch(d, m, ctx.dependencies.value);
    DependencyRuleEmits(e, ctx, d);
  }

  /** A Python framework name in the requirements text the analyzer reads is
      found by a covering engine as well, which lowers the text first. */
  /** The Python rule for a Python framework tag lists the tag itself as
      its first pattern. */
  lemma PythonRuleFor(t: string) returns (d: TagMapping)
    requires t in PythonFrameworkTags
    ensures d in PythonFrameworkRules && d.tag == t && d.kind == Framework
    ensures |d.patterns| > 0 && Lower(d.patterns[0]) == t
  {
    var pr := PythonFrameworkRules;
    d := if t == "django" then pr[0] else if t == "flask" then pr[1] else pr[2];
    assert d.patterns[0] == t;
    assert forall i :: 0 <= i < |t| ==> LowerChar(t[i]) == t[i];
  }

  lemma RequirementsTagInEngine(e: Engine, f: RepoFacts, t: string)
    requires CoversChecks(e)
    requires ReadsRequirements(f) && t in PythonFrameworkTags && Contains(f.requirements.value, t)
    ensures t in GenerateTags(e, ContextOf(f)).frameworks
  {
    var text := f.requirements.value;
    var d := PythonRuleFor(t);
    LowerPreservesContains(text, d.patterns[0]);
    assert Contains(Lower(text), Lower(d.patterns[0]));
    assert MatchesRequirements(d, Lower(text));
    RequirementsRuleEmits(e, ContextOf(f), d);
  }

  /** Every tag the analyzer reports, a covering engine reports too on the
      same facts. */
  lemma AnalyzerTagsWithinCoveringEngine(e: Engine, f: RepoFacts)
    requires CoversChecks(e)
    ensures forall t :: t in AnalyzeRepo(f).frameworks ==> t in GenerateTags(e, ContextOf(f)).frameworks
    ensures forall t :: t in AnalyzeRepo(f).tools ==> t in GenerateTags(e, ContextOf(f)).tools
  {
    var a := AnalyzeRepo(f);
    var g := GenerateTags(e, ContextOf(f));
    AnalyzeRepoTags(f);
    PackageRuleKinds();
    forall t | t in a.frameworks ensures t in g.frameworks {
      if a.dependencies.Some? && exists m :: m in PackageFrameworkRules && m.tag == t && MatchesDependencies(m, a.dependencies.value) {
        var m :| m in PackageFrameworkRules && m.tag == t && MatchesDependencies(m, a.dependencies.value);
        PackageCheckInEngine(e, ContextOf(f), m);
      } else {
        RequirementsTagInEngine(e, f, t);
      }
    }
    forall t | t in a.tools ensures t in g.tools {
      if a.dependencies.Some? && exists m :: m in PackageToolRules && m.tag == t && MatchesDependencies(m, a.dependencies.value) {
        var m :| m in PackageToolRules && m.tag == t && MatchesDependencies(m, a.dependencies.value);
        PackageCheckInEngine(e, ContextOf(f), m);
      }
    }
  }

  /** Every tag the analyzer reports, the default engine reports too on the
      same facts: the command line's derivation is never richer. */
  lemma AnalyzerTagsWithinEngineTags(f: RepoFacts)
    ensures forall t :: t in AnalyzeRepo(f).frameworks ==> t in GenerateTags(DefaultEngine, ContextOf(f)).frameworks
    ensures forall t :: t in AnalyzeRepo(f).tools ==> t in GenerateTags(DefaultEngine, ContextOf(f)).tools
  {
    DefaultEngineCoversChecks();
    AnalyzerTagsWithinCoveringEngine(DefaultEngine, f);
  }

  /** The tags the package.json tool checks can push. */
  lemma PackageToolTags()
    ensures forall m :: m in PackageToolRules ==> m.tag in ["typescript", "testing", "linting", "formatting"]
  {
  }

  /** The analyzer has no check for `vite`. */
  lemma ViteUnseenByAnalyzer(f: RepoFacts)
    ensures "vite" !in AnalyzeRepo(f).tools
  {
    AnalyzeRepoTags(f);
    PackageToolTags();
  }

  /** The default engine's build-tool rule for `vite` fires on a truthy
      `vite` dependency. */
  lemma ViteSeenByEngine(f: RepoFacts)
    requires AnalyzeRepo(f).dependencies.Some? && Truthy(AnalyzeRepo(f).dependencies.value, "vite")
    ensures "vite" in GenerateTags(DefaultEngine, ContextOf(f)).tools
  {
    var d := BuildToolRules[1];
    assert d.patterns[0] == "vite" && d.kind == Tool && d.tag == "vite";
    assert MatchesDependencies(d, AnalyzeRepo(f).dependencies.value);
    InDefaultCatalog(d);
    DependencyRuleEmits(DefaultEngine, ContextOf(f), d);
  }

  /** The converse fails: a `vite` dependency is a tool for the engine and
      nothing for the analyzer. */
  lemma ViteSeenOnlyByEngine(version: string)
    requires version != ""
    ensures var f := RepoFacts(true, false, false, false, Parsed(map["vite" := version], map[]), None);
            "vite" in GenerateTags(DefaultEngine, ContextOf(f)).tools && "vite" !in AnalyzeRepo(f).tools
  {
    var f := RepoFacts(true, false, false, false, Parsed(map["vite" := version], map[]), None);
    assert MergeDependencies(map["vite" := version], map[]) == map["vite" := version];
    ViteSeenByEngine(f);
    ViteUnseenByAnalyzer(f);
  }
}
