/** The rule-based tagging engine: an ordered, mutable catalog of
    (tag, kind, patterns) rules and the classifier `GenerateTags` that maps the
    facts known about one repository to two duplicate-free tag lists. */
module Tagger {
  import opened Collections

  datatype TagKind = Framework | Tool

  /** One catalog rule: `tag` is emitted, into the list chosen by `kind`,
      when one of `patterns` matches. */
  datatype TagMapping = TagMapping(tag: string, kind: TagKind, patterns: seq<string>)

  /** The facts known about one repository. `hasPythonRequirements` is carried
      but not consulted by the classifier. */
  datatype TagContext = TagContext(
    dependencies: Option<map<string, string>>,
    hasDockerfile: bool,
    hasCI: bool,
    hasPythonRequirements: bool,
    pythonRequirementsContent: Option<string>)

  /** The classifier's answer; each list is a JavaScript Set in insertion order. */
  datatype Tags = Tags(frameworks: seq<string>, tools: seq<string>)

  /** A tagging engine is its ordered rule catalog. */
  datatype Engine = Engine(mappings: seq<TagMapping>)

  /** The outcome of `removeTagMapping`: the new engine and the boolean it returns. */
  datatype Removal = Removal(engine: Engine, removed: bool)

  const DockerTag: string := "docker"
  const CITag: string := "github-actions"

  /** The only framework rules consulted against requirements text. */
  const PythonFrameworkTags: seq<string> := ["django", "flask", "fastapi"]

  // The default catalog, in declaration order, split into groups of related rules.

  const FrontendFrameworkRules: seq<TagMapping> := [
    TagMapping("react", Framework, ["react", "@types/react"]),
    TagMapping("nextjs", Framework, ["next"]),
    TagMapping("vue", Framework, ["vue"]),
    TagMapping("nuxt", Framework, ["nuxt"]),
    TagMapping("angular", Framework, ["@angular/core", "@angular/common"]),
    TagMapping("svelte", Framework, ["svelte"]),
    TagMapping("solid", Framework, ["solid-js"]),
    TagMapping("preact", Framework, ["preact"])
  ]

  const ServerFrameworkRules: seq<TagMapping> := [
    TagMapping("express", Framework, ["express"]),
    TagMapping("fastify", Framework, ["fastify"]),
    TagMapping("nestjs", Framework, ["@nestjs/core", "nestjs"]),
    TagMapping("koa", Framework, ["koa"]),
    TagMapping("hapi", Framework, ["@hapi/hapi", "hapi"])
  ]

  const PythonFrameworkRules: seq<TagMapping> := [
    TagMapping("django", Framework, ["django", "Django"]),
    TagMapping("flask", Framework, ["flask", "Flask"]),
    TagMapping("fastapi", Framework, ["fastapi", "FastAPI"])
  ]

  const AppFrameworkRules: seq<TagMapping> := [
    TagMapping("remix", Framework, ["@remix-run/react", "@remix-run/node"]),
    TagMapping("gatsby", Framework, ["gatsby"]),
    TagMapping("astro", Framework, ["astro"]),
    TagMapping("react-native", Framework, ["react-native"]),
    TagMapping("expo", Framework, ["expo"]),
    TagMapping("electron", Framework, ["electron"]),
    TagMapping("tauri", Framework, ["@tauri-apps/api", "@tauri-apps/cli"])
  ]

  const BuildToolRules: seq<TagMapping> := [
    TagMapping("webpack", Tool, ["webpack"]),
    TagMapping("vite", Tool, ["vite"]),
    TagMapping("rollup", Tool, ["rollup"]),
    TagMapping("esbuild", Tool, ["esbuild"]),
    TagMapping("parcel", Tool, ["parcel"]),
    TagMapping("turbopack", Tool, ["turbopack"])
  ]

  const QualityToolRules: seq<TagMapping> := [
    TagMapping("testing", Tool, ["jest", "vitest", "mocha", "chai", "@testing-library/react",
                                 "cypress", "playwright", "@playwright/test", "selenium-webdriver"]),
    TagMapping("linting", Tool, ["eslint", "tslint"]),
    TagMapping("formatting", Tool, ["prettier"]),
    TagMapping("typescript", Tool, ["typescript"])
  ]

  const StateToolRules: seq<TagMapping> := [
    TagMapping("redux", Tool, ["redux", "@reduxjs/toolkit"]),
    TagMapping("mobx", Tool, ["mobx"]),
    TagMapping("zustand", Tool, ["zustand"]),
    TagMapping("recoil", Tool, ["recoil"]),
    TagMapping("jotai", Tool, ["jotai"])
  ]

  const StyleToolRules: seq<TagMapping> := [
    TagMapping("tailwind", Tool, ["tailwindcss"]),
    TagMapping("styled-components", Tool, ["styled-components"]),
    TagMapping("emotion", Tool, ["@emotion/react", "@emotion/styled"]),
    TagMapping("sass", Tool, ["sass", "node-sass"])
  ]

  const DataToolRules: seq<TagMapping> := [
    TagMapping("graphql", Tool, ["graphql", "apollo-server", "@apollo/client", "urql", "relay-runtime"]),
    TagMapping("prisma", Tool, ["prisma", "@prisma/client"]),
    TagMapping("typeorm", Tool, ["typeorm"]),
    TagMapping("sequelize", Tool, ["sequelize"]),
    TagMapping("mongoose", Tool, ["mongoose"]),
    TagMapping("drizzle", Tool, ["drizzle-orm"])
  ]

  const InfraToolRules: seq<TagMapping> := [
    TagMapping("docker", Tool, ["Dockerfile"]),
    TagMapping("github-actions", Tool, [".github/workflows"])
  ]

  /** The catalog a fresh engine holds. */
  const DefaultMappings: seq<TagMapping> :=
    FrontendFrameworkRules + ServerFrameworkRules + PythonFrameworkRules + AppFrameworkRules
    + BuildToolRules + QualityToolRules + StateToolRules + StyleToolRules + DataToolRules
    + InfraToolRules

  /** A rule of one of the framework groups or of the build or quality tool
      groups is a rule of the default catalog. */
  lemma InDefaultCatalog(m: TagMapping)
    requires || m in FrontendFrameworkRules || m in ServerFrameworkRules || m in PythonFrameworkRules
             || m in BuildToolRules || m in QualityToolRules
    ensures m in DefaultMappings
  {
  }

  /** The engine every run starts from. */
  const DefaultEngine: Engine := Engine(DefaultMappings)

  // ---------------------------------------------------------------------------
  // Matching

  /** `deps[key]` is truthy in JavaScript: the key is present and its version
      string is not empty. */
  predicate Truthy(deps: map<string, string>, key: string) {
    key in deps && deps[key] != ""
  }

  /** Some pattern of the rule is a dependency with a truthy value. */
  predicate MatchesDependencies(m: TagMapping, deps: map<string, string>) {
    exists i :: 0 <= i < |m.patterns| && Truthy(deps, m.patterns[i])
  }

  /** `toLowerCase` on the ASCII letters. */
  function LowerChar(c: char): char {
    if 'A' <= c <= 'Z' then (c as int + 32) as char else c
  }

  function Lower(s: string): (r: string)
    ensures |r| == |s|
    ensures forall i :: 0 <= i < |s| ==> r[i] == LowerChar(s[i])
  {
    seq(|s|, i requires 0 <= i < |s| => LowerChar(s[i]))
  }

  /** `pattern` occurs in `text` starting at position `i`. */
  predicate OccursAt(text: string, pattern: string, i: nat) {
    i + |pattern| <= |text| && text[i..i + |pattern|] == pattern
  }

  /** `text.includes(pattern)`. */
  predicate Contains(text: string, pattern: string) {
    exists i: nat :: i <= |text| && OccursAt(text, pattern, i)
  }

  /** Every character of an occurring pattern is a character of the text. */
  lemma OccurrenceKeepsChars(text: string, pattern: string, i: nat, c: char)
    ensures OccursAt(text, pattern, i) && c in pattern ==> c in text
  {
    if OccursAt(text, pattern, i) && c in pattern {
      var k :| 0 <= k < |pattern| && pattern[k] == c;
      assert text[i..i + |pattern|][k] == text[i + k];
    }
  }

  /** A pattern holding a character the text lacks does not occur in it. */
  lemma AbsentCharBlocksContains(text: string, pattern: string, c: char)
    requires c in pattern && c !in text
    ensures !Contains(text, pattern)
  {
    forall i: nat | i <= |text| ensures !OccursAt(text, pattern, i) {
      OccurrenceKeepsChars(text, pattern, i, c);
    }
  }

  /** Lower-casing text and pattern alike keeps every occurrence. */
  lemma LowerPreservesContains(text: string, pattern: string)
    requires Contains(text, pattern)
    ensures Contains(Lower(text), Lower(pattern))
  {
    var i: nat :| i <= |text| && OccursAt(text, pattern, i);
    assert Lower(text)[i..i + |pattern|] == Lower(pattern);
    assert OccursAt(Lower(text), Lower(pattern), i);
  }

  /** A rule consulted against lower-cased requirements text: a framework rule
      among the allow-listed Python tags some of whose lower-cased patterns
      occur in the text. */
  predicate MatchesRequirements(m: TagMapping, lowered: string) {
    && m.kind == Framework
    && m.tag in PythonFrameworkTags
    && exists i :: 0 <= i < |m.patterns| && Contains(lowered, Lower(m.patterns[i]))
  }

  // ---------------------------------------------------------------------------
  // Classification

  /** `frameworks.add(tag)` or `tools.add(tag)`, by kind. */
  function Emit(acc: Tags, kind: TagKind, tag: string): Tags {
    match kind
    case Framework => acc.(frameworks := AddNew(acc.frameworks, tag))
    case Tool => acc.(tools := AddNew(acc.tools, tag))
  }

  ghost predicate DuplicateFree(t: Tags) {
    NoDuplicates(t.frameworks) && NoDuplicates(t.tools)
  }

  /** Some rule of `rules` of the given kind and tag matches the dependencies. */
  ghost predicate DependencyEvidence(rules: seq<TagMapping>, deps: map<string, string>, kind: TagKind, t: string) {
    exists m :: m in rules && m.kind == kind && m.tag == t && MatchesDependencies(m, deps)
  }

  /** Some rule of `rules` with tag `t` matches the lower-cased requirements text. */
  ghost predicate RequirementsEvidence(rules: seq<TagMapping>, lowered: string, t: string) {
    exists m :: m in rules && m.tag == t && MatchesRequirements(m, lowered)
  }

  /** The pass over the catalog against the dependency map, in catalog order. */
  function DependencyTags(rules: seq<TagMapping>, deps: map<string, string>, acc: Tags): (r: Tags)
    ensures DuplicateFree(acc) ==> DuplicateFree(r)
    ensures forall t :: t in r.frameworks <==> t in acc.frameworks || DependencyEvidence(rules, deps, Framework, t)
    ensures forall t :: t in r.tools <==> t in acc.tools || DependencyEvidence(rules, deps, Tool, t)
    decreases |rules|
  {
    if |rules| == 0 then acc
    else
      var m := rules[0];
      var acc' := if MatchesDependencies(m, deps) then Emit(acc, m.kind, m.tag) else acc;
      assert forall x :: x in rules <==> x == m || x in rules[1..];
      DependencyTags(rules[1..], deps, acc')
  }

  /** The pass over the catalog against lower-cased requirements text. */
  function RequirementsTags(rules: seq<TagMapping>, lowered: string, acc: Tags): (r: Tags)
    ensures DuplicateFree(acc) ==> DuplicateFree(r)
    ensures forall t :: t in r.frameworks <==> t in acc.frameworks || RequirementsEvidence(rules, lowered, t)
    ensures r.tools == acc.tools
    decreases |rules|
  {
    if |rules| == 0 then acc
    else
      var m := rules[0];
      var acc' := if MatchesRequirements(m, lowered) then Emit(acc, Framework, m.tag) else acc;
      assert forall x :: x in rules <==> x == m || x in rules[1..];
      RequirementsTags(rules[1..], lowered, acc')
  }

  /** Requirements text that takes part in classification: present and not empty. */
  predicate HasRequirementsText(ctx: TagContext) {
    ctx.pythonRequirementsContent.Some? && ctx.pythonRequirementsContent.value != ""
  }

  /** Why `t` may appear among the frameworks. */
  ghost predicate FrameworkEvidence(rules: seq<TagMapping>, ctx: TagContext, t: string) {
    || (ctx.dependencies.Some? && DependencyEvidence(rules, ctx.dependencies.value, Framework, t))
    || (HasRequirementsText(ctx) && RequirementsEvidence(rules, Lower(ctx.pythonRequirementsContent.value), t))
  }

  /** Why `t` may appear among the tools. */
  ghost predicate ToolEvidence(rules: seq<TagMapping>, ctx: TagContext, t: string) {
    || (ctx.dependencies.Some? && DependencyEvidence(rules, ctx.dependencies.value, Tool, t))
    || (ctx.hasDockerfile && t == DockerTag)
    || (ctx.hasCI && t == CITag)
  }

  /** `TaggingEngine.generateTags`. */
  function GenerateTags(e: Engine, ctx: TagContext): (r: Tags)
    ensures DuplicateFree(r)
    ensures forall t :: t in r.frameworks <==> FrameworkEvidence(e.mappings, ctx, t)
    ensures forall t :: t in r.tools <==> ToolEvidence(e.mappings, ctx, t)
  {
    var t0 := Tags([], []);
    var t1 := if ctx.dependencies.Some? then DependencyTags(e.mappings, ctx.dependencies.value, t0) else t0;
    var t2 := if ctx.hasDockerfile then Emit(t1, Tool, DockerTag) else t1;
    var t3 := if ctx.hasCI then Emit(t2, Tool, CITag) else t2;
    if HasRequirementsText(ctx)
    then RequirementsTags(e.mappings, Lower(ctx.pythonRequirementsContent.value), t3)
    else t3
  }

  // ---------------------------------------------------------------------------
  // Catalog mutation

  /** `addTagMapping`: the rule joins at the end; earlier rules are untouched. */
  function AddTagMapping(e: Engine, m: TagMapping): (e': Engine)
    ensures |e'.mappings| == |e.mappings| + 1
    ensures e'.mappings[..|e.mappings|] == e.mappings
    ensures e'.mappings[|e.mappings|] == m
  {
    Engine(e.mappings + [m])
  }

  /** `getTagMappings`: a copy of the catalog. */
  function GetTagMappings(e: Engine): seq<TagMapping> {
    e.mappings
  }

  /** The rules whose tag is not `tag`, in their original order
      (`filter(m => m.tag !== tag)`). */
  function KeepOthers(rules: seq<TagMapping>, tag: string): (r: seq<TagMapping>)
    ensures forall m :: m in r <==> m in rules && m.tag != tag
    ensures |r| <= |rules|
    ensures |r| < |rules| <==> exists m :: m in rules && m.tag == tag
    decreases |rules|
  {
    if |rules| == 0 then []
    else
      var rest := KeepOthers(rules[..|rules| - 1], tag);
      var last := rules[|rules| - 1];
      assert forall x :: x in rules <==> x in rules[..|rules| - 1] || x == last;
      if last.tag == tag then rest else rest + [last]
  }

  /** `removeTagMapping`: drops every rule with the tag and reports whether the
      catalog shrank. */
  function RemoveTagMapping(e: Engine, tag: string): (r: Removal)
    ensures r.removed <==> exists m :: m in e.mappings && m.tag == tag
    ensures forall m :: m in r.engine.mappings <==> m in e.mappings && m.tag != tag
  {
    var kept := KeepOthers(e.mappings, tag);
    Removal(Engine(kept), |kept| < |e.mappings|)
  }

  // ---------------------------------------------------------------------------
  // Properties of the classifier

  /** A catalog rule whose dependency check succeeds contributes its tag to
      the list its kind names. */
  lemma DependencyRuleEmits(e: Engine, ctx: TagContext, m: TagMapping)
    requires m in e.mappings && ctx.dependencies.Some? && MatchesDependencies(m, ctx.dependencies.value)
    ensures m.kind == Framework ==> m.tag in GenerateTags(e, ctx).frameworks
    ensures m.kind == Tool ==> m.tag in GenerateTags(e, ctx).tools
  {
  }

  /** A catalog rule for a Python framework whose pattern occurs in the
      lowered requirements text contributes its tag to the frameworks. */
  lemma RequirementsRuleEmits(e: Engine, ctx: TagContext, m: TagMapping)
    requires m in e.mappings && HasRequirementsText(ctx)
    requires MatchesRequirements(m, Lower(ctx.pythonRequirementsContent.value))
    ensures m.tag in GenerateTags(e, ctx).frameworks
  {
  }

  /** A context with no dependency map, no flags and no requirements text
      yields no tags, whatever the catalog. */
  lemma EmptyContextYieldsNoTags(e: Engine, ctx: TagContext)
    requires ctx.dependencies.None? && !ctx.hasDockerfile && !ctx.hasCI && !HasRequirementsText(ctx)
    ensures GenerateTags(e, ctx) == Tags([], [])
  {
  }

  /** Every emitted tag is the tag of a catalog rule or one of the two flag tags. */
  lemma EmittedTagsAreKnown(e: Engine, ctx: TagContext, t: string)
    requires t in GenerateTags(e, ctx).frameworks || t in GenerateTags(e, ctx).tools
    ensures (exists m :: m in e.mappings && m.tag == t) || t == DockerTag || t == CITag
  {
  }

  /** The Dockerfile and CI flags produce their tags whatever the catalog holds. */
  lemma FlagTagsIgnoreCatalog(e: Engine, ctx: TagContext)
    ensures ctx.hasDockerfile ==> DockerTag in GenerateTags(e, ctx).tools
    ensures ctx.hasCI ==> CITag in GenerateTags(e, ctx).tools
    ensures DockerTag in GenerateTags(e, ctx).tools <==>
              ctx.hasDockerfile || (ctx.dependencies.Some? && DependencyEvidence(e.mappings, ctx.dependencies.value, Tool, DockerTag))
  {
  }

  /** With no dependency map, frameworks can only come from the three
      allow-listed Python rules. */
  lemma RequirementsOnlyYieldPythonFrameworks(e: Engine, ctx: TagContext)
    requires ctx.dependencies.None?
    ensures forall t :: t in GenerateTags(e, ctx).frameworks ==> t in PythonFrameworkTags
    ensures forall t :: t in GenerateTags(e, ctx).tools ==> t == DockerTag || t == CITag
  {
  }

  lemma LowerIdempotent(s: string)
    ensures Lower(Lower(s)) == Lower(s)
  {
  }

  /** Requirements text is matched case-insensitively: lower-casing it
      beforehand changes nothing. */
  lemma RequirementsCaseInsensitive(e: Engine, ctx: TagContext)
    requires ctx.pythonRequirementsContent.Some?
    ensures GenerateTags(e, ctx) ==
            GenerateTags(e, ctx.(pythonRequirementsContent := Some(Lower(ctx.pythonRequirementsContent.value))))
  {
    LowerIdempotent(ctx.pythonRequirementsContent.value);
  }

  /** A dependency pass over a map with no truthy value adds nothing. */
  lemma {:induction false} NoTruthyDependencyAddsNothing(rules: seq<TagMapping>, deps: map<string, string>, acc: Tags)
    requires forall k :: k in deps ==> deps[k] == ""
    ensures DependencyTags(rules, deps, acc) == acc
    decreases |rules|
  {
    if |rules| > 0 {
      assert !MatchesDependencies(rules[0], deps);
      NoTruthyDependencyAddsNothing(rules[1..], deps, acc);
    }
  }

  /** A dependency map whose versions are all empty strings classifies like
      no dependency map at all: an empty version does not match. */
  lemma EmptyVersionsMatchNothing(e: Engine, ctx: TagContext, deps: map<string, string>)
    requires ctx.dependencies == Some(deps)
    requires forall k :: k in deps ==> deps[k] == ""
    ensures GenerateTags(e, ctx) == GenerateTags(e, ctx.(dependencies := None))
  {
    NoTruthyDependencyAddsNothing(e.mappings, deps, Tags([], []));
  }

  // ---------------------------------------------------------------------------
  // Properties of catalog mutation

  /** `getTagMappings` after `addTagMapping` is the old catalog plus the new rule. */
  lemma GetAfterAdd(e: Engine, m: TagMapping)
    ensures GetTagMappings(AddTagMapping(e, m)) == GetTagMappings(e) + [m]
  {
  }

  /** Appending a rule never takes a tag away. */
  lemma AddKeepsTags(e: Engine, m: TagMapping, ctx: TagContext)
    ensures forall t :: t in GenerateTags(e, ctx).frameworks ==> t in GenerateTags(AddTagMapping(e, m), ctx).frameworks
    ensures forall t :: t in GenerateTags(e, ctx).tools ==> t in GenerateTags(AddTagMapping(e, m), ctx).tools
  {
    var e' := AddTagMapping(e, m);
    assert forall x :: x in e.mappings ==> x in e'.mappings;
  }

  /** `ks` lists strictly increasing positions below `n`. */
  ghost predicate IncreasingIndices(ks: seq<nat>, n: nat) {
    && (forall a :: 0 <= a < |ks| ==> ks[a] < n)
    && (forall a, b :: 0 <= a < b < |ks| ==> ks[a] < ks[b])
  }

  /** One step of `KeepOthers` keeps the index bookkeeping: the last rule is
      dropped or appended, and its position joins the index list with it. */
  lemma ExtendIndices(rules: seq<TagMapping>, tag: string, before: seq<TagMapping>, prev: seq<nat>)
    returns (kept: seq<TagMapping>, ks: seq<nat>)
    requires |rules| > 0 && |prev| == |before| && IncreasingIndices(prev, |rules| - 1)
    requires forall a :: 0 <= a < |prev| ==> before[a] == rules[prev[a]]
    requires forall i :: 0 <= i < |rules| - 1 && rules[i].tag != tag ==> i in prev
    ensures kept == if rules[|rules| - 1].tag == tag then before else before + [rules[|rules| - 1]]
    ensures |ks| == |kept| && IncreasingIndices(ks, |rules|)
    ensures forall a :: 0 <= a < |ks| ==> kept[a] == rules[ks[a]]
    ensures forall i :: 0 <= i < |rules| && rules[i].tag != tag ==> i in ks
  {
    var n := |rules| - 1;
    if rules[n].tag == tag {
      kept, ks := before, prev;
    } else {
      kept, ks := before + [rules[n]], prev + [n];
    }
  }

  /** The rules kept by `KeepOthers` are exactly the rules at the positions
      whose tag differs, in the same order. */
  lemma {:induction false} KeepOthersIsSubsequence(rules: seq<TagMapping>, tag: string) returns (ks: seq<nat>)
    ensures |ks| == |KeepOthers(rules, tag)|
    ensures IncreasingIndices(ks, |rules|)
    ensures forall a :: 0 <= a < |ks| ==> KeepOthers(rules, tag)[a] == rules[ks[a]]
    ensures forall i :: 0 <= i < |rules| && rules[i].tag != tag ==> i in ks
    decreases |rules|
  {
    if |rules| == 0 {
      ks := [];
    } else {
      var init := rules[..|rules| - 1];
      var prev := KeepOthersIsSubsequence(init, tag);
      var kept;
      kept, ks := ExtendIndices(rules, tag, KeepOthers(init, tag), prev);
    }
  }

  /** `removeTagMapping(tag)` leaves no rule with that tag, keeps the order
      of all other rules, and reports true exactly when the catalog shrank. */
  lemma RemovePreservesOrder(e: Engine, tag: string) returns (ks: seq<nat>)
    ensures forall m :: m in RemoveTagMapping(e, tag).engine.mappings ==> m.tag != tag
    ensures RemoveTagMapping(e, tag).removed <==> |RemoveTagMapping(e, tag).engine.mappings| < |e.mappings|
    ensures |ks| == |RemoveTagMapping(e, tag).engine.mappings|
    ensures IncreasingIndices(ks, |e.mappings|)
    ensures forall a :: 0 <= a < |ks| ==> RemoveTagMapping(e, tag).engine.mappings[a] == e.mappings[ks[a]]
    ensures forall i :: 0 <= i < |e.mappings| && e.mappings[i].tag != tag ==> i in ks
  {
    ks := KeepOthersIsSubsequence(e.mappings, tag);
  }

  /** Once a tag's rules are removed the engine no longer emits it, unless it
      is one of the two flag tags. */
  lemma RemovedTagIsNotEmitted(e: Engine, tag: string, ctx: TagContext)
    requires tag != DockerTag && tag != CITag
    ensures tag !in GenerateTags(RemoveTagMapping(e, tag).engine, ctx).frameworks
    ensures tag !in GenerateTags(RemoveTagMapping(e, tag).engine, ctx).tools
  {
  }

  /** Removing the `docker` rule does not suppress the flag-based `docker` tag. */
  lemma RemovingDockerRuleKeepsFlagTag(e: Engine, ctx: TagContext)
    requires ctx.hasDockerfile
    ensures !RemoveTagMapping(RemoveTagMapping(e, DockerTag).engine, DockerTag).removed
    ensures DockerTag in GenerateTags(RemoveTagMapping(e, DockerTag).engine, ctx).tools
  {
  }

  // ---------------------------------------------------------------------------
  // The default catalog

  /** Any dependency map with a truthy `react` entry tags the repository `react`. */
  lemma ReactDependencyYieldsReact(ctx: TagContext)
    requires ctx.dependencies.Some? && Truthy(ctx.dependencies.value, "react")
    ensures "react" in GenerateTags(DefaultEngine, ctx).frameworks
  {
    var m := DefaultMappings[0];
    assert m.patterns[0] == "react";
    assert m in DefaultEngine.mappings && MatchesDependencies(m, ctx.dependencies.value);
  }

  /** `react` and `typescript` dependencies plus a Dockerfile: `react` is a
      framework, `typescript` and `docker` are tools. */
  lemma ReactTypescriptDockerScenario()
    ensures var r := GenerateTags(DefaultEngine, TagContext(Some(map["react" := "^18.0", "typescript" := "^5.0"]), true, false, false, None));
            "react" in r.frameworks && "typescript" in r.tools && DockerTag in r.tools
  {
    var deps := map["react" := "^18.0", "typescript" := "^5.0"];
    var ts := QualityToolRules[3];
    assert ts.patterns[0] == "typescript";
    assert ts in DefaultMappings && MatchesDependencies(ts, deps);
    ReactDependencyYieldsReact(TagContext(Some(deps), true, false, false, None));
  }

  /** Mixed-case requirements text and a CI directory: the engine finds
      `django`, because it lower-cases the text before matching. */
  lemma DjangoRequirementsScenario()
    ensures var r := GenerateTags(DefaultEngine, TagContext(None, false, true, true, Some("Django==4.2\nrequests")));
            "django" in r.frameworks && r.tools == [CITag]
  {
    var lowered := Lower("Django==4.2\nrequests");
    var m := PythonFrameworkRules[0];
    assert m.patterns[0] == "django" && Lower("django") == "django";
    assert lowered[0..6] == "django";
    assert OccursAt(lowered, Lower(m.patterns[0]), 0);
    assert m in DefaultMappings && MatchesRequirements(m, lowered);
  }
}
