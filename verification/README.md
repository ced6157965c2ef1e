# repolens core in Dafny

repolens is a command-line tool. It reads a GitHub user's repositories and writes a Markdown profile report. This project models the pure logic around the GitHub I/O and proves properties of it:

- **Tagger** (`tagger.dfy`): the rule-based `TaggingEngine`.
  - It holds an ordered catalog of `(tag, type, patterns)` rules. The default catalog has 50 rules, in declaration order.
  - `generateTags` maps a context of facts to two duplicate-free lists, frameworks and tools. The facts are an optional dependency map, a Dockerfile flag, a CI flag and optional `requirements.txt` text.
  - `addTagMapping`, `getTagMappings` and `removeTagMapping` change or read the catalog.
- **Analyzer** (`analyzer.dfy`): the tag derivation of `RepoAnalyzer.analyzeRepo`, which is the one the command line runs.
  - The file-existence checks and file reads are replaced by their results (`RepoFacts`), so the analysis is a pure function.
  - It keeps duplicates, matches requirements text case-sensitively and consults a fixed list of dependency keys.
  - `ContextOf` builds the engine's context from the same facts, so the two derivations can be compared.
- **Ranking** (`ranking.dfy`): the two orders the report uses.
  - A stable descending sort by an integer key, as `Array.prototype.sort` with `(a, b) => key(b) - key(a)`.
  - The default ascending string sort of the "All Tags" index.
- **Dashboard** (`dashboard.dfy`): the counting and ranking parts of `generateDashboard`:
  - primary-language, framework and tool counts, kept in insertion-ordered maps;
  - `generateBarChart`: descending counts, top ten, integer bar lengths;
  - the repository table in star order;
  - the de-duplicated, sorted tag index;
  - which report sections appear.
- **Collections** (`collections.dfy`): shared vocabulary for occurrence counts, duplicate-freedom, insertion-ordered sets, flattening and sums.

Three behaviours of the code are worth knowing before reading the contracts:

- **The command line never calls the engine.** It uses the analyzer. On the same facts, every tag the analyzer reports is also reported by the engine (`Analyzer.AnalyzerTagsWithinEngineTags`). The converse fails: a `vite` dependency is one example (`Analyzer.ViteSeenOnlyByEngine`).
- **`Django==4.2` is tagged `django` by the engine but not by the analyzer.** The engine lower-cases the requirements text; the analyzer's substring test is case-sensitive. The command line therefore reports no `django` for that text (`Analyzer.PythonMatchIsCaseSensitive`).
- **A dependency needs a truthy value to match.** "The dependency map contains `react`" is not enough: the version string must be non-empty (`Tagger.EmptyVersionsMatchNothing`).

## Model

| member | source | states |
|---|---|---|
| Tagger.GenerateTags | src/tagger.ts:69-114 | Both lists are duplicate-free. A tag is a framework iff (a) a framework rule with that tag has a pattern that is a key of the dependency map with a non-empty value, or (b) a django/flask/fastapi framework rule has a lower-cased pattern occurring in the lower-cased, non-empty requirements text. A tag is a tool iff a tool rule matches the dependency map, or it is `docker` with the Dockerfile flag, or `github-actions` with the CI flag. |
| Tagger.DependencyTags | src/tagger.ts:73-86 | The dependency pass keeps the lists duplicate-free. It adds exactly the tags of the rules whose check succeeds, each into the list its kind names. |
| Tagger.RequirementsTags | src/tagger.ts:96-108 | The requirements pass keeps the lists duplicate-free and leaves the tools untouched. It adds exactly the tags of the allow-listed framework rules that match the lowered text. |
| Tagger.DependencyRuleEmits | src/tagger.ts:73-83 | Any catalog rule whose dependency check succeeds contributes its tag to the list of its kind. |
| Tagger.RequirementsRuleEmits | src/tagger.ts:96-104 | Any allow-listed rule whose lowered pattern occurs in the lowered text contributes its tag to the frameworks. |
| Tagger.LowerPreservesContains | src/tagger.ts:97-101 | A pattern found in the raw text is also found after both are lower-cased. |
| Tagger.EmptyContextYieldsNoTags | src/tagger.ts:69-114 | With no dependency map, no flags and no requirements text, both lists are empty, whatever the catalog. |
| Tagger.EmittedTagsAreKnown | src/tagger.ts:73-108 | Every emitted tag is the tag of some catalog rule, or `docker`, or `github-actions`. |
| Tagger.FlagTagsIgnoreCatalog | src/tagger.ts:88-94 | The Dockerfile flag yields `docker` and the CI flag yields `github-actions`, whatever the catalog. `docker` is a tool iff the flag is set or a `docker` tool rule matches the dependency map. |
| Tagger.RequirementsOnlyYieldPythonFrameworks | src/tagger.ts:96-108 | Without a dependency map, frameworks are only django, flask or fastapi, and tools are only the two flag tags. |
| Tagger.RequirementsCaseInsensitive | src/tagger.ts:96-101 | Lower-casing the requirements text beforehand does not change the classification. |
| Tagger.NoTruthyDependencyAddsNothing | src/tagger.ts:73-86 | A dependency pass over a map whose values are all empty strings adds nothing. |
| Tagger.EmptyVersionsMatchNothing | src/tagger.ts:76 | A dependency map with only empty versions classifies exactly like no dependency map. |
| Tagger.InDefaultCatalog | src/tagger.ts:16-67 | Each rule of the listed default groups is in the default catalog. |
| Tagger.ReactDependencyYieldsReact | src/tagger.ts:17 | With the default catalog, a truthy `react` dependency makes `react` a framework. |
| Tagger.ReactTypescriptDockerScenario | src/tagger.ts:69-94 | With the default catalog, `react` and `typescript` dependencies plus a Dockerfile make `react` a framework and `typescript` and `docker` tools. |
| Tagger.DjangoRequirementsScenario | src/tagger.ts:92-108 | With the default catalog, the text `Django==4.2` plus CI gives the framework `django` and the tools exactly `[github-actions]`. |
| Tagger.AddTagMapping | src/tagger.ts:116-118 | The catalog grows by one. The old rules are an unchanged prefix, and the new rule is last. |
| Tagger.GetAfterAdd | src/tagger.ts:116-122 | `getTagMappings` after `addTagMapping(m)` is the previous catalog followed by `m`. |
| Tagger.AddKeepsTags | src/tagger.ts:116-118 | Appending a rule never removes a tag from either list for any context. |
| Tagger.KeepOthers | src/tagger.ts:126 | The filter keeps exactly the rules whose tag differs. It shrinks iff some rule carries the tag. |
| Tagger.KeepOthersIsSubsequence | src/tagger.ts:126 | The kept rules are the rules at strictly increasing positions of the old catalog, and every position whose tag differs is among them. |
| Tagger.RemoveTagMapping | src/tagger.ts:124-128 | Returns true iff some rule had the tag. Afterwards a rule is in the catalog iff it was before and carries another tag. |
| Tagger.RemovePreservesOrder | src/tagger.ts:124-128 | After removal no rule has the tag, the result is true iff the catalog shrank, and the other rules keep their relative order. |
| Tagger.RemovedTagIsNotEmitted | src/tagger.ts:124-128 | After removing a tag other than the two flag tags, the engine never emits it. |
| Tagger.RemovingDockerRuleKeepsFlagTag | src/tagger.ts:88-90 | After removing the `docker` rule, no `docker` rule remains, yet a Dockerfile still yields the `docker` tool. |
| Analyzer.MergeDependencies | src/analyzer.ts:59-62 | The merged map has the union of both key sets. On a clash the `devDependencies` value wins; other keys keep their `dependencies` value. |
| Analyzer.PushMatchingMembers | src/analyzer.ts:66-79 | A tag is pushed iff one of the checks carrying it finds a truthy key. |
| Analyzer.PushMatchingConcat | src/analyzer.ts:66-79 | The pushes of two runs of checks are the pushes of the first followed by those of the second. |
| Analyzer.AnalyzePackageJson | src/analyzer.ts:53-64 | A parsed manifest sets the dependency map to the merged map. No content or a parse failure leaves the map absent and pushes nothing. |
| Analyzer.PackageJsonTags | src/analyzer.ts:66-79 | A framework or tool is pushed iff one of its fixed checks matches the merged map. No push is a Python framework tag or a flag tag. |
| Analyzer.AnalyzePythonRequirements | src/analyzer.ts:85-93 | A tag is reported iff it is django, flask or fastapi and occurs verbatim in the text. No tag is reported twice. |
| Analyzer.AnalyzeRepo | src/analyzer.ts:20-51 | The four presence flags are copied. The dependency map is present iff package.json exists and parsed, and then it is the merged map. |
| Analyzer.AnalyzeRepoTags | src/analyzer.ts:35-48 | Frameworks are exactly the matching package.json checks plus the Python names found in read requirements text. Tools are exactly the matching checks plus the two flag tags when their flags are set. Without package.json, only Python frameworks and flag tools appear. |
| Analyzer.AnalyzeRepoOrder | src/analyzer.ts:35-48 | Python frameworks come after all package.json frameworks. The tools end with `docker` (when set) and then `github-actions` (when set), and no earlier tool is a flag tag. |
| Analyzer.NestjsPushedTwice | src/analyzer.ts:73-74 | When both `nestjs` and `@nestjs/core` are truthy, `nestjs` occurs twice among the frameworks. |
| Analyzer.TestingPushedAtMostOnce | src/analyzer.ts:77 | `testing` occurs at most once among the tools, and occurs iff `jest` or `vitest` is truthy in the merged map. |
| Analyzer.PythonMatchIsCaseSensitive | src/analyzer.ts:90-92 | The text `Django==4.2` with CI yields no framework and only the `github-actions` tool. |
| Analyzer.EmptyRequirementsAddNothing | src/analyzer.ts:86-87 | Missing or empty requirements text adds no Python framework. |
| Analyzer.ContextOf | src/tagger.ts:7-13 | The engine context built from the same facts carries the analyzer's dependency map and the same flags. It has requirements text iff the analyzer reads some. |
| Analyzer.FrameworkCheckCovered | src/tagger.ts:17-27 | Each package.json framework check has a default catalog rule with the same tag and kind and at least its patterns. |
| Analyzer.ToolCheckCovered | src/tagger.ts:46-49 | The same holds for each package.json tool check. |
| Analyzer.CoveredMatch | src/tagger.ts:74-76 | A covering rule matches whenever the check it covers does. |
| Analyzer.DefaultEngineCoversChecks | src/tagger.ts:16-67 | The default catalog covers every package.json check and holds the three Python rules. |
| Analyzer.AnalyzerTagsWithinCoveringEngine | src/analyzer.ts:35-48 | Every tag the analyzer reports is reported, in the same list, by any engine whose catalog covers its checks. |
| Analyzer.AnalyzerTagsWithinEngineTags | src/analyzer.ts:35-48 | Every tag the analyzer reports, the default engine reports too, in the same list. |
| Analyzer.ViteUnseenByAnalyzer | src/analyzer.ts:76-79 | The analyzer never reports `vite`. |
| Analyzer.ViteSeenByEngine | src/tagger.ts:41 | The default engine reports `vite` as a tool whenever `vite` is a truthy dependency. |
| Analyzer.ViteSeenOnlyByEngine | src/analyzer.ts:59-79 | A manifest with only a non-empty `vite` version yields the `vite` tool from the engine but not from the analyzer. |
| Ranking.Insert | src/dashboard.ts:13 | One insertion step adds exactly the new element (as a multiset). |
| Ranking.InsertSorted | src/dashboard.ts:13 | Inserting into a descending sequence keeps it descending. |
| Ranking.InsertKeyOrder | src/dashboard.ts:13 | Insertion appends the new element to its key class and leaves the other key classes unchanged. |
| Ranking.SortDesc | src/dashboard.ts:13 | The sort result is a permutation of the input with non-increasing keys. |
| Ranking.SortDescKeepsKeyOrder | src/dashboard.ts:13 | The sort is stable: elements with equal keys keep their input order. |
| Ranking.SortedDescUnique | src/dashboard.ts:13 | Two descending sequences with the same key classes in the same order are equal. |
| Ranking.SortDescCharacterised | src/dashboard.ts:13 | A sequence equals the sort result iff it is descending and keeps every key class in input order. |
| Ranking.BelowTotal | src/dashboard.ts:126 | The string order is total and asymmetric: two different strings are ordered exactly one way round. |
| Ranking.BelowTransitive | src/dashboard.ts:126 | The string order is transitive. |
| Ranking.SortStrings | src/dashboard.ts:126 | The tag sort is a permutation of its input in ascending order. |
| Ranking.SortStringsStrict | src/dashboard.ts:126 | Sorting duplicate-free strings gives a strictly ascending sequence. |
| Ranking.StrictlyAscendingUnique | src/dashboard.ts:126 | Two strictly ascending sequences with the same members are equal. |
| Dashboard.BumpLabels | src/dashboard.ts:73 | One `counts.set(t, get(t) + 1)` adds `t` to the keys only when it is new, and then at the end. |
| Dashboard.BumpCountFor | src/dashboard.ts:73 | One bump raises the count of `t` by one and leaves every other count alone. |
| Dashboard.TallyCharacterised | src/dashboard.ts:70-75 | A counting map has one entry per distinct value, in order of first occurrence. Each entry's count is the number of occurrences, the counts add up to the number of values, and the map is empty iff there were none. |
| Dashboard.LanguageCountsMeaning | src/dashboard.ts:52-59 | A language's count is the number of repositories with it as primary language. The empty string and `undefined` count zero. The counts add up to at most the number of repositories, and each language appears once. |
| Dashboard.TagCountsMeaning | src/dashboard.ts:70-91 | A tag's count is the sum of its occurrences over all analyses, so a repeat inside one analysis counts twice. The map is empty iff every list is empty. |
| Dashboard.BarLength | src/dashboard.ts:17 | The bar length is the integer nearest to `count * width / maxCount`, halves rounded up. With no positive maximum it is zero. |
| Dashboard.BarLengthBounds | src/dashboard.ts:17 | A count no larger than the maximum gets at most `width` glyphs, and the maximum gets exactly `width`. |
| Dashboard.BarLengthMonotone | src/dashboard.ts:17 | A larger count never gets a shorter bar. |
| Dashboard.BarChartEmpty | src/dashboard.ts:10 | The chart is empty iff there are no items. |
| Dashboard.ShownItemsOrder | src/dashboard.ts:12-13 | Shown counts never increase, none exceeds the maximum of all items, and the first equals it. |
| Dashboard.BarChartShape | src/dashboard.ts:9-24 | The chart has `min(10, n)` lines and is empty iff there are no items. Counts and bars never increase. Every bar is within `width`. Every percentage is taken against the total of all items. The first line has the largest count and, when that is positive, a full-width bar. |
| Dashboard.BarChartSelection | src/dashboard.ts:13-20 | Shown items are drawn from the items, and the lines carry their names and counts. Any item with a larger count than the last shown one is shown. Among equal counts, the shown ones are a leading run in input order. |
| Dashboard.TotalStarsUnderSort | src/dashboard.ts:37-38 | The stars of the sorted table add up to the total taken over the input order. |
| Dashboard.LookupAnalysis | src/dashboard.ts:108 | An analysis is found iff some entry has the repository's name, and then it is that entry's analysis. |
| Dashboard.JoinLength | src/dashboard.ts:110-111 | A join is as long as its parts plus one separator between each two. |
| Dashboard.JoinEmpty | src/dashboard.ts:110-111 | With a non-empty separator, a join is empty iff there are no parts or a single empty part, so only then does the cell fall back to `-`. |
| Dashboard.LanguageCellMatchesCount | src/dashboard.ts:109 | The table's language column shows the primary language whenever it is counted, and otherwise `N/A`, `undefined` or the empty string. |
| Dashboard.TableOrder | src/dashboard.ts:106-116 | The rows follow `sortedRepos` (line 37), that is the repositories in non-increasing star order. Each repository is listed once, and equal stars keep input order. |
| Dashboard.TagIndexCharacterised | src/dashboard.ts:118-126 | The tag index is strictly ascending. It holds a tag iff some analysis reports it as a framework or a tool, and it is the only list with both properties. |
| Dashboard.LanguageSection | src/dashboard.ts:52-68 | The language chart is empty iff no repository has a counted primary language. |
| Dashboard.TagSection | src/dashboard.ts:70-100 | A framework or tool chart is empty iff every analysis has an empty list of that kind. |
| Dashboard.TagIndexSection | src/dashboard.ts:118-129 | The tag index is empty iff no analysis lists any tag. |
| Dashboard.DashboardSections | src/dashboard.ts:31-132 | The report has a language chart iff some primary language is counted. It has a framework (tool) chart iff some analysis lists a framework (tool), and a tag index iff some analysis lists any tag. |
| Dashboard.GenerateDashboard | src/dashboard.ts:31-132 | The report counts every repository and has one table row per repository. |

## Left out

- GitHub I/O is replaced by its results: `fileExists`, `checkDirectory`, `fetchFileContent`, the language fetch and the repository list. `JSON.parse` becomes the three outcomes of `ManifestFetch`, and `console.error` is dropped. The command-line driver, `Promise.all`, dotenv and `writeFileSync` are not modelled.
- Dates are not modelled because they are clock and locale formatting: `formatDate`, the created/updated columns, the oldest/newest date range and "Generated on". An empty repository list, where `Math.min()` of no dates makes `toISOString` throw, is therefore not modelled either.
- Floating point is not modelled. Percentages are kept as the count and the total they divide (`toFixed(1)` is not modelled), and `Math.round` is modelled in exact arithmetic. The two agree except where the float quotient lands within rounding error of a half.
- Exact Markdown text is not modelled: headings, code fences, `padEnd(20)`, the bar glyph, backtick tag formatting and the ` • ` separator. The report is a `Report` value holding the data each section prints.
- `toLowerCase` is modelled on ASCII letters only, because the full Unicode case mapping is out of scope.
- Strings are ordered by comparing characters, as JavaScript's default `sort` compares UTF-16 code units. Dafny `char`s above U+FFFF would order differently.
- JavaScript objects are modelled as ordered key lists or maps:
  - `Object.keys(langs)[0]` is the first entry of an ordered language list. The engine's promotion of integer-like keys to the front is not modelled.
  - Dependency values are strings. A key counts as present only when it is an own entry, so inherited prototype keys such as `constructor` are not modelled.
- `removeTagMapping` and `addTagMapping` return a new engine value instead of mutating `this`.
- The shared `defaultTagger` instance has no separate model; it is `Tagger.DefaultEngine`.
- Tagger.ReactTypescriptDockerScenario: states which tags appear, not the full lists, to keep the proof small.
- Tagger.DjangoRequirementsScenario: states `django` is among the frameworks, not that it is the only one, to keep the proof small.
