/** The aggregation behind `generateDashboard` and `generateBarChart`: the
    counts of primary languages, frameworks and tools, the bar charts built
    from them, the repository table ordered by stars and the sorted index of
    all tags. The Markdown around these values (headings, glyphs, padding,
    percentages and dates) is not modelled; a `Report` holds the values the
    Markdown is printed from. */
module Dashboard {
  import opened Collections
  import opened Ranking
  import Analyzer

  // ---------------------------------------------------------------------------
  // Inputs

  /** The fields of a GitHub repository record the report reads. */
  datatype RepoInfo = RepoInfo(name: string, htmlUrl: string, stargazersCount: nat, language: Option<string>)

  /** One key of a repository's languages object with its byte count; a
      repository's languages are listed in key order. */
  datatype LanguageShare = LanguageShare(name: string, bytes: nat)

  /** One entry of the analysis map, in the map's insertion order. */
  datatype AnalysisEntry = AnalysisEntry(repoName: string, analysis: Analyzer.RepoAnalysis)

  // ---------------------------------------------------------------------------
  // Counting maps

  /** One entry of a counting map, and one input item of a bar chart. */
  datatype BarItem = BarItem(name: string, count: nat)

  function ItemCount(item: BarItem): nat {
    item.count
  }

  /** The keys of a counting map in insertion order. */
  function Labels(items: seq<BarItem>): (r: seq<string>)
    ensures |r| == |items| && forall i :: 0 <= i < |items| ==> r[i] == items[i].name
  {
    if |items| == 0 then [] else [items[0].name] + Labels(items[1..])
  }

  /** `counts.get(name) || 0`. */
  function CountFor(items: seq<BarItem>, name: string): nat {
    if |items| == 0 then 0
    else if items[0].name == name then items[0].count
    else CountFor(items[1..], name)
  }

  /** `counts.set(t, (counts.get(t) || 0) + 1)` on an insertion-ordered Map:
      the entry for `t` goes up by one, or a new entry joins at the end. */
  function Bump(items: seq<BarItem>, t: string): (r: seq<BarItem>)
    ensures |r| == |items| || |r| == |items| + 1
  {
    if |items| == 0 then [BarItem(t, 1)]
    else if items[0].name == t then [BarItem(t, items[0].count + 1)] + items[1..]
    else [items[0]] + Bump(items[1..], t)
  }

  /** The counting map built by bumping every element of `tags` in turn. */
  function Tally(tags: seq<string>): seq<BarItem> {
    if |tags| == 0 then [] else Bump(Tally(tags[..|tags| - 1]), tags[|tags| - 1])
  }

  lemma {:induction false} BumpLabels(items: seq<BarItem>, t: string)
    ensures Labels(Bump(items, t)) == AddNew(Labels(items), t)
    decreases |items|
  {
    if |items| == 0 {
      assert Labels(Bump(items, t)) == [t];
    } else {
      var first, rest := items[0], items[1..];
      assert Labels(items) == [first.name] + Labels(rest);
      if first.name == t {
        assert Bump(items, t) == [BarItem(t, first.count + 1)] + rest;
        assert Labels(Bump(items, t)) == Labels(items);
      } else {
        BumpLabels(rest, t);
        assert Bump(items, t) == [first] + Bump(rest, t);
        assert Labels(Bump(items, t)) == [first.name] + Labels(Bump(rest, t));
        assert t in Labels(items) <==> t in Labels(rest);
        ConsSnoc(first.name, Labels(rest), t);
      }
    }
  }

  lemma {:induction false} BumpCountFor(items: seq<BarItem>, t: string, name: string)
    ensures CountFor(Bump(items, t), name) == CountFor(items, name) + (if name == t then 1 else 0)
    decreases |items|
  {
    if |items| > 0 && items[0].name != t {
      BumpCountFor(items[1..], t, name);
      assert Bump(items, t)[1..] == Bump(items[1..], t);
    }
  }

  lemma {:induction false} BumpSum(items: seq<BarItem>, t: string)
    ensures Sum(Bump(items, t), ItemCount) == Sum(items, ItemCount) + 1
    decreases |items|
  {
    if |items| == 0 {
      assert Bump(items, t) == [] + [BarItem(t, 1)];
    } else {
      var first, rest := items[0], items[1..];
      assert items == [first] + rest;
      SumConcat([first], rest, ItemCount);
      if first.name == t {
        SumConcat([BarItem(t, first.count + 1)], rest, ItemCount);
        assert [first][..0] == [] && [BarItem(t, first.count + 1)][..0] == [];
      } else {
        BumpSum(rest, t);
        SumConcat([first], Bump(rest, t), ItemCount);
      }
    }
  }

  /** Where the entry for `name` sits, when labels are distinct. */
  lemma {:induction false} CountForAt(items: seq<BarItem>, i: nat)
    requires i < |items| && NoDuplicates(Labels(items))
    ensures CountFor(items, items[i].name) == items[i].count
    decreases |items|
  {
    if i > 0 {
      assert Labels(items[1..]) == Labels(items)[1..];
      CountForAt(items[1..], i - 1);
    }
  }

  lemma {:induction false} TallyLabels(tags: seq<string>)
    ensures Labels(Tally(tags)) == Dedup(tags)
    decreases |tags|
  {
    if |tags| > 0 {
      TallyLabels(tags[..|tags| - 1]);
      BumpLabels(Tally(tags[..|tags| - 1]), tags[|tags| - 1]);
    }
  }

  lemma {:induction false} TallyCountFor(tags: seq<string>, name: string)
    ensures CountFor(Tally(tags), name) == Count(tags, name)
    decreases |tags|
  {
    if |tags| > 0 {
      TallyCountFor(tags[..|tags| - 1], name);
      BumpCountFor(Tally(tags[..|tags| - 1]), tags[|tags| - 1], name);
    }
  }

  lemma {:induction false} TallySum(tags: seq<string>)
    ensures Sum(Tally(tags), ItemCount) == |tags|
    decreases |tags|
  {
    if |tags| > 0 {
      TallySum(tags[..|tags| - 1]);
      BumpSum(Tally(tags[..|tags| - 1]), tags[|tags| - 1]);
    }
  }

  /** A counting map holds one entry per distinct value, in order of first
      occurrence, with the number of occurrences as its count; the counts add
      up to the number of values. */
  lemma TallyCharacterised(tags: seq<string>)
    ensures Labels(Tally(tags)) == Dedup(tags)
    ensures forall i :: 0 <= i < |Tally(tags)| ==> Tally(tags)[i].count == Count(tags, Tally(tags)[i].name)
    ensures forall name :: CountFor(Tally(tags), name) == Count(tags, name)
    ensures Sum(Tally(tags), ItemCount) == |tags|
    ensures |Tally(tags)| == 0 <==> |tags| == 0
  {
    var r := Tally(tags);
    TallyLabels(tags);
    TallySum(tags);
    forall name ensures CountFor(r, name) == Count(tags, name) {
      TallyCountFor(tags, name);
    }
    forall i | 0 <= i < |r| ensures r[i].count == Count(tags, r[i].name) {
      CountForAt(r, i);
    }
    if |tags| > 0 {
      assert tags[0] in Dedup(tags);
    }
  }

  /** A counting map is empty exactly when nothing was counted. */
  lemma TallyEmpty(tags: seq<string>)
    ensures |Tally(tags)| == 0 <==> |tags| == 0
  {
    TallyLabels(tags);
    if |tags| > 0 {
      assert tags[0] in Dedup(tags);
    }
  }

  // ---------------------------------------------------------------------------
  // Primary languages

  /** `langs ? Object.keys(langs)[0] : repo.language`, where `None` stands for
      `undefined` and `null`: a repository with a languages entry takes its
      first key, which is absent for an empty object; otherwise the
      repository's own language field. */
  function PrimaryLanguage(repo: RepoInfo, languages: map<string, seq<LanguageShare>>): Option<string> {
    if repo.name in languages then
      (if |languages[repo.name]| > 0 then Some(languages[repo.name][0].name) else None)
    else repo.language
  }

  /** A primary language enters the count when it is truthy and not the
      string "undefined". */
  predicate Counted(lang: Option<string>) {
    lang.Some? && lang.value != "" && lang.value != "undefined"
  }

  /** The primary language of each repository, in repository order. */
  function Primaries(repos: seq<RepoInfo>, languages: map<string, seq<LanguageShare>>): (r: seq<Option<string>>)
    ensures |r| == |repos| && forall i :: 0 <= i < |repos| ==> r[i] == PrimaryLanguage(repos[i], languages)
  {
    seq(|repos|, i requires 0 <= i < |repos| => PrimaryLanguage(repos[i], languages))
  }

  /** The counted primary languages, one per counted repository, in order. */
  function CountedLanguages(langs: seq<Option<string>>): (r: seq<string>)
    ensures |r| <= |langs|
  {
    if |langs| == 0 then []
    else
      CountedLanguages(langs[..|langs| - 1])
      + (if Counted(langs[|langs| - 1]) then [langs[|langs| - 1].value] else [])
  }

  /** The `languageCounts` map. */
  function LanguageCounts(repos: seq<RepoInfo>, languages: map<string, seq<LanguageShare>>): seq<BarItem> {
    Tally(CountedLanguages(Primaries(repos, languages)))
  }

  lemma {:induction false} CountedLanguagesCount(langs: seq<Option<string>>, name: string)
    ensures Count(CountedLanguages(langs), name) ==
            if name == "" || name == "undefined" then 0 else Count(langs, Some(name))
    decreases |langs|
  {
    if |langs| > 0 {
      CountedLanguagesCount(langs[..|langs| - 1], name);
      CountConcat(CountedLanguages(langs[..|langs| - 1]),
                  if Counted(langs[|langs| - 1]) then [langs[|langs| - 1].value] else [], name);
      if Counted(langs[|langs| - 1]) {
        var v := langs[|langs| - 1].value;
        assert Count([v], name) == (if v == name then 1 else 0) by {
          assert [v][..0] == [];
        }
      }
    }
  }

  /** Each language is counted once per repository whose primary language it
      is; the empty string and "undefined" are never counted; the counts add
      up to at most the number of repositories. */
  lemma LanguageCountsMeaning(repos: seq<RepoInfo>, languages: map<string, seq<LanguageShare>>, name: string)
    ensures CountFor(LanguageCounts(repos, languages), name) ==
            if name == "" || name == "undefined" then 0 else Count(Primaries(repos, languages), Some(name))
    ensures Sum(LanguageCounts(repos, languages), ItemCount) <= |repos|
    ensures NoDuplicates(Labels(LanguageCounts(repos, languages)))
  {
    var langs := CountedLanguages(Primaries(repos, languages));
    TallyCharacterised(langs);
    CountedLanguagesCount(Primaries(repos, languages), name);
  }

  // ---------------------------------------------------------------------------
  // Framework and tool counts

  /** The frameworks of each analysis, in the analysis map's order. */
  function FrameworkLists(analyses: seq<AnalysisEntry>): (r: seq<seq<string>>)
    ensures |r| == |analyses| && forall i :: 0 <= i < |analyses| ==> r[i] == analyses[i].analysis.frameworks
  {
    seq(|analyses|, i requires 0 <= i < |analyses| => analyses[i].analysis.frameworks)
  }

  /** The tools of each analysis, in the analysis map's order. */
  function ToolLists(analyses: seq<AnalysisEntry>): (r: seq<seq<string>>)
    ensures |r| == |analyses| && forall i :: 0 <= i < |analyses| ==> r[i] == analyses[i].analysis.tools
  {
    seq(|analyses|, i requires 0 <= i < |analyses| => analyses[i].analysis.tools)
  }

  /** A counting map over every element of every list, in order. */
  function TagCounts(lists: seq<seq<string>>): seq<BarItem> {
    Tally(Flatten(lists))
  }

  lemma TagCountsEmpty(lists: seq<seq<string>>)
    ensures |TagCounts(lists)| == 0 <==> forall i :: 0 <= i < |lists| ==> lists[i] == []
  {
    TallyEmpty(Flatten(lists));
    FlattenEmpty(lists);
  }

  /** A tag's count is the sum of its occurrences in the lists, so a tag
      listed twice by one analysis counts twice; the map is empty exactly when
      every list is. */
  lemma TagCountsMeaning(lists: seq<seq<string>>, tag: string)
    ensures CountFor(TagCounts(lists), tag) == Sum(lists, (s: seq<string>) => Count(s, tag))
    ensures |TagCounts(lists)| == 0 <==> forall i :: 0 <= i < |lists| ==> lists[i] == []
  {
    TallyCharacterised(Flatten(lists));
    CountFlatten(lists, tag);
    FlattenEmpty(lists);
  }

  // ---------------------------------------------------------------------------
  // Bar charts

  /** The bar width `generateDashboard` uses. */
  const DefaultBarWidth: nat := 40

  /** A chart shows at most this many lines. */
  const ChartLimit: nat := 10

  /** One chart line: the label, the count, the number of bar glyphs and the
      total of all counts the percentage is taken of. */
  datatype ChartLine = ChartLine(name: string, count: nat, barLength: nat, total: nat)

  /** `Math.max(...counts)`, with 0 for no items. */
  function MaxCount(items: seq<BarItem>): (m: nat)
    ensures forall i :: 0 <= i < |items| ==> items[i].count <= m
    ensures |items| > 0 ==> exists i :: 0 <= i < |items| && items[i].count == m
    ensures |items| == 0 ==> m == 0
  {
    if |items| == 0 then 0
    else
      var m := MaxCount(items[..|items| - 1]);
      assert forall i :: 0 <= i < |items| - 1 ==> items[..|items| - 1][i] == items[i];
      if items[|items| - 1].count > m then items[|items| - 1].count else m
  }

  /** `Math.round(count / maxCount * width)` in exact arithmetic: the nearest
      integer, halves rounded up. With no maximum the quotient is NaN and
      `repeat` draws nothing. */
  function BarLength(count: nat, maxCount: nat, width: nat): (r: nat)
    ensures maxCount > 0 ==> 2 * maxCount * r <= 2 * count * width + maxCount < 2 * maxCount * (r + 1)
    ensures maxCount == 0 ==> r == 0
  {
    if maxCount == 0 then 0 else (2 * count * width + maxCount) / (2 * maxCount)
  }

  /** A count no larger than the maximum gets at most `width` glyphs, and the
      maximum itself gets exactly `width`. */
  lemma BarLengthBounds(count: nat, maxCount: nat, width: nat)
    requires count <= maxCount
    ensures BarLength(count, maxCount, width) <= width
    ensures count == maxCount > 0 ==> BarLength(count, maxCount, width) == width
  {
    var r := BarLength(count, maxCount, width);
    if maxCount > 0 {
      assert count * width <= maxCount * width by {
        MulMonotone(count, maxCount, width);
      }
      assert 2 * maxCount * r < 2 * maxCount * (width + 1);
      MulCancel(2 * maxCount, r, width + 1);
      if count == maxCount {
        assert 2 * maxCount * width < 2 * maxCount * (r + 1);
        MulCancel(2 * maxCount, width, r + 1);
      }
    }
  }

  /** More items never get a shorter bar. */
  lemma BarLengthMonotone(c1: nat, c2: nat, maxCount: nat, width: nat)
    requires c1 <= c2
    ensures BarLength(c1, maxCount, width) <= BarLength(c2, maxCount, width)
  {
    if maxCount > 0 {
      MulMonotone(c1, c2, width);
      var r1, r2 := BarLength(c1, maxCount, width), BarLength(c2, maxCount, width);
      assert 2 * maxCount * r1 < 2 * maxCount * (r2 + 1);
      MulCancel(2 * maxCount, r1, r2 + 1);
    }
  }

  lemma MulMonotone(a: nat, b: nat, c: nat)
    requires a <= b
    ensures a * c <= b * c
  {
  }

  lemma MulCancel(m: nat, a: nat, b: nat)
    requires m > 0 && m * a < m * b
    ensures a < b
  {
    if a >= b {
      MulMonotone(b, a, m);
    }
  }

  /** The chart's ordering: by count, highest first, ties in input order. */
  function ByCount(item: BarItem): int {
    item.count
  }

  /** The items a chart shows: the stable descending sort, cut to ten. */
  function ShownItems(items: seq<BarItem>): (r: seq<BarItem>)
    ensures |r| == if |items| < ChartLimit then |items| else ChartLimit
  {
    var sorted := SortDesc(items, ByCount);
    if |sorted| <= ChartLimit then sorted else sorted[..ChartLimit]
  }

  /** `generateBarChart(items, width)`: one line per shown item; the bar is
      scaled against the largest count of all items and the percentage
      against the total of all items. */
  function BarChart(items: seq<BarItem>, width: nat): (lines: seq<ChartLine>)
    ensures |lines| == |ShownItems(items)|
  {
    if |items| == 0 then []
    else
      var maxCount := MaxCount(items);
      var total := Sum(items, ItemCount);
      var shown := ShownItems(items);
      seq(|shown|, i requires 0 <= i < |shown| =>
        ChartLine(shown[i].name, shown[i].count, BarLength(shown[i].count, maxCount, width), total))
  }

  lemma BarChartEmpty(items: seq<BarItem>, width: nat)
    ensures |BarChart(items, width)| == 0 <==> |items| == 0
  {
  }

  /** The line drawn for the `i`-th shown item. */
  lemma ChartLineAt(items: seq<BarItem>, width: nat, i: nat)
    requires i < |ShownItems(items)|
    ensures var item := ShownItems(items)[i];
            BarChart(items, width)[i] == ChartLine(item.name, item.count, BarLength(item.count, MaxCount(items), width), Sum(items, ItemCount))
  {
  }

  /** The shown items come in descending count order, the first with the
      largest count of all items. */
  /** A descending arrangement of the items starts at their largest count. */
  lemma SortedStartsAtMax(sorted: seq<BarItem>, items: seq<BarItem>)
    requires multiset(sorted) == multiset(items) && SortedDesc(sorted, ByCount)
    ensures forall i :: 0 <= i < |sorted| ==> sorted[i].count <= MaxCount(items)
    ensures |sorted| > 0 ==> sorted[0].count == MaxCount(items)
  {
    var m := MaxCount(items);
    forall i | 0 <= i < |sorted| ensures sorted[i].count <= m {
      assert sorted[i] in multiset(items);
    }
    if |sorted| > 0 {
      assert |items| == |multiset(items)| == |sorted|;
      var w :| 0 <= w < |items| && items[w].count == m;
      assert items[w] in multiset(sorted);
      var j :| 0 <= j < |sorted| && sorted[j] == items[w];
      assert ByCount(sorted[0]) >= ByCount(sorted[j]);
    }
  }

  lemma ShownItemsOrder(items: seq<BarItem>)
    ensures var shown := ShownItems(items);
            forall i, j :: 0 <= i < j < |shown| ==> shown[i].count >= shown[j].count
    ensures var shown := ShownItems(items);
            forall i :: 0 <= i < |shown| ==> shown[i].count <= MaxCount(items)
    ensures var shown := ShownItems(items);
            |shown| > 0 ==> shown[0].count == MaxCount(items)
  {
    var sorted := SortDesc(items, ByCount);
    var shown := ShownItems(items);
    assert forall i :: 0 <= i < |shown| ==> shown[i] == sorted[i];
    SortedStartsAtMax(sorted, items);
    forall i, j | 0 <= i < j < |shown| ensures shown[i].count >= shown[j].count {
      assert ByCount(sorted[i]) >= ByCount(sorted[j]);
    }
  }

  /** The chart's shape: nothing for no items, otherwise at most ten lines,
      counts and bars never increasing, every bar within `width`, the first
      line a largest count with a full-width bar, every percentage against
      the total of all items. */
  lemma BarChartShape(items: seq<BarItem>, width: nat)
    ensures var lines := BarChart(items, width);
            |lines| == (if |items| < ChartLimit then |items| else ChartLimit) && (|lines| == 0 <==> |items| == 0)
    ensures var lines := BarChart(items, width);
            forall i, j :: 0 <= i < j < |lines| ==>
              lines[i].count >= lines[j].count && lines[i].barLength >= lines[j].barLength
    ensures var lines := BarChart(items, width);
            forall i :: 0 <= i < |lines| ==> lines[i].barLength <= width && lines[i].total == Sum(items, ItemCount)
    ensures var lines := BarChart(items, width);
            |lines| > 0 ==> lines[0].count == MaxCount(items)
    ensures var lines := BarChart(items, width);
            |lines| > 0 && MaxCount(items) > 0 ==> lines[0].barLength == width
  {
    var lines := BarChart(items, width);
    var shown := ShownItems(items);
    var m := MaxCount(items);
    ShownItemsOrder(items);
    forall i, j | 0 <= i < j < |lines|
      ensures lines[i].count >= lines[j].count && lines[i].barLength >= lines[j].barLength
    {
      ChartLineAt(items, width, i);
      ChartLineAt(items, width, j);
      BarLengthMonotone(shown[j].count, shown[i].count, m, width);
    }
    forall i | 0 <= i < |lines| ensures lines[i].barLength <= width && lines[i].total == Sum(items, ItemCount) {
      ChartLineAt(items, width, i);
      BarLengthBounds(shown[i].count, m, width);
    }
    if |lines| > 0 {
      ChartLineAt(items, width, 0);
      BarLengthBounds(m, m, width);
    }
  }

  /** Which items the chart shows: items it lists (as many times as they
      occur at most), every item whose count beats the last line, and, among
      items of equal count, a leading run in input order. */
  /** Each key class of the shown items is a prefix of that key class among
      all items: ties are cut in input order. */
  lemma ShownKeyClasses(items: seq<BarItem>)
    ensures forall k :: WithKey(ShownItems(items), ByCount, k) <= WithKey(items, ByCount, k)
  {
    var sorted := SortDesc(items, ByCount);
    var shown := ShownItems(items);
    var rest := sorted[|shown|..];
    assert sorted == shown + rest;
    SortDescKeepsKeyOrder(items, ByCount);
    forall k ensures WithKey(shown, ByCount, k) <= WithKey(items, ByCount, k) {
      WithKeyConcat(shown, rest, ByCount, k);
    }
  }

  /** No item left out has a larger count than the last one shown. */
  lemma ShownThreshold(items: seq<BarItem>)
    ensures multiset(ShownItems(items)) <= multiset(items)
    ensures var shown := ShownItems(items);
            forall x :: x in items && |shown| > 0 && x.count > shown[|shown| - 1].count ==> x in shown
  {
    var sorted := SortDesc(items, ByCount);
    var shown := ShownItems(items);
    assert sorted == shown + sorted[|shown|..];
    forall x | x in items ensures |shown| > 0 && x.count > shown[|shown| - 1].count ==> x in shown {
      assert x in multiset(sorted);
      var j :| 0 <= j < |sorted| && sorted[j] == x;
      if j >= |shown| && |shown| > 0 {
        assert ByCount(sorted[|shown| - 1]) >= ByCount(sorted[j]);
      }
    }
  }

  lemma BarChartSelection(items: seq<BarItem>, width: nat)
    ensures multiset(ShownItems(items)) <= multiset(items)
    ensures var lines := BarChart(items, width);
            forall i :: 0 <= i < |lines| ==>
              lines[i].name == ShownItems(items)[i].name && lines[i].count == ShownItems(items)[i].count
    ensures var shown := ShownItems(items);
            forall x :: x in items && |shown| > 0 && x.count > shown[|shown| - 1].count ==> x in shown
    ensures forall k :: WithKey(ShownItems(items), ByCount, k) <= WithKey(items, ByCount, k)
  {
    ShownKeyClasses(items);
    ShownThreshold(items);
  }

  // ---------------------------------------------------------------------------
  // Repository table

  /** The table's ordering: by stars, most first, ties in input order. */
  function ByStars(repo: RepoInfo): int {
    repo.stargazersCount
  }

  function StarCount(repo: RepoInfo): nat {
    repo.stargazersCount
  }

  /** `[...repos].sort((a, b) => b.stargazers_count - a.stargazers_count)`. */
  function SortedRepos(repos: seq<RepoInfo>): seq<RepoInfo> {
    SortDesc(repos, ByStars)
  }

  /** `repos.reduce((sum, repo) => sum + repo.stargazers_count, 0)`. */
  function TotalStars(repos: seq<RepoInfo>): nat {
    Sum(repos, StarCount)
  }

  /** The table lists the same repositories: their stars add up to the same
      total. */
  lemma TotalStarsUnderSort(repos: seq<RepoInfo>)
    ensures TotalStars(SortedRepos(repos)) == TotalStars(repos)
  {
    SumPermutation(SortedRepos(repos), repos, StarCount);
  }

  /** `analysisMap.get(name)`. */
  function LookupAnalysis(analyses: seq<AnalysisEntry>, name: string): (r: Option<Analyzer.RepoAnalysis>)
    ensures r.Some? <==> exists i :: 0 <= i < |analyses| && analyses[i].repoName == name
    ensures r.Some? ==> exists i :: 0 <= i < |analyses| && analyses[i].repoName == name && analyses[i].analysis == r.value
  {
    if |analyses| == 0 then None
    else if analyses[0].repoName == name then Some(analyses[0].analysis)
    else
      var r := LookupAnalysis(analyses[1..], name);
      assert forall i :: 0 <= i < |analyses| - 1 ==> analyses[1..][i] == analyses[i + 1];
      assert (exists i :: 0 <= i < |analyses| && analyses[i].repoName == name) ==>
             exists i :: 0 <= i < |analyses| - 1 && analyses[1..][i].repoName == name;
      r
  }

  /** `parts.join(sep)`. */
  function Join(parts: seq<string>, sep: string): string {
    if |parts| == 0 then ""
    else if |parts| == 1 then parts[0]
    else Join(parts[..|parts| - 1], sep) + sep + parts[|parts| - 1]
  }

  function Length(s: string): nat {
    |s|
  }

  /** A joined string holds every part and one separator between each two. */
  lemma {:induction false} JoinLength(parts: seq<string>, sep: string)
    requires |parts| > 0
    ensures |Join(parts, sep)| == Sum(parts, Length) + (|parts| - 1) * |sep|
    decreases |parts|
  {
    if |parts| == 1 {
      assert parts[..0] == [];
    } else {
      JoinLength(parts[..|parts| - 1], sep);
    }
  }

  /** With a non-empty separator, a join is empty only for no parts or a
      single empty part. */
  lemma JoinEmpty(parts: seq<string>, sep: string)
    requires sep != ""
    ensures Join(parts, sep) == "" <==> |parts| == 0 || (|parts| == 1 && parts[0] == "")
  {
    if |parts| > 1 {
      assert |Join(parts, sep)| >= |sep|;
    }
  }

  /** `analysis?.frameworks.join(', ') || '-'` (and the same for tools). */
  function ListCell(list: Option<seq<string>>): string {
    if list.None? then "-"
    else
      var joined := Join(list.value, ", ");
      if joined == "" then "-" else joined
  }

  /** The language column: the first key of the languages entry (printed as
      "undefined" when there is none), or else `repo.language || 'N/A'`. */
  function LanguageCell(repo: RepoInfo, languages: map<string, seq<LanguageShare>>): string {
    if repo.name in languages then
      (if |languages[repo.name]| > 0 then languages[repo.name][0].name else "undefined")
    else if repo.language.Some? && repo.language.value != "" then repo.language.value
    else "N/A"
  }

  /** The language column shows the counted primary language when there is
      one, and otherwise one of the placeholders. */
  lemma LanguageCellMatchesCount(repo: RepoInfo, languages: map<string, seq<LanguageShare>>)
    ensures Counted(PrimaryLanguage(repo, languages)) ==> LanguageCell(repo, languages) == PrimaryLanguage(repo, languages).value
    ensures !Counted(PrimaryLanguage(repo, languages)) ==> LanguageCell(repo, languages) in ["N/A", "undefined", ""]
  {
  }

  /** One table row; the date columns are not modelled. */
  datatype TableRow = TableRow(name: string, htmlUrl: string, stars: nat, language: string, frameworks: string, tools: string)

  function Row(repo: RepoInfo, languages: map<string, seq<LanguageShare>>, analyses: seq<AnalysisEntry>): TableRow {
    var analysis := LookupAnalysis(analyses, repo.name);
    TableRow(repo.name, repo.htmlUrl, repo.stargazersCount, LanguageCell(repo, languages),
             ListCell(if analysis.Some? then Some(analysis.value.frameworks) else None),
             ListCell(if analysis.Some? then Some(analysis.value.tools) else None))
  }

  /** The repository table, one row per repository in star order. */
  function Table(repos: seq<RepoInfo>, languages: map<string, seq<LanguageShare>>, analyses: seq<AnalysisEntry>): (rows: seq<TableRow>)
    ensures |rows| == |repos|
  {
    var sorted := SortedRepos(repos);
    seq(|sorted|, i requires 0 <= i < |sorted| => Row(sorted[i], languages, analyses))
  }

  /** The table lists every repository once, in non-increasing star order,
      repositories with equal stars in input order. */
  lemma TableOrder(repos: seq<RepoInfo>, languages: map<string, seq<LanguageShare>>, analyses: seq<AnalysisEntry>)
    ensures var rows := Table(repos, languages, analyses);
            forall i, j :: 0 <= i < j < |rows| ==> rows[i].stars >= rows[j].stars
    ensures var rows := Table(repos, languages, analyses);
            forall i :: 0 <= i < |rows| ==> rows[i] == Row(SortedRepos(repos)[i], languages, analyses)
    ensures multiset(SortedRepos(repos)) == multiset(repos)
    ensures SameKeyOrder(SortedRepos(repos), repos, ByStars)
  {
    SortDescKeepsKeyOrder(repos, ByStars);
  }

  // ---------------------------------------------------------------------------
  // Tag index

  /** The frameworks and then the tools of each analysis. */
  function AllTagLists(analyses: seq<AnalysisEntry>): (r: seq<seq<string>>)
    ensures |r| == |analyses|
    ensures forall i :: 0 <= i < |analyses| ==> r[i] == analyses[i].analysis.frameworks + analyses[i].analysis.tools
  {
    seq(|analyses|, i requires 0 <= i < |analyses| => analyses[i].analysis.frameworks + analyses[i].analysis.tools)
  }

  /** `Array.from(allTags).sort()`. */
  function TagIndex(analyses: seq<AnalysisEntry>): seq<string> {
    SortStrings(Dedup(Flatten(AllTagLists(analyses))))
  }

  /** Some analysis reports the tag as a framework or a tool. */
  ghost predicate Reported(analyses: seq<AnalysisEntry>, t: string) {
    exists i :: 0 <= i < |analyses| && (t in analyses[i].analysis.frameworks || t in analyses[i].analysis.tools)
  }

  lemma TagIndexMembers(analyses: seq<AnalysisEntry>, t: string)
    ensures t in TagIndex(analyses) <==> Reported(analyses, t)
  {
    var lists := AllTagLists(analyses);
    var distinct := Dedup(Flatten(lists));
    var index := SortStrings(distinct);
    assert t in index <==> t in multiset(index);
    assert t in distinct <==> t in multiset(distinct);
    assert t in distinct <==> exists i :: 0 <= i < |lists| && t in lists[i];
    assert (exists i :: 0 <= i < |lists| && t in lists[i]) <==> Reported(analyses, t) by {
      forall i | 0 <= i < |lists|
        ensures t in lists[i] <==> t in analyses[i].analysis.frameworks || t in analyses[i].analysis.tools
      {
      }
    }
  }

  /** The tag index is every reported tag once, strictly ascending, and it is
      the only such list. */
  lemma TagIndexCharacterised(analyses: seq<AnalysisEntry>)
    ensures StrictlyAscending(TagIndex(analyses))
    ensures forall t :: t in TagIndex(analyses) <==> Reported(analyses, t)
    ensures forall s :: StrictlyAscending(s) && (forall t :: t in s <==> Reported(analyses, t)) ==> s == TagIndex(analyses)
  {
    var index := TagIndex(analyses);
    SortStringsStrict(Dedup(Flatten(AllTagLists(analyses))));
    forall t ensures t in index <==> Reported(analyses, t) {
      TagIndexMembers(analyses, t);
    }
    forall s | StrictlyAscending(s) && (forall t :: t in s <==> Reported(analyses, t)) ensures s == index {
      StrictlyAscendingUnique(s, index);
    }
  }

  // ---------------------------------------------------------------------------
  // The report

  /** The values `generateDashboard` prints. An empty chart or tag list stands
      for a section the report leaves out. */
  datatype Report = Report(
    repositoryCount: nat,
    totalStars: nat,
    languages: seq<ChartLine>,
    frameworks: seq<ChartLine>,
    tools: seq<ChartLine>,
    rows: seq<TableRow>,
    tags: seq<string>)

  function GenerateDashboard(repos: seq<RepoInfo>, languages: map<string, seq<LanguageShare>>, analyses: seq<AnalysisEntry>): (r: Report)
    ensures r.repositoryCount == |repos| && |r.rows| == |repos|
  {
    Report(|repos|, TotalStars(repos),
           BarChart(LanguageCounts(repos, languages), DefaultBarWidth),
           BarChart(TagCounts(FrameworkLists(analyses)), DefaultBarWidth),
           BarChart(TagCounts(ToolLists(analyses)), DefaultBarWidth),
           Table(repos, languages, analyses),
           TagIndex(analyses))
  }

  lemma {:induction false} CountedLanguagesEmpty(langs: seq<Option<string>>)
    ensures CountedLanguages(langs) == [] <==> forall i :: 0 <= i < |langs| ==> !Counted(langs[i])
    decreases |langs|
  {
    if |langs| > 0 {
      CountedLanguagesEmpty(langs[..|langs| - 1]);
      assert forall i :: 0 <= i < |langs| - 1 ==> langs[..|langs| - 1][i] == langs[i];
    }
  }

  /** The language chart is left out exactly when no repository has a
      counted primary language. */
  lemma LanguageSection(repos: seq<RepoInfo>, languages: map<string, seq<LanguageShare>>)
    ensures |BarChart(LanguageCounts(repos, languages), DefaultBarWidth)| == 0 <==>
            forall i :: 0 <= i < |repos| ==> !Counted(PrimaryLanguage(repos[i], languages))
  {
    TallyEmpty(CountedLanguages(Primaries(repos, languages)));
    CountedLanguagesEmpty(Primaries(repos, languages));
    BarChartEmpty(LanguageCounts(repos, languages), DefaultBarWidth);
  }

  /** A framework or tool chart is left out exactly when every analysis has
      an empty list of that kind. */
  lemma TagSection(lists: seq<seq<string>>)
    ensures |BarChart(TagCounts(lists), DefaultBarWidth)| == 0 <==> forall i :: 0 <= i < |lists| ==> lists[i] == []
  {
    TagCountsEmpty(lists);
    BarChartEmpty(TagCounts(lists), DefaultBarWidth);
  }

  /** The tag index is left out exactly when no analysis lists a tag. */
  lemma TagIndexSection(analyses: seq<AnalysisEntry>)
    ensures |TagIndex(analyses)| == 0 <==>
            forall i :: 0 <= i < |analyses| ==> analyses[i].analysis.frameworks == [] && analyses[i].analysis.tools == []
  {
    var index := TagIndex(analyses);
    forall i | 0 <= i < |analyses|
      ensures |index| == 0 ==> analyses[i].analysis.frameworks == [] && analyses[i].analysis.tools == []
    {
      var a := analyses[i].analysis;
      if a.frameworks != [] {
        TagIndexMembers(analyses, a.frameworks[0]);
      }
      if a.tools != [] {
        TagIndexMembers(analyses, a.tools[0]);
      }
    }
    if |index| > 0 {
      TagIndexMembers(analyses, index[0]);
    }
  }

  /** Which sections the report holds: the language chart when some
      repository has a counted primary language, the framework and tool charts
      when some analysis lists one, the tag index when some analysis lists
      any tag. */
  lemma DashboardSections(repos: seq<RepoInfo>, languages: map<string, seq<LanguageShare>>, analyses: seq<AnalysisEntry>)
    ensures var r := GenerateDashboard(repos, languages, analyses);
            |r.languages| == 0 <==> forall i :: 0 <= i < |repos| ==> !Counted(PrimaryLanguage(repos[i], languages))
    ensures var r := GenerateDashboard(repos, languages, analyses);
            |r.frameworks| == 0 <==> forall i :: 0 <= i < |analyses| ==> analyses[i].analysis.frameworks == []
    ensures var r := GenerateDashboard(repos, languages, analyses);
            |r.tools| == 0 <==> forall i :: 0 <= i < |analyses| ==> analyses[i].analysis.tools == []
    ensures var r := GenerateDashboard(repos, languages, analyses);
            |r.tags| == 0 <==> forall i :: 0 <= i < |analyses| ==> analyses[i].analysis.frameworks == [] && analyses[i].analysis.tools == []
  {
    var r := GenerateDashboard(repos, languages, analyses);
    assert r.languages == BarChart(LanguageCounts(repos, languages), DefaultBarWidth);
    assert r.frameworks == BarChart(TagCounts(FrameworkLists(analyses)), DefaultBarWidth);
    assert r.tools == BarChart(TagCounts(ToolLists(analyses)), DefaultBarWidth);
    LanguageSection(repos, languages);
    TagSection(FrameworkLists(analyses));
    TagSection(ToolLists(analyses));
    TagIndexSection(analyses);
  }
}
