/** The month digest: its counts, the top picks ranked by triage confidence, and the papers
    grouped into sections by paper type. */
module Render {
  import opened Base
  import opened Strings
  import opened JsonValue
  import opened Ordering

  /** The keys of a summary record the digest reads. */
  datatype SummaryView = SummaryView(idBase: string, paperType: string, publishedDate: string, keyPoints: seq<Json>)

  /** The keys of a triage row the digest reads; `confidence` is None when the row has none. */
  datatype TriageEntry = TriageEntry(idBase: string, decision: string, confidence: Option<real>)

  /** `{t["arxiv_id_base"]: t for t in triage_rows}`: one entry per id. */
  function TriageMap(rows: seq<TriageEntry>): (m: map<string, TriageEntry>)
    ensures forall i :: 0 <= i < |rows| ==> rows[i].idBase in m
    ensures forall id :: id in m ==> exists i :: 0 <= i < |rows| && rows[i].idBase == id
  {
    if |rows| == 0 then map[]
    else
      var last := rows[|rows| - 1];
      var before := TriageMap(rows[..|rows| - 1]);
      assert forall i :: 0 <= i < |rows| - 1 ==> rows[..|rows| - 1][i] == rows[i];
      before[last.idBase := last]
  }

  /** For an id that occurs more than once, the last row wins. */
  lemma {:induction false} TriageMapLastWins(rows: seq<TriageEntry>, i: int)
    requires 0 <= i < |rows|
    requires forall j :: i < j < |rows| ==> rows[j].idBase != rows[i].idBase
    ensures TriageMap(rows)[rows[i].idBase] == rows[i]
    decreases |rows|
  {
    if i < |rows| - 1 {
      TriageMapLastWins(rows[..|rows| - 1], i);
    }
  }

  /** The number of key points that are truthy and not "unknown". */
  function UsefulPoints(points: seq<Json>): (n: nat)
    ensures n <= |points|
  {
    if |points| == 0 then 0
    else (if Truthy(points[0]) && points[0] != Str("unknown") then 1 else 0) + UsefulPoints(points[1..])
  }

  /** The triage confidence of a summary's paper; 0.0 without a triage row or a confidence. */
  function Confidence(s: SummaryView, tm: map<string, TriageEntry>): real {
    if s.idBase in tm then tm[s.idBase].confidence.GetOr(0.0) else 0.0
  }

  /** The ranking key `(confidence, useful key points, id)`. */
  function RankKey(s: SummaryView, tm: map<string, TriageEntry>): Key {
    [ANum(Confidence(s, tm)), ANum(UsefulPoints(s.keyPoints) as real), AStr(s.idBase)]
  }

  function RankKeyOf(tm: map<string, TriageEntry>): SummaryView -> Key {
    (s: SummaryView) => RankKey(s, tm)
  }

  /** The summaries from the highest key down. */
  function Ranked(summaries: seq<SummaryView>, tm: map<string, TriageEntry>): seq<SummaryView> {
    SortBy(summaries, RankKeyOf(tm), true)
  }

  /** The five highest-ranked summaries (fewer when there are fewer). */
  function Chosen(summaries: seq<SummaryView>, tm: map<string, TriageEntry>): (c: seq<SummaryView>)
    ensures |c| == Min(5, |summaries|)
    ensures c == Ranked(summaries, tm)[..|c|]
    ensures forall i :: 0 <= i < |c| ==> c[i] in summaries
  {
    var r := Ranked(summaries, tm);
    assert forall i :: 0 <= i < |r| ==> r[i] in multiset(summaries);
    PyPrefix(r, 5)
  }

  function Ids(ss: seq<SummaryView>): (r: seq<string>)
    ensures |r| == |ss|
    ensures forall i :: 0 <= i < |ss| ==> r[i] == ss[i].idBase
  {
    seq(|ss|, i requires 0 <= i < |ss| => ss[i].idBase)
  }

  /** `pick_top_picks`: at most five ids, each the id of some summary. */
  function PickTopPicks(summaries: seq<SummaryView>, tm: map<string, TriageEntry>): (r: seq<string>)
    ensures |r| == Min(5, |summaries|)
    ensures forall i :: 0 <= i < |r| ==> exists j :: 0 <= j < |summaries| && summaries[j].idBase == r[i]
  {
    var c := Chosen(summaries, tm);
    Ids(c)
  }

  /** A summary left out of the picks ranks no higher than any pick. */
  lemma TopPicksOutrank(summaries: seq<SummaryView>, tm: map<string, TriageEntry>, x: SummaryView, i: int)
    requires multiset(summaries)[x] > multiset(Chosen(summaries, tm))[x]
    requires 0 <= i < |Chosen(summaries, tm)|
    ensures KeyLe(RankKey(x, tm), RankKey(Chosen(summaries, tm)[i], tm))
  {
    var r := Ranked(summaries, tm);
    var c := Chosen(summaries, tm);
    var rest := r[|c|..];
    assert r == c + rest;
    assert multiset(r) == multiset(c) + multiset(rest);
    assert x in rest;
    var j :| 0 <= j < |rest| && rest[j] == x;
    assert r[|c| + j] == x && r[i] == c[i];
    assert InOrder(RankKeyOf(tm)(r[i]), RankKeyOf(tm)(r[|c| + j]), true);
  }

  /** Between summaries with the same confidence and the same number of useful key points,
      the larger id ranks first. */
  lemma FullTieLargerIdFirst(a: SummaryView, b: SummaryView, tm: map<string, TriageEntry>)
    requires Confidence(a, tm) == Confidence(b, tm)
    requires UsefulPoints(a.keyPoints) == UsefulPoints(b.keyPoints)
    ensures InOrder(RankKey(a, tm), RankKey(b, tm), true) <==> StrLe(b.idBase, a.idBase)
  {
    var ka, kb := RankKey(a, tm), RankKey(b, tm);
    assert ka[0] == kb[0] && ka[1..][0] == kb[1..][0];
    assert KeyLe(kb, ka) == KeyLe(kb[1..], ka[1..]);
    assert KeyLe(kb[1..], ka[1..]) == KeyLe(kb[1..][1..], ka[1..][1..]);
    assert ka[1..][1..] == [AStr(a.idBase)] && kb[1..][1..] == [AStr(b.idBase)];
    assert [AStr(a.idBase)][1..] == [] && [AStr(b.idBase)][1..] == [];
    assert KeyLe([AStr(b.idBase)], [AStr(a.idBase)]) <==> StrLe(b.idBase, a.idBase) by {
      StrLeRefl(a.idBase);
    }
  }

  /** A summary whose paper has no triage row ranks with confidence 0.0. */
  lemma UntriagedRanksZero(s: SummaryView, tm: map<string, TriageEntry>)
    requires s.idBase !in tm
    ensures RankKey(s, tm)[0] == ANum(0.0)
  {
  }

  /** The section key `(paper_type, published_date, id)`. */
  function SectionKey(s: SummaryView): Key {
    [AStr(s.paperType), AStr(s.publishedDate), AStr(s.idBase)]
  }

  /** The order within a section, `(published_date, id)`. */
  function DateKey(s: SummaryView): Key {
    [AStr(s.publishedDate), AStr(s.idBase)]
  }

  function TitleKey(t: string): Key {
    [AStr(t)]
  }

  function OfType(t: string): SummaryView -> bool {
    (s: SummaryView) => s.paperType == t
  }

  /** Summaries of the same type are ordered by their section key as by (published_date, id). */
  lemma SameTypeOrder(a: SummaryView, b: SummaryView)
    requires a.paperType == b.paperType && KeyLe(SectionKey(a), SectionKey(b))
    ensures KeyLe(DateKey(a), DateKey(b))
  {
    assert SectionKey(a)[1..] == DateKey(a) && SectionKey(b)[1..] == DateKey(b);
  }

  /** The section titles in the order they first appear, and the ids listed under each. */
  datatype Grouping = Grouping(titles: seq<string>, groups: map<string, seq<string>>)

  /** The `sections_map` the loop of `build_digest` fills, over the summaries in order. */
  function Group(ss: seq<SummaryView>): (g: Grouping)
    ensures |g.titles| <= |ss|
  {
    if |ss| == 0 then Grouping([], map[])
    else
      var g := Group(ss[..|ss| - 1]);
      var s := ss[|ss| - 1];
      if s.paperType in g.groups then Grouping(g.titles, g.groups[s.paperType := g.groups[s.paperType] + [s.idBase]])
      else Grouping(g.titles + [s.paperType], g.groups[s.paperType := [s.idBase]])
  }

  /** Each group lists, in order, the ids of exactly the summaries of its type. */
  lemma {:induction false} GroupContents(ss: seq<SummaryView>, t: string)
    ensures Ids(Filter(ss, OfType(t))) == if t in Group(ss).groups then Group(ss).groups[t] else []
    decreases |ss|
  {
    if |ss| > 0 {
      var init := ss[..|ss| - 1];
      var s := ss[|ss| - 1];
      var before := Filter(init, OfType(t));
      GroupContents(init, t);
      assert ss == init + [s];
      FilterSnoc(init, s, OfType(t));
      GroupStep(init, s, t);
      if s.paperType == t {
        assert Ids(before + [s]) == Ids(before) + [s.idBase];
      }
    }
  }

  /** One more summary adds its id to its own type's group and changes no other group. */
  lemma GroupStep(init: seq<SummaryView>, s: SummaryView, t: string)
    ensures t in Group(init + [s]).groups <==> t in Group(init).groups || s.paperType == t
    ensures s.paperType != t && t in Group(init).groups ==>
      Group(init + [s]).groups[t] == Group(init).groups[t]
    ensures s.paperType == t ==>
      Group(init + [s]).groups[t] == (if t in Group(init).groups then Group(init).groups[t] else []) + [s.idBase]
  {
    assert (init + [s])[..|init|] == init;
  }

  /** The titles are the keys of the groups, each listed once, in order of first appearance. */
  lemma {:induction false} GroupTitles(ss: seq<SummaryView>)
    ensures forall t :: t in Group(ss).groups <==> t in Group(ss).titles
    ensures Distinct(Group(ss).titles)
    decreases |ss|
  {
    if |ss| > 0 {
      var init := ss[..|ss| - 1];
      GroupTitles(init);
      var g := Group(init);
      var s := ss[|ss| - 1];
      if s.paperType !in g.groups {
        var ts := g.titles + [s.paperType];
        forall i, j | 0 <= i < j < |ts|
          ensures ts[i] != ts[j]
        {
          if j == |ts| - 1 {
            assert ts[i] in g.titles;
          }
        }
      }
    }
  }

  /** A summary's type is a title of the grouping. */
  lemma {:induction false} GroupHasType(ss: seq<SummaryView>, i: int)
    requires 0 <= i < |ss|
    ensures ss[i].paperType in Group(ss).groups
    decreases |ss|
  {
    if i < |ss| - 1 {
      GroupHasType(ss[..|ss| - 1], i);
    }
  }

  datatype Section = Section(title: string, paperIds: seq<string>)
  datatype Stats = Stats(candidates: nat, accepted: nat, summarized: nat)
  datatype Digest = Digest(month: string, stats: Stats, topPicks: seq<string>, sections: seq<Section>)

  function SectionsOf(titles: seq<string>, groups: map<string, seq<string>>): (r: seq<Section>)
    requires forall i :: 0 <= i < |titles| ==> titles[i] in groups
    ensures |r| == |titles|
    ensures forall k :: 0 <= k < |r| ==> r[k] == Section(titles[k], groups[titles[k]])
  {
    seq(|titles|, k requires 0 <= k < |titles| => Section(titles[k], groups[titles[k]]))
  }

  /** The summaries in the order the section loop visits them. */
  function Ordered(summaries: seq<SummaryView>): (r: seq<SummaryView>)
    ensures multiset(r) == multiset(summaries)
    ensures SortedBy(r, SectionKey, false)
  {
    SortBy(summaries, SectionKey, false)
  }

  /** The section titles sorted, as `sorted(sections_map.items())` orders the sections. */
  function Titles(summaries: seq<SummaryView>): (ts: seq<string>)
    ensures multiset(ts) == multiset(Group(Ordered(summaries)).titles)
    ensures SortedBy(ts, TitleKey, false)
  {
    SortBy(Group(Ordered(summaries)).titles, TitleKey, false)
  }

  /** Every sorted title has a group. */
  lemma TitlesGrouped(summaries: seq<SummaryView>)
    ensures forall i :: 0 <= i < |Titles(summaries)| ==> Titles(summaries)[i] in Group(Ordered(summaries)).groups
  {
    var ts := Titles(summaries);
    GroupTitles(Ordered(summaries));
    forall i | 0 <= i < |ts|
      ensures ts[i] in Group(Ordered(summaries)).groups
    {
      assert ts[i] in multiset(ts);
    }
  }

  /** The digest's sections. */
  function Sections(summaries: seq<SummaryView>): seq<Section> {
    TitlesGrouped(summaries);
    SectionsOf(Titles(summaries), Group(Ordered(summaries)).groups)
  }

  /** Section titles are strictly ascending, so no two sections share a title. */
  lemma SectionsAscending(summaries: seq<SummaryView>, i: int, j: int)
    requires 0 <= i < j < |Sections(summaries)|
    ensures StrLe(Sections(summaries)[i].title, Sections(summaries)[j].title)
    ensures Sections(summaries)[i].title != Sections(summaries)[j].title
  {
    var ts := Titles(summaries);
    GroupTitles(Ordered(summaries));
    DistinctPerm(Group(Ordered(summaries)).titles, ts);
    assert InOrder(TitleKey(ts[i]), TitleKey(ts[j]), false);
    assert TitleKey(ts[i])[0] != TitleKey(ts[j])[0];
  }

  /** A section lists the ids of the summaries of its paper type, ordered by
      (published_date, id), and of no others. */
  lemma SectionContents(summaries: seq<SummaryView>, k: int)
    requires 0 <= k < |Sections(summaries)|
    ensures var sec := Sections(summaries)[k];
      var members := Filter(Ordered(summaries), OfType(sec.title));
      sec.paperIds == Ids(members) &&
      (forall m :: 0 <= m < |members| ==> members[m].paperType == sec.title) &&
      SortedBy(members, DateKey, false)
  {
    var sec := Sections(summaries)[k];
    var ordered := Ordered(summaries);
    var members := Filter(ordered, OfType(sec.title));
    TitlesGrouped(summaries);
    var g := Group(ordered);
    assert sec == Section(Titles(summaries)[k], g.groups[Titles(summaries)[k]]);
    GroupContents(ordered, sec.title);
    FilterSorted(ordered, OfType(sec.title), SectionKey, false);
    forall a, b | 0 <= a < b < |members|
      ensures InOrder(DateKey(members[a]), DateKey(members[b]), false)
    {
      SameTypeOrder(members[a], members[b]);
    }
  }

  /** Every summary is listed in the section titled by its paper type. */
  lemma SummaryPlaced(summaries: seq<SummaryView>, i: int)
    requires 0 <= i < |summaries|
    ensures exists k ::
              0 <= k < |Sections(summaries)| &&
              Sections(summaries)[k].title == summaries[i].paperType &&
              summaries[i].idBase in Sections(summaries)[k].paperIds
  {
    var s := summaries[i];
    var ordered := Ordered(summaries);
    assert s in multiset(ordered);
    var j :| 0 <= j < |ordered| && ordered[j] == s;
    GroupHasType(ordered, j);
    GroupTitles(ordered);
    var ts := Titles(summaries);
    assert s.paperType in multiset(ts);
    var k :| 0 <= k < |ts| && ts[k] == s.paperType;
    SectionContents(summaries, k);
    var members := Filter(ordered, OfType(s.paperType));
    assert s in members;
    var m :| 0 <= m < |members| && members[m] == s;
    assert Sections(summaries)[k].paperIds[m] == s.idBase;
  }

  predicate IsAccept(t: TriageEntry) {
    t.decision == "accept"
  }

  /** The loop of `build_digest` that fills `sections_map`, a dict of lists that creates an
      empty list on first use. */
  method FillSections(ordered: seq<SummaryView>) returns (titles: seq<string>, groups: map<string, seq<string>>)
    ensures Grouping(titles, groups) == Group(ordered)
  {
    titles, groups := [], map[];
    var i := 0;
    while i < |ordered|
      invariant 0 <= i <= |ordered|
      invariant Group(ordered[..i]) == Grouping(titles, groups)
    {
      var s := ordered[i];
      assert ordered[..i + 1][..i] == ordered[..i] && ordered[..i + 1][i] == s;
      ghost var before := groups;
      if s.paperType !in groups {
        titles := titles + [s.paperType];
        groups := groups[s.paperType := []];
      }
      groups := groups[s.paperType := groups[s.paperType] + [s.idBase]];
      assert s.paperType !in before ==> groups == before[s.paperType := [s.idBase]] by {
        assert [] + [s.idBase] == [s.idBase];
      }
      i := i + 1;
    }
    assert i == |ordered|;
    assert ordered[..i] == ordered;
  }

  /** `[{"title": k, "paper_ids": v} for k, v in sorted(sections_map.items())]` */
  method ListSections(sortedTitles: seq<string>, groups: map<string, seq<string>>) returns (sections: seq<Section>)
    requires forall i :: 0 <= i < |sortedTitles| ==> sortedTitles[i] in groups
    ensures sections == SectionsOf(sortedTitles, groups)
  {
    sections := [];
    var k := 0;
    while k < |sortedTitles|
      invariant 0 <= k <= |sortedTitles|
      invariant sections == SectionsOf(sortedTitles[..k], groups)
    {
      sections := sections + [Section(sortedTitles[k], groups[sortedTitles[k]])];
      k := k + 1;
    }
    assert k == |sortedTitles|;
    assert sortedTitles[..k] == sortedTitles;
  }

  /** `build_digest`. */
  method BuildDigest(month: string, candidates: seq<Json>, triageRows: seq<TriageEntry>,
                     summaries: seq<SummaryView>) returns (d: Digest)
    ensures d.month == month
    ensures d.stats == Stats(|candidates|, |Filter(triageRows, IsAccept)|, |summaries|)
    ensures d.topPicks == PickTopPicks(summaries, TriageMap(triageRows))
    ensures d.sections == Sections(summaries)
  {
    var triageMap := TriageMap(triageRows);
    var ordered := Ordered(summaries);
    var titles, groups := FillSections(ordered);
    assert titles == Group(ordered).titles && groups == Group(ordered).groups;
    var sortedTitles := SortBy(titles, TitleKey, false);
    assert sortedTitles == Titles(summaries);
    TitlesGrouped(summaries);
    var sections := ListSections(sortedTitles, groups);
    d := Digest(month, Stats(|candidates|, |Filter(triageRows, IsAccept)|, |summaries|),
                PickTopPicks(summaries, triageMap), sections);
  }
}
