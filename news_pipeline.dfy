/**
 * The news pipeline of module/data/providers/news_pipeline.py. fetch_data
 * merges a fetch of article metadata into news_link.csv, de-duplicating by
 * originallink with the newest row winning and numbering articles by their
 * position in the merged frame; fetch_article_content downloads the text of
 * every article without content into contents.json, keyed by article ID, and
 * rewrites the CSV with metadata only.
 */
module NewsPipeline {
  import opened Wrappers
  import opened Text
  import opened Frames

  /** One row of the Naver search result: the article's metadata. */
  datatype Article = Article(pubDate: string, title: string, originallink: string, link: string, description: string)

  /**
   * One row of news_link.csv: the article ID (the index column), the metadata
   * and the content column, None when the cell is null or the column absent.
   */
  datatype LinkRow = LinkRow(id: nat, article: Article, content: Option<string>)

  /** What NaverNews.fetch_content gives for a URL, or an exception out of the future. */
  datatype Fetch = Fetched(text: string) | FetchError(message: string) | Raised

  /** One value of contents.json; error is present only for a failed download. */
  datatype ContentEntry = ContentEntry(pubDate: string, title: string, content: string, error: Option<string>)

  function LinkOf(r: LinkRow): string {
    r.article.originallink
  }

  function IdOf(r: LinkRow): nat {
    r.id
  }

  // ---- fetch_data ----

  /** A freshly fetched article as a row: no content column yet. */
  function Fresh(a: Article): LinkRow {
    LinkRow(0, a, None)
  }

  /** concat(..., ignore_index=True): every row numbered by its position. */
  function Renumber(rows: seq<LinkRow>): (r: seq<LinkRow>)
    ensures |r| == |rows|
    ensures forall i :: 0 <= i < |rows| ==> r[i] == rows[i].(id := i)
  {
    if rows == [] then [] else Renumber(rows[..|rows| - 1]) + [rows[|rows| - 1].(id := |rows| - 1)]
  }

  /** The stored rows followed by the fetched ones, numbered 0, 1, ... */
  function Combined(stored: seq<LinkRow>, fetched: seq<Article>): seq<LinkRow> {
    Renumber(stored + MapSeq(fetched, Fresh))
  }

  /**
   * What fetch_data writes to news_link.csv: with an existing file, the
   * combined rows de-duplicated by originallink keeping the last; without
   * one, the fetched rows as they come, numbered from 0.
   */
  function Merged(csv: Option<seq<LinkRow>>, fetched: seq<Article>): seq<LinkRow> {
    match csv
    case None => Renumber(MapSeq(fetched, Fresh))
    case Some(stored) => DedupLastBy(Combined(stored, fetched), LinkOf)
  }

  /** The rows of news_link.csv that still need their content. */
  predicate NeedsContent(r: LinkRow) {
    r.content.None? || r.content == Some("")
  }

  function Todo(rows: seq<LinkRow>): seq<LinkRow> {
    Filter(rows, NeedsContent)
  }

  /** The row without its content cell. */
  function Strip(r: LinkRow): LinkRow {
    r.(content := None)
  }

  /** drop(columns=["content"]): the metadata only. */
  function MetaOnly(rows: seq<LinkRow>): seq<LinkRow> {
    MapSeq(rows, Strip)
  }

  /**
   * The downloads that completed, in the order of the rows to fetch; a future
   * that raised contributes nothing.
   */
  function Outcomes(todo: seq<LinkRow>, fetch: string -> Fetch): (r: seq<(LinkRow, Fetch)>)
    ensures forall i :: 0 <= i < |r| ==> !r[i].1.Raised?
  {
    if todo == [] then []
    else
      var last := todo[|todo| - 1];
      var o := fetch(last.article.originallink);
      Outcomes(todo[..|todo| - 1], fetch) + (if o.Raised? then [] else [(last, o)])
  }

  /** The contents.json entry of a completed download. */
  function EntryOf(row: LinkRow, o: Fetch): ContentEntry
    requires !o.Raised?
  {
    match o
    case Fetched(text) => ContentEntry(row.article.pubDate, row.article.title, text, None)
    case FetchError(message) => ContentEntry(row.article.pubDate, row.article.title, "", Some(message))
  }

  /** contents_data[str(id)] = entry for each completed download in turn. */
  function Apply(contents: map<string, ContentEntry>, results: seq<(LinkRow, Fetch)>): map<string, ContentEntry>
    requires forall i :: 0 <= i < |results| ==> !results[i].1.Raised?
  {
    if results == [] then contents
    else
      var last := results[|results| - 1];
      Apply(contents, results[..|results| - 1])[NatToString(last.0.id) := EntryOf(last.0, last.1)]
  }

  /** The existing contents.json, or {} when there is none. */
  function LoadedContents(json: Option<map<string, ContentEntry>>): map<string, ContentEntry> {
    if json.Some? then json.value else map[]
  }

  /**
   * NewsDataPipeline: news_link.csv and contents.json under its base path,
   * None when the file does not exist; naver says whether the data provider
   * is a NaverNews.
   */
  class NewsDataPipeline {
    const naver: bool
    var linkCsv: Option<seq<LinkRow>>
    var contentsJson: Option<map<string, ContentEntry>>

    constructor(naver: bool, linkCsv: Option<seq<LinkRow>>, contentsJson: Option<map<string, ContentEntry>>)
      ensures this.naver == naver && this.linkCsv == linkCsv && this.contentsJson == contentsJson
    {
      this.naver := naver;
      this.linkCsv := linkCsv;
      this.contentsJson := contentsJson;
    }

    /**
     * fetch_data, given what the provider's get_data returns: a provider that
     * is not NaverNews, or an empty fetch, leaves the CSV alone; otherwise the
     * merged rows are written. Only the new batch is returned.
     */
    method FetchData(fetched: seq<Article>) returns (r: seq<Article>)
      modifies this
      ensures r == if naver then fetched else []
      ensures naver && fetched != [] ==> linkCsv == Some(Merged(old(linkCsv), fetched))
      ensures !naver || fetched == [] ==> linkCsv == old(linkCsv)
      ensures contentsJson == old(contentsJson)
    {
      if !naver {
        return [];
      }
      if fetched == [] {
        return fetched;
      }
      var combined: seq<LinkRow>;
      if linkCsv.Some? {
        combined := Renumber(linkCsv.value + MapSeq(fetched, Fresh));
        combined := DedupLastBy(combined, LinkOf);
      } else {
        combined := Renumber(MapSeq(fetched, Fresh));
      }
      linkCsv := Some(combined);
      return fetched;
    }

    /**
     * fetch_article_content, given what each download gives: with no CSV, or
     * no row lacking content, nothing is written. Otherwise every row lacking
     * content is downloaded, each completed download is recorded in
     * contents.json under its article ID, and the CSV keeps its metadata only.
     */
    method FetchArticleContent(fetch: string -> Fetch)
      modifies this
      ensures old(linkCsv).None? || Todo(old(linkCsv).value) == [] ==>
        linkCsv == old(linkCsv) && contentsJson == old(contentsJson)
      ensures old(linkCsv).Some? && Todo(old(linkCsv).value) != [] ==>
        contentsJson == Some(Apply(LoadedContents(old(contentsJson)), Outcomes(Todo(old(linkCsv).value), fetch)))
        && linkCsv == Some(MetaOnly(old(linkCsv).value))
    {
      if linkCsv.None? {
        return;
      }
      var all := linkCsv.value;
      var todo := Todo(all);
      if todo == [] {
        return;
      }
      var results := Download(todo, fetch);
      var contents := LoadedContents(contentsJson);
      for k := 0 to |results|
        invariant contents == Apply(LoadedContents(contentsJson), results[..k])
      {
        assert results[..k + 1][..k] == results[..k];
        var row := results[k].0;
        var entry := if results[k].1.Fetched?
          then ContentEntry(row.article.pubDate, row.article.title, results[k].1.text, None)
          else ContentEntry(row.article.pubDate, row.article.title, "", Some(results[k].1.message));
        contents := contents[NatToString(row.id) := entry];
      }
      assert results[..|results|] == results;
      contentsJson := Some(contents);
      linkCsv := Some(MetaOnly(all));
    }
  }

  /** The futures loop: one download per row to fetch, keeping those that did not raise. */
  method Download(todo: seq<LinkRow>, fetch: string -> Fetch) returns (results: seq<(LinkRow, Fetch)>)
    ensures results == Outcomes(todo, fetch)
  {
    results := [];
    for k := 0 to |todo|
      invariant results == Outcomes(todo[..k], fetch)
    {
      assert todo[..k + 1][..k] == todo[..k];
      var o := fetch(todo[k].article.originallink);
      if !o.Raised? {
        results := results + [(todo[k], o)];
      }
    }
    assert todo[..|todo|] == todo;
  }

  // ---- what fetch_data promises ----

  function ArticleLink(a: Article): string {
    a.originallink
  }

  /** The merged rows never share an originallink (get_data already de-duplicates a fetch). */
  lemma MergedLinksDistinct(csv: Option<seq<LinkRow>>, fetched: seq<Article>)
    requires csv.None? ==> KeysDistinct(fetched, ArticleLink)
    ensures KeysDistinct(Merged(csv, fetched), LinkOf)
  {
    if csv.None? {
      var r := Merged(csv, fetched);
      forall i, j | 0 <= i < j < |r| ensures LinkOf(r[i]) != LinkOf(r[j]) {
        assert LinkOf(r[i]) == ArticleLink(fetched[i]) && LinkOf(r[j]) == ArticleLink(fetched[j]);
      }
    }
  }

  /** The article IDs of the merged rows are their positions in the combined frame. */
  lemma MergedIdsArePositions(stored: seq<LinkRow>, fetched: seq<Article>, r: LinkRow)
    requires r in Merged(Some(stored), fetched)
    ensures r.id < |stored| + |fetched| && Combined(stored, fetched)[r.id] == r
  {
    DedupLastMember(Combined(stored, fetched), LinkOf, r);
  }

  /** A row of the combined frame survives exactly when no later row has its originallink. */
  lemma MergedKeepsIff(stored: seq<LinkRow>, fetched: seq<Article>, i: int)
    requires 0 <= i < |Combined(stored, fetched)|
    ensures Combined(stored, fetched)[i] in Merged(Some(stored), fetched) <==> LastOfKey(Combined(stored, fetched), LinkOf, i)
  {
    var c := Combined(stored, fetched);
    var m := Merged(Some(stored), fetched);
    if c[i] in m {
      DedupLastMember(c, LinkOf, c[i]);
      var k :| 0 <= k < |c| && c[k] == c[i] && LastOfKey(c, LinkOf, k);
      assert c[k].id == k && c[i].id == i;
    }
    if LastOfKey(c, LinkOf, i) {
      assert HasKey(c, LinkOf, LinkOf(c[i]));
      DedupLastHasKey(c, LinkOf, LinkOf(c[i]));
      var x :| x in m && LinkOf(x) == LinkOf(c[i]);
      DedupLastMember(c, LinkOf, x);
      var k :| 0 <= k < |c| && c[k] == x && LastOfKey(c, LinkOf, k);
      if k < i {
        assert LinkOf(c[i]) == LinkOf(c[k]);
      } else if k > i {
        assert LinkOf(c[k]) == LinkOf(c[i]);
      }
    }
  }

  /** The newest rows win: every article of a de-duplicated fetch is stored, numbered after the old rows. */
  lemma MergedKeepsFetched(stored: seq<LinkRow>, fetched: seq<Article>, j: int)
    requires KeysDistinct(fetched, ArticleLink) && 0 <= j < |fetched|
    ensures LinkRow(|stored| + j, fetched[j], None) in Merged(Some(stored), fetched)
  {
    var c := Combined(stored, fetched);
    var n := |stored|;
    var all := stored + MapSeq(fetched, Fresh);
    assert c[n + j] == all[n + j].(id := n + j);
    assert c[n + j] == LinkRow(n + j, fetched[j], None);
    forall k | n + j < k < |c| ensures LinkOf(c[k]) != LinkOf(c[n + j]) {
      assert c[k] == all[k].(id := k);
      assert LinkOf(c[k]) == ArticleLink(fetched[k - n]);
    }
    MergedKeepsIff(stored, fetched, n + j);
  }

  /**
   * IDs are not stable across calls: an article re-fetched under the same
   * originallink drops the older row, and on the next merge the rows after
   * the gap are renumbered, so the same article gets another ID (and another
   * contents.json key).
   */
  lemma IdsShift(a: Article, b: Article, a2: Article, c: Article)
    requires a.originallink == a2.originallink
    requires a.originallink != b.originallink && c.originallink != a.originallink && c.originallink != b.originallink
    ensures Merged(Some([LinkRow(0, a, None), LinkRow(1, b, None)]), [a2]) == [LinkRow(1, b, None), LinkRow(2, a2, None)]
    ensures Merged(Some(Merged(Some([LinkRow(0, a, None), LinkRow(1, b, None)]), [a2])), [c])
      == [LinkRow(0, b, None), LinkRow(1, a2, None), LinkRow(2, c, None)]
  {
    RefetchDropsOlder(a, b, a2);
    NewLinkKeepsAll(b, a2, c);
  }

  /** The first merge: the re-fetched article replaces its older row, leaving a gap at ID 0. */
  lemma RefetchDropsOlder(a: Article, b: Article, a2: Article)
    requires a.originallink == a2.originallink && a.originallink != b.originallink
    ensures Merged(Some([LinkRow(0, a, None), LinkRow(1, b, None)]), [a2]) == [LinkRow(1, b, None), LinkRow(2, a2, None)]
  {
    var first := [LinkRow(0, a, None), LinkRow(1, b, None), LinkRow(2, a2, None)];
    CombinedOne([LinkRow(0, a, None), LinkRow(1, b, None)], a2);
    assert Combined([LinkRow(0, a, None), LinkRow(1, b, None)], [a2]) == first;
    assert LinkOf(first[1..][1]) == LinkOf(first[0]);
    DedupPair(LinkRow(1, b, None), LinkRow(2, a2, None));
  }

  /** The second merge: nothing is dropped, and the kept rows are numbered 0, 1, 2 again. */
  lemma NewLinkKeepsAll(b: Article, a2: Article, c: Article)
    requires c.originallink != a2.originallink && c.originallink != b.originallink && a2.originallink != b.originallink
    ensures Merged(Some([LinkRow(1, b, None), LinkRow(2, a2, None)]), [c])
      == [LinkRow(0, b, None), LinkRow(1, a2, None), LinkRow(2, c, None)]
  {
    var second := [LinkRow(0, b, None), LinkRow(1, a2, None), LinkRow(2, c, None)];
    CombinedOne([LinkRow(1, b, None), LinkRow(2, a2, None)], c);
    assert Combined([LinkRow(1, b, None), LinkRow(2, a2, None)], [c]) == second;
    DedupPair(LinkRow(1, a2, None), LinkRow(2, c, None));
    assert second[1..] == [LinkRow(1, a2, None), LinkRow(2, c, None)];
    assert !HasKey(second[1..], LinkOf, LinkOf(second[0]));
  }

  /** Appending one fetched article to stored rows. */
  lemma CombinedOne(stored: seq<LinkRow>, x: Article)
    ensures Combined(stored, [x]) == Renumber(stored) + [LinkRow(|stored|, x, None)]
  {
    assert MapSeq([x], Fresh) == [Fresh(x)];
    var r := Combined(stored, [x]);
    assert |r| == |stored| + 1;
    assert (stored + [Fresh(x)])[|stored|] == Fresh(x);
    assert r == Renumber(stored) + [LinkRow(|stored|, x, None)];
  }

  /** Two rows with different links are kept as they are. */
  lemma DedupPair(x: LinkRow, y: LinkRow)
    requires LinkOf(x) != LinkOf(y)
    ensures DedupLastBy([x, y], LinkOf) == [x, y]
  {
    DedupSingle(y);
    assert [x, y][1..] == [y];
    assert !HasKey([y], LinkOf, LinkOf(x));
  }

  /** A single row is its own de-duplication. */
  lemma DedupSingle(x: LinkRow)
    ensures DedupLastBy([x], LinkOf) == [x]
  {
    assert [x][1..] == [];
  }

  // ---- what fetch_article_content promises ----

  /** After a call the CSV keeps no content, so every row is fetched again on the next call. */
  lemma EveryRowRefetched(rows: seq<LinkRow>)
    ensures Todo(MetaOnly(rows)) == MetaOnly(rows)
  {
    var m := MetaOnly(rows);
    assert AllPass(m, NeedsContent);
    FilterAll(m, NeedsContent);
  }

  /** A completed download is recorded for a row exactly when the row is to be fetched and its future did not raise. */
  lemma {:induction false} OutcomesMember(todo: seq<LinkRow>, fetch: string -> Fetch, row: LinkRow, o: Fetch)
    ensures (row, o) in Outcomes(todo, fetch) <==> row in todo && o == fetch(row.article.originallink) && !o.Raised?
  {
    if todo != [] {
      var init := todo[..|todo| - 1];
      OutcomesMember(init, fetch, row, o);
      assert todo == init + [todo[|todo| - 1]];
    }
  }

  /** Each row to fetch is downloaded at most once when the article IDs are distinct. */
  lemma {:induction false} OutcomesIdsDistinct(todo: seq<LinkRow>, fetch: string -> Fetch)
    requires KeysDistinct(todo, IdOf)
    ensures var r := Outcomes(todo, fetch);
      forall i, j :: 0 <= i < j < |r| ==> r[i].0.id != r[j].0.id
  {
    if todo != [] {
      var init := todo[..|todo| - 1];
      var last := todo[|todo| - 1];
      assert KeysDistinct(init, IdOf);
      OutcomesIdsDistinct(init, fetch);
      var front := Outcomes(init, fetch);
      forall i | 0 <= i < |front| ensures front[i].0.id != last.id {
        assert front[i] in front;
        OutcomesMember(init, fetch, front[i].0, front[i].1);
        var k :| 0 <= k < |init| && init[k] == front[i].0;
        assert IdOf(todo[k]) != IdOf(todo[|todo| - 1]);
      }
    }
  }

  /** A key no download writes keeps its old entry, or stays absent. */
  lemma {:induction false} ApplyKeepsOthers(contents: map<string, ContentEntry>, results: seq<(LinkRow, Fetch)>, key: string)
    requires forall i :: 0 <= i < |results| ==> !results[i].1.Raised?
    requires forall i :: 0 <= i < |results| ==> NatToString(results[i].0.id) != key
    ensures key in Apply(contents, results) <==> key in contents
    ensures key in contents ==> Apply(contents, results)[key] == contents[key]
  {
    if results != [] {
      ApplyKeepsOthers(contents, results[..|results| - 1], key);
    }
  }

  /** The download of results[i] is what its key holds when no other download has its ID. */
  lemma {:induction false} ApplySets(contents: map<string, ContentEntry>, results: seq<(LinkRow, Fetch)>, i: int)
    requires forall k :: 0 <= k < |results| ==> !results[k].1.Raised?
    requires 0 <= i < |results|
    requires forall k :: 0 <= k < |results| && k != i ==> results[k].0.id != results[i].0.id
    ensures NatToString(results[i].0.id) in Apply(contents, results)
    ensures Apply(contents, results)[NatToString(results[i].0.id)] == EntryOf(results[i].0, results[i].1)
  {
    var init := results[..|results| - 1];
    if i < |results| - 1 {
      var last := results[|results| - 1];
      if NatToString(last.0.id) == NatToString(results[i].0.id) {
        NatToStringInjective(last.0.id, results[i].0.id);
      }
      ApplySets(contents, init, i);
    }
  }

  /** Every download recorded is of a row of the CSV. */
  lemma ResultFromRow(rows: seq<LinkRow>, fetch: string -> Fetch, k: int)
    requires 0 <= k < |Outcomes(Todo(rows), fetch)|
    ensures var res := Outcomes(Todo(rows), fetch)[k];
      res.0 in rows && NeedsContent(res.0) && res.1 == fetch(res.0.article.originallink)
  {
    var res := Outcomes(Todo(rows), fetch)[k];
    OutcomesMember(Todo(rows), fetch, res.0, res.1);
    FilterMember(rows, NeedsContent, res.0);
  }

  /**
   * contents.json after a call, for a row of the CSV (article IDs distinct):
   * a row lacking content gets its downloaded text, or "" and the error; a
   * row with content, or whose download raised, keeps its old entry.
   */
  lemma ContentAfterFetch(rows: seq<LinkRow>, contents: map<string, ContentEntry>, fetch: string -> Fetch, row: LinkRow)
    requires KeysDistinct(rows, IdOf) && row in rows
    ensures var c := Apply(contents, Outcomes(Todo(rows), fetch));
      var o := fetch(row.article.originallink);
      NeedsContent(row) && !o.Raised? ==> NatToString(row.id) in c && c[NatToString(row.id)] == EntryOf(row, o)
    ensures var c := Apply(contents, Outcomes(Todo(rows), fetch));
      var o := fetch(row.article.originallink);
      !NeedsContent(row) || o.Raised? ==>
        (NatToString(row.id) in c <==> NatToString(row.id) in contents)
        && (NatToString(row.id) in contents ==> c[NatToString(row.id)] == contents[NatToString(row.id)])
  {
    var todo := Todo(rows);
    var results := Outcomes(todo, fetch);
    var o := fetch(row.article.originallink);
    FilterDistinctBy(rows, NeedsContent, IdOf);
    OutcomesIdsDistinct(todo, fetch);
    if NeedsContent(row) && !o.Raised? {
      FilterMember(rows, NeedsContent, row);
      OutcomesMember(todo, fetch, row, o);
      var i :| 0 <= i < |results| && results[i] == (row, o);
      ApplySets(contents, results, i);
    } else {
      forall k | 0 <= k < |results| ensures NatToString(results[k].0.id) != NatToString(row.id) {
        ResultFromRow(rows, fetch, k);
        var a :| 0 <= a < |rows| && rows[a] == results[k].0;
        var b :| 0 <= b < |rows| && rows[b] == row;
        assert a != b;
        DistinctKeys(results[k].0.id, row.id);
      }
      ApplyKeepsOthers(contents, results, NatToString(row.id));
    }
  }

  /** Different article IDs are different contents.json keys. */
  lemma DistinctKeys(a: nat, b: nat)
    requires a != b
    ensures NatToString(a) != NatToString(b)
  {
    NatToStringRoundTrip(a);
    NatToStringRoundTrip(b);
  }

  /** Entries of contents.json for IDs not in the CSV are kept. */
  lemma OtherIdsKept(rows: seq<LinkRow>, contents: map<string, ContentEntry>, fetch: string -> Fetch, key: string)
    requires forall r :: r in rows ==> NatToString(r.id) != key
    ensures key in Apply(contents, Outcomes(Todo(rows), fetch)) <==> key in contents
    ensures key in contents ==> Apply(contents, Outcomes(Todo(rows), fetch))[key] == contents[key]
  {
    var results := Outcomes(Todo(rows), fetch);
    forall k | 0 <= k < |results| ensures NatToString(results[k].0.id) != key {
      ResultFromRow(rows, fetch, k);
    }
    ApplyKeepsOthers(contents, results, key);
  }
}
