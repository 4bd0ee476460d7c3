/** A candidate paper as the arXiv fetcher hands it to the pipeline, and the sort keys the
    pipeline orders papers and output rows by, and the key the database files a row under. */
module Records {
  import opened Base
  import opened Strings
  import opened JsonValue
  import opened Ordering

  /** The row is a dict holding an id. */
  predicate Keyed(row: Json) {
    row.Obj? && Get(row, "arxiv_id_base").Some?
  }

  /** `row["arxiv_id_base"]` as the database stores it: indexing raises on a row that is not
      a dict or lacks the key. */
  function RowKey(row: Json): (r: Result<string>)
    ensures r.Ok? <==> Keyed(row)
    ensures r.Ok? ==> r.value == Display(Get(row, "arxiv_id_base").value)
  {
    if !row.Obj? then Err(Raise("TypeError"))
    else match Get(row, "arxiv_id_base")
      case None => Err(Raise("KeyError"))
      case Some(id) => Ok(Display(id))
  }

  /** The paper's links; an empty `pdf` stands for a missing or empty link. */
  datatype Links = Links(abs: string, pdf: string)

  /** A candidate paper: the keys every fetched record carries. */
  datatype Paper = Paper(
    arxivId: string,
    idBase: string,
    version: Json,
    title: string,
    summary: string,
    authors: seq<string>,
    categories: seq<string>,
    published: string,
    updated: string,
    links: Links)

  /** What fetching a paper's PDF came to: the text extracted (empty when no text file was
      written) with the extraction metadata, or the name of the exception raised by the download
      or the extraction. The download and the extraction themselves are not modelled. */
  datatype Download = Downloaded(text: string, meta: Json) | DownloadFailed(name: string)

  function LinksJson(l: Links): Json {
    Obj([("abs", Str(l.abs)), ("pdf", Str(l.pdf))])
  }

  /** The paper's publication day, `published[:10]`. */
  function PublishedDate(p: Paper): (r: string)
    ensures |r| == Min(10, |p.published|)
    ensures r == p.published[..|r|]
  {
    PyPrefix(p.published, 10)
  }

  /** The key `(x["published"], x["arxiv_id_base"])`. */
  function PublishedKey(p: Paper): Key {
    [AStr(p.published), AStr(p.idBase)]
  }

  /** Sorting papers by (published, id) puts the earlier publication first, and the smaller id
      first among papers published at the same instant. */
  lemma PublishedKeyOrder(a: Paper, b: Paper)
    ensures KeyLe(PublishedKey(a), PublishedKey(b)) <==>
      (a.published != b.published && StrLe(a.published, b.published)) ||
      (a.published == b.published && StrLe(a.idBase, b.idBase))
  {
    var ka, kb := PublishedKey(a), PublishedKey(b);
    var ta, tb := [AStr(a.idBase)], [AStr(b.idBase)];
    assert ka[1..] == ta && kb[1..] == tb;
    assert ta[1..] == [] && tb[1..] == [];
    assert KeyLe(ta, tb) <==> StrLe(a.idBase, b.idBase) by {
      StrLeRefl(a.idBase);
    }
  }
}
