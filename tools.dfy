/**
 * The two tools the agents may call: a coursebook search, which is the
 * vector store's search with its default limit, and an arXiv search, which
 * renders the papers the arXiv client yields. The arXiv client is a
 * parameter: a function from the query to the papers it yields, in order.
 */
module Tools {
  import opened Text
  import opened VectorStoreAdapter

  const MaxPapers: nat := 3

  /** What the arXiv tool returns when the client yields no paper. */
  const NoPapersFound: string := "No recent papers found."

  const PaperSeparator: string := "\n---\n"

  datatype SortCriterion = Relevance | LastUpdatedDate | SubmittedDate

  /** An `arxiv.Search`. */
  datatype ArxivQuery = ArxivQuery(query: string, maxResults: nat, sortBy: SortCriterion)

  /** A result the client yields; `published` is the text `str` gives for its date. */
  datatype Paper = Paper(title: string, published: string, summary: string, entryId: string)

  /** The search the tool sends: the newest submissions on the topic, at most three. */
  function ArxivSearch(topic: string): ArxivQuery {
    ArxivQuery(topic, MaxPapers, SubmittedDate)
  }

  /** One paper's block: four labelled lines, each ended by a newline. */
  function PaperEntry(p: Paper): string {
    "Title: " + p.title + "\nDate: " + p.published + "\nSummary: " + p.summary + "\nLink: " + p.entryId + "\n"
  }

  /** The blocks of the papers, one per paper, in the order yielded. */
  function Entries(papers: seq<Paper>): seq<string> {
    seq(|papers|, i requires 0 <= i < |papers| => PaperEntry(papers[i]))
  }

  /** What the arXiv tool returns for the papers: the sentinel when there are none, else the blocks separated by `---` lines. */
  function Digest(papers: seq<Paper>): string {
    if papers == [] then NoPapersFound else Join(Entries(papers), PaperSeparator)
  }

  /**
   * `search_arxiv_papers`: ask the client for the newest papers on the
   * topic, collect one block per paper, and join them.
   */
  method SearchArxivPapers(topic: string, client: ArxivQuery -> seq<Paper>) returns (digest: string)
    ensures digest == Digest(client(ArxivSearch(topic)))
  {
    var search := ArxivQuery(topic, 3, SubmittedDate);
    var yielded := client(search);
    var results: seq<string> := [];
    for i := 0 to |yielded|
      invariant |results| == i
      invariant forall j :: 0 <= j < i ==> results[j] == PaperEntry(yielded[j])
    {
      results := results + [PaperEntry(yielded[i])];
    }
    if results == [] {
      return NoPapersFound;
    }
    assert results == Entries(yielded);
    return Join(results, PaperSeparator);
  }

  /**
   * The sentinel is returned exactly when the client yields nothing: with
   * papers the text starts with the first paper's `Title: ` line.
   */
  lemma DigestSentinel(papers: seq<Paper>)
    ensures Digest(papers) == NoPapersFound <==> papers == []
    ensures papers != [] ==> StartsWith(Digest(papers), PaperEntry(papers[0]))
  {
    if papers != [] {
      var entries := Entries(papers);
      JoinStartsWithFirst(entries, PaperSeparator);
      assert Digest(papers)[0] == entries[0][0] == 'T';
      assert NoPapersFound[0] == 'N';
    }
  }

  /**
   * Every paper's block appears in the digest in the order yielded, with a
   * `---` line between neighbours and none before the first or after the last.
   */
  lemma DigestKeepsOrder(papers: seq<Paper>, i: nat)
    requires i < |papers|
    ensures var entries := Entries(papers);
            Digest(papers)
            == Join(entries[..i], PaperSeparator) + (if i > 0 then PaperSeparator else "")
             + PaperEntry(papers[i])
             + (if i + 1 < |papers| then PaperSeparator else "") + Join(entries[i + 1..], PaperSeparator)
  {
    JoinAround(Entries(papers), PaperSeparator, i);
  }

  /** `search_coursebook`: the store's search for the query, at the default limit of three hits. */
  method SearchCoursebook(store: VectorStore, query: string) returns (context: string)
    requires store.Valid()
    ensures context == FormatContext(store.nearest(store.server[CollectionName], store.embed(query), 3), store.showScore)
  {
    context := store.Search(query);
  }
}
