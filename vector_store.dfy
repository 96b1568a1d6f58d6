/**
 * The Qdrant adapter: the coursebook collection on the vector server, the
 * payload and point each ingest writes, and the text a search hands to the
 * model.
 *
 * The embedding model, the nearest-neighbour search and the rendering of a
 * score with two decimals are foreign; they are fields of `VectorStore` that
 * the model only calls. The vector server is a map from collection names to
 * collections, each a map from point ids to points.
 */
module VectorStoreAdapter {
  import opened Common
  import opened Text

  const CollectionName: string := "coursebook_rag"

  /** The width of a `BAAI/bge-small-en-v1.5` embedding. */
  const EmbeddingSize: nat := 384

  const DefaultLimit: int := 3

  /** What a search with no hits returns in place of excerpts. */
  const NoContextFound: string := "No relevant context found in the coursebook."

  const ExcerptSeparator: string := "\n\n"

  datatype Distance = Cosine | Dot | Euclid | Manhattan

  datatype VectorParams = VectorParams(size: nat, distance: Distance)

  /** A JSON value in a payload: a string, or any other value, kept as the text `str` gives it. */
  datatype Value = Str(text: string) | Other(rendered: string)

  type Payload = map<string, Value>

  datatype Point = Point(id: string, vector: seq<real>, payload: Payload)

  datatype Collection = Collection(params: VectorParams, points: map<string, Point>)

  /** One search result: its similarity score and the payload of the point found. */
  datatype Hit = Hit(score: real, payload: Payload)

  /** The collection `_ensure_collection` creates: empty, 384-wide vectors compared by cosine. */
  const NewCollection: Collection := Collection(VectorParams(EmbeddingSize, Cosine), map[])

  /** The server after `_ensure_collection`: the collection is added only when no collection has its name. */
  function EnsuredCollection(server: map<string, Collection>): map<string, Collection> {
    if CollectionName in server then server else server[CollectionName := NewCollection]
  }

  /**
   * After setup the collection exists; a collection already there is kept
   * as it is, a new one is the empty 384-wide cosine collection, no other
   * collection changes, and running setup again changes nothing.
   */
  lemma EnsureCollectionIdempotent(server: map<string, Collection>)
    ensures var s := EnsuredCollection(server);
            && CollectionName in s
            && (CollectionName in server ==> s[CollectionName] == server[CollectionName])
            && (CollectionName !in server ==> s[CollectionName] == NewCollection)
            && (forall name :: name != CollectionName ==> (name in s <==> name in server))
            && (forall name :: name in server && name != CollectionName ==> s[name] == server[name])
            && EnsuredCollection(s) == s
  {
  }

  /**
   * The payload of an ingested text: `{"text": text}` updated with the
   * metadata, if any. It holds the metadata's keys and `"text"`, every
   * metadata entry wins, and `"text"` keeps the ingested text only when the
   * metadata does not set it.
   */
  function BuildPayload(text: string, metadata: Option<Payload>): (payload: Payload)
    ensures payload.Keys == {"text"} + (if metadata.Some? then metadata.value.Keys else {})
    ensures metadata.Some? ==> forall key :: key in metadata.value ==> payload[key] == metadata.value[key]
    ensures metadata.None? || "text" !in metadata.value ==> payload["text"] == Str(text)
  {
    var base := map["text" := Str(text)];
    if metadata.Some? && |metadata.value| > 0 then base + metadata.value else base
  }

  /** The collection after upserting one point: that id now holds the point. */
  function Upserted(c: Collection, p: Point): Collection {
    c.(points := c.points[p.id := p])
  }

  /**
   * Upserting a point under a fresh id adds exactly that point and keeps
   * every other point and the collection's parameters.
   */
  lemma UpsertAddsOnePoint(c: Collection, p: Point)
    requires p.id !in c.points
    ensures var u := Upserted(c, p);
            && u.params == c.params
            && u.points.Keys == c.points.Keys + {p.id}
            && |u.points| == |c.points| + 1
            && u.points[p.id] == p
            && forall id :: id in c.points ==> u.points[id] == c.points[id]
  {
  }

  /** The text `str` gives for a payload value. */
  function Render(v: Value): string {
    match v
    case Str(text) => text
    case Other(rendered) => rendered
  }

  /** `hit.payload.get('text', '')`, as text. */
  function PayloadText(payload: Payload): string {
    if "text" in payload then Render(payload["text"]) else ""
  }

  /** The point of an ingested text is found again by its text, unless the metadata replaced it. */
  lemma IngestedTextIsExcerpted(text: string, metadata: Option<Payload>)
    ensures metadata.None? || "text" !in metadata.value ==> PayloadText(BuildPayload(text, metadata)) == text
    ensures metadata.Some? && "text" in metadata.value ==>
              PayloadText(BuildPayload(text, metadata)) == Render(metadata.value["text"])
  {
  }

  /** The heading of one excerpt, carrying its rendered score. */
  function ExcerptHeading(score: string): string {
    "--- Excerpt (Score: " + score + ") ---\n"
  }

  /** One hit as the model sees it: its heading, then its payload's text. */
  function Excerpt(hit: Hit, showScore: real -> string): string {
    ExcerptHeading(showScore(hit.score)) + PayloadText(hit.payload)
  }

  /** The excerpts of the hits, in the order the server returned them. */
  function Excerpts(hits: seq<Hit>, showScore: real -> string): seq<string> {
    seq(|hits|, i requires 0 <= i < |hits| => Excerpt(hits[i], showScore))
  }

  /** What `search` returns for the hits: the sentinel when there are none, else the excerpts separated by blank lines. */
  function FormatContext(hits: seq<Hit>, showScore: real -> string): string {
    if hits == [] then NoContextFound else Join(Excerpts(hits, showScore), ExcerptSeparator)
  }

  /**
   * The sentinel is returned exactly when there are no hits: with hits the
   * text starts with the first excerpt, whose heading cannot be mistaken
   * for the sentinel.
   */
  lemma FormatContextSentinel(hits: seq<Hit>, showScore: real -> string)
    ensures FormatContext(hits, showScore) == NoContextFound <==> hits == []
    ensures hits != [] ==> StartsWith(FormatContext(hits, showScore), Excerpt(hits[0], showScore))
  {
    if hits != [] {
      var excerpts := Excerpts(hits, showScore);
      JoinStartsWithFirst(excerpts, ExcerptSeparator);
      var context := FormatContext(hits, showScore);
      assert context[0] == excerpts[0][0] == '-';
      assert NoContextFound[0] == 'N';
    }
  }

  /**
   * Every hit's excerpt appears in the context in the server's order:
   * preceded by the earlier excerpts and a blank line, followed by a blank
   * line and the later ones, with no separator before the first or after
   * the last.
   */
  lemma FormatContextKeepsOrder(hits: seq<Hit>, showScore: real -> string, i: nat)
    requires i < |hits|
    ensures var excerpts := Excerpts(hits, showScore);
            FormatContext(hits, showScore)
            == Join(excerpts[..i], ExcerptSeparator) + (if i > 0 then ExcerptSeparator else "")
             + Excerpt(hits[i], showScore)
             + (if i + 1 < |hits| then ExcerptSeparator else "") + Join(excerpts[i + 1..], ExcerptSeparator)
  {
    JoinAround(Excerpts(hits, showScore), ExcerptSeparator, i);
  }

  /** A single hit gives its excerpt alone, with no separator. */
  lemma FormatContextSingleHit(hit: Hit, showScore: real -> string)
    ensures FormatContext([hit], showScore) == ExcerptHeading(showScore(hit.score)) + PayloadText(hit.payload)
  {
    FormatContextKeepsOrder([hit], showScore, 0);
  }

  /**
   * The adapter: a connection to the vector server, which it updates, and
   * the foreign embedding, search and score rendering it calls.
   */
  class VectorStore {
    var server: map<string, Collection>
    const embed: string -> seq<real>
    /** The server's nearest-neighbour search: the best hits in a collection for a vector, at most `limit` of them. */
    const nearest: (Collection, seq<real>, int) -> seq<Hit>
    /** `f"{score:.2f}"`. */
    const showScore: real -> string

    ghost predicate Valid()
      reads this
    {
      CollectionName in server
    }

    /** Connects to `server` and makes sure the coursebook collection exists. */
    constructor (server: map<string, Collection>, embed: string -> seq<real>,
                 nearest: (Collection, seq<real>, int) -> seq<Hit>, showScore: real -> string)
      ensures Valid()
      ensures this.server == EnsuredCollection(server)
      ensures this.embed == embed && this.nearest == nearest && this.showScore == showScore
    {
      this.server := server;
      this.embed := embed;
      this.nearest := nearest;
      this.showScore := showScore;
      new;
      EnsureCollection();
    }

    /** `_ensure_collection`. */
    method EnsureCollection()
      modifies this
      ensures Valid()
      ensures server == EnsuredCollection(old(server))
    {
      if CollectionName !in server {
        server := server[CollectionName := NewCollection];
      }
    }

    /**
     * `ingest_text`: upsert one point, under the fresh id `pointId`, holding
     * the embedding of the text and the merged payload. `failure` is the
     * message of an exception raised by the embedding or the server, in
     * which case nothing is written.
     */
    method IngestText(text: string, metadata: Option<Payload>, pointId: string, failure: Option<string>)
      returns (r: Result<(), string>)
      requires Valid()
      modifies this
      ensures Valid()
      ensures failure.Some? ==> r == Err(failure.value) && server == old(server)
      ensures failure.None? ==>
                && r == Ok(())
                && server == old(server)[CollectionName := Upserted(old(server)[CollectionName],
                                                                   Point(pointId, embed(text), BuildPayload(text, metadata)))]
    {
      if failure.Some? {
        return Err(failure.value);
      }
      var vector := embed(text);
      var payload := map["text" := Str(text)];
      if metadata.Some? && |metadata.value| > 0 {
        payload := payload + metadata.value;
      }
      var collection := server[CollectionName];
      server := server[CollectionName := collection.(points := collection.points[pointId := Point(pointId, vector, payload)])];
      return Ok(());
    }

    /** `search`: the context for the `limit` nearest hits of the query's embedding. */
    method Search(query: string, limit: int := DefaultLimit) returns (context: string)
      requires Valid()
      ensures context == FormatContext(nearest(server[CollectionName], embed(query), limit), showScore)
    {
      var hits := nearest(server[CollectionName], embed(query), limit);
      if hits == [] {
        return NoContextFound;
      }
      var excerpts := seq(|hits|, i requires 0 <= i < |hits| => ExcerptHeading(showScore(hits[i].score)) + PayloadText(hits[i].payload));
      context := Join(excerpts, ExcerptSeparator);
      assert excerpts == Excerpts(hits, showScore);
    }
  }
}
