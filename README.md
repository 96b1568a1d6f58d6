# phys-ai-backend, modelled in Dafny

A model of the parts of the phys-ai-backend service that hold logic of their
own. The rest of the service is glue around an agent SDK, Qdrant, fastembed,
arXiv and SQLModel, and every foreign call is a parameter of the model.

- **Auth** (`auth.dfy`, with the records in `models.dfy`). The auth router's
  three handlers act on a `user` table keyed by id with unique emails and a
  `session` table keyed by token.
  - Each handler is a step function from the tables before a request to the
    tables after it and the handler's answer.
  - The class `SessionStore` implements the handlers over two mutable maps.
    Each of its methods is proved to follow its step function.
  - Lemmas state what the handlers promise: refusals, exactly which rows are
    added or deleted, round trips from sign-up to sign-in and to session
    lookup, strict expiry, and preservation of the schema's constraints.
- **Prompts** (`prompts.dfy`, `format.dfy`, `main.dfy`).
  - The three user-message templates are transcribed as constants.
  - `format.dfy` gives the part of Python's `str.format` the templates use:
    named fields, `{{`, `}}` and the errors.
  - Each prompt is proved equal to what `str.format` makes of its template.
  - The chat pipeline splits the history into the last question and the
    rendered earlier turns. It maps agent failures to 500 and an empty
    history to 400.
- **Vector store** (`vector_store.dfy`). Covers collection setup, the payload
  and point each ingest writes, and the context text a search returns. The
  embedding model, the nearest-neighbour search and score rendering are
  fields of the `VectorStore` class.
- **Tools** (`tools.dfy`). The arXiv tool's loop over the yielded papers, and
  the coursebook search's delegation to the vector store.
- **Database** (`database.dfy`). The `postgres://` to `postgresql://`
  rewrite, and the guards on a missing engine.
- `text.dfy` holds the Python string operations the model needs: `split`,
  `join`, `startswith` and `replace(..., 1)`. `common.dfy` holds `Option`,
  `Result` and `HttpError`.

Modelling conventions:
- Clock readings are integers counting seconds, so seven days is `604800`.
- `now` is one reading per request. A handler that calls `utcnow()` more than
  once is modelled with the same reading for all calls.
- The password hash and its check, the session token and the UUID of a new
  user or point are parameters of the handler that uses them.

A duplicate sign-up is refused with 400 (app/routers/auth.py:21), not with
409 Conflict, and the model does the same.

## Model

| member | source | states |
|---|---|---|
| Models.NewUserIdInjective | app/models.py:7 | every generated user id starts with `u_`, and distinct UUIDs give distinct ids |
| Auth.SignUpStep | app/routers/auth.py:16-50 | defines sign-up on the tables. A registered email is refused with 400 and changes nothing. A clash on the new user id is an integrity error that changes nothing. A clash on the token leaves the user row committed and fails with an integrity error. Otherwise the user and a session expiring at now + 604800 are added, and the answer is that user and token |
| Auth.SignInStep | app/routers/auth.py:53-77 | defines sign-in on the tables. An unknown email or a password that does not verify gives 401 and no change. A token clash is an integrity error. Otherwise one session for that user is added, and the answer is that user and the token |
| Auth.SessionLookupStep | app/routers/auth.py:80-113 | defines session lookup. No bearer token or an unknown token gives None with no change. A session expiring before now is deleted and gives None. A missing owner gives None. Otherwise the answer is the owner and the token, with no change |
| Auth.AccountWithEmail | app/routers/auth.py:18-19 | the email lookup finds a row exactly when some user has that email, and the row it finds has that email |
| Auth.SignUpEffect | app/routers/auth.py:17-50 | sign-up answers 400 "User already exists" exactly when the email is registered, and then changes nothing. With a fresh id and token it adds exactly one user, with the hashed password and the given email, name and image. It adds exactly one session for that user, expiring at now + 7 days. It answers with that user and that token |
| Auth.SecondSignUpRejected | app/routers/auth.py:18-21 | after a successful sign-up, any sign-up with the same email is refused with 400 and leaves both tables as they are |
| Auth.SignUpKeepsTablesConsistent | app/routers/auth.py:16-50 | sign-up keeps users keyed by id, emails unique, sessions keyed by token, and every session's user present |
| Auth.SignInSucceedsIffCredentialsMatch | app/routers/auth.py:55-60 | sign-in succeeds exactly when some user has the email and the password verifies against that user's hash. Otherwise it answers 401 "Invalid credentials" |
| Auth.SignInEffect | app/routers/auth.py:63-77 | sign-in never changes the user table. A refusal changes nothing. A success adds exactly one session for the signed-in user, keeps every existing session, and answers with that user and the new token |
| Auth.SignInKeepsTablesConsistent | app/routers/auth.py:53-77 | sign-in keeps the table constraints |
| Auth.SignUpThenSignIn | app/routers/auth.py:24-77 | after sign-up, signing in with the same email and password signs in the new user. Both the first session and the new one are then stored |
| Auth.BearerFields | app/routers/auth.py:91 | for a header starting with `Bearer `, `split(" ")` has a second field: the text after the prefix, up to the next space |
| Auth.BearerToken | app/routers/auth.py:88-91 | a token is found exactly when the header is present and starts with `Bearer `. The token contains no space, directly follows the prefix, and ends at a space or at the end of the header |
| Auth.BearerRoundTrip | app/routers/auth.py:88-91 | `Bearer ` followed by a space-free token gives back that token |
| Auth.SessionLookupWithoutSession | app/routers/auth.py:88-96 | a missing header, a header without the `Bearer ` prefix, or an unknown token gives None and changes nothing |
| Auth.ExpiredSessionDeletedOnLookup | app/routers/auth.py:99-103 | a session with expiry strictly before now is deleted, with no other row touched, and None is returned. Any later lookup of it gives None and changes nothing |
| Auth.LiveSessionResolves | app/routers/auth.py:99-113 | a session expiring at or after now resolves to its owner and its own token without changing the tables. In consistent tables the owner is always there |
| Auth.OrphanedSessionGivesNone | app/routers/auth.py:106-108 | a live session whose user row is gone resolves to None and the lookup changes nothing |
| Auth.SessionLookupKeepsTablesConsistent | app/routers/auth.py:80-113 | session lookup keeps the table constraints |
| Auth.SignUpThenSessionLookup | app/routers/auth.py:34-113 | the token returned by sign-up resolves to the same user and token, without change, until seven days have passed |
| Auth.SessionStore.SignUp | app/routers/auth.py:16-50 | the in-place handler leaves the tables and answer that the sign-up step gives, and keeps ids, emails and tokens keyed and unique |
| Auth.SessionStore.SignIn | app/routers/auth.py:53-77 | the in-place handler leaves the tables and answer that the sign-in step gives |
| Auth.SessionStore.GetCurrentSession | app/routers/auth.py:80-113 | the in-place handler leaves the tables and answer that the lookup step gives, deleting the expired row in place |
| Prompts.RagPrompt | app/main.py:82-85 | the chat prompt is what `RAG_USER_TEMPLATE.format` gives with the history and the question substituted literally |
| Prompts.ContextPrompt | app/main.py:98-101 | the selection prompt is what `CONTEXT_USER_TEMPLATE.format` gives for any selected text and query |
| Prompts.ResearchPrompt | app/main.py:114-116 | the research prompt is what `RESEARCH_USER_TEMPLATE.format` gives for the book section |
| Endpoints.RenderHistory | app/main.py:80 | defines the history block: each turn rendered `role: content`, joined with newlines |
| Endpoints.ChatPrompt | app/main.py:76-85 | the prompt is refused with 400 "History cannot be empty" exactly when the history is empty. Otherwise it is the RAG template formatted with the last message's content as the question and the earlier turns, rendered, as the history |
| Endpoints.SingleMessageHasEmptyContext | app/main.py:79-80 | a one-message history gives an empty history block and its content as the question |
| Endpoints.RenderHistoryAppend | app/main.py:80 | one more turn adds a newline and that turn's line to the rendered history |
| Endpoints.RenderHistoryLines | app/main.py:80 | when no turn holds a newline, splitting the rendered history at newlines gives back exactly the turns' lines |
| Endpoints.RenderHistoryKeepsOrder | app/main.py:80 | there is one `role: content` line per turn, in order: each turn's line appears between the lines before it and those after it, with newlines only between neighbours |
| Endpoints.RespondWith | app/main.py:87-91 | a finished run gives its output as the response, with no reasoning. A raised exception gives a 500 carrying its message |
| Endpoints.ChatEndpoint | app/main.py:71-91 | an empty history gives 400. Otherwise the RAG agent's output is the response, or its exception becomes a 500 |
| Endpoints.SelectedChatEndpoint | app/main.py:93-107 | the context agent answers the selection prompt with no validation of the texts. Its failure becomes a 500 |
| Endpoints.LatestDevelopmentsEndpoint | app/main.py:109-122 | the research agent answers the research prompt. Its failure becomes a 500 |
| Endpoints.HealthCheck | app/main.py:53-55 | health always reports status "ok" |
| Endpoints.IngestEndpoint | app/main.py:57-69 | a stored text answers "success" with the fixed message, and the store holds the new point. A failure answers 500 "Ingestion failed: " followed by its message and changes nothing |
| VectorStoreAdapter.EnsuredCollection | app/vector_store.py:20-29 | defines setup on the server: a 384-wide cosine collection named `coursebook_rag` is added only when no collection has that name |
| VectorStoreAdapter.EnsureCollectionIdempotent | app/vector_store.py:20-29 | after setup the collection exists. An existing one is kept; a missing one is created empty with size 384 and cosine distance. Other collections are untouched, and a second setup changes nothing |
| VectorStoreAdapter.VectorStore.constructor | app/vector_store.py:9-18 | constructing the store leaves the server as setup makes it, so the collection exists |
| VectorStoreAdapter.VectorStore.EnsureCollection | app/vector_store.py:20-29 | the in-place setup leaves the server as the setup function gives it |
| VectorStoreAdapter.BuildPayload | app/vector_store.py:39-41 | the payload has the metadata's keys and "text". Every metadata entry wins. "text" holds the ingested text unless the metadata sets it |
| VectorStoreAdapter.IngestedTextIsExcerpted | app/vector_store.py:39-41 | the excerpt of an ingested point shows the ingested text, or the metadata's "text" when it overrides it |
| VectorStoreAdapter.UpsertAddsOnePoint | app/vector_store.py:44-53 | upserting under a fresh id adds exactly that point and keeps the other points and the collection's parameters |
| VectorStoreAdapter.VectorStore.IngestText | app/vector_store.py:31-53 | an ingest writes one point under the fresh id, holding the text's embedding and the merged payload. On a failure it writes nothing |
| VectorStoreAdapter.FormatContext | app/vector_store.py:65-73 | defines the search text: the sentinel for no hits, else the hits' excerpts joined by blank lines |
| VectorStoreAdapter.FormatContextSentinel | app/vector_store.py:65-66 | the search text is "No relevant context found in the coursebook." exactly when there are no hits. Otherwise it starts with the first hit's excerpt |
| VectorStoreAdapter.FormatContextKeepsOrder | app/vector_store.py:69-73 | there is one excerpt per hit: every excerpt appears in hit order, with a blank line only between neighbours |
| VectorStoreAdapter.FormatContextSingleHit | app/vector_store.py:70 | one hit renders as the `--- Excerpt (Score: s) ---` heading line followed by the payload's text, or "" when it has none |
| VectorStoreAdapter.VectorStore.Search | app/vector_store.py:55-73 | a search formats the server's hits for the query's embedding, asking for `limit` hits, three by default, and changes nothing |
| Tools.SearchCoursebook | app/tools.py:5-11 | the coursebook tool returns the store's search text for the query at a limit of three |
| Tools.Digest | app/tools.py:26-33 | defines the arXiv tool's text: the sentinel for no papers, else the papers' blocks joined by `---` lines |
| Tools.SearchArxivPapers | app/tools.py:13-33 | the loop over the papers the client yields for the newest-three query gives the digest of those papers |
| Tools.DigestSentinel | app/tools.py:30-31 | the tool returns "No recent papers found." exactly when no paper is yielded. Otherwise the text starts with the first paper's block |
| Tools.DigestKeepsOrder | app/tools.py:26-33 | there is one `Title/Date/Summary/Link` block per yielded paper: every paper's block appears in the order yielded, with a `---` line only between neighbours |
| Database.NormalizeUrl | app/database.py:6-7 | defines the URL rewrite: a leading `postgres://` is replaced once by `postgresql://`, anything else is kept |
| Database.NormalizeRewritesScheme | app/database.py:6-7 | a `postgres://` URL gets `postgresql://` in its place, and the rest is unchanged |
| Database.NormalizeKeepsOtherUrls | app/database.py:6 | any other URL, including a `postgresql://` one, is unchanged |
| Database.NormalizeIdempotent | app/database.py:6-7 | the rewritten URL never starts with `postgres://`, so rewriting twice is rewriting once |
| Database.EngineFor | app/database.py:5-9 | there is an engine exactly when the URL is set and non-empty, and it uses the rewritten URL |
| Database.Connection.InitDb | app/database.py:11-14 | with an engine the model tables are created; without one nothing changes |
| Database.Connection.GetSession | app/database.py:16-21 | without an engine the result is the error "DATABASE_URL is not set."; with one, a session on that engine |

## Left out

- Password hashing and checking, token generation and UUIDs live in `app/auth_utils`, which is not part of this model. They are parameters, and no property of them is assumed beyond what a lemma states in its own requires.
- `datetime.utcnow()` is an integer clock parameter. Its value is read once per request, although sign-up and sign-in read the clock for the record defaults and for the expiry separately.
- The constraint that every session's user exists is proved of the step functions, but it is not part of `SessionStore.Valid`. The lookup handler's branch for a missing owner stays reachable, as it is in the code.
- The class model does not capture SQL transactions and commits. The one intermediate state modelled is the one sign-up leaves when the user row is committed but the session insert then fails on a duplicate token.
- The embedding model, Qdrant's nearest-neighbour ranking, scores and the `:.2f` rendering of a score are floating point and foreign. They are fields of `VectorStore`.
- Qdrant's handling of a missing collection is not modelled: the store requires the collection that its constructor creates.
- `VectorStore.Search`: errors raised by the embedding or the server during a search are not modelled.
- `IngestText`: the model assumes a point id that is not yet in the collection only where a lemma says so. An upsert onto an existing id replaces that point, as Qdrant does.
- The arXiv client is a function from the query to the papers it yields. `Tools.SearchArxivPapers`: that at most three papers come back is the client's promise and is not stated.
- `PyFormat.Format` covers named fields and doubled braces. It leaves out positional fields, attribute and index access, conversions and format specs, none of which the templates use.
- Agent runs (`Runner.run`), the OpenAI and Gemini clients, the system instructions in `app/prompts.py`, async execution, FastAPI routing, CORS and the lifespan hook are framework plumbing. The run is a parameter of each chat endpoint.
- Reading the Qdrant settings from the environment (`app/config.py`) is I/O.
- `Database.EngineFor`: the database URL is a parameter, standing for the evidently intended `os.getenv("DATABASE_URL")`. `Settings` in app/config.py:6-18 defines no `DATABASE_URL`, so as written `settings.DATABASE_URL` (app/database.py:5) raises `AttributeError` and `app.database` cannot be imported. The model does not reproduce that failure.
- The tables `create_all` makes are only named, not given columns.
