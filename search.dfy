/**
 * The knowledge lookup of the webhook (SearchIndexAsync): a three-tier cascade of index
 * queries (semantic + vector, vector only, plain text) and the formatting of the documents
 * the succeeding tier returns. The index service itself is a function from request to outcome.
 */
module Search {
  import opened Wrappers
  import opened Text

  const SemanticConfigurationName := "vector-1745864508214-semantic-configuration"
  const VectorizerName := "vector-1745864508214-azureOpenAi-text-vectorizer"
  const VectorField := "text_vector"
  const PageSize: nat := 3
  const NearestNeighbours: nat := 3
  const SelectedFields: seq<string> := ["chunk", "title"]

  const EmptyQueryReply := "Please provide a question or topic to search for."
  const NoResultsReply := "No relevant information found about this topic in the knowledge base."
  const MissingField := "N/A"
  /** The line terminator StringBuilder.AppendLine writes. */
  const NewLine := "\n"

  /** The query type of a request; Simple stands for a request that leaves QueryType unset. */
  datatype QueryType = Simple | Semantic

  datatype VectorQuery = VectorizableTextQuery(
    text: string, kNearestNeighborsCount: nat, fields: seq<string>, vectorizerName: string)

  /** The search text and SearchOptions of one call to the index. */
  datatype SearchRequest = SearchRequest(
    searchText: Option<string>,
    size: nat,
    select: seq<string>,
    queryType: QueryType,
    semanticConfigurationName: Option<string>,
    vectorQuery: Option<VectorQuery>)

  /** One result document; None stands for a field that is missing or null. */
  datatype Document = Document(title: Option<string>, chunk: Option<string>)

  /** What the index may throw: a RequestFailedException with its status, or any other exception. */
  datatype SearchFailure = RequestFailed(status: int, message: string) | OtherException(message: string)

  datatype SearchOutcome = Found(results: seq<Document>) | Failed(failure: SearchFailure)

  type SearchService = SearchRequest -> SearchOutcome

  /** Tier A: hybrid semantic-reranked vector query. */
  function SemanticVectorRequest(query: string): SearchRequest {
    SearchRequest(Some(query), PageSize, SelectedFields, Semantic, Some(SemanticConfigurationName),
      Some(VectorizableTextQuery(query, NearestNeighbours, [VectorField], VectorizerName)))
  }

  /** Tier B: the vector query alone, with a null search text. */
  function VectorRequest(query: string): SearchRequest {
    SearchRequest(None, PageSize, SelectedFields, Simple, None,
      Some(VectorizableTextQuery(query, NearestNeighbours, [VectorField], VectorizerName)))
  }

  /** Tier C: a plain keyword query. */
  function TextRequest(query: string): SearchRequest {
    SearchRequest(Some(query), PageSize, SelectedFields, Simple, None, None)
  }

  /** The exception filter on tier A: a 400 naming the semantic configuration, the ranker or the vectorizer. */
  predicate IsTierLimitation(f: SearchFailure) {
    && f.RequestFailed?
    && f.status == 400
    && (Contains(f.message, "semantic configuration") || Contains(f.message, "semantic ranker")
        || Contains(f.message, "vectorizer"))
  }

  /**
   * The requests the cascade issues for a non-blank query, in order. Each tier runs only
   * after the one before it failed; tier B only after a tier-limitation failure of tier A;
   * tier C after any other failure of tier A or any failure of tier B, and at most once.
   */
  function Attempts(query: string, search: SearchService): (rs: seq<SearchRequest>)
    ensures 1 <= |rs| <= 3 && rs[0] == SemanticVectorRequest(query)
    ensures forall i :: 0 <= i < |rs| - 1 ==> search(rs[i]).Failed?
    ensures forall i, j :: 0 <= i < j < |rs| ==> rs[i] != rs[j]
    ensures VectorRequest(query) in rs <==>
      search(SemanticVectorRequest(query)).Failed? && IsTierLimitation(search(SemanticVectorRequest(query)).failure)
    ensures TextRequest(query) in rs <==>
      search(SemanticVectorRequest(query)).Failed?
      && (!IsTierLimitation(search(SemanticVectorRequest(query)).failure) || search(VectorRequest(query)).Failed?)
    ensures forall r :: r in rs ==> r in [SemanticVectorRequest(query), VectorRequest(query), TextRequest(query)]
    ensures TextRequest(query) in rs ==> rs[|rs| - 1] == TextRequest(query)
    ensures forall r :: r in rs ==> r.size == PageSize && r.select == SelectedFields
  {
    var a := SemanticVectorRequest(query);
    match search(a)
    case Found(_) => [a]
    case Failed(f) =>
      if IsTierLimitation(f) then
        var b := VectorRequest(query);
        if search(b).Found? then [a, b] else [a, b, TextRequest(query)]
      else
        [a, TextRequest(query)]
  }

  /** The requests issued by one lookup and what it yields: the context text, or the exception of the last tier. */
  datatype Retrieval = Retrieval(requests: seq<SearchRequest>, outcome: Result<string, SearchFailure>)

  /** SearchIndexAsync as a value: a blank query short-circuits, otherwise the last tier's outcome decides. */
  function Retrieve(query: string, search: SearchService): (r: Retrieval)
    ensures IsBlank(query) <==> r.requests == []
    ensures IsBlank(query) ==> r.outcome == Ok(EmptyQueryReply)
    ensures !IsBlank(query) ==> r.requests == Attempts(query, search)
    ensures r.requests != [] && search(r.requests[|r.requests| - 1]).Found? ==>
      r.outcome == Ok(ResultsText(search(r.requests[|r.requests| - 1]).results))
    ensures r.requests != [] ==> r.outcome.Err? == search(r.requests[|r.requests| - 1]).Failed?
    ensures r.outcome.Err? ==> r.outcome.error == search(r.requests[|r.requests| - 1]).failure
    ensures r.outcome.Ok? ==> !IsBlank(r.outcome.value)
  {
    if IsBlank(query) then
      EndsVisible(EmptyQueryReply);
      Retrieval([], Ok(EmptyQueryReply))
    else
      var rs := Attempts(query, search);
      match search(rs[|rs| - 1])
      case Found(docs) => Retrieval(rs, Ok(ResultsText(docs)))
      case Failed(f) => Retrieval(rs, Err(f))
  }

  /** A field's text, or "N/A" when it is missing or null. */
  function FieldOrMissing(field: Option<string>): string {
    match field
    case Some(text) => text
    case None => MissingField
  }

  /** StringBuilder.AppendLine: the text followed by a line terminator. */
  function Line(text: string): string {
    text + NewLine
  }

  /** The three lines appended for one document. */
  function FormatBlock(d: Document): string {
    Line("Title: " + FieldOrMissing(d.title)) + Line("Content: " + FieldOrMissing(d.chunk)) + Line("---")
  }

  /** The blocks of all documents, in result order. */
  function FormatResults(docs: seq<Document>): string {
    if docs == [] then "" else FormatBlock(docs[0]) + FormatResults(docs[1..])
  }

  /** The context text for the documents of the succeeding tier. */
  function ResultsText(docs: seq<Document>): (s: string)
    ensures s == NoResultsReply <==> docs == []
    ensures !IsBlank(s)
  {
    if docs == [] then
      EndsVisible(NoResultsReply);
      NoResultsReply
    else
      StartsWithTitle(docs);
      EndsWithNewLine(docs);
      StartsVisible(FormatResults(docs));
      FormatResults(docs)
  }

  /** A document with neither a title nor a chunk prints "N/A" for both. */
  lemma MissingFieldsPrintAsNA()
    ensures FormatBlock(Document(None, None)) == "Title: N/A\nContent: N/A\n---\n"
  {
  }

  lemma StartsWithTitle(docs: seq<Document>)
    requires docs != []
    ensures |FormatResults(docs)| > 0 && FormatResults(docs)[0] == 'T'
  {
    var b := FormatBlock(docs[0]);
    var first := "Title: " + FieldOrMissing(docs[0].title);
    assert first[0] == 'T';
    assert Line(first)[0] == 'T';
    assert b[0] == 'T';
    assert FormatResults(docs)[0] == b[0];
  }

  lemma EndsWithNewLine(docs: seq<Document>)
    requires docs != []
    ensures |FormatResults(docs)| > 0 && FormatResults(docs)[|FormatResults(docs)| - 1] == '\n'
  {
    var n := |docs|;
    assert docs == docs[..n - 1] + [docs[n - 1]];
    FormatResultsAppend(docs[..n - 1], docs[n - 1]);
    var b := FormatBlock(docs[n - 1]);
    assert b[|b| - 1] == Line("---")[3] == '\n';
  }

  /** Appending a document appends its block: the loop in SearchIndex builds FormatResults. */
  lemma {:induction false} FormatResultsAppend(docs: seq<Document>, d: Document)
    ensures FormatResults(docs + [d]) == FormatResults(docs) + FormatBlock(d)
  {
    if docs == [] {
      assert docs + [d] == [d];
    } else {
      assert (docs + [d])[1..] == docs[1..] + [d];
      FormatResultsAppend(docs[1..], d);
    }
  }

  lemma {:induction false} FormatResultsSplit(a: seq<Document>, b: seq<Document>)
    ensures FormatResults(a + b) == FormatResults(a) + FormatResults(b)
  {
    if a == [] {
      assert a + b == b;
    } else {
      assert (a + b)[1..] == a[1..] + b;
      FormatResultsSplit(a[1..], b);
    }
  }

  /** The i-th document's block stands after the blocks of the documents before it and before those after it. */
  lemma BlockInOrder(docs: seq<Document>, i: nat)
    requires i < |docs|
    ensures FormatResults(docs) == FormatResults(docs[..i]) + FormatBlock(docs[i]) + FormatResults(docs[i + 1..])
  {
    var front := docs[..i] + [docs[i]];
    SplitAround(docs, i);
    FormatResultsSplit(front, docs[i + 1..]);
    FormatResultsAppend(docs[..i], docs[i]);
  }

  lemma SplitAround<T>(s: seq<T>, i: nat)
    requires i < |s|
    ensures s == s[..i] + [s[i]] + s[i + 1..]
  {
  }

  /** No field of any document spans more than one line. */
  predicate SingleLineFields(docs: seq<Document>) {
    forall d :: d in docs ==> '\n' !in FieldOrMissing(d.title) && '\n' !in FieldOrMissing(d.chunk)
  }

  /** A line without an embedded line break counts as one line. */
  lemma LineCount(text: string)
    requires '\n' !in text
    ensures CountChar(Line(text), '\n') == 1
  {
    CountCharAppend(text, NewLine, '\n');
    CountCharAbsent(text, '\n');
  }

  lemma BlockLines(d: Document)
    requires '\n' !in FieldOrMissing(d.title) && '\n' !in FieldOrMissing(d.chunk)
    ensures CountChar(FormatBlock(d), '\n') == 3
  {
    var title, content := "Title: " + FieldOrMissing(d.title), "Content: " + FieldOrMissing(d.chunk);
    assert '\n' !in "Title: " && '\n' !in "Content: " && '\n' !in "---";
    LineCount(title);
    LineCount(content);
    LineCount("---");
    CountCharAppend(Line(title) + Line(content), Line("---"), '\n');
    CountCharAppend(Line(title), Line(content), '\n');
  }

  /** N documents with single-line fields give exactly 3N lines: N blocks of three. */
  lemma {:induction false} FormatResultsLines(docs: seq<Document>)
    requires SingleLineFields(docs)
    ensures CountChar(FormatResults(docs), '\n') == 3 * |docs|
  {
    if docs != [] {
      assert docs[0] in docs;
      BlockLines(docs[0]);
      assert SingleLineFields(docs[1..]) by {
        forall d | d in docs[1..] ensures d in docs { }
      }
      FormatResultsLines(docs[1..]);
      CountCharAppend(FormatBlock(docs[0]), FormatResults(docs[1..]), '\n');
    }
  }

  /**
   * SearchIndexAsync: try the tiers in turn, reassigning the options and the response, then
   * append three lines per document. A failure of the last tier tried escapes as Err.
   */
  method SearchIndex(query: string, search: SearchService)
    returns (result: Result<string, SearchFailure>, attempted: seq<SearchRequest>)
    ensures Retrieval(attempted, result) == Retrieve(query, search)
    ensures IsBlank(query) ==> attempted == [] && result == Ok(EmptyQueryReply)
  {
    if IsBlank(query) {
      return Ok(EmptyQueryReply), [];
    }
    var options := SemanticVectorRequest(query);
    attempted := [options];
    var response := search(options);
    if response.Failed? {
      if IsTierLimitation(response.failure) {
        options := VectorRequest(query);
        attempted := attempted + [options];
        response := search(options);
        if response.Failed? {
          options := TextRequest(query);
          attempted := attempted + [options];
          response := search(options);
        }
      } else {
        options := TextRequest(query);
        attempted := attempted + [options];
        response := search(options);
      }
    }
    if response.Failed? {
      return Err(response.failure), attempted;
    }

    var text := FormatSearchResults(response.results);
    result := Ok(text);
  }

  /** The result loop of SearchIndexAsync: three AppendLine calls per document, or the sentinel when there are none. */
  method FormatSearchResults(docs: seq<Document>) returns (text: string)
    ensures text == ResultsText(docs)
  {
    var builder := "";
    var foundResults := false;
    for i := 0 to |docs|
      invariant builder == FormatResults(docs[..i])
      invariant foundResults == (i > 0)
    {
      foundResults := true;
      var title := FieldOrMissing(docs[i].title);
      var chunk := FieldOrMissing(docs[i].chunk);
      builder := builder + Line("Title: " + title);
      builder := builder + Line("Content: " + chunk);
      builder := builder + Line("---");
      FormatResultsAppend(docs[..i], docs[i]);
      assert docs[..i + 1] == docs[..i] + [docs[i]];
    }
    assert docs[..|docs|] == docs;
    if !foundResults {
      text := NoResultsReply;
    } else {
      text := builder;
    }
  }

  /** Tier A reports a tier limitation and tier B returns documents: their blocks are the context, and tier C is never reached. */
  lemma VectorFallbackSucceeds(query: string, search: SearchService, docs: seq<Document>)
    requires !IsBlank(query)
    requires search(SemanticVectorRequest(query)).Failed?
    requires IsTierLimitation(search(SemanticVectorRequest(query)).failure)
    requires search(VectorRequest(query)) == Found(docs) && docs != []
    ensures Retrieve(query, search).requests == [SemanticVectorRequest(query), VectorRequest(query)]
    ensures Retrieve(query, search).outcome == Ok(FormatResults(docs))
  {
    var a, b := SemanticVectorRequest(query), VectorRequest(query);
    assert Attempts(query, search) == [a, b];
    assert ResultsText(docs) == FormatResults(docs);
  }

  /** Tier A reports a tier limitation and tier B fails too: tier C runs once and its outcome, sentinel included, is returned. */
  lemma TextFallbackDecides(query: string, search: SearchService)
    requires !IsBlank(query)
    requires search(SemanticVectorRequest(query)).Failed?
    requires IsTierLimitation(search(SemanticVectorRequest(query)).failure)
    requires search(VectorRequest(query)).Failed?
    ensures Retrieve(query, search).requests == [SemanticVectorRequest(query), VectorRequest(query), TextRequest(query)]
    ensures Retrieve(query, search).outcome ==
      match search(TextRequest(query))
      case Found(docs) => Ok(ResultsText(docs))
      case Failed(f) => Err(f)
  {
  }
}
