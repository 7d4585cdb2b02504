/**
 * The retrieval side of the chat service: the routing retriever over the jobs and
 * policies collections, passage formatting, chat-history conversion, the standalone
 * question step and the answer stream of `process_query_stream`. The router, the
 * vector ranking, the condensing LLM and the answering LLM are parameters.
 */
module RagService {
  import opened Wrappers
  import opened Text
  import opened Documents
  import opened VectorStore
  import opened Sequences
  import AnswerStream

  // ---------------------------------------------------------------- routing retriever

  /** A retriever: the documents it returns for a query. */
  type Retriever = string -> seq<Document>

  /** One `name: retriever` entry of the `retrievers` dictionary, in insertion order. */
  datatype Entry = Entry(name: string, retriever: Retriever)

  type Registry = seq<Entry>

  /** The dictionary's keys are distinct. */
  predicate DistinctNames(reg: Registry)
  {
    forall i, j :: 0 <= i < j < |reg| ==> reg[i].name != reg[j].name
  }

  /** `self.retrievers[name]`, if the key is present. */
  function Lookup(reg: Registry, name: string): (r: Option<Retriever>)
    ensures r.Some? <==> exists i :: 0 <= i < |reg| && reg[i].name == name
    ensures r.Some? ==> exists i :: 0 <= i < |reg| && reg[i].name == name && reg[i].retriever == r.value
    decreases |reg|
  {
    if |reg| == 0 then None
    else if reg[0].name == name then Some(reg[0].retriever)
    else
      var r := Lookup(reg[1..], name);
      assert r.Some? ==> exists i :: 0 <= i < |reg| && reg[i].name == name && reg[i].retriever == r.value by {
        if r.Some? {
          var i :| 0 <= i < |reg[1..]| && reg[1..][i].name == name && reg[1..][i].retriever == r.value;
          assert reg[i + 1] == reg[1..][i];
        }
      }
      assert (exists i :: 0 <= i < |reg| && reg[i].name == name) ==> r.Some? by {
        if exists i :: 0 <= i < |reg| && reg[i].name == name {
          var i :| 0 <= i < |reg| && reg[i].name == name;
          assert i > 0;
          assert reg[1..][i - 1].name == name;
        }
      }
      r
  }

  /** `doc.metadata["source_retriever"] = name`. */
  function Tag(d: Document, name: string): (r: Document)
    ensures r.pageContent == d.pageContent
    ensures "source_retriever" in r.metadata && r.metadata["source_retriever"] == Str(name)
    ensures forall k :: k in d.metadata && k != "source_retriever" ==> k in r.metadata && r.metadata[k] == d.metadata[k]
    ensures forall k :: k in r.metadata ==> k in d.metadata || k == "source_retriever"
  {
    Document(d.pageContent, d.metadata["source_retriever" := Str(name)])
  }

  /** Every document of `docs` tagged with `name`, in order. */
  function TagAll(docs: seq<Document>, name: string): (r: seq<Document>)
    ensures |r| == |docs|
    ensures forall i :: 0 <= i < |docs| ==> r[i] == Tag(docs[i], name)
  {
    seq(|docs|, i requires 0 <= i < |docs| => Tag(docs[i], name))
  }

  /** Whether a router output picks a registered retriever: a non-empty name that is a key. */
  predicate Routed(reg: Registry, destination: Option<string>)
  {
    destination.Some? && destination.value != "" && Lookup(reg, destination.value).Some?
  }

  /** The fallback: every retriever queried in registry order, each result tagged with its name. */
  function FanOut(reg: Registry, query: string): seq<Document>
    decreases |reg|
  {
    if |reg| == 0 then []
    else
      var last := reg[|reg| - 1];
      FanOut(reg[..|reg| - 1], query) + TagAll(last.retriever(query), last.name)
  }

  /** What `_get_relevant_documents` (and its async twin) return for a router output. */
  function RelevantDocuments(reg: Registry, destination: Option<string>, query: string): seq<Document>
  {
    if Routed(reg, destination) then
      TagAll(Lookup(reg, destination.value).value(query), destination.value)
    else FanOut(reg, query)
  }

  /**
   * `MultiSourceRetriever._get_relevant_documents` and `_aget_relevant_documents`: the
   * two differ only in awaiting the router and the retrievers, so they are one method.
   */
  method GetRelevantDocuments(reg: Registry, destination: Option<string>, query: string) returns (docs: seq<Document>)
    ensures docs == RelevantDocuments(reg, destination, query)
  {
    if destination.Some? && destination.value != "" && Lookup(reg, destination.value).Some? {
      var chosen := Lookup(reg, destination.value).value;
      docs := TagEach(chosen(query), destination.value);
      return;
    }
    var allDocs := [];
    for i := 0 to |reg|
      invariant allDocs == FanOut(reg[..i], query)
    {
      var tagged := TagEach(reg[i].retriever(query), reg[i].name);
      assert reg[..i + 1][..i] == reg[..i];
      allDocs := allDocs + tagged;
    }
    assert reg[..|reg|] == reg;
    docs := allDocs;
  }

  /** `for doc in docs: doc.metadata["source_retriever"] = name`. */
  method TagEach(docs: seq<Document>, name: string) returns (tagged: seq<Document>)
    ensures tagged == TagAll(docs, name)
  {
    tagged := docs;
    for j := 0 to |docs|
      invariant |tagged| == |docs|
      invariant forall k :: 0 <= k < j ==> tagged[k] == Tag(docs[k], name)
      invariant forall k :: j <= k < |docs| ==> tagged[k] == docs[k]
    {
      tagged := tagged[j := Tag(docs[j], name)];
    }
  }

  /**
   * A routed query returns exactly the chosen retriever's documents, in its order,
   * each tagged with the destination.
   */
  lemma RoutedResult(reg: Registry, destination: Option<string>, query: string)
    requires Routed(reg, destination)
    ensures exists i :: (0 <= i < |reg| && reg[i].name == destination.value &&
      RelevantDocuments(reg, destination, query) == TagAll(reg[i].retriever(query), destination.value))
  {
  }

  /** A missing, empty or unregistered destination falls back to querying every retriever. */
  lemma FallbackResult(reg: Registry, destination: Option<string>, query: string)
    requires !Routed(reg, destination)
    ensures RelevantDocuments(reg, destination, query) == FanOut(reg, query)
    ensures destination.Some? && destination.value != "" ==>
      forall i :: 0 <= i < |reg| ==> reg[i].name != destination.value
  {
  }

  /** With distinct keys a routed query uses the one retriever registered under the destination. */
  lemma RoutedToRegisteredRetriever(reg: Registry, i: nat, query: string)
    requires DistinctNames(reg)
    requires i < |reg| && reg[i].name != ""
    ensures RelevantDocuments(reg, Some(reg[i].name), query) == TagAll(reg[i].retriever(query), reg[i].name)
  {
    var r := Lookup(reg, reg[i].name);
    var j :| 0 <= j < |reg| && reg[j].name == reg[i].name && reg[j].retriever == r.value;
    assert i == j;
  }

  /** The fallback of a registry split in two is the fallback of each part, in order. */
  lemma {:induction false} FanOutConcat(a: Registry, b: Registry, query: string)
    ensures FanOut(a + b, query) == FanOut(a, query) + FanOut(b, query)
    decreases |b|
  {
    if |b| == 0 {
      assert a + b == a;
    } else {
      var b' := b[..|b| - 1];
      var last := b[|b| - 1];
      var block := TagAll(last.retriever(query), last.name);
      assert (a + b)[..|a + b| - 1] == a + b';
      assert (a + b)[|a + b| - 1] == last;
      FanOutConcat(a, b', query);
      calc {
        FanOut(a + b, query);
        FanOut(a + b', query) + block;
        (FanOut(a, query) + FanOut(b', query)) + block;
        FanOut(a, query) + (FanOut(b', query) + block);
        FanOut(a, query) + FanOut(b, query);
      }
    }
  }

  /** The total number of documents the retrievers of a registry return. */
  function TotalReturned(reg: Registry, query: string): nat
    decreases |reg|
  {
    if |reg| == 0 then 0 else TotalReturned(reg[..|reg| - 1], query) + |reg[|reg| - 1].retriever(query)|
  }

  /**
   * The fallback returns as many documents as all retrievers together, and each one is
   * a document of some retriever, tagged with that retriever's name.
   */
  lemma {:induction false} FanOutShape(reg: Registry, query: string)
    ensures |FanOut(reg, query)| == TotalReturned(reg, query)
    ensures forall d :: d in FanOut(reg, query) ==>
      exists i, k :: 0 <= i < |reg| && 0 <= k < |reg[i].retriever(query)| && d == Tag(reg[i].retriever(query)[k], reg[i].name)
    decreases |reg|
  {
    if |reg| > 0 {
      var init := reg[..|reg| - 1];
      var last := reg[|reg| - 1];
      FanOutShape(init, query);
      forall d | d in FanOut(reg, query)
        ensures exists i, k :: 0 <= i < |reg| && 0 <= k < |reg[i].retriever(query)| && d == Tag(reg[i].retriever(query)[k], reg[i].name)
      {
        if d in FanOut(init, query) {
          var i, k :| 0 <= i < |init| && 0 <= k < |init[i].retriever(query)| && d == Tag(init[i].retriever(query)[k], init[i].name);
          assert reg[i] == init[i];
        } else {
          var tagged := TagAll(last.retriever(query), last.name);
          assert d in tagged;
          var k :| 0 <= k < |tagged| && tagged[k] == d;
          assert reg[|reg| - 1] == last;
        }
      }
    }
  }

  /** The fallback puts each retriever's block after the blocks of the retrievers before it. */
  lemma FanOutTwo(e1: Entry, e2: Entry, query: string)
    ensures FanOut([e1, e2], query) == TagAll(e1.retriever(query), e1.name) + TagAll(e2.retriever(query), e2.name)
  {
    assert [e1, e2][..1] == [e1];
    assert [e1][..0] == [];
    assert FanOut([e1], query) == [] + TagAll(e1.retriever(query), e1.name);
  }

  // ---------------------------------------------------------------- retriever configuration

  /** `{"deadline": {"$gte": now}}`: the jobs retriever's pre-filter. */
  function ActiveQuery(now: int): Query
  {
    FieldGte("deadline", now)
  }

  /** The vector-search settings of one retriever. */
  datatype SearchConfig = SearchConfig(collection: string, indexName: string, k: nat, preFilter: Option<Query>)

  /** The jobs retriever at instant `now`. */
  function JobsSearchConfig(now: int): SearchConfig
  {
    SearchConfig("jobs_vector", "jobs_vector_index", 10, Some(ActiveQuery(now)))
  }

  /** The policies retriever. */
  const PoliciesSearchConfig: SearchConfig := SearchConfig("policies_vector", "policies_vector_index", 3, None)

  /**
   * The similarity ranking of the vector index: the candidates for a query, most
   * similar first. Only its output order matters here.
   */
  type Ranker = (string, seq<Document>) -> seq<Document>

  /** The first `n` elements of `xs` (all of them when there are fewer). */
  function Take<T>(xs: seq<T>, n: nat): (r: seq<T>)
    ensures |r| <= n && |r| <= |xs|
    ensures r == xs[..|r|]
    ensures |xs| >= n ==> |r| == n
  {
    if |xs| <= n then xs else xs[..n]
  }

  /** The documents that pass a search's pre-filter. */
  function Candidates(docs: seq<Document>, cfg: SearchConfig): seq<Document>
  {
    if cfg.preFilter.Some? then Select(docs, cfg.preFilter.value) else docs
  }

  /**
   * A vector search: the top `k` candidates by the ranking. Anything the ranking returns
   * that is not a candidate is discarded.
   */
  function Search(docs: seq<Document>, cfg: SearchConfig, rank: Ranker, query: string): seq<Document>
  {
    var candidates := Candidates(docs, cfg);
    Take(Keep(rank(query, candidates), d => d in candidates), cfg.k)
  }

  /** At most `k` results, each a stored document that passes the pre-filter. */
  lemma SearchBounds(docs: seq<Document>, cfg: SearchConfig, rank: Ranker, query: string)
    ensures |Search(docs, cfg, rank, query)| <= cfg.k
    ensures forall d :: d in Search(docs, cfg, rank, query) ==>
      d in docs && (cfg.preFilter.Some? ==> Matches(cfg.preFilter.value, d))
  {
    var candidates := Candidates(docs, cfg);
    var kept := Keep(rank(query, candidates), d => d in candidates);
    KeepMembers(rank(query, candidates), d => d in candidates);
    forall d | d in Search(docs, cfg, rank, query)
      ensures d in docs && (cfg.preFilter.Some? ==> Matches(cfg.preFilter.value, d))
    {
      assert d in kept;
    }
  }

  /** The candidate the ranking puts first is returned first, whenever the search has room. */
  lemma SearchReturnsTopCandidate(docs: seq<Document>, cfg: SearchConfig, rank: Ranker, query: string)
    requires cfg.k > 0
    requires |rank(query, Candidates(docs, cfg))| > 0
    requires rank(query, Candidates(docs, cfg))[0] in Candidates(docs, cfg)
    ensures |Search(docs, cfg, rank, query)| > 0
    ensures Search(docs, cfg, rank, query)[0] == rank(query, Candidates(docs, cfg))[0]
  {
  }

  /** `get_retriever()` at instant `now`: the registry `recruitment`, then `company_policies`. */
  function GetRetriever(jobs: seq<Document>, policies: seq<Document>, now: int, rank: Ranker): (reg: Registry)
    ensures |reg| == 2 && DistinctNames(reg)
    ensures reg[0].name == "recruitment" && reg[1].name == "company_policies"
  {
    [
      Entry("recruitment", q => Search(jobs, JobsSearchConfig(now), rank, q)),
      Entry("company_policies", q => Search(policies, PoliciesSearchConfig, rank, q))
    ]
  }

  /**
   * The jobs retriever returns at most 10 stored job chunks, each with a deadline at or
   * after `now`; a chunk without a deadline or with a past one is never returned.
   */
  lemma JobsRetrieverOnlyActive(jobs: seq<Document>, policies: seq<Document>, now: int, rank: Ranker, query: string)
    ensures |GetRetriever(jobs, policies, now, rank)[0].retriever(query)| <= 10
    ensures forall d :: d in GetRetriever(jobs, policies, now, rank)[0].retriever(query) ==>
      d in jobs && "deadline" in d.metadata && d.metadata["deadline"].Int? && d.metadata["deadline"].i >= now
  {
    SearchBounds(jobs, JobsSearchConfig(now), rank, query);
  }

  /**
   * The policies retriever returns at most 3 stored policy chunks and applies no
   * filter: the chunk ranked first is returned whatever its metadata.
   */
  lemma PoliciesRetrieverUnfiltered(jobs: seq<Document>, policies: seq<Document>, now: int, rank: Ranker, query: string)
    ensures |GetRetriever(jobs, policies, now, rank)[1].retriever(query)| <= 3
    ensures forall d :: d in GetRetriever(jobs, policies, now, rank)[1].retriever(query) ==> d in policies
    ensures |rank(query, policies)| > 0 && rank(query, policies)[0] in policies ==>
      GetRetriever(jobs, policies, now, rank)[1].retriever(query)[0] == rank(query, policies)[0]
  {
    SearchBounds(policies, PoliciesSearchConfig, rank, query);
    if |rank(query, policies)| > 0 && rank(query, policies)[0] in policies {
      SearchReturnsTopCandidate(policies, PoliciesSearchConfig, rank, query);
    }
  }

  /**
   * Over the registry `get_retriever` builds: a query routed to `recruitment` or to
   * `company_policies` returns that retriever's search results tagged with its name, and
   * any other router output returns the tagged job results followed by the tagged
   * policy results.
   */
  lemma RegistryRetrieval(jobs: seq<Document>, policies: seq<Document>, now: int, rank: Ranker,
                          destination: Option<string>, query: string)
    ensures destination == Some("recruitment") ==>
      RelevantDocuments(GetRetriever(jobs, policies, now, rank), destination, query) ==
      TagAll(Search(jobs, JobsSearchConfig(now), rank, query), "recruitment")
    ensures destination == Some("company_policies") ==>
      RelevantDocuments(GetRetriever(jobs, policies, now, rank), destination, query) ==
      TagAll(Search(policies, PoliciesSearchConfig, rank, query), "company_policies")
    ensures !Routed(GetRetriever(jobs, policies, now, rank), destination) ==>
      RelevantDocuments(GetRetriever(jobs, policies, now, rank), destination, query) ==
      TagAll(Search(jobs, JobsSearchConfig(now), rank, query), "recruitment") +
      TagAll(Search(policies, PoliciesSearchConfig, rank, query), "company_policies")
  {
    var reg := GetRetriever(jobs, policies, now, rank);
    assert reg == [reg[0], reg[1]];
    FanOutTwo(reg[0], reg[1], query);
    assert reg[1..] == [reg[1]];
    assert Lookup(reg, "recruitment") == Some(reg[0].retriever);
    assert Lookup(reg, "company_policies") == Some(reg[1].retriever);
  }

  // ---------------------------------------------------------------- passages and history

  /** The page contents of `docs`, in order. */
  function PageContents(docs: seq<Document>): (r: seq<string>)
    ensures |r| == |docs|
    ensures forall i :: 0 <= i < |docs| ==> r[i] == docs[i].pageContent
  {
    seq(|docs|, i requires 0 <= i < |docs| => docs[i].pageContent)
  }

  /** `format_docs`. */
  function FormatDocs(docs: seq<Document>): string
  {
    Join(PageContents(docs), "\n\n")
  }

  /**
   * No documents give the empty context, one document gives its page content, and the
   * passages of two lists are separated by one blank line.
   */
  lemma FormatDocsShape(a: seq<Document>, b: seq<Document>)
    ensures FormatDocs([]) == ""
    ensures |a| == 1 ==> FormatDocs(a) == a[0].pageContent
    ensures |a| > 0 && |b| > 0 ==> FormatDocs(a + b) == FormatDocs(a) + "\n\n" + FormatDocs(b)
  {
    if |a| > 0 && |b| > 0 {
      assert PageContents(a + b) == PageContents(a) + PageContents(b);
      JoinConcat(PageContents(a), PageContents(b), "\n\n");
    }
  }

  /** The context's length: every passage once and a blank line between neighbours. */
  lemma FormatDocsLength(docs: seq<Document>)
    requires |docs| > 0
    ensures |FormatDocs(docs)| == TotalLength(PageContents(docs)) + 2 * (|docs| - 1)
  {
    JoinLength(PageContents(docs), "\n\n");
  }

  /** The `ChatMessage` schema. */
  datatype ChatMessage = ChatMessage(role: string, content: string)

  /** LangChain's `HumanMessage` and `AIMessage`. */
  datatype BaseMessage = HumanMessage(content: string) | AIMessage(content: string)

  /** The roles `_format_chat_history` keeps. */
  predicate Conversational(m: ChatMessage)
  {
    m.role == "user" || m.role == "assistant"
  }

  /** The message a kept chat message becomes: `user` is human, `assistant` is AI. */
  function ToBaseMessage(m: ChatMessage): (r: BaseMessage)
    ensures r.content == m.content
    ensures r.HumanMessage? <==> m.role == "user"
  {
    if m.role == "user" then HumanMessage(m.content) else AIMessage(m.content)
  }

  /** The buffer `_format_chat_history` builds from a history. */
  function FormattedHistory(history: seq<ChatMessage>): seq<BaseMessage>
    decreases |history|
  {
    if |history| == 0 then []
    else
      var m := history[|history| - 1];
      FormattedHistory(history[..|history| - 1]) + (if Conversational(m) then [ToBaseMessage(m)] else [])
  }

  /** `_format_chat_history`. */
  method FormatChatHistory(history: seq<ChatMessage>) returns (buffer: seq<BaseMessage>)
    ensures buffer == FormattedHistory(history)
  {
    buffer := [];
    for i := 0 to |history|
      invariant buffer == FormattedHistory(history[..i])
    {
      var msg := history[i];
      assert history[..i + 1][..i] == history[..i];
      if msg.role == "user" {
        buffer := buffer + [HumanMessage(msg.content)];
      } else if msg.role == "assistant" {
        buffer := buffer + [AIMessage(msg.content)];
      }
    }
    assert history[..|history|] == history;
  }

  /** The conversion of a history split in two is the conversion of each part, in order. */
  lemma {:induction false} FormattedHistoryConcat(a: seq<ChatMessage>, b: seq<ChatMessage>)
    ensures FormattedHistory(a + b) == FormattedHistory(a) + FormattedHistory(b)
    decreases |b|
  {
    if |b| == 0 {
      assert a + b == a;
    } else {
      var b' := b[..|b| - 1];
      assert (a + b)[..|a + b| - 1] == a + b';
      FormattedHistoryConcat(a, b');
    }
  }

  /**
   * The conversion keeps exactly the user and assistant messages, in order, as human and
   * AI messages with the same content: it is the list comprehension
   * `[ToBaseMessage(m) for m in history if Conversational(m)]`.
   */
  lemma {:induction false} FormattedHistoryIsFilterThenMap(history: seq<ChatMessage>)
    ensures FormattedHistory(history) == MapSeq(Keep(history, Conversational), ToBaseMessage)
    ensures |FormattedHistory(history)| <= |history|
    decreases |history|
  {
    KeepMembers(history, Conversational);
    if |history| > 0 {
      var init := history[..|history| - 1];
      var m := history[|history| - 1];
      FormattedHistoryIsFilterThenMap(init);
      assert history == init + [m];
      KeepConcat(init, [m], Conversational);
      assert Keep([m], Conversational) == if Conversational(m) then [m] else [] by {
        assert [m][1..] == [];
      }
      MapSeqConcat(Keep(init, Conversational), Keep([m], Conversational), ToBaseMessage);
    }
  }

  /** Every converted message is the human or AI form of a kept message, and the roles map one to one. */
  lemma FormattedHistoryRoles(history: seq<ChatMessage>)
    ensures forall b :: b in FormattedHistory(history) ==>
      exists m :: m in history && Conversational(m) && ToBaseMessage(m) == b
    ensures forall m :: m in history && Conversational(m) ==> ToBaseMessage(m) in FormattedHistory(history)
    ensures FormattedHistory(history) == [] <==> forall m :: m in history ==> !Conversational(m)
  {
    FormattedHistoryIsFilterThenMap(history);
    var kept := Keep(history, Conversational);
    KeepMembers(history, Conversational);
    forall b | b in FormattedHistory(history)
      ensures exists m :: m in history && Conversational(m) && ToBaseMessage(m) == b
    {
      var k :| 0 <= k < |kept| && MapSeq(kept, ToBaseMessage)[k] == b;
      assert kept[k] in kept;
    }
    forall m | m in history && Conversational(m) ensures ToBaseMessage(m) in FormattedHistory(history) {
      assert m in kept;
      var k :| 0 <= k < |kept| && kept[k] == m;
      assert MapSeq(kept, ToBaseMessage)[k] == ToBaseMessage(m);
    }
    if FormattedHistory(history) != [] {
      var b := FormattedHistory(history)[0];
      assert b in FormattedHistory(history);
    }
  }

  /** The LLM chain that rewrites a question, given the formatted history, as a standalone one. */
  type Condenser = (string, seq<BaseMessage>) -> string

  /** The history branch of `process_query_stream`: the question used for retrieval and answering. */
  function StandaloneQuestion(query: string, history: seq<ChatMessage>, condense: Condenser): string
  {
    if |history| == 0 then query else condense(query, FormattedHistory(history))
  }

  /**
   * With an empty history the question is the input query whatever the condenser
   * would say (so it is never called); with a non-empty history the condenser is asked,
   * even when no message of the history has a user or assistant role.
   */
  lemma StandaloneQuestionBranch(query: string, history: seq<ChatMessage>, condense: Condenser)
    ensures history == [] ==> StandaloneQuestion(query, history, condense) == query
    ensures history == [] ==> forall c: Condenser :: StandaloneQuestion(query, history, c) == StandaloneQuestion(query, history, condense)
    ensures history != [] ==> StandaloneQuestion(query, history, condense) == condense(query, FormattedHistory(history))
  {
  }

  // ---------------------------------------------------------------- the answer stream

  /** The router chain: the `destination` it parses out of the LLM's output, if any. */
  type Router = string -> Option<string>

  /** The answering chain: the fragments it streams for a context and a question. */
  type Generator = (string, string) -> seq<string>

  /** The collaborators and the state `process_query_stream` reads. */
  datatype Environment = Environment(
    jobs: seq<Document>,
    policies: seq<Document>,
    now: int,
    rank: Ranker,
    route: Router,
    condense: Condenser,
    generate: Generator)

  /** The question `process_query_stream` retrieves and answers for. */
  function InputQuery(env: Environment, query: string, history: seq<ChatMessage>): string
  {
    StandaloneQuestion(query, history, env.condense)
  }

  /** The documents retrieved once for the turn. */
  function RetrievedDocuments(env: Environment, query: string, history: seq<ChatMessage>): seq<Document>
  {
    var input := InputQuery(env, query, history);
    RelevantDocuments(GetRetriever(env.jobs, env.policies, env.now, env.rank), env.route(input), input)
  }

  /** The fragments the answering chain streams for the turn. */
  function Fragments(env: Environment, query: string, history: seq<ChatMessage>): seq<string>
  {
    var input := InputQuery(env, query, history);
    env.generate(FormatDocs(RetrievedDocuments(env, query, history)), input)
  }

  /** `process_query_stream`: the server-sent-event packets it yields, in order. */
  function ProcessQueryStream(env: Environment, query: string, history: seq<ChatMessage>): (packets: seq<string>)
    ensures |packets| == |Fragments(env, query, history)|
    ensures forall i :: 0 <= i < |packets| ==> packets[i] == AnswerStream.AnswerPacket(Fragments(env, query, history)[i])
  {
    var fragments := Fragments(env, query, history);
    seq(|fragments|, i requires 0 <= i < |fragments| => AnswerStream.AnswerPacket(fragments[i]))
  }

  /**
   * A client reading the yielded packets back gets the generator's fragments, one per
   * packet and in order; with an empty history they answer the input query itself.
   */
  lemma StreamCarriesFragments(env: Environment, query: string, history: seq<ChatMessage>)
    ensures AnswerStream.ParseStream(AnswerStream.Concat(ProcessQueryStream(env, query, history))) == Some(Fragments(env, query, history))
    ensures history == [] ==> Fragments(env, query, history) == env.generate(FormatDocs(RetrievedDocuments(env, query, history)), query)
  {
    var fragments := Fragments(env, query, history);
    assert ProcessQueryStream(env, query, history) == AnswerStream.Packets(fragments);
    AnswerStream.StreamRoundTrip(fragments);
  }
}
