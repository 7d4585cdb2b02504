# CareerZone chatbot: index synchronisation, retrieval and loading, in Dafny

This project models the data-handling core of the CareerZone RAG chatbot and proves
properties of it.

- **Index synchronisation.** A Kafka worker keeps the `jobs_vector` collection in step
  with job postings.
  - A `JOB_CREATED` or `JOB_UPDATED` event deletes every chunk of the job, then inserts
    freshly prepared chunks.
  - A `JOB_DELETED` event deletes every chunk of the job.
  - Any other event, and any message that fails validation, is skipped.
  - A record whose value cannot be decoded ends the consumer.
  - The prepared chunks come from deterministic content and metadata composition.
- **Routing retriever.** The retriever answers a query from the one retriever the router
  names, or from every retriever in registry order. Each returned document is tagged
  with its source.
  - The jobs retriever searches only jobs whose deadline is not past, with k = 10.
  - The policies retriever searches unfiltered, with k = 3.
- **Query pipeline.**
  - Retrieved passages are joined for the answering prompt.
  - The chat history is converted to human/AI messages.
  - A question becomes standalone only when there is history.
  - Each answer fragment is streamed as one server-sent event `data: <json>\n\n`.
- **Expiry cleanup.** Deletes every chunk whose deadline lies before now.
- **Bulk loader.** Fills the policies and jobs collections on a fresh installation. It
  normalises MongoDB Extended JSON values and drops `None` metadata.

Layout: one module per source file, plus shared modules.

- `wrappers.dfy`: `Option`
- `text.dfy`: `Join`, `str(int)`, `str.upper`
- `sequences.dfy`: `Keep`, `MapSeq`, conditional appends
- `documents.dfy`: values, documents, splitting
- `vector_store.dfy`: MongoDB query matching; the `Collection` class with `count_documents`, `delete_many` and `insert`
- `kafka_consumer.dfy`: the index synchronisation worker
- `rag_service.dfy`: routing retriever, retriever configuration, passages, history, question, stream
- `answer_stream.dfy`: JSON string escaping and the server-sent-event framing, with a client-side parser
- `cleanup_expired_jobs.dfy`: the expiry cleanup
- `initial_load.dfy`: the bulk loader

The store is a collection object whose `docs` field, a sequence of documents in
insertion order, the operations update in place. Each state-changing method is tied to
a specification function: `AfterUpsert`, `AfterDelete`, `AfterMessages`, `AfterCleanup`
and `AfterLoadJobs`. The lemmas are proved about those functions.

MongoDB matching is modelled as follows:

- Metadata keys are top-level fields of the stored record.
- Equality with `null` also matches a missing field.
- `$lt` and `$gte` match only a present, comparable value.

Two behaviours of the code are modelled as written:

- **Chunks without a deadline.** The retrieval filter is `{"deadline": {"$gte": now}}`
  (services/rag_service.py:118) and the cleanup filter is `{"deadline": {"$lt": now}}`
  (scripts/cleanup_expired_jobs.py:50-54). Both range operators fail on a missing or
  `null` value.
  - A chunk whose deadline is missing or `null` is therefore never retrieved.
  - The cleanup never deletes it either.
  - `CleanupExpiredJobs.ExpiredIsComplementOfActive` states both halves.
- **Loaded jobs and the consumer.** The bulk loader stores the job id under `jobId`
  (scripts/initial_load.py:122). The consumer deletes by `job_id`
  (workers/kafka_consumer.py:114, 136).
  - Bulk-loaded documents are never matched by a delete or an upsert of the consumer.
  - `InitialLoad.LoadedJobOutsideJobQueries` and `InitialLoad.ConsumerKeepsLoadedJobs`
    state this.

## Model

| member | source | states |
|---|---|---|
| `KafkaConsumer.Content` | workers/kafka_consumer.py:56-78 | definition of the page content: the three header lines, then each optional line whose field is present, joined by newlines |
| `KafkaConsumer.JobMetadata` | workers/kafka_consumer.py:83-95 | definition of the chunk metadata: source `job_posting`, the payload's id under `job_id`, the filterable fields (`null` when absent), the city when the location is non-empty and has one, the deadline instant or `null` |
| `KafkaConsumer.PrepareDocuments` | workers/kafka_consumer.py:50-101 | definition of `_prepare_documents`: one document of content and metadata, split by the splitter into chunks that share the metadata |
| `KafkaConsumer.PresentSectionsOrdered` | workers/kafka_consumer.py:61-76 | a section line appears exactly when its field is present (type-or-work-type for the kind line; both salary bounds non-null for the salary line), each at most once, in the order requirements, benefits, kind, experience, location, skills, salary |
| `KafkaConsumer.ContentPartsShape` | workers/kafka_consumer.py:56-76 | the content parts are the company, title and description lines followed by exactly the present section lines in section order |
| `KafkaConsumer.ContentStartsWithHeader` | workers/kafka_consumer.py:56-78 | the composed content starts with the company, title and description lines, newline-separated, and the optional lines follow after one newline |
| `KafkaConsumer.CompanyLineDefault` | workers/kafka_consumer.py:57 | the company line falls back to "Chưa cập nhật" when the name is absent or empty |
| `KafkaConsumer.JobMetadataFields` | workers/kafka_consumer.py:83-95 | the metadata stores the job id under `job_id`, and the deadline as its instant or `null` when absent |
| `KafkaConsumer.PreparedChunks` | workers/kafka_consumer.py:97-101 | the chunks are the splitter's segments in order, all with the same metadata; each belongs to the payload's job and no other; its deadline compares before/at-or-after an instant exactly as the payload's does; it is `null` exactly when the payload has none |
| `KafkaConsumer.JobQueriesDisjoint` | workers/kafka_consumer.py:114 | a chunk belongs to at most one job id |
| `KafkaConsumer.ReplaceChunks` | workers/kafka_consumer.py:112-129 | deleting a job's chunks and appending new chunks of that job leaves exactly the new chunks for it and every other job's chunks unchanged, in order |
| `KafkaConsumer.Written` | workers/kafka_consumer.py:118-129 | an in-order write that ends with an outcome leaves a prefix of the batch: the whole batch on success, exactly the first `n` documents on a raise after `n` of them, nothing on a raise before the first |
| `KafkaConsumer.PreparedBelongToJob` | workers/kafka_consumer.py:97-101 | every prepared chunk matches the payload's `{"job_id": id}` query |
| `KafkaConsumer.UpsertedChunks` | workers/kafka_consumer.py:118-129 | what an upsert leaves for its job is always a prefix of the prepared chunks: all of them after a successful insert, exactly the first `n` when the insert raises after writing `n` of them, none when it raises before writing any |
| `KafkaConsumer.UpsertEffect` | workers/kafka_consumer.py:104-130 | after an upsert the job's chunks are `UpsertedChunks` (the prepared ones, or the part written before a raise), what remains besides them is the store the delete leaves, and other jobs' chunks are unchanged |
| `KafkaConsumer.UpsertReplacesChunks` | workers/kafka_consumer.py:104-130 | after a successful upsert the job's chunks are exactly those prepared from the payload; other ids are untouched |
| `KafkaConsumer.UpsertIdempotent` | workers/kafka_consumer.py:114 | the same successful upsert applied twice leaves the store it leaves once |
| `KafkaConsumer.UpsertLastWriteWins` | workers/kafka_consumer.py:112-129 | upserting A then B for one id leaves the store B alone would leave, however far A's insert got and whatever B's insert does |
| `KafkaConsumer.FailedUpsertLeavesPrefix` | workers/kafka_consumer.py:114-129 | when embedding/inserting raises after `n` chunks were written, the job keeps at most `n` chunks, a prefix of the prepared ones, other jobs are untouched, and a raise before anything is written leaves the store a delete leaves |
| `KafkaConsumer.DeleteRemovesJob` | workers/kafka_consumer.py:133-141 | a delete removes every chunk of the id and no other; deleting an id with no chunks leaves the store unchanged |
| `KafkaConsumer.UpsertJob` | workers/kafka_consumer.py:104-130 | the store becomes `AfterUpsert` (old chunks deleted, then the new ones appended as far as the insert got); it raises exactly when chunks were prepared and their insert failed |
| `KafkaConsumer.DeleteJob` | workers/kafka_consumer.py:133-141 | the store becomes `AfterDelete`; the deleted count is the number of the job's chunks before |
| `KafkaConsumer.ActionFor` | workers/kafka_consumer.py:161-172 | upsert exactly for upper-cased `JOB_CREATED`/`JOB_UPDATED`, delete exactly for `JOB_DELETED`, otherwise nothing |
| `KafkaConsumer.ActionCaseInsensitive` | workers/kafka_consumer.py:161 | dispatch does not depend on the case of the event type |
| `KafkaConsumer.AfterMessage` | workers/kafka_consumer.py:155-175 | definition of one loop iteration: a message that fails `JobEvent` validation leaves the store, an upsert or delete event applies `AfterUpsert`/`AfterDelete` (a raised insert is caught), any other type leaves the store |
| `KafkaConsumer.HandleMessage` | workers/kafka_consumer.py:155-175 | one iteration: a message that fails validation or has an unknown type changes nothing, otherwise the dispatched operation's effect |
| `KafkaConsumer.Processed` | workers/kafka_consumer.py:148-154 | the messages the loop handles are the decoded records before the first record whose value fails to decode, in order |
| `KafkaConsumer.StartConsumer` | workers/kafka_consumer.py:144-175 | the loop leaves the store `AfterMessages` of the processed messages in order, and raises exactly when some record fails to decode |
| `KafkaConsumer.DecodeFailureEndsStream` | workers/kafka_consumer.py:148-154 | after a record that fails to decode, no later record reaches the store |
| `KafkaConsumer.SkippedMessageIgnored` | workers/kafka_consumer.py:154-175 | a message that fails validation or has an unknown type can be removed from the stream without changing the final store |
| `KafkaConsumer.EffectOfMessage` | workers/kafka_consumer.py:155-172 | a message changes a job's chunks only if it is about that job, and then to the chunks it leaves |
| `KafkaConsumer.ChunksFollowLastEvent` | workers/kafka_consumer.py:154-175 | after any message sequence a job's chunks are those left by the last message about it (the prepared chunks of a successful upsert, the part written before a failed insert, none after a delete), or unchanged if none concerned it |
| `Text.NatToStringRoundTrip` | workers/kafka_consumer.py:76 | the decimal text of a non-negative number reads back as the number |
| `Text.IntToStringRoundTrip` | workers/kafka_consumer.py:76 | `str` of any integer, negative ones included, is an integer text that reads back as the number |
| `KafkaConsumer.SalaryTextRoundTrip` | workers/kafka_consumer.py:75-76 | the salary line's text splits at its first space into the two bounds, separated by " - ", each reading back as its bound, negative ones included |
| `VectorStore.Matches` | workers/kafka_consumer.py:114 | definition of MongoDB filter matching on top-level metadata fields: equality (`null` also matches a missing field), `$lt`/`$gte` on a present integer only, and the empty filter |
| `VectorStore.Collection.CountDocuments` | scripts/cleanup_expired_jobs.py:60 | the count is the number of matching documents |
| `VectorStore.Collection.DeleteMany` | scripts/cleanup_expired_jobs.py:69 | the matching documents are removed and the rest kept in order; the deleted count is the size difference |
| `VectorStore.Collection.InsertMany` | workers/kafka_consumer.py:124-129 | the inserted documents are appended after the existing ones |
| `VectorStore.CountSplit` | scripts/cleanup_expired_jobs.py:60-71 | a count and a delete with the same query agree: the delete removes exactly the counted number |
| `VectorStore.RemoveIdempotent` | scripts/cleanup_expired_jobs.py:69 | deleting twice with the same query is deleting once |
| `VectorStore.SelectAfterRemove` | services/rag_service.py:118 | deleting by a query that no document of another query matches leaves that other query's results unchanged |
| `RagService.Lookup` | services/rag_service.py:66-68 | the lookup finds a retriever exactly when some entry has the name, and returns that entry's retriever |
| `RagService.Tag` | services/rag_service.py:72 | tagging sets `source_retriever` to the name and keeps the page content and every other metadata key |
| `RagService.TagEach` | services/rag_service.py:71-72 | the tagging loop tags every document, in order |
| `RagService.GetRelevantDocuments` | services/rag_service.py:61-106 | sync and async retrieval return `RelevantDocuments`: the routed retriever's tagged documents, or the tagged fan-out |
| `RagService.RoutedResult` | services/rag_service.py:64-73 | a routed query returns exactly the documents of a retriever registered under the destination, in order, each tagged with it |
| `RagService.RoutedToRegisteredRetriever` | services/rag_service.py:66-73 | with distinct keys, routing to a registered name uses that entry's retriever |
| `RagService.FallbackResult` | services/rag_service.py:75-84 | a missing, empty or unregistered destination queries every retriever |
| `RagService.FanOutShape` | services/rag_service.py:77-84 | the fan-out has as many documents as all retrievers return together, each one a retriever's document tagged with that retriever's name |
| `RagService.FanOutConcat` | services/rag_service.py:78-83 | the fan-out over a registry split in two is the two fan-outs in registry order |
| `RagService.FanOutTwo` | services/rag_service.py:77-84 | over any two-entry registry the fan-out is the first entry's tagged block followed by the second's |
| `RagService.RegistryRetrieval` | services/rag_service.py:61-84 | over the registry `get_retriever` builds, routing to `recruitment` or `company_policies` returns that search's results tagged with its name; any other router output returns the tagged job results followed by the tagged policy results |
| `RagService.JobsSearchConfig` | services/rag_service.py:114-133 | definition of the jobs retriever's settings: `jobs_vector`, index `jobs_vector_index`, k = 10, pre-filter `deadline >= now` |
| `RagService.PoliciesSearchConfig` | services/rag_service.py:142-146 | definition of the policies retriever's settings: `policies_vector`, index `policies_vector_index`, k = 3, no pre-filter |
| `RagService.Search` | services/rag_service.py:128-133 | definition of a vector search: the stored documents passing the pre-filter, ordered by the ranker, cut to the first k |
| `RagService.SearchBounds` | services/rag_service.py:128-133 | a search returns at most k stored documents, each passing the pre-filter |
| `RagService.SearchReturnsTopCandidate` | services/rag_service.py:128-133 | the best-ranked stored candidate is returned first when k > 0 |
| `RagService.GetRetriever` | services/rag_service.py:148-159 | the registry is `recruitment` then `company_policies`, with distinct names |
| `RagService.JobsRetrieverOnlyActive` | services/rag_service.py:114-133 | the jobs retriever returns at most 10 stored chunks, each with a deadline at or after now |
| `RagService.PoliciesRetrieverUnfiltered` | services/rag_service.py:142-146 | the policies retriever returns at most 3 stored chunks with no filter: the best-ranked one is returned whatever its metadata |
| `RagService.FormatDocs` | services/rag_service.py:162-163 | definition of `format_docs`: the page contents joined by a blank line |
| `RagService.FormatDocsShape` | services/rag_service.py:162-163 | no documents give "", one gives its page content, and two lists' passages are separated by one blank line, in order |
| `RagService.FormatDocsLength` | services/rag_service.py:162-163 | the context holds every passage once plus a two-character separator between neighbours |
| `RagService.ToBaseMessage` | services/rag_service.py:169-172 | the message keeps its content and is a human message exactly for role `user` |
| `RagService.FormatChatHistory` | services/rag_service.py:166-173 | the loop builds `FormattedHistory` of the history |
| `RagService.FormattedHistoryIsFilterThenMap` | services/rag_service.py:166-173 | the conversion is the user/assistant messages in order mapped to human/AI messages; the output is no longer than the input |
| `RagService.FormattedHistoryConcat` | services/rag_service.py:166-173 | converting a concatenated history converts each part, in order |
| `RagService.FormattedHistoryRoles` | services/rag_service.py:166-173 | every output message comes from a user or assistant message and every such message appears; the output is empty exactly when the history has none |
| `RagService.StandaloneQuestion` | services/rag_service.py:213-224 | definition of the question used for retrieval: the query itself with empty history, otherwise the condenser's rewrite of the query given the converted history |
| `RagService.StandaloneQuestionBranch` | services/rag_service.py:213-224 | with empty history the question is the input query whatever the condenser; otherwise it is the condenser's rewrite, even if no message has a kept role |
| `RagService.ProcessQueryStream` | services/rag_service.py:226-243 | one `answer_chunk` packet per generated fragment, in order |
| `RagService.StreamCarriesFragments` | services/rag_service.py:241-243 | the yielded packets read back as exactly the generator's fragments; with empty history the answer is generated for the input query |
| `AnswerStream.EscapeChar` | services/rag_service.py:243 | an escaped character is 1 to 6 characters, none below U+0020, and is the character itself exactly when it needs no escape |
| `AnswerStream.JsonEscape` | services/rag_service.py:243 | the escaped text has no character below U+0020 (so no newline) and is at most six times longer |
| `AnswerStream.JsonEscapeIdentity` | services/rag_service.py:243 | text with no quote, backslash or character below U+0020 (for example Vietnamese prose) is sent unchanged |
| `AnswerStream.JsonRoundTrip` | services/rag_service.py:243 | unescaping the escaped fragment gives the fragment back |
| `AnswerStream.PacketLineHasNoNewline` | services/rag_service.py:243 | a packet's event line contains no newline |
| `AnswerStream.PacketLineRoundTrip` | services/rag_service.py:242-243 | a packet's event line reads back as its fragment |
| `AnswerStream.ParsePacketThen` | services/rag_service.py:243 | a packet in front of a stream reads as its fragment in front of the rest |
| `AnswerStream.Packets` | services/rag_service.py:241-243 | one packet per fragment, in order |
| `AnswerStream.StreamRoundTrip` | services/rag_service.py:241-243 | the concatenated packets read back as exactly the fragments, one per packet, in order |
| `CleanupExpiredJobs.AfterCleanup` | scripts/cleanup_expired_jobs.py:50-69 | definition of the store the cleanup leaves: every chunk matching `deadline < now` removed, the rest kept in order |
| `CleanupExpiredJobs.RunCleanup` | scripts/cleanup_expired_jobs.py:40-80 | counts the expired chunks, returns early with the store unchanged when there are none, otherwise deletes exactly them; the deleted number equals the count |
| `CleanupExpiredJobs.NoneExpiredUnchanged` | scripts/cleanup_expired_jobs.py:60-63 | with no expired chunk the store is already what the cleanup leaves |
| `CleanupExpiredJobs.NoExpiredRemain` | scripts/cleanup_expired_jobs.py:46-69 | after the cleanup no chunk has a deadline before now |
| `CleanupExpiredJobs.CleanupDeletesExactlyExpired` | scripts/cleanup_expired_jobs.py:60-71 | every non-expired chunk is kept, and the number deleted is the number of expired chunks |
| `CleanupExpiredJobs.CleanupKeepsActive` | scripts/cleanup_expired_jobs.py:50-54 | chunks active at now or any later instant are not deleted: the retrieval filter sees the same chunks before and after |
| `CleanupExpiredJobs.CleanupIdempotent` | scripts/cleanup_expired_jobs.py:50-69 | running the cleanup twice at the same instant equals running it once |
| `CleanupExpiredJobs.ExpiredIsComplementOfActive` | scripts/cleanup_expired_jobs.py:50-54 | on chunks with a deadline, expired is exactly not-active; a chunk without one is neither |
| `CleanupExpiredJobs.StoreSplitsByDeadline` | scripts/cleanup_expired_jobs.py:50-54 | in a store where every chunk has a deadline, expired plus active chunks count the whole store |
| `InitialLoad.GetValue` | scripts/initial_load.py:68-75 | definition of `_get_value`: the value under the key (`None` when missing), or the value under the sub-key inside it when it is a dictionary and a non-empty sub-key is given |
| `InitialLoad.GetValueMissing` | scripts/initial_load.py:68-75 | a missing key gives `None`; a dictionary without the sub-key gives `None`; no sub-key gives the plain value |
| `InitialLoad.GetValueNormalises` | scripts/initial_load.py:68-75 | the wrapped form `{key: {sub: v}}` and the plain form `{key: v}` read the same |
| `InitialLoad.PageContent` | scripts/initial_load.py:106-109 | definition of the page content as the four `+=` steps, `""` standing in for a missing field |
| `InitialLoad.PageContentLines` | scripts/initial_load.py:106-109 | the page content is exactly the four labelled lines (title, description, requirements, benefits) joined by newlines |
| `InitialLoad.PageLineDefaults` | scripts/initial_load.py:106-109 | a missing field leaves its label alone on its line |
| `InitialLoad.DraftMetadata` | scripts/initial_load.py:112-138 | definition of the 17-key metadata before `None` values are dropped: unwrapped ids and dates, `str` of a truthy id or "", the `get` defaults, location city and district |
| `InitialLoad.DropNone` | scripts/initial_load.py:140-141 | the result has exactly the keys whose value is not `None`, with their values unchanged |
| `InitialLoad.LoadedMetadata` | scripts/initial_load.py:120-141 | no stored value is `None`; every non-`None` draft value is kept; source is "jobs"; `jobId` is always present, "" without `_id`; `approved` defaults to False |
| `InitialLoad.LoadedDeadline` | scripts/initial_load.py:113-134 | a loaded job's deadline is its unwrapped value, and a job without one has no deadline key |
| `InitialLoad.LoadedJobOutsideJobQueries` | scripts/initial_load.py:122 | no loaded document matches the consumer's `{"job_id": id}` query |
| `InitialLoad.ConsumerKeepsLoadedJobs` | scripts/initial_load.py:120-138 | the consumer's delete leaves every loaded document in place |
| `InitialLoad.JobDocument` | scripts/initial_load.py:105-144 | definition of one loaded document: the page content with the metadata stripped of `None` values |
| `InitialLoad.Loadable` | scripts/initial_load.py:104-133 | definition of an entry the loop body gets through: a JSON object (otherwise `.get` raises) whose two unwrapped salaries `float` accepts (`None` is skipped; an integer of magnitude at least 2^1024 - 2^970, a dictionary, a list or a rejected string raises) |
| `InitialLoad.FloatIntLimitBounds` | scripts/initial_load.py:132-133 | the overflow bound of `float` on integers lies strictly between 2^1023 and 2^1024 |
| `InitialLoad.HugeSalaryRaises` | scripts/initial_load.py:132-133 | an integer salary beyond the double range makes the entry unloadable (`float` raises `OverflowError`); one inside it converts |
| `InitialLoad.BuildJobDocuments` | scripts/initial_load.py:103-145 | the loop raises exactly when some entry is not `Loadable`; otherwise it builds one document per entry, in input order |
| `InitialLoad.TopLevelEntries` | scripts/initial_load.py:94-104 | definition of what the loop visits: a JSON list's elements, nothing for an empty object or string, and a raise for a non-empty object or string (their keys or characters have no `.get`) or any other value (`len` raises) |
| `InitialLoad.AfterLoadJobs` | scripts/initial_load.py:78-160 | definition of the collection after `load_jobs`: unchanged when non-empty; otherwise empty when the file is missing, not valid JSON or the load raises, else the built documents |
| `InitialLoad.LoadJobs` | scripts/initial_load.py:78-160 | a non-empty collection is left unchanged; otherwise it ends with exactly the built documents, or empty when the file is not found or not valid JSON (returned) or when reading, iterating or an entry raises (propagated, after the collection was emptied); it raises exactly in those cases and returns the number loaded |
| `InitialLoad.OneBadEntryStoresNothing` | scripts/initial_load.py:103-154 | one entry that is not an object or whose salary `float` rejects makes the load raise and store nothing, whatever entries precede it; with every entry loadable each is stored, in order |
| `InitialLoad.LoadJobsOnce` | scripts/initial_load.py:84-86 | loading into a non-empty collection changes nothing, so after a load that stored something every later load is skipped; an empty file stores nothing |
| `InitialLoad.LoadPolicies` | scripts/initial_load.py:44-65 | a non-empty collection is left unchanged; an unreadable file raises before any change; otherwise it ends with exactly the policy chunks |
| `InitialLoad.PolicyChunksShape` | scripts/initial_load.py:51-55 | each policy chunk is a segment of the text, in order, with source `data/policies.txt` |

## Left out

- Kafka consumption, topic and consumer-group settings are not modelled; the consumer is a loop over a finite sequence of records. Each record is either `Undecodable`, when `json.loads(m.decode('utf-8'))` fails inside the iterator and the failure ends the consumer, or a decoded message whose `JobEvent` validation result is given as an `Option<JobEvent>`. `None` stands only for a validation failure, which the loop catches and skips.
- Logging, `print` and `sys.stdout.flush` are not modelled. The contents of `data/policies.txt` become a parameter (`None` when `TextLoader` raises); reading `data/jobs.json` becomes a `JobsFile`: not found, not valid JSON, another read error, or the parsed value.
- Embeddings, the vector index and similarity are represented only by their order: the `Ranker` parameter returns the candidates best first. Index names and the splitter's chunk size (1000) and overlap (200) are recorded but not interpreted, and the splitter is a function parameter.
- The router prompt and LLM, `RouterOutputParser`, the condensing chain and the answering chain are parameters (`Router`, `Condenser`, `Generator`). The retriever descriptions in the router prompt are not modelled.
- Async execution, awaiting and stream cancellation are not modelled: the async and sync retriever paths are one method, and the answer stream is a finite sequence of packets.
- Deadlines and `createdAt`/`updatedAt` are integer instants. The program compares ISO-8601 strings lexicographically, which matches chronological order only when both sides use the same format and offset; that difference is not modelled.
- Store errors are not modelled, except for one: embedding or inserting during an upsert may raise after writing a prefix of the prepared chunks, given per message (`InsertOutcome`). An unordered or non-prefix partial write is not modelled; a failing count or delete in the cleanup, which re-raises, is not modelled, and neither are store failures in the loader.
- `RagService.GetRelevantDocuments`: `doc.metadata[...] = ...` mutates the retriever's own document objects. The model returns tagged copies, so aliasing between results and retriever storage is not modelled.
- `KafkaConsumer.ActionFor`: upper-cases ASCII letters only. Python's `str.upper` also maps non-ASCII letters, some of them onto ASCII (for example `ı` to `I`).
- `KafkaConsumer.JobPayload`: location values are strings, whereas the program accepts any dictionary.
- `InitialLoad.DraftMetadata`: keeps the unwrapped salary values as they are instead of converting them with `float(...)`, since floating point is not modelled. Whether `float` accepts a string is a parameter (`FloatParse`); a rejection is modelled as a raise of the whole load (`InitialLoad.Loadable`).
- `InitialLoad.PyStr`: how `str` prints a dictionary or a list is a parameter; floats do not occur.
- `AnswerStream.JsonUnescape`: does not combine surrogate-pair escapes. The escaper never produces them, since `ensure_ascii=False` writes non-ASCII characters as they are.
- The remaining-count log at the end of `run_cleanup` (scripts/cleanup_expired_jobs.py:74-75) only logs, and is not modelled.
- Process supervision, the cleanup scheduler, client construction, settings and the FastAPI wiring are not part of this model. The declared `JobFilters`, `AVAILABLE_LEVELS` and the loader's unused `JobMetadata`/`Job` models are not modelled either.
  - The HTTP route imports a `process_query` function that the service does not define.
- The commented-out filter-extraction and job-id/stream-end blocks of `process_query_stream` are not modelled.
