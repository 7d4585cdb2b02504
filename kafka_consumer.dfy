/**
 * The index synchronisation worker: job events from Kafka keep the `jobs_vector`
 * collection in step with the job postings. An upsert deletes every chunk of the job
 * and inserts freshly prepared chunks; a delete removes every chunk of the job.
 */
module KafkaConsumer {
  import opened Wrappers
  import opened Text
  import opened Documents
  import opened VectorStore
  import opened Sequences

  /** The `JobPayload` model. `skills` is `[]` when absent (`None` and `[]` behave alike). */
  datatype JobPayload = JobPayload(
    jobId: string,
    description: string,
    title: string,
    requirements: Option<string>,
    benefits: Option<string>,
    skills: seq<string>,
    category: Option<string>,
    area: Option<string>,
    minSalary: Option<int>,
    maxSalary: Option<int>,
    companyName: Option<string>,
    location: Option<map<string, string>>,
    jobType: Option<string>,
    workType: Option<string>,
    experience: Option<string>,
    deadline: Option<int>)

  /** The `JobEvent` model. */
  datatype JobEvent = JobEvent(eventType: string, timestamp: string, payload: JobPayload)

  /** Python truthiness of an `Optional[str]`: present and non-empty. */
  predicate Present(o: Option<string>)
  {
    o.Some? && o.value != ""
  }

  /** `x if x else default` on an `Optional[str]`. */
  function OrDefault(o: Option<string>, default: string): string
  {
    if Present(o) then o.value else default
  }

  /** `d.get(key, default)` on the location dictionary. */
  function LocationField(loc: map<string, string>, key: string): string
  {
    if key in loc then loc[key] else "N/A"
  }

  predicate HasLocation(job: JobPayload)
  {
    job.location.Some? && job.location.value != map[]
  }

  function CompanyLine(job: JobPayload): string
  {
    "Công ty: " + OrDefault(job.companyName, "Chưa cập nhật")
  }

  function TitleLine(job: JobPayload): string
  {
    "Tiêu đề công việc: " + job.title
  }

  function DescriptionLine(job: JobPayload): string
  {
    "Mô tả: " + job.description
  }

  /** The optional sections of the composed content, in the order they are appended. */
  datatype Section = Requirements | Benefits | Kind | Experience | Location | Skills | Salary

  const SectionOrder: seq<Section> := [Requirements, Benefits, Kind, Experience, Location, Skills, Salary]

  /** The position of a section in `SectionOrder`. */
  function Rank(s: Section): nat
  {
    match s
    case Requirements => 0
    case Benefits => 1
    case Kind => 2
    case Experience => 3
    case Location => 4
    case Skills => 5
    case Salary => 6
  }

  /** Whether the payload has what a section needs. */
  predicate HasSection(job: JobPayload, s: Section)
  {
    match s
    case Requirements => Present(job.requirements)
    case Benefits => Present(job.benefits)
    case Kind => Present(job.jobType) || Present(job.workType)
    case Experience => Present(job.experience)
    case Location => HasLocation(job)
    case Skills => job.skills != []
    case Salary => job.minSalary.Some? && job.maxSalary.Some?
  }

  /** The label that starts each optional line. */
  function Label(s: Section): string
  {
    match s
    case Requirements => "Yêu cầu: "
    case Benefits => "Phúc lợi: "
    case Kind => "Loại công việc: "
    case Experience => "Yêu cầu kinh nghiệm: "
    case Location => "Địa điểm: "
    case Skills => "Kỹ năng: "
    case Salary => "Mức lương: "
  }

  function KindText(job: JobPayload): string
  {
    OrDefault(job.jobType, "N/A") + ", Hình thức làm việc: " + OrDefault(job.workType, "N/A")
  }

  function LocationText(loc: map<string, string>): string
  {
    LocationField(loc, "city") + ", " + LocationField(loc, "district")
  }

  function SalaryText(min: int, max: int): string
  {
    IntToString(min) + " - " + IntToString(max)
  }

  /** What follows the label on an optional line (only used when the section is present). */
  function SectionText(job: JobPayload, s: Section): string
  {
    match s
    case Requirements => job.requirements.GetOr("")
    case Benefits => job.benefits.GetOr("")
    case Kind => KindText(job)
    case Experience => job.experience.GetOr("")
    case Location => LocationText(job.location.GetOr(map[]))
    case Skills => Join(job.skills, ", ")
    case Salary => SalaryText(job.minSalary.GetOr(0), job.maxSalary.GetOr(0))
  }

  function SectionLine(job: JobPayload, s: Section): string
  {
    Label(s) + SectionText(job, s)
  }

  /** The section tests and lines of one payload, as functions for the generic helpers. */
  function HasSectionOf(job: JobPayload): Section -> bool
  {
    s => HasSection(job, s)
  }

  function SectionLineOf(job: JobPayload): Section -> string
  {
    s => SectionLine(job, s)
  }

  /** `content_parts`: the three fixed lines, then the conditional appends in program order. */
  function ContentParts(job: JobPayload): seq<string>
  {
    AppendEach([CompanyLine(job), TitleLine(job), DescriptionLine(job)], SectionOrder, HasSectionOf(job), SectionLineOf(job))
  }

  /** `"\n".join(content_parts)`. */
  function Content(job: JobPayload): string
  {
    Join(ContentParts(job), "\n")
  }

  /** The sections the payload has, in section order. */
  function PresentSections(job: JobPayload): seq<Section>
  {
    Keep(SectionOrder, HasSectionOf(job))
  }

  /** The optional lines of the payload, in section order. */
  function OptionalLines(job: JobPayload): seq<string>
  {
    MapSeq(PresentSections(job), SectionLineOf(job))
  }

  /**
   * The present sections are exactly the sections whose field is present, each at most
   * once, in the fixed order requirements, benefits, kind, experience, location,
   * skills, salary.
   */
  lemma PresentSectionsOrdered(job: JobPayload)
    ensures forall s :: s in PresentSections(job) <==> HasSection(job, s)
    ensures forall i, j :: 0 <= i < j < |PresentSections(job)| ==> Rank(PresentSections(job)[i]) < Rank(PresentSections(job)[j])
  {
    SectionOrderRanks();
    var o := SectionOrder;
    forall s ensures s in o {
      assert o[Rank(s)] == s;
    }
    KeepMembers(o, HasSectionOf(job));
    KeepOrdered(o, HasSectionOf(job), s => Rank(s) as int);
  }

  /** `SectionOrder` lists each section at its rank. */
  lemma SectionOrderRanks()
    ensures forall i :: 0 <= i < |SectionOrder| ==> Rank(SectionOrder[i]) == i
  {
  }

  /**
   * The composed lines are the company, title and description lines, followed by one
   * line per present section, in section order; nothing else.
   */
  lemma ContentPartsShape(job: JobPayload)
    ensures ContentParts(job) == [CompanyLine(job), TitleLine(job), DescriptionLine(job)] + OptionalLines(job)
  {
    AppendEachIsKeepThenMap([CompanyLine(job), TitleLine(job), DescriptionLine(job)], SectionOrder, HasSectionOf(job), SectionLineOf(job));
  }

  /**
   * The composed content starts with the company line, the title line and the
   * description line, in that order; the optional lines follow after a newline.
   */
  lemma ContentStartsWithHeader(job: JobPayload)
    ensures OptionalLines(job) == [] ==>
      Content(job) == CompanyLine(job) + "\n" + TitleLine(job) + "\n" + DescriptionLine(job)
    ensures OptionalLines(job) != [] ==>
      Content(job) == CompanyLine(job) + "\n" + TitleLine(job) + "\n" + DescriptionLine(job)
                      + "\n" + Join(OptionalLines(job), "\n")
  {
    ContentPartsShape(job);
    JoinThreeThen(CompanyLine(job), TitleLine(job), DescriptionLine(job), OptionalLines(job), "\n");
  }

  /** The company line falls back to the "not updated yet" text when the name is absent or empty. */
  lemma CompanyLineDefault(job: JobPayload)
    ensures !Present(job.companyName) ==> CompanyLine(job) == "Công ty: Chưa cập nhật"
    ensures Present(job.companyName) ==> CompanyLine(job) == "Công ty: " + job.companyName.value
  {
  }

  /**
   * The salary line's text reads back as both bounds, negative ones included: the first
   * bound ends at the first space, and the second starts after " - ".
   */
  lemma SalaryTextRoundTrip(min: int, max: int)
    ensures var s := SalaryText(min, max); var i := IndexOf(s, ' ');
      i + 3 <= |s| && s[i..i + 3] == " - " &&
      IsIntText(s[..i]) && IntValue(s[..i]) == min &&
      IsIntText(s[i + 3..]) && IntValue(s[i + 3..]) == max
  {
    var a := IntToString(min);
    var b := IntToString(max);
    var s := SalaryText(min, max);
    assert s == a + (" - " + b);
    assert s[|a|] == ' ';
    assert forall k :: 0 <= k < |a| ==> s[k] == a[k] && a[k] != ' ';
    IndexOfFirst(s, ' ', |a|);
    assert s[..|a|] == a;
    assert s[|a|..|a| + 3] == " - ";
    assert s[|a| + 3..] == b;
    IntToStringRoundTrip(min);
    IntToStringRoundTrip(max);
  }

  function OptionalText(o: Option<string>): Value
  {
    if o.Some? then Str(o.value) else Null
  }

  /** The metadata every chunk of the job carries. */
  function JobMetadata(job: JobPayload): Metadata
  {
    map[
      "source" := Str("job_posting"),
      "job_id" := Str(job.jobId),
      "title" := Str(job.title),
      "companyName" := OptionalText(job.companyName),
      "city" := (if HasLocation(job) && "city" in job.location.value then Str(job.location.value["city"]) else Null),
      "category" := OptionalText(job.category),
      "experience" := OptionalText(job.experience),
      "workType" := OptionalText(job.workType),
      "type" := OptionalText(job.jobType),
      "area" := OptionalText(job.area),
      "deadline" := (if job.deadline.Some? then Int(job.deadline.value) else Null)
    ]
  }

  /** `_prepare_documents`: one document per segment of the content, all with the job's metadata. */
  function PrepareDocuments(job: JobPayload, split: Splitter): seq<Document>
  {
    SplitDocument(Document(Content(job), JobMetadata(job)), split)
  }

  /** `{"job_id": id}`. */
  function JobQuery(id: string): Query
  {
    FieldEquals("job_id", Str(id))
  }

  /** The chunks stored for one job. */
  function JobChunks(docs: seq<Document>, id: string): seq<Document>
  {
    Select(docs, JobQuery(id))
  }

  /** A record belongs to at most one job. */
  lemma JobQueriesDisjoint(id1: string, id2: string, d: Document)
    requires id1 != id2
    ensures !(Matches(JobQuery(id1), d) && Matches(JobQuery(id2), d))
  {
  }

  /**
   * Whatever segments the splitter makes of the content, the prepared chunks are those
   * segments in order, all carrying the same metadata; each belongs to the payload's job
   * and to no other, and has a deadline before (at or after) an instant exactly when the
   * payload's deadline is; a payload without a deadline gives chunks with a `null` one.
   */
  lemma PreparedChunks(job: JobPayload, segments: seq<string>)
    ensures |Chunks(segments, JobMetadata(job))| == |segments|
    ensures forall i :: 0 <= i < |segments| ==>
      Chunks(segments, JobMetadata(job))[i].pageContent == segments[i] &&
      Chunks(segments, JobMetadata(job))[i].metadata == JobMetadata(job)
    ensures forall d, id :: d in Chunks(segments, JobMetadata(job)) ==> (Matches(JobQuery(id), d) <==> id == job.jobId)
    ensures forall d, t :: d in Chunks(segments, JobMetadata(job)) ==>
      (Matches(FieldLt("deadline", t), d) <==> job.deadline.Some? && job.deadline.value < t)
    ensures forall d, t :: d in Chunks(segments, JobMetadata(job)) ==>
      (Matches(FieldGte("deadline", t), d) <==> job.deadline.Some? && job.deadline.value >= t)
    ensures forall d :: d in Chunks(segments, JobMetadata(job)) ==>
      "deadline" in d.metadata && (d.metadata["deadline"] == Null <==> job.deadline.None?)
  {
    var meta := JobMetadata(job);
    JobMetadataFields(job);
    var r := Chunks(segments, meta);
    forall d | d in r ensures d.metadata == meta {
      var k :| 0 <= k < |r| && r[k] == d;
    }
  }

  /** The job id and the deadline as the metadata stores them. */
  lemma JobMetadataFields(job: JobPayload)
    ensures "job_id" in JobMetadata(job) && JobMetadata(job)["job_id"] == Str(job.jobId)
    ensures "deadline" in JobMetadata(job)
    ensures job.deadline.Some? ==> JobMetadata(job)["deadline"] == Int(job.deadline.value)
    ensures job.deadline.None? ==> JobMetadata(job)["deadline"] == Null
  {
  }

  /**
   * Replacing a job's chunks by `renewed` ones of that job: afterwards the job's chunks
   * are exactly `renewed`, and the rest of the store is what it was, in order.
   */
  lemma {:induction false} ReplaceChunks(docs: seq<Document>, id: string, renewed: seq<Document>)
    requires forall k :: 0 <= k < |renewed| ==> Matches(JobQuery(id), renewed[k])
    ensures JobChunks(Remove(docs, JobQuery(id)) + renewed, id) == renewed
    ensures Remove(Remove(docs, JobQuery(id)) + renewed, JobQuery(id)) == Remove(docs, JobQuery(id))
    ensures forall other :: other != id ==> JobChunks(Remove(docs, JobQuery(id)) + renewed, other) == JobChunks(docs, other)
  {
    var q := JobQuery(id);
    var kept := Remove(docs, q);
    SelectConcat(kept, renewed, q);
    SelectAfterRemoveSame(docs, q);
    AllMatch(renewed, q);
    RemoveConcat(kept, renewed, q);
    RemoveIdempotent(docs, q);
    forall other | other != id
      ensures JobChunks(kept + renewed, other) == JobChunks(docs, other)
    {
      var q' := JobQuery(other);
      SelectConcat(kept, renewed, q');
      forall d | Matches(q', d) ensures !Matches(q, d) {
        JobQueriesDisjoint(id, other, d);
      }
      SelectAfterRemove(docs, q, q');
      forall k | 0 <= k < |renewed| ensures !Matches(q', renewed[k]) {
        JobQueriesDisjoint(id, other, renewed[k]);
      }
      NoneMatch(renewed, q');
    }
  }

  /**
   * How embedding and inserting the new chunks ends: every chunk stored, or a raise
   * after the first `stored` chunks were written. `from_documents` writes the chunks in
   * order, batch by batch, so a failure keeps the part written before it;
   * `FailedAfter(0)` is a failure before anything is written (embedding, say).
   */
  datatype InsertOutcome = Inserted | FailedAfter(stored: nat)

  /** What an in-order write of `prepared` leaves stored when it ends with `outcome`. */
  function Written(prepared: seq<Document>, outcome: InsertOutcome): (r: seq<Document>)
    ensures |r| <= |prepared| && r == prepared[..|r|]
    ensures outcome.Inserted? ==> r == prepared
    ensures outcome.FailedAfter? && outcome.stored < |prepared| ==> |r| == outcome.stored
    ensures outcome == FailedAfter(0) ==> r == []
  {
    match outcome
    case Inserted => prepared
    case FailedAfter(n) => if n < |prepared| then prepared[..n] else prepared
  }

  /** The chunks an upsert leaves for its own job: the prepared ones, or the part written before a failure. */
  function UpsertedChunks(job: JobPayload, split: Splitter, outcome: InsertOutcome): (r: seq<Document>)
    ensures |r| <= |PrepareDocuments(job, split)| && r == PrepareDocuments(job, split)[..|r|]
    ensures outcome.Inserted? ==> r == PrepareDocuments(job, split)
    ensures outcome.FailedAfter? && outcome.stored < |PrepareDocuments(job, split)| ==> |r| == outcome.stored
    ensures outcome == FailedAfter(0) ==> r == []
  {
    Written(PrepareDocuments(job, split), outcome)
  }

  /**
   * The store after `upsert_job(job)`: the old chunks are gone whatever happens, and
   * the new ones are appended as far as the insert got.
   */
  function AfterUpsert(docs: seq<Document>, job: JobPayload, split: Splitter, outcome: InsertOutcome): seq<Document>
  {
    Remove(docs, JobQuery(job.jobId)) + UpsertedChunks(job, split, outcome)
  }

  /** The store after `delete_job(id)`. */
  function AfterDelete(docs: seq<Document>, id: string): seq<Document>
  {
    Remove(docs, JobQuery(id))
  }

  /** Every prepared chunk belongs to the payload's job. */
  lemma PreparedBelongToJob(job: JobPayload, split: Splitter)
    ensures forall k :: 0 <= k < |PrepareDocuments(job, split)| ==>
      Matches(JobQuery(job.jobId), PrepareDocuments(job, split)[k])
  {
    var p := PrepareDocuments(job, split);
    PreparedChunks(job, split(Content(job)));
    forall k | 0 <= k < |p| ensures Matches(JobQuery(job.jobId), p[k]) {
      assert p[k] in p;
    }
  }

  /** The general effect of an upsert on the job's chunks and on everything else. */
  lemma UpsertEffect(docs: seq<Document>, job: JobPayload, split: Splitter, outcome: InsertOutcome)
    ensures JobChunks(AfterUpsert(docs, job, split, outcome), job.jobId) == UpsertedChunks(job, split, outcome)
    ensures Remove(AfterUpsert(docs, job, split, outcome), JobQuery(job.jobId)) == Remove(docs, JobQuery(job.jobId))
    ensures forall other :: other != job.jobId ==>
      JobChunks(AfterUpsert(docs, job, split, outcome), other) == JobChunks(docs, other)
  {
    var prepared := PrepareDocuments(job, split);
    PreparedBelongToJob(job, split);
    var renewed := UpsertedChunks(job, split, outcome);
    forall k | 0 <= k < |renewed| ensures Matches(JobQuery(job.jobId), renewed[k]) {
      assert renewed[k] == prepared[k];
    }
    ReplaceChunks(docs, job.jobId, renewed);
  }

  /**
   * After a successful upsert the job's chunks are exactly the ones prepared from the
   * payload, and the chunks of every other job are unchanged.
   */
  lemma UpsertReplacesChunks(docs: seq<Document>, job: JobPayload, split: Splitter)
    ensures JobChunks(AfterUpsert(docs, job, split, Inserted), job.jobId) == PrepareDocuments(job, split)
    ensures forall other :: other != job.jobId ==>
      JobChunks(AfterUpsert(docs, job, split, Inserted), other) == JobChunks(docs, other)
  {
    UpsertEffect(docs, job, split, Inserted);
  }

  /** Applying the same successful upsert twice (a redelivered event) leaves the store it leaves once. */
  lemma UpsertIdempotent(docs: seq<Document>, job: JobPayload, split: Splitter)
    ensures AfterUpsert(AfterUpsert(docs, job, split, Inserted), job, split, Inserted) == AfterUpsert(docs, job, split, Inserted)
  {
    UpsertEffect(docs, job, split, Inserted);
  }

  /**
   * Two upserts of the same job leave only what the second one leaves: the store is the
   * one the second upsert alone would leave, however far the first one's insert got.
   * In particular a redelivery after a failed insert converges.
   */
  lemma UpsertLastWriteWins(docs: seq<Document>, a: JobPayload, b: JobPayload, split: Splitter,
                            first: InsertOutcome, second: InsertOutcome)
    requires a.jobId == b.jobId
    ensures AfterUpsert(AfterUpsert(docs, a, split, first), b, split, second) == AfterUpsert(docs, b, split, second)
  {
    UpsertEffect(docs, a, split, first);
  }

  /**
   * A failed insert leaves the job with at most a prefix of its prepared chunks (exactly
   * the part written before the failure) and the rest of the store unchanged; a failure
   * before anything is written leaves the store a delete leaves.
   */
  lemma FailedUpsertLeavesPrefix(docs: seq<Document>, job: JobPayload, split: Splitter, stored: nat)
    ensures var c := JobChunks(AfterUpsert(docs, job, split, FailedAfter(stored)), job.jobId);
      |c| <= stored && |c| <= |PrepareDocuments(job, split)| && c == PrepareDocuments(job, split)[..|c|]
    ensures forall other :: other != job.jobId ==>
      JobChunks(AfterUpsert(docs, job, split, FailedAfter(stored)), other) == JobChunks(docs, other)
    ensures AfterUpsert(docs, job, split, FailedAfter(0)) == AfterDelete(docs, job.jobId)
  {
    FailedBeforeWriting(docs, job, split);
    UpsertEffect(docs, job, split, FailedAfter(stored));
  }

  lemma FailedBeforeWriting(docs: seq<Document>, job: JobPayload, split: Splitter)
    ensures AfterUpsert(docs, job, split, FailedAfter(0)) == AfterDelete(docs, job.jobId)
  {
    var kept := Remove(docs, JobQuery(job.jobId));
    var none := UpsertedChunks(job, split, FailedAfter(0));
    assert AfterUpsert(docs, job, split, FailedAfter(0)) == kept + none;
    assert none == [];
    assert kept + [] == kept;
  }

  /**
   * A delete removes every chunk of the job and no other; deleting a job that has no
   * chunks leaves the store as it was.
   */
  lemma DeleteRemovesJob(docs: seq<Document>, id: string)
    ensures JobChunks(AfterDelete(docs, id), id) == []
    ensures forall other :: other != id ==> JobChunks(AfterDelete(docs, id), other) == JobChunks(docs, other)
    ensures JobChunks(docs, id) == [] ==> AfterDelete(docs, id) == docs
  {
    ReplaceChunks(docs, id, []);
    assert Remove(docs, JobQuery(id)) + [] == Remove(docs, JobQuery(id));
    if JobChunks(docs, id) == [] {
      forall k | 0 <= k < |docs| ensures !Matches(JobQuery(id), docs[k]) {
        assert docs[k] in docs;
      }
      NoneMatch(docs, JobQuery(id));
    }
  }

  /** `upsert_job`. Returns whether it raised (from embedding and inserting the new chunks). */
  method UpsertJob(jobs: Collection, job: JobPayload, split: Splitter, outcome: InsertOutcome) returns (raised: bool)
    modifies jobs
    ensures jobs.docs == AfterUpsert(old(jobs.docs), job, split, outcome)
    ensures raised == (outcome.FailedAfter? && |PrepareDocuments(job, split)| > 0)
  {
    var deleted := jobs.DeleteMany(JobQuery(job.jobId));
    var documents := PrepareDocuments(job, split);
    ghost var kept := jobs.docs;
    ghost var renewed := UpsertedChunks(job, split, outcome);
    assert AfterUpsert(old(jobs.docs), job, split, outcome) == kept + renewed;
    assert renewed == Written(documents, outcome);
    if |documents| == 0 {
      assert renewed == [];
      assert kept + [] == kept;
      return false;
    }
    match outcome {
      case Inserted =>
        jobs.InsertMany(documents);
        raised := false;
      case FailedAfter(n) =>
        // the batches written before the failure stay written
        var written := if n < |documents| then documents[..n] else documents;
        assert written == renewed;
        jobs.InsertMany(written);
        raised := true;
    }
  }

  /** `delete_job`. Returns the number of chunks deleted, which picks the log line. */
  method DeleteJob(jobs: Collection, id: string) returns (deletedCount: nat)
    modifies jobs
    ensures jobs.docs == AfterDelete(old(jobs.docs), id)
    ensures deletedCount == |JobChunks(old(jobs.docs), id)|
  {
    CountSplit(jobs.docs, JobQuery(id));
    deletedCount := jobs.DeleteMany(JobQuery(id));
  }

  /** What an event type asks for. */
  datatype Action = UpsertAction | DeleteAction | IgnoreAction

  /** The dispatch on `eventType.upper()`. */
  function ActionFor(eventType: string): (a: Action)
    ensures a == UpsertAction <==> Upper(eventType) in {"JOB_CREATED", "JOB_UPDATED"}
    ensures a == DeleteAction <==> Upper(eventType) == "JOB_DELETED"
  {
    var t := Upper(eventType);
    if t == "JOB_CREATED" || t == "JOB_UPDATED" then UpsertAction
    else if t == "JOB_DELETED" then DeleteAction
    else IgnoreAction
  }

  /** The dispatch does not depend on the case of the event type's letters. */
  lemma ActionCaseInsensitive(eventType: string)
    ensures ActionFor(Upper(eventType)) == ActionFor(eventType)
  {
    UpperIdempotent(eventType);
  }

  /**
   * A Kafka message: its value validated as a `JobEvent` (`None` when validation
   * fails), and how embedding and inserting its chunks would end.
   */
  datatype Message = Message(value: Option<JobEvent>, insert: InsertOutcome)

  /** The store after one iteration of the consumer loop; exceptions are caught and the message skipped. */
  function AfterMessage(docs: seq<Document>, m: Message, split: Splitter): seq<Document>
  {
    match m.value
    case None => docs
    case Some(e) =>
      match ActionFor(e.eventType)
      case UpsertAction => AfterUpsert(docs, e.payload, split, m.insert)
      case DeleteAction => AfterDelete(docs, e.payload.jobId)
      case IgnoreAction => docs
  }

  /** The store after the consumer has handled `msgs` in order. */
  function AfterMessages(docs: seq<Document>, msgs: seq<Message>, split: Splitter): seq<Document>
    decreases |msgs|
  {
    if |msgs| == 0 then docs
    else AfterMessage(AfterMessages(docs, msgs[..|msgs| - 1], split), msgs[|msgs| - 1], split)
  }

  /** One iteration of the loop in `start_consumer`. */
  method HandleMessage(jobs: Collection, m: Message, split: Splitter)
    modifies jobs
    ensures jobs.docs == AfterMessage(old(jobs.docs), m, split)
  {
    match m.value
    case None =>
      // validation failed: the exception is caught and the message skipped
    case Some(e) =>
      var action := ActionFor(e.eventType);
      if action == UpsertAction {
        var raised := UpsertJob(jobs, e.payload, split, m.insert);
      } else if action == DeleteAction {
        var deleted := DeleteJob(jobs, e.payload.jobId);
      }
  }

  /**
   * A record as the Kafka iterator delivers it: `json.loads(m.decode('utf-8'))` either
   * decodes its value, or fails. The deserializer runs inside the iterator, outside the
   * loop's `try`, so a record that fails to decode ends `start_consumer`.
   */
  datatype Record = Decoded(message: Message) | Undecodable

  /** The messages the loop handles: those delivered before the first record that fails to decode. */
  function Processed(records: seq<Record>): (r: seq<Message>)
    ensures |r| <= |records|
    ensures forall i :: 0 <= i < |r| ==> records[i] == Decoded(r[i])
    ensures |r| < |records| ==> records[|r|].Undecodable?
    decreases |records|
  {
    if |records| == 0 then []
    else match records[0]
      case Undecodable => []
      case Decoded(m) => [m] + Processed(records[1..])
  }

  /**
   * `start_consumer` over a finite stream of records: it handles messages in order until
   * a record fails to decode, which raises out of the loop.
   */
  method StartConsumer(jobs: Collection, records: seq<Record>, split: Splitter) returns (crashed: bool)
    modifies jobs
    ensures jobs.docs == AfterMessages(old(jobs.docs), Processed(records), split)
    ensures crashed <==> exists i :: 0 <= i < |records| && records[i].Undecodable?
  {
    ghost var msgs := Processed(records);
    var i := 0;
    while i < |records| && records[i].Decoded?
      invariant i <= |records| && i <= |msgs|
      invariant forall k :: 0 <= k < i ==> records[k].Decoded?
      invariant jobs.docs == AfterMessages(old(jobs.docs), msgs[..i], split)
    {
      assert msgs[i] == records[i].message;
      assert msgs[..i + 1][..i] == msgs[..i];
      HandleMessage(jobs, records[i].message, split);
      i := i + 1;
    }
    assert msgs[..i] == msgs;
    crashed := i < |records|;
  }

  /** Once a record fails to decode, nothing delivered after it reaches the store. */
  lemma {:induction false} DecodeFailureEndsStream(records: seq<Record>, after: seq<Record>)
    requires exists i :: 0 <= i < |records| && records[i].Undecodable?
    ensures Processed(records + after) == Processed(records)
    decreases |records|
  {
    if records[0].Decoded? {
      var k :| 0 <= k < |records| && records[k].Undecodable?;
      assert records[1..][k - 1].Undecodable?;
      DecodeFailureEndsStream(records[1..], after);
      assert (records + after)[1..] == records[1..] + after;
    }
  }

  /** A message that fails validation or whose event type is unknown. */
  predicate Skipped(m: Message)
  {
    m.value.None? || ActionFor(m.value.value.eventType) == IgnoreAction
  }

  lemma {:induction false} AfterMessagesConcat(docs: seq<Document>, a: seq<Message>, b: seq<Message>, split: Splitter)
    ensures AfterMessages(docs, a + b, split) == AfterMessages(AfterMessages(docs, a, split), b, split)
    decreases |b|
  {
    if |b| == 0 {
      assert a + b == a;
    } else {
      assert (a + b)[..|a + b| - 1] == a + b[..|b| - 1];
      AfterMessagesConcat(docs, a, b[..|b| - 1], split);
    }
  }

  /** A skipped message changes nothing: the loop goes on as if it had not been delivered. */
  lemma SkippedMessageIgnored(docs: seq<Document>, before: seq<Message>, m: Message, after: seq<Message>, split: Splitter)
    requires Skipped(m)
    ensures AfterMessages(docs, before + [m] + after, split) == AfterMessages(docs, before + after, split)
  {
    AfterMessagesConcat(docs, before + [m], after, split);
    AfterMessagesConcat(docs, before, after, split);
    assert (before + [m])[..|before + [m]| - 1] == before;
  }

  /**
   * What a message makes of the chunks of job `id`: `None` when it does not concern
   * that job, otherwise the chunks the job has afterwards.
   */
  function Effect(m: Message, id: string, split: Splitter): Option<seq<Document>>
  {
    match m.value
    case None => None
    case Some(e) =>
      if e.payload.jobId != id then None
      else
        match ActionFor(e.eventType)
        case UpsertAction => Some(UpsertedChunks(e.payload, split, m.insert))
        case DeleteAction => Some([])
        case IgnoreAction => None
  }

  /** The effect of the last message in `msgs` that concerns job `id`. */
  function LastEffect(msgs: seq<Message>, id: string, split: Splitter): Option<seq<Document>>
    decreases |msgs|
  {
    if |msgs| == 0 then None
    else
      var e := Effect(msgs[|msgs| - 1], id, split);
      if e.Some? then e else LastEffect(msgs[..|msgs| - 1], id, split)
  }

  lemma EffectOfMessage(docs: seq<Document>, m: Message, id: string, split: Splitter)
    ensures JobChunks(AfterMessage(docs, m, split), id) == Effect(m, id, split).GetOr(JobChunks(docs, id))
  {
    match m.value
    case None =>
    case Some(e) =>
      match ActionFor(e.eventType)
      case UpsertAction => UpsertEffect(docs, e.payload, split, m.insert);
      case DeleteAction => DeleteRemovesJob(docs, e.payload.jobId);
      case IgnoreAction =>
  }

  /**
   * The store invariant of the synchronisation engine: after any sequence of messages
   * the chunks of a job are those left by the last message about that job (the
   * prepared chunks of its last successful upsert, the part written before a failed
   * insert, none after a delete), and are untouched when no message concerned it. Messages about other
   * jobs, in whatever interleaving, do not matter.
   */
  lemma {:induction false} ChunksFollowLastEvent(docs: seq<Document>, msgs: seq<Message>, id: string, split: Splitter)
    ensures JobChunks(AfterMessages(docs, msgs, split), id) == LastEffect(msgs, id, split).GetOr(JobChunks(docs, id))
    decreases |msgs|
  {
    if |msgs| > 0 {
      var prefix := msgs[..|msgs| - 1];
      ChunksFollowLastEvent(docs, prefix, id, split);
      EffectOfMessage(AfterMessages(docs, prefix, split), msgs[|msgs| - 1], id, split);
    }
  }
}
