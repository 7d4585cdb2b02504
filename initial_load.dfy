/**
 * The bulk loader: on a fresh installation it fills `policies_vector` with the chunks
 * of the policies text and `jobs_vector` with one document per job of the jobs file,
 * normalising the MongoDB Extended JSON forms (`{"$oid": …}`, `{"$date": …}`,
 * `{"$numberDecimal": …}`) of the export. Both loads are skipped when their collection
 * already holds documents. File contents are parameters: the jobs file as a
 * `JobsFile` (missing, not valid JSON, unreadable, or the parsed value), the policies
 * text as an `Option<string>` (`None` when it cannot be read).
 */
module InitialLoad {
  import opened Wrappers
  import opened Text
  import opened Documents
  import opened VectorStore
  import KafkaConsumer

  /** One object of the jobs file. */
  type RawJob = map<string, Value>

  /** `d.get(key, default)`. */
  function Get(d: map<string, Value>, key: string, default: Value): Value
  {
    if key in d then d[key] else default
  }

  /**
   * `_get_value(data, key, sub_key)`: the value under `key`, or the value under
   * `sub_key` inside it when it is a dictionary and a (non-empty) sub-key is given.
   * `None` is `Null`.
   */
  function GetValue(data: map<string, Value>, key: string, subKey: Option<string>): Value
  {
    var value := Get(data, key, Null);
    if value.Obj? && subKey.Some? && subKey.value != "" then Get(value.fields, subKey.value, Null) else value
  }

  /**
   * A missing key gives `None`; a dictionary without the sub-key gives `None`; without a
   * sub-key the dictionary itself is returned.
   */
  lemma GetValueMissing(data: map<string, Value>, key: string, subKey: Option<string>)
    ensures key !in data ==> GetValue(data, key, subKey) == Null
    ensures key in data && data[key].Obj? && subKey.Some? && subKey.value != "" && subKey.value !in data[key].fields ==>
      GetValue(data, key, subKey) == Null
    ensures subKey.None? ==> GetValue(data, key, subKey) == Get(data, key, Null)
  {
  }

  /**
   * The wrapped form `{key: {sub_key: v}}` and the plain form `{key: v}` of a scalar or
   * list value read the same: both give `v`.
   */
  lemma GetValueNormalises(data: map<string, Value>, key: string, subKey: string, v: Value)
    requires subKey != "" && !v.Obj?
    ensures GetValue(data[key := Obj(map[subKey := v])], key, Some(subKey)) == v
    ensures GetValue(data[key := v], key, Some(subKey)) == v
  {
  }

  /** How a composite value (a dictionary or a list) is printed by `str`; taken as given. */
  type Repr = Value -> string

  /** `str(v)`, as an f-string prints it. */
  function PyStr(v: Value, repr: Repr): string
  {
    match v
    case Null => "None"
    case Bool(b) => if b then "True" else "False"
    case Int(i) => IntToString(i)
    case Str(s) => s
    case Obj(_) => repr(v)
    case List(_) => repr(v)
  }

  const TitleLabel: string := "Tiêu đề: "
  const DescriptionLabel: string := "Mô tả: "
  const RequirementsLabel: string := "Yêu cầu: "
  const BenefitsLabel: string := "Phúc lợi: "

  /** `job_data.get(key, '')` as the f-string prints it. */
  function FieldText(job: RawJob, key: string, repr: Repr): string
  {
    PyStr(Get(job, key, Str("")), repr)
  }

  /** The page content, built by the four assignments of the loop body. */
  function PageContent(job: RawJob, repr: Repr): string
  {
    var c := TitleLabel + FieldText(job, "title", repr) + "\n";
    var c := c + DescriptionLabel + FieldText(job, "description", repr) + "\n";
    var c := c + RequirementsLabel + FieldText(job, "requirements", repr) + "\n";
    c + BenefitsLabel + FieldText(job, "benefits", repr)
  }

  /** The four lines of a page: title, description, requirements, benefits. */
  function PageLines(job: RawJob, repr: Repr): seq<string>
  {
    [ TitleLabel + FieldText(job, "title", repr),
      DescriptionLabel + FieldText(job, "description", repr),
      RequirementsLabel + FieldText(job, "requirements", repr),
      BenefitsLabel + FieldText(job, "benefits", repr) ]
  }

  /**
   * The page content is exactly the four labelled lines joined by newlines.
   */
  lemma PageContentLines(job: RawJob, repr: Repr)
    ensures PageContent(job, repr) == Join(PageLines(job, repr), "\n")
    ensures |PageLines(job, repr)| == 4
  {
    var t0, t1, t2, t3 := FieldText(job, "title", repr), FieldText(job, "description", repr),
                          FieldText(job, "requirements", repr), FieldText(job, "benefits", repr);
    var a, b, c, d := TitleLabel + t0, DescriptionLabel + t1, RequirementsLabel + t2, BenefitsLabel + t3;
    JoinFour(a, b, c, d, "\n");
    var c1 := a + "\n";
    AppendAssoc(c1, DescriptionLabel, t1);
    var c2 := c1 + b + "\n";
    AppendAssoc(c2, RequirementsLabel, t2);
    var c3 := c2 + c + "\n";
    AppendAssoc(c3, BenefitsLabel, t3);
  }

  /** A field missing from the job leaves its label alone on its line. */
  lemma PageLineDefaults(job: RawJob, repr: Repr)
    ensures "title" !in job ==> PageLines(job, repr)[0] == TitleLabel
    ensures "description" !in job ==> PageLines(job, repr)[1] == DescriptionLabel
    ensures "requirements" !in job ==> PageLines(job, repr)[2] == RequirementsLabel
    ensures "benefits" !in job ==> PageLines(job, repr)[3] == BenefitsLabel
  {
  }

  /** `str(x) if x else ""`: the identifiers of the metadata. */
  function IdText(v: Value, repr: Repr): string
  {
    if Truthy(v) then PyStr(v, repr) else ""
  }

  /** `full_metadata` before the `None` values are dropped. */
  function DraftMetadata(job: RawJob, repr: Repr): Metadata
  {
    map[
      "source" := Str("jobs"),
      "jobId" := Str(IdText(GetValue(job, "_id", Some("$oid")), repr)),
      "title" := Get(job, "title", Str("")),
      "category" := Get(job, "category", Str("")),
      "experience" := Get(job, "experience", Str("")),
      "type" := Get(job, "type", Str("")),
      "workType" := Get(job, "workType", Str("")),
      "status" := Get(job, "status", Str("")),
      "approved" := Get(job, "approved", Bool(false)),
      "location_city" := GetValue(job, "location", Some("city")),
      "location_district" := GetValue(job, "location", Some("district")),
      "minSalary" := GetValue(job, "minSalary", Some("$numberDecimal")),
      "maxSalary" := GetValue(job, "maxSalary", Some("$numberDecimal")),
      "deadline" := GetValue(job, "deadline", Some("$date")),
      "createdAt" := GetValue(job, "createdAt", Some("$date")),
      "updatedAt" := GetValue(job, "updatedAt", Some("$date")),
      "recruiterProfileId" := Str(IdText(GetValue(job, "recruiterProfileId", Some("$oid")), repr))
    ]
  }

  /** `{k: v for k, v in m.items() if v is not None}`. */
  function DropNone(m: Metadata): (r: Metadata)
    ensures forall k :: k in r <==> k in m && m[k] != Null
    ensures forall k :: k in r ==> r[k] == m[k]
  {
    map k | k in m && m[k] != Null :: m[k]
  }

  /** The document built for one raw job. */
  function JobDocument(job: RawJob, repr: Repr): Document
  {
    Document(PageContent(job, repr), DropNone(DraftMetadata(job, repr)))
  }

  /** The documents built for a list of raw jobs: one per job, in order. */
  function JobDocuments(raw: seq<RawJob>, repr: Repr): (r: seq<Document>)
    ensures |r| == |raw|
    ensures forall i :: 0 <= i < |raw| ==> r[i] == JobDocument(raw[i], repr)
  {
    seq(|raw|, i requires 0 <= i < |raw| => JobDocument(raw[i], repr))
  }

  /** Whether `float(s)` accepts a string; taken as given. */
  type FloatParse = string -> bool

  function Pow2(n: nat): (r: nat)
    ensures r > 0
  {
    if n == 0 then 1 else 2 * Pow2(n - 1)
  }

  /**
   * The magnitude from which `float(n)` of a Python integer raises `OverflowError`:
   * halfway between the largest double, 2^1024 - 2^971, and 2^1024, where rounding to
   * nearest (ties to even) goes past the double range.
   */
  const FloatIntLimit: int := Pow2(1024) - Pow2(970)

  lemma {:induction false} Pow2Grows(a: nat, b: nat)
    requires a < b
    ensures Pow2(a) < Pow2(b)
    decreases b
  {
    if a < b - 1 {
      Pow2Grows(a, b - 1);
    }
  }

  /** The limit lies between 2^1023, the largest power of two a double holds, and 2^1024. */
  lemma FloatIntLimitBounds()
    ensures Pow2(1023) < FloatIntLimit < Pow2(1024)
  {
    Pow2Grows(970, 1023);
  }

  /**
   * Whether `float(v)` succeeds on an unwrapped salary value. `None` is never converted,
   * booleans convert, an integer converts when it lies within the double range, a
   * string converts when `float` accepts it, and a dictionary or a list raises.
   */
  predicate FloatConvertible(v: Value, floatOk: FloatParse)
  {
    match v
    case Null => true
    case Bool(_) => true
    case Int(n) => -FloatIntLimit < n < FloatIntLimit
    case Str(t) => floatOk(t)
    case Obj(_) => false
    case List(_) => false
  }

  /**
   * Whether the loop body gets through an entry of the jobs file without raising: it is
   * a JSON object (otherwise `job_data.get` raises), and both salaries convert.
   */
  predicate Loadable(entry: Value, floatOk: FloatParse)
  {
    entry.Obj? &&
    FloatConvertible(GetValue(entry.fields, "minSalary", Some("$numberDecimal")), floatOk) &&
    FloatConvertible(GetValue(entry.fields, "maxSalary", Some("$numberDecimal")), floatOk)
  }

  predicate AllLoadable(entries: seq<Value>, floatOk: FloatParse)
  {
    forall i :: 0 <= i < |entries| ==> Loadable(entries[i], floatOk)
  }

  /** The raw jobs of entries that are all JSON objects. */
  function RawJobsOf(entries: seq<Value>): (r: seq<RawJob>)
    requires forall i :: 0 <= i < |entries| ==> entries[i].Obj?
    ensures |r| == |entries|
    ensures forall i :: 0 <= i < |entries| ==> r[i] == entries[i].fields
  {
    seq(|entries|, i requires 0 <= i < |entries| => entries[i].fields)
  }

  /**
   * The loop that fills `enriched_job_docs`. Returns whether it raised: the first entry
   * that is not an object, or whose salary `float` rejects, ends the load before
   * anything is inserted.
   */
  method BuildJobDocuments(entries: seq<Value>, repr: Repr, floatOk: FloatParse) returns (docs: seq<Document>, raised: bool)
    ensures raised <==> !AllLoadable(entries, floatOk)
    ensures !raised ==> docs == JobDocuments(RawJobsOf(entries), repr)
  {
    docs := [];
    var i := 0;
    while i < |entries|
      invariant 0 <= i <= |entries| && |docs| == i
      invariant forall k :: 0 <= k < i ==> Loadable(entries[k], floatOk) && docs[k] == JobDocument(entries[k].fields, repr)
    {
      if !Loadable(entries[i], floatOk) {
        return docs, true;
      }
      docs := docs + [JobDocument(entries[i].fields, repr)];
      i := i + 1;
    }
    raised := false;
  }

  /**
   * The stored metadata of a loaded job: no value is `None`; every other value of the
   * draft is kept as it is; the source is `"jobs"`, the job id is always present (`""`
   * when the job has none) and `approved` defaults to `False`.
   */
  lemma LoadedMetadata(job: RawJob, repr: Repr)
    ensures forall k :: k in JobDocument(job, repr).metadata ==> JobDocument(job, repr).metadata[k] != Null
    ensures forall k :: k in DraftMetadata(job, repr) && DraftMetadata(job, repr)[k] != Null ==>
      k in JobDocument(job, repr).metadata && JobDocument(job, repr).metadata[k] == DraftMetadata(job, repr)[k]
    ensures "source" in JobDocument(job, repr).metadata && JobDocument(job, repr).metadata["source"] == Str("jobs")
    ensures "jobId" in JobDocument(job, repr).metadata &&
      JobDocument(job, repr).metadata["jobId"] == Str(IdText(GetValue(job, "_id", Some("$oid")), repr))
    ensures "_id" !in job ==> JobDocument(job, repr).metadata["jobId"] == Str("")
    ensures "approved" !in job ==>
      "approved" in JobDocument(job, repr).metadata && JobDocument(job, repr).metadata["approved"] == Bool(false)
  {
    var draft := DraftMetadata(job, repr);
    assert "source" in draft && draft["source"] == Str("jobs");
    assert "jobId" in draft && draft["jobId"] == Str(IdText(GetValue(job, "_id", Some("$oid")), repr));
    assert "approved" in draft && draft["approved"] == Get(job, "approved", Bool(false));
  }

  /**
   * A loaded job's deadline is the unwrapped `deadline` field: the jobs retriever and
   * the cleanup compare that value, and a job without one (missing or `null`) has no
   * `deadline` key at all.
   */
  lemma LoadedDeadline(job: RawJob, repr: Repr)
    ensures GetValue(job, "deadline", Some("$date")) == Null ==> "deadline" !in JobDocument(job, repr).metadata
    ensures GetValue(job, "deadline", Some("$date")) != Null ==>
      "deadline" in JobDocument(job, repr).metadata &&
      JobDocument(job, repr).metadata["deadline"] == GetValue(job, "deadline", Some("$date"))
  {
    var draft := DraftMetadata(job, repr);
    assert "deadline" in draft && draft["deadline"] == GetValue(job, "deadline", Some("$date"));
  }

  /**
   * The loader stores the job id under `jobId`, while the index synchronisation deletes
   * by `job_id`: no loaded document ever matches the consumer's per-job query.
   */
  lemma LoadedJobOutsideJobQueries(job: RawJob, repr: Repr, id: string)
    ensures !Matches(KafkaConsumer.JobQuery(id), JobDocument(job, repr))
  {
    var draft := DraftMetadata(job, repr);
    assert "job_id" !in draft;
  }

  /**
   * Consequently the consumer's delete (and the delete half of its upsert) leaves every
   * loaded document in place, whatever the job id.
   */
  lemma ConsumerKeepsLoadedJobs(raw: seq<RawJob>, repr: Repr, id: string)
    ensures KafkaConsumer.AfterDelete(JobDocuments(raw, repr), id) == JobDocuments(raw, repr)
  {
    var docs := JobDocuments(raw, repr);
    forall k | 0 <= k < |docs| ensures !Matches(KafkaConsumer.JobQuery(id), docs[k]) {
      LoadedJobOutsideJobQueries(raw[k], repr, id);
    }
    NoneMatch(docs, KafkaConsumer.JobQuery(id));
  }

  /** `count_documents({})` is the size of the collection. */
  lemma SelectAllIsAll(docs: seq<Document>)
    ensures |Select(docs, MatchAll)| == |docs|
  {
    AllMatch(docs, MatchAll);
  }

  /**
   * What reading `data/jobs.json` gives: not found or not valid JSON (both reported and
   * returned), another read error (a permission or a decoding error, which propagates),
   * or the parsed value.
   */
  datatype JobsFile = NotFound | InvalidJson | ReadFails | Parsed(json: Value)

  /**
   * The entries `for job_data in raw_job_data` visits, or `None` when `len` or the
   * iteration itself makes the loop body raise: a list gives its elements, an empty
   * dictionary or string gives none, a non-empty one gives keys or characters on which
   * `.get` raises, and `len` of any other value raises.
   */
  function TopLevelEntries(v: Value): Option<seq<Value>>
  {
    match v
    case List(xs) => Some(xs)
    case Obj(m) => if m == map[] then Some([]) else None
    case Str(t) => if t == "" then Some([]) else None
    case _ => None
  }

  /** Whether `load_jobs` on an empty collection raises. */
  predicate LoadJobsRaises(file: JobsFile, floatOk: FloatParse)
  {
    file.ReadFails? ||
    (file.Parsed? && (TopLevelEntries(file.json).None? || !AllLoadable(TopLevelEntries(file.json).value, floatOk)))
  }

  /** The jobs collection after `load_jobs`, given what reading the jobs file gives. */
  function AfterLoadJobs(docs: seq<Document>, file: JobsFile, repr: Repr, floatOk: FloatParse): seq<Document>
  {
    if |docs| > 0 then docs
    else if LoadJobsRaises(file, floatOk) || !file.Parsed? then []
    else JobDocuments(RawJobsOf(TopLevelEntries(file.json).value), repr)
  }

  /**
   * `load_jobs`: skipped when the collection holds documents; otherwise the collection
   * is emptied, the file read, one document built per entry and the documents inserted
   * when there are any. Returns the number of documents loaded and whether it raised.
   */
  method LoadJobs(jobs: Collection, file: JobsFile, repr: Repr, floatOk: FloatParse) returns (loaded: nat, raised: bool)
    modifies jobs
    ensures jobs.docs == AfterLoadJobs(old(jobs.docs), file, repr, floatOk)
    ensures raised <==> |old(jobs.docs)| == 0 && LoadJobsRaises(file, floatOk)
    ensures loaded == (if |old(jobs.docs)| > 0 then 0 else |jobs.docs|)
  {
    SelectAllIsAll(jobs.docs);
    var existing := jobs.CountDocuments(MatchAll);
    if existing > 0 {
      return 0, false;
    }
    var cleared := jobs.DeleteMany(MatchAll);
    assert jobs.docs == [];
    match file {
      case NotFound =>
        return 0, false;
      case InvalidJson =>
        return 0, false;
      case ReadFails =>
        return 0, true;
      case Parsed(json) =>
        var entries := TopLevelEntries(json);
        if entries.None? {
          return 0, true;
        }
        var enriched, failed := BuildJobDocuments(entries.value, repr, floatOk);
        if failed {
          return 0, true;
        }
        if |enriched| > 0 {
          jobs.InsertMany(enriched);
          assert jobs.docs == enriched;
        }
        loaded, raised := |enriched|, false;
    }
  }

  /**
   * A load into a collection that already holds documents changes nothing, so once a
   * load has stored something every later load is skipped; a file with no jobs stores
   * nothing.
   */
  lemma LoadJobsOnce(docs: seq<Document>, file: JobsFile, later: JobsFile, repr: Repr, floatOk: FloatParse)
    ensures |docs| > 0 ==> AfterLoadJobs(docs, file, repr, floatOk) == docs
    ensures |AfterLoadJobs(docs, file, repr, floatOk)| > 0 ==>
      AfterLoadJobs(AfterLoadJobs(docs, file, repr, floatOk), later, repr, floatOk) == AfterLoadJobs(docs, file, repr, floatOk)
    ensures |docs| == 0 && file == Parsed(List([])) ==> AfterLoadJobs(docs, file, repr, floatOk) == []
  {
  }

  /**
   * One entry the loop body cannot get through (not an object, or a salary `float`
   * rejects, such as `{"$numberDecimal": "thỏa thuận"}`) makes the whole load raise and
   * store nothing, however many good entries come before it; with every entry good,
   * each one is stored, in order.
   */
  lemma OneBadEntryStoresNothing(entries: seq<Value>, repr: Repr, floatOk: FloatParse, i: nat)
    requires i < |entries|
    ensures !Loadable(entries[i], floatOk) ==>
      LoadJobsRaises(Parsed(List(entries)), floatOk) && AfterLoadJobs([], Parsed(List(entries)), repr, floatOk) == []
    ensures AllLoadable(entries, floatOk) ==>
      |AfterLoadJobs([], Parsed(List(entries)), repr, floatOk)| == |entries| &&
      AfterLoadJobs([], Parsed(List(entries)), repr, floatOk)[i] == JobDocument(entries[i].fields, repr)
  {
  }

  /**
   * An integer salary too large for a double makes `float` raise, so the entry stops
   * the load; one inside the double range converts.
   */
  lemma HugeSalaryRaises(fields: map<string, Value>, n: int, floatOk: FloatParse)
    requires "minSalary" in fields && fields["minSalary"] == Int(n)
    ensures n >= FloatIntLimit || n <= -FloatIntLimit ==> !Loadable(Obj(fields), floatOk)
    ensures -FloatIntLimit < n < FloatIntLimit ==> FloatConvertible(GetValue(fields, "minSalary", Some("$numberDecimal")), floatOk)
  {
  }

  /** The metadata `TextLoader` gives the policies document. */
  const PoliciesPath: string := "data/policies.txt"

  /** The chunks of the policies text. */
  function PolicyChunks(text: string, split: Splitter): seq<Document>
  {
    SplitDocument(Document(text, map["source" := Str(PoliciesPath)]), split)
  }

  /**
   * `load_policies`: skipped when the collection holds documents; otherwise the file
   * is read (`None`: it cannot be, and the error propagates before anything changes),
   * split, the collection emptied and the chunks inserted. Returns whether it raised.
   */
  method LoadPolicies(policies: Collection, text: Option<string>, split: Splitter) returns (raised: bool)
    modifies policies
    ensures |old(policies.docs)| > 0 ==> policies.docs == old(policies.docs) && !raised
    ensures |old(policies.docs)| == 0 && text.None? ==> policies.docs == old(policies.docs) && raised
    ensures |old(policies.docs)| == 0 && text.Some? ==> policies.docs == PolicyChunks(text.value, split) && !raised
  {
    SelectAllIsAll(policies.docs);
    var existing := policies.CountDocuments(MatchAll);
    if existing > 0 {
      return false;
    }
    if text.None? {
      return true;
    }
    var chunks := PolicyChunks(text.value, split);
    var cleared := policies.DeleteMany(MatchAll);
    AllMatch(old(policies.docs), MatchAll);
    policies.InsertMany(chunks);
    raised := false;
  }

  /** Every policy chunk is a segment of the text, in order, tagged with the file it came from. */
  lemma PolicyChunksShape(text: string, split: Splitter)
    ensures |PolicyChunks(text, split)| == |split(text)|
    ensures forall i :: 0 <= i < |split(text)| ==>
      PolicyChunks(text, split)[i].pageContent == split(text)[i] &&
      PolicyChunks(text, split)[i].metadata == map["source" := Str(PoliciesPath)]
  {
  }
}
