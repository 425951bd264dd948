/**
 * src/background.ts: the submission pipeline of the extension's service
 * worker.  A request passes the duplicate guard and the single-flight flag,
 * the job's external id is checked against the database, the database schema
 * comes from a one-hour cache or from Notion, and the page properties are
 * built against that schema before the page is created.
 */
module Background {
  import opened Wrappers
  import opened JsString
  import opened Notion
  import opened RecentJobs
  import opened Submission

  /** `SCHEMA_CACHE_LIFETIME`: one hour, in milliseconds. */
  const SchemaCacheLifetime := 60 * 60 * 1000

  /** Text properties are cut to Notion's rich-text limit. */
  const RichTextLimit := 2000

  datatype CacheEntry = CacheEntry(schema: Schema, timestamp: int)

  /** `schemaCache`, keyed by database id. */
  type SchemaCache = map<string, CacheEntry>

  // ------------------------------------------------------------ schema cache

  /** `schemaCache[key] && now - schemaCache[key].timestamp < SCHEMA_CACHE_LIFETIME` */
  predicate IsFresh(cache: SchemaCache, key: string, now: int) {
    key in cache && now - cache[key].timestamp < SchemaCacheLifetime
  }

  /** The schema a lookup settles on (none when the describe call failed) and the cache after it. */
  datatype CacheStep = CacheStep(schema: Option<Schema>, cache: SchemaCache)

  /** The cache step of both callers: a fresh entry, else the described schema stored with `now`. */
  function CachedSchema(cache: SchemaCache, key: string, now: int, describe: Fetched<Schema>): CacheStep {
    if IsFresh(cache, key, now) then CacheStep(Some(cache[key].schema), cache)
    else match describe
      case Ok(schema) => CacheStep(Some(schema), cache[key := CacheEntry(schema, now)])
      case _ => CacheStep(None, cache)
  }

  /** A fresh entry is used as it is: the cache is not touched and the describe call is not made. */
  lemma FreshEntryIsUsed(cache: SchemaCache, key: string, now: int, describe: Fetched<Schema>, other: Fetched<Schema>)
    requires IsFresh(cache, key, now)
    ensures CachedSchema(cache, key, now, describe) == CacheStep(Some(cache[key].schema), cache)
    ensures CachedSchema(cache, key, now, describe) == CachedSchema(cache, key, now, other)
  {
  }

  /**
   * Without a fresh entry the schema is the described one, stored with the
   * lookup time and nothing else changed; a failed describe call caches nothing.
   */
  lemma StaleEntryIsFetched(cache: SchemaCache, key: string, now: int, describe: Fetched<Schema>)
    requires !IsFresh(cache, key, now)
    ensures describe.Ok? ==>
      CachedSchema(cache, key, now, describe) == CacheStep(Some(describe.body), cache[key := CacheEntry(describe.body, now)])
    ensures !describe.Ok? ==> CachedSchema(cache, key, now, describe) == CacheStep(None, cache)
  {
  }

  /** A lookup touches only its own entry. */
  lemma LookupKeepsOthers(cache: SchemaCache, key: string, now: int, describe: Fetched<Schema>, other: string)
    requires other != key
    ensures var c := CachedSchema(cache, key, now, describe).cache;
      (other in c <==> other in cache) && (other in cache ==> c[other] == cache[other])
  {
  }

  /** Right after an entry is stored or re-stamped at `t`, it is fresh exactly for the next hour. */
  lemma StampedEntryLastsAnHour(cache: SchemaCache, key: string, schema: Schema, t: int, later: int)
    ensures IsFresh(cache[key := CacheEntry(schema, t)], key, later) <==> later - t < SchemaCacheLifetime
  {
  }

  // --------------------------------------------------------- external id check

  datatype CheckStep = CheckStep(found: bool, cache: SchemaCache)

  /**
   * `checkJobExistsInNotion`: the schema from the cache, then a query on the
   * resolved `ExternalID` property; every failure counts as "does not exist".
   */
  function JobExists(cache: SchemaCache, databaseId: string, externalId: string, now: int,
                     describe: Fetched<Schema>, countMatches: (string, string) -> Fetched<nat>): CheckStep {
    var step := CachedSchema(cache, databaseId, now, describe);
    match step.schema
    case None => CheckStep(false, step.cache)
    case Some(schema) =>
      match countMatches(ResolveName(schema, ExternalIdName), externalId)
      case Ok(n) => CheckStep(n > 0, step.cache)
      case _ => CheckStep(false, step.cache)
  }

  /**
   * A job exists exactly when the schema was obtained and the query on its
   * `ExternalID` property for this id succeeded with at least one match.
   */
  lemma ExistsIffMatched(cache: SchemaCache, databaseId: string, externalId: string, now: int,
                         describe: Fetched<Schema>, countMatches: (string, string) -> Fetched<nat>)
    ensures JobExists(cache, databaseId, externalId, now, describe, countMatches).found <==>
      var step := CachedSchema(cache, databaseId, now, describe);
      && step.schema.Some?
      && countMatches(ResolveName(step.schema.value, ExternalIdName), externalId).Ok?
      && countMatches(ResolveName(step.schema.value, ExternalIdName), externalId).body > 0
    ensures JobExists(cache, databaseId, externalId, now, describe, countMatches).cache
         == CachedSchema(cache, databaseId, now, describe).cache
  {
  }

  // ----------------------------------------------------------------- payload

  /** A non-empty salary is written verbatim into a text property, or filtered into a number property when it parses. */
  predicate SalaryWritten(schema: Schema, salary: string) {
    var key := ResolveName(schema, SalaryName);
    && salary != []
    && (HasType(schema, key, RichTextType)
        || (HasType(schema, key, NumberType) && ParsesAsNumber(KeepAsWritten(salary))))
  }

  /** The salary branch as one write. */
  function SalaryWrite(schema: Schema, salary: string): Write {
    var key := ResolveName(schema, SalaryName);
    Write(SalaryWritten(schema, salary), key,
          if HasType(schema, key, RichTextType) then RichText(salary) else NumberValue(KeepAsWritten(salary)))
  }

  /** The `properties` object `addJobToNotion` sends: its ten assignments in source order. */
  function TsPayload(schema: Schema, job: JobData, date: string): Payload {
    var p0 := Put(map[], Typed(schema, ExternalIdName, RichTextType, RichText(job.id)));
    var p1 := Put(p0, Write(true, ResolveName(schema, CompanyName), TitleText(job.company)));
    var p2 := Put(p1, Typed(schema, PositionName, RichTextType, RichText(job.position)));
    var p3 := Put(p2, Guarded(job.location != [], Typed(schema, LocationName, RichTextType, RichText(job.location))));
    var p4 := Put(p3, Typed(schema, UrlName, UrlType, UrlValue(job.jobUrl)));
    var p5 := Put(p4, Typed(schema, StatusName, SelectType, SelectValue(job.status)));
    var p6 := Put(p5, Typed(schema, DateAddedName, DateType, DateValue(date)));
    var p7 := Put(p6, Typed(schema, DescriptionName, RichTextType, RichText(Take(job.description, RichTextLimit))));
    var p8 := Put(p7, Typed(schema, NotesName, RichTextType, RichText(Take(job.notes, RichTextLimit))));
    Put(p8, SalaryWrite(schema, job.salary))
  }

  /** The same assignments indexed by field: the one for field `i` of `FieldNames`, under the name it resolves to. */
  function TsWrite(schema: Schema, job: JobData, date: string, i: nat): (w: Write)
    requires i < |FieldNames|
    ensures w.key == ResolveName(schema, FieldNames[i])
  {
    if i == 0 then Typed(schema, ExternalIdName, RichTextType, RichText(job.id))
    else if i == 1 then Write(true, ResolveName(schema, CompanyName), TitleText(job.company))
    else if i == 2 then Typed(schema, PositionName, RichTextType, RichText(job.position))
    else if i == 3 then Guarded(job.location != [], Typed(schema, LocationName, RichTextType, RichText(job.location)))
    else if i == 4 then Typed(schema, UrlName, UrlType, UrlValue(job.jobUrl))
    else if i == 5 then Typed(schema, StatusName, SelectType, SelectValue(job.status))
    else if i == 6 then Typed(schema, DateAddedName, DateType, DateValue(date))
    else if i == 7 then Typed(schema, DescriptionName, RichTextType, RichText(Take(job.description, RichTextLimit)))
    else if i == 8 then Typed(schema, NotesName, RichTextType, RichText(Take(job.notes, RichTextLimit)))
    else SalaryWrite(schema, job.salary)
  }

  function TsWrites(schema: Schema, job: JobData, date: string): (r: seq<Write>)
    ensures |r| == |FieldNames|
  {
    seq(|FieldNames|, i requires 0 <= i < |FieldNames| => TsWrite(schema, job, date, i))
  }

  /** The payload is the indexed assignments carried out in order. */
  lemma TsPayloadIsApply(schema: Schema, job: JobData, date: string)
    ensures TsPayload(schema, job, date) == Apply(map[], TsWrites(schema, job, date))
  {
    ApplyTen(map[], TsWrites(schema, job, date));
  }

  /** The resolved names of the ten fields are pairwise different, so no write overwrites another. */
  lemma TsWritesDistinct(schema: Schema, job: JobData, date: string)
    ensures DistinctKeys(TsWrites(schema, job, date))
  {
    var ws := TsWrites(schema, job, date);
    FieldNamesDifferIgnoringCase();
    forall i, j | 0 <= i < j < |ws|
      ensures ws[i].key != ws[j].key
    {
      ResolvedNamesDiffer(schema, FieldNames[i], FieldNames[j]);
    }
  }

  /** The write at index `i` of the builder is what the payload shows under its key. */
  lemma TsPayloadShows(schema: Schema, job: JobData, date: string, i: nat)
    requires i < |FieldNames|
    ensures var w := TsWrite(schema, job, date, i); Emits(TsPayload(schema, job, date), w.key, w.cond, w.value)
  {
    TsWritesDistinct(schema, job, date);
    TsPayloadIsApply(schema, job, date);
    ApplyWrite(map[], TsWrites(schema, job, date), i);
  }

  /**
   * Company is always written, as a title; ExternalID, Position, Description
   * and Notes when their property is rich text, the last two cut to 2000
   * characters; Location when non-empty and rich text; URL, Status and Date
   * Added when of type url, select and date.
   */
  lemma TsPayloadFields(schema: Schema, job: JobData, date: string)
    ensures var p := TsPayload(schema, job, date);
      && Emits(p, ResolveName(schema, ExternalIdName),
               HasType(schema, ResolveName(schema, ExternalIdName), RichTextType), RichText(job.id))
      && Emits(p, ResolveName(schema, CompanyName), true, TitleText(job.company))
      && Emits(p, ResolveName(schema, PositionName),
               HasType(schema, ResolveName(schema, PositionName), RichTextType), RichText(job.position))
      && Emits(p, ResolveName(schema, LocationName),
               job.location != [] && HasType(schema, ResolveName(schema, LocationName), RichTextType),
               RichText(job.location))
      && Emits(p, ResolveName(schema, UrlName),
               HasType(schema, ResolveName(schema, UrlName), UrlType), UrlValue(job.jobUrl))
      && Emits(p, ResolveName(schema, StatusName),
               HasType(schema, ResolveName(schema, StatusName), SelectType), SelectValue(job.status))
      && Emits(p, ResolveName(schema, DateAddedName),
               HasType(schema, ResolveName(schema, DateAddedName), DateType), DateValue(date))
      && Emits(p, ResolveName(schema, DescriptionName),
               HasType(schema, ResolveName(schema, DescriptionName), RichTextType),
               RichText(Take(job.description, RichTextLimit)))
      && Emits(p, ResolveName(schema, NotesName),
               HasType(schema, ResolveName(schema, NotesName), RichTextType), RichText(Take(job.notes, RichTextLimit)))
  {
    TsPayloadShows(schema, job, date, 0);
    TsPayloadShows(schema, job, date, 1);
    TsPayloadShows(schema, job, date, 2);
    TsPayloadShows(schema, job, date, 3);
    TsPayloadShows(schema, job, date, 4);
    TsPayloadShows(schema, job, date, 5);
    TsPayloadShows(schema, job, date, 6);
    TsPayloadShows(schema, job, date, 7);
    TsPayloadShows(schema, job, date, 8);
  }

  /**
   * The salary lands only as text: the character filter of the number branch
   * keeps nothing `parseFloat` could read, so a number property never gets a value.
   */
  lemma TsPayloadSalary(schema: Schema, job: JobData, date: string)
    ensures Emits(TsPayload(schema, job, date), ResolveName(schema, SalaryName),
                  job.salary != [] && HasType(schema, ResolveName(schema, SalaryName), RichTextType),
                  RichText(job.salary))
  {
    TsSalaryShows(schema, job, date);
    SalaryOnlyAsText(TsPayload(schema, job, date), schema, job.salary);
  }

  lemma TsSalaryShows(schema: Schema, job: JobData, date: string)
    ensures var w := SalaryWrite(schema, job.salary); Emits(TsPayload(schema, job, date), w.key, w.cond, w.value)
  {
    var w := TsWrite(schema, job, date, 9);
    assert w == SalaryWrite(schema, job.salary);
    TsPayloadShows(schema, job, date, 9);
  }

  /** Wherever the salary write shows, it shows as text only: the filtered form never parses. */
  lemma SalaryOnlyAsText(p: Payload, schema: Schema, salary: string)
    requires var w := SalaryWrite(schema, salary); Emits(p, w.key, w.cond, w.value)
    ensures Emits(p, ResolveName(schema, SalaryName),
                  salary != [] && HasType(schema, ResolveName(schema, SalaryName), RichTextType), RichText(salary))
  {
    FilteredSalaryNeverParses(salary);
  }

  /** No key outside the ten resolved names is ever written. */
  lemma TsPayloadOnlyFields(schema: Schema, job: JobData, date: string, k: string)
    requires k in TsPayload(schema, job, date)
    ensures exists i | 0 <= i < |FieldNames| :: k == ResolveName(schema, FieldNames[i])
  {
    TsPayloadIsApply(schema, job, date);
    ApplyOnlyWrites(map[], TsWrites(schema, job, date), k);
  }

  /** The salary branch of the builder: text verbatim, or the filtered number when the property is a number. */
  method AddSalary(schema: Schema, properties: Payload, salary: string) returns (r: Payload)
    ensures r == Put(properties, SalaryWrite(schema, salary))
  {
    r := properties;
    if salary != [] {
      var salaryKey := FindPropertyName(schema, SalaryName);
      if HasType(schema, salaryKey, RichTextType) {
        r := r[salaryKey := RichText(salary)];
      } else if HasType(schema, salaryKey, NumberType) {
        var filtered := KeepAsWritten(salary);
        if ParsesAsNumber(filtered) {
          r := r[salaryKey := NumberValue(filtered)];
        }
      }
    }
  }

  /** The property builder of `addJobToNotion`, assignment after assignment. */
  method BuildProperties(schema: Schema, job: JobData, date: string) returns (properties: Payload)
    ensures properties == TsPayload(schema, job, date)
  {
    properties := SetIfType(schema, map[], ExternalIdName, RichTextType, RichText(job.id));
    var companyKey := FindPropertyName(schema, CompanyName);
    properties := properties[companyKey := TitleText(job.company)];
    properties := SetIfType(schema, properties, PositionName, RichTextType, RichText(job.position));
    properties := SetIfTypeWhen(job.location != [], schema, properties, LocationName, RichTextType, RichText(job.location));
    properties := SetIfType(schema, properties, UrlName, UrlType, UrlValue(job.jobUrl));
    properties := SetIfType(schema, properties, StatusName, SelectType, SelectValue(job.status));
    properties := SetIfType(schema, properties, DateAddedName, DateType, DateValue(date));
    properties := SetIfType(schema, properties, DescriptionName, RichTextType,
                            RichText(Take(job.description, RichTextLimit)));
    properties := SetIfType(schema, properties, NotesName, RichTextType, RichText(Take(job.notes, RichTextLimit)));
    properties := AddSalary(schema, properties, job.salary);
  }

  // --------------------------------------------------------------- submission

  /** What Notion answers during one submission; each call is made at most once. */
  datatype Network = Network(
    checkDescribe: Fetched<Schema>,                 // schema fetch of `checkJobExistsInNotion`
    countMatches: (string, string) -> Fetched<nat>, // the query: property name and id to the number of results
    describe: Fetched<Schema>,                      // schema fetch of `addJobToNotion`
    createPage: Payload -> Fetched<string>)         // the page creation: its properties to the created page

  /** The `Date.now()` readings of one submission and `new Date().toISOString()`. */
  datatype Clock = Clock(checkedAt: int, fetchedAt: int, stampedAt: int, isoNow: string)

  /** The outcome `addJobToNotion` resolves or rejects with, and the cache it leaves. */
  datatype Submitted = Submitted(outcome: Result<Response, string>, cache: SchemaCache)

  function DuplicateIdError(id: string): string {
    "A job with External ID \"" + id + "\" already exists in the database."
  }

  /** The external id pre-check; without an id no call is made. */
  function PreCheck(cache: SchemaCache, databaseId: string, job: JobData, clock: Clock, net: Network): CheckStep {
    if job.id != [] then JobExists(cache, databaseId, job.id, clock.checkedAt, net.checkDescribe, net.countMatches)
    else CheckStep(false, cache)
  }

  /** `addJobToNotion`. */
  function AddJob(cache: SchemaCache, databaseId: string, job: JobData, clock: Clock, net: Network): Submitted {
    var check := PreCheck(cache, databaseId, job, clock, net);
    if check.found then Submitted(Success(AlreadyInNotion(DuplicateIdError(job.id), job.jobUrl)), check.cache)
    else
      var step := CachedSchema(check.cache, databaseId, clock.fetchedAt, net.describe);
      match step.schema
      case None => Submitted(Failure(DescribeError(net.describe)), step.cache)
      case Some(schema) =>
        var restamped := step.cache[databaseId := CacheEntry(schema, clock.stampedAt)];
        var created := net.createPage(TsPayload(schema, job, DatePart(clock.isoNow)));
        if created.Ok? then Submitted(Success(Added(created.body)), restamped)
        else Submitted(Failure(CreateError(created)), restamped)
  }

  /**
   * A job whose external id is already in the database is answered with the
   * duplicate error and its URL, and neither the schema fetch nor the page
   * creation of the submission is consulted.
   */
  lemma DuplicateIdIsNotCreated(cache: SchemaCache, databaseId: string, job: JobData, clock: Clock, net: Network,
                                describe: Fetched<Schema>, createPage: Payload -> Fetched<string>)
    requires PreCheck(cache, databaseId, job, clock, net).found
    ensures job.id != []
    ensures AddJob(cache, databaseId, job, clock, net).outcome
         == Success(AlreadyInNotion(DuplicateIdError(job.id), job.jobUrl))
    ensures AddJob(cache, databaseId, job, clock, net)
         == AddJob(cache, databaseId, job, clock, net.(describe := describe, createPage := createPage))
  {
  }

  /** Without an external id the duplicate check makes no call at all. */
  lemma NoIdSkipsCheck(cache: SchemaCache, databaseId: string, job: JobData, clock: Clock, net: Network,
                       checkDescribe: Fetched<Schema>, countMatches: (string, string) -> Fetched<nat>)
    requires job.id == []
    ensures AddJob(cache, databaseId, job, clock, net)
         == AddJob(cache, databaseId, job, clock, net.(checkDescribe := checkDescribe, countMatches := countMatches))
  {
  }

  /**
   * A page is reported created only when Notion created it from the
   * properties built against the schema of this submission, and the schema
   * is then re-stamped: it stays fresh for one hour from the stamp.
   */
  lemma CreatedPageAndRestamp(cache: SchemaCache, databaseId: string, job: JobData, clock: Clock, net: Network, later: int)
    ensures var r := AddJob(cache, databaseId, job, clock, net);
      var check := PreCheck(cache, databaseId, job, clock, net);
      var step := CachedSchema(check.cache, databaseId, clock.fetchedAt, net.describe);
      && (r.outcome.Success? && r.outcome.value.Added? <==>
            !check.found && step.schema.Some?
            && net.createPage(TsPayload(step.schema.value, job, DatePart(clock.isoNow))).Ok?)
      && (r.outcome.Success? && r.outcome.value.Added? ==>
            r.outcome.value.data == net.createPage(TsPayload(step.schema.value, job, DatePart(clock.isoNow))).body)
      && (!check.found && step.schema.Some? ==>
            && r.cache[databaseId] == CacheEntry(step.schema.value, clock.stampedAt)
            && (IsFresh(r.cache, databaseId, later) <==> later - clock.stampedAt < SchemaCacheLifetime))
  {
  }

  /**
   * A rejected submission passed the duplicate check and then failed either
   * to obtain a schema, with the describe call's message, or to create the
   * page built against the schema it obtained, with the creation's message.
   */
  lemma FailureMessages(cache: SchemaCache, databaseId: string, job: JobData, clock: Clock, net: Network)
    ensures var r := AddJob(cache, databaseId, job, clock, net);
      var check := PreCheck(cache, databaseId, job, clock, net);
      var step := CachedSchema(check.cache, databaseId, clock.fetchedAt, net.describe);
      r.outcome.Failure? ==>
        && !check.found
        && ((step.schema.None? && !net.describe.Ok? && r.outcome.error == DescribeError(net.describe))
            || (step.schema.Some?
                && var c := net.createPage(TsPayload(step.schema.value, job, DatePart(clock.isoNow)));
                   !c.Ok? && r.outcome.error == CreateError(c)))
  {
  }

  /** Only the entry of the submission's own database can change. */
  lemma OtherDatabasesUntouched(cache: SchemaCache, databaseId: string, job: JobData, clock: Clock, net: Network, other: string)
    requires other != databaseId
    ensures var r := AddJob(cache, databaseId, job, clock, net);
      (other in r.cache <==> other in cache) && (other in cache ==> r.cache[other] == cache[other])
  {
    var check := PreCheck(cache, databaseId, job, clock, net);
    var step := CachedSchema(check.cache, databaseId, clock.fetchedAt, net.describe);
    var r := AddJob(cache, databaseId, job, clock, net);
    assert r.cache == if check.found then check.cache
                      else if step.schema.None? then step.cache
                      else step.cache[databaseId := CacheEntry(step.schema.value, clock.stampedAt)];
    if job.id != [] {
      LookupKeepsOthers(cache, databaseId, clock.checkedAt, net.checkDescribe, other);
    }
    LookupKeepsOthers(check.cache, databaseId, clock.fetchedAt, net.describe, other);
  }

  // -------------------------------------------------------------- the worker

  /** `request.data` of an `addJobToNotion` message; the token only authenticates calls and is left out. */
  datatype AddJobRequest = AddJobRequest(databaseId: string, job: JobData, forceSubmit: bool)

  /** The service worker's state: the schema cache, the flag and the recent set. */
  class Worker {
    var cache: SchemaCache
    const gate: Gate

    ghost predicate Valid()
      reads this, gate, gate.recent
    {
      gate.Valid()
    }

    constructor ()
      ensures Valid() && cache == map[] && !gate.isSubmitting && gate.recent.urls == []
      ensures fresh(gate) && fresh(gate.recent)
    {
      cache := map[];
      gate := new Gate();
    }

    /** The cache lookup shared by both callers. */
    method LookupSchema(databaseId: string, now: int, describe: Fetched<Schema>) returns (schema: Option<Schema>)
      modifies this
      ensures CacheStep(schema, cache) == CachedSchema(old(cache), databaseId, now, describe)
    {
      if IsFresh(cache, databaseId, now) {
        return Some(cache[databaseId].schema);
      }
      if describe.Ok? {
        cache := cache[databaseId := CacheEntry(describe.body, now)];
        schema := Some(describe.body);
      } else {
        schema := None;
      }
    }

    /** `checkJobExistsInNotion`. */
    method CheckJobExists(databaseId: string, externalId: string, now: int, describe: Fetched<Schema>,
                          countMatches: (string, string) -> Fetched<nat>) returns (found: bool)
      modifies this
      ensures CheckStep(found, cache) == JobExists(old(cache), databaseId, externalId, now, describe, countMatches)
    {
      var schema := LookupSchema(databaseId, now, describe);
      if schema.None? {
        return false;
      }
      var idKey := FindPropertyName(schema.value, ExternalIdName);
      var matches := countMatches(idKey, externalId);
      found := matches.Ok? && matches.body > 0;
    }

    /** `addJobToNotion`. */
    method AddJobToNotion(databaseId: string, job: JobData, clock: Clock, net: Network)
      returns (outcome: Result<Response, string>)
      modifies this
      ensures Submitted(outcome, cache) == AddJob(old(cache), databaseId, job, clock, net)
    {
      var date := DatePart(clock.isoNow);
      if job.id != [] {
        var found := CheckJobExists(databaseId, job.id, clock.checkedAt, net.checkDescribe, net.countMatches);
        if found {
          return Success(AlreadyInNotion(DuplicateIdError(job.id), job.jobUrl));
        }
      }
      var schema := LookupSchema(databaseId, clock.fetchedAt, net.describe);
      if schema.None? {
        return Failure(DescribeError(net.describe));
      }
      cache := cache[databaseId := CacheEntry(schema.value, clock.stampedAt)];
      var properties := BuildProperties(schema.value, job, date);
      var created := net.createPage(properties);
      if created.Ok? {
        outcome := Success(Added(created.body));
      } else {
        outcome := Failure(CreateError(created));
      }
    }

    /**
     * The `addJobToNotion` branch of the message listener: the checks, the
     * submission, then the flag cleared and a created page's URL remembered.
     */
    method HandleAddJob(request: AddJobRequest, clock: Clock, net: Network) returns (resp: Response)
      requires Valid()
      modifies this, gate, gate.recent
      ensures Valid()
      ensures var a := Admit(request.job.jobUrl in old(gate.recent.urls), request.forceSubmit,
                             old(gate.isSubmitting), request.job.jobUrl);
        a.Rejected? ==>
          && resp == a.response && cache == old(cache)
          && gate.isSubmitting == old(gate.isSubmitting) && gate.recent.urls == old(gate.recent.urls)
      ensures var a := Admit(request.job.jobUrl in old(gate.recent.urls), request.forceSubmit,
                             old(gate.isSubmitting), request.job.jobUrl);
        var s := AddJob(old(cache), request.databaseId, request.job, clock, net);
        a == Proceed ==>
          && resp == Reply(s.outcome) && cache == s.cache && !gate.isSubmitting
          && gate.recent.urls == if Records(s.outcome, request.job.jobUrl)
                                 then Inserted(old(gate.recent.urls), request.job.jobUrl)
                                 else old(gate.recent.urls)
    {
      var jobUrl := request.job.jobUrl;
      var admission := gate.Start(jobUrl, request.forceSubmit);
      if admission.Rejected? {
        return admission.response;
      }
      var outcome := AddJobToNotion(request.databaseId, request.job, clock, net);
      resp := gate.Settle(jobUrl, outcome);
    }
  }
}
