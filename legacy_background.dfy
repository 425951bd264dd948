/**
 * src/background.js: the earlier service worker.  It has the same message
 * handler as src/background.ts, but no schema cache and no external id
 * check; it builds a smaller property set, and it asks a local language
 * model about the description before it creates the page.
 */
module LegacyBackground {
  import opened Wrappers
  import opened JsString
  import opened Notion
  import opened RecentJobs
  import opened Submission

  /** The description is cut to 1900 characters, below Notion's rich-text limit. */
  const DescriptionLimit := 1900

  /** What one submission meets: the schema fetch, the language model call and the page creation. */
  datatype Network = Network(
    describe: Fetched<Schema>,
    assistant: Result<string, string>,              // the model's reply, or the message of the error it threw
    createPage: Payload -> Fetched<string>)

  /** The nine names the builder resolves, in the order of its assignments. */
  const JsFieldNames := [CompanyName, PositionName, LocationName, UrlName, DateAddedName,
                         StatusName, SalaryName, DescriptionName, NotesName]

  /** The `properties` object sent to Notion: its nine assignments in source order. */
  function JsPayload(schema: Schema, job: JobData, date: string): Payload {
    var p0 := Put(map[], Write(true, ResolveName(schema, CompanyName), TitleText(job.company)));
    var p1 := Put(p0, Typed(schema, PositionName, RichTextType, RichText(job.position)));
    var p2 := Put(p1, Guarded(job.location != [], Typed(schema, LocationName, RichTextType, RichText(job.location))));
    var p3 := Put(p2, Typed(schema, UrlName, UrlType, UrlValue(job.jobUrl)));
    var p4 := Put(p3, Typed(schema, DateAddedName, DateType, DateValue(date)));
    var p5 := Put(p4, Typed(schema, StatusName, SelectType, SelectValue(job.status)));
    var p6 := Put(p5, Guarded(job.salary != [], Typed(schema, SalaryName, RichTextType, RichText(job.salary))));
    var p7 := Put(p6, Guarded(job.description != [], Typed(schema, DescriptionName, RichTextType,
                                                          RichText(Take(job.description, DescriptionLimit)))));
    Put(p7, Guarded(job.notes != [], Typed(schema, NotesName, RichTextType, RichText(job.notes))))
  }

  /** The same assignments indexed by field: the one for field `i` of `JsFieldNames`, under the name it resolves to. */
  function JsWrite(schema: Schema, job: JobData, date: string, i: nat): (w: Write)
    requires i < |JsFieldNames|
    ensures w.key == ResolveName(schema, JsFieldNames[i])
  {
    if i == 0 then Write(true, ResolveName(schema, CompanyName), TitleText(job.company))
    else if i == 1 then Typed(schema, PositionName, RichTextType, RichText(job.position))
    else if i == 2 then Guarded(job.location != [], Typed(schema, LocationName, RichTextType, RichText(job.location)))
    else if i == 3 then Typed(schema, UrlName, UrlType, UrlValue(job.jobUrl))
    else if i == 4 then Typed(schema, DateAddedName, DateType, DateValue(date))
    else if i == 5 then Typed(schema, StatusName, SelectType, SelectValue(job.status))
    else if i == 6 then Guarded(job.salary != [], Typed(schema, SalaryName, RichTextType, RichText(job.salary)))
    else if i == 7 then Guarded(job.description != [], Typed(schema, DescriptionName, RichTextType,
                                                            RichText(Take(job.description, DescriptionLimit))))
    else Guarded(job.notes != [], Typed(schema, NotesName, RichTextType, RichText(job.notes)))
  }

  function JsWrites(schema: Schema, job: JobData, date: string): (r: seq<Write>)
    ensures |r| == |JsFieldNames|
  {
    seq(|JsFieldNames|, i requires 0 <= i < |JsFieldNames| => JsWrite(schema, job, date, i))
  }

  /** The payload is the indexed assignments carried out in order. */
  lemma JsPayloadIsApply(schema: Schema, job: JobData, date: string)
    ensures JsPayload(schema, job, date) == Apply(map[], JsWrites(schema, job, date))
  {
    ApplyNine(map[], JsWrites(schema, job, date));
  }

  /** The nine names are distinct field names, so they differ ignoring case. */
  lemma JsFieldNamesDiffer()
    ensures forall i, j | 0 <= i < j < |JsFieldNames| :: Lower(JsFieldNames[i]) != Lower(JsFieldNames[j])
  {
    SubsetDiffersIgnoringCase(JsFieldNames);
  }

  /** No two of the nine names resolve to the same property, so no write overwrites another. */
  lemma JsWritesDistinct(schema: Schema, job: JobData, date: string)
    ensures DistinctKeys(JsWrites(schema, job, date))
  {
    var ws := JsWrites(schema, job, date);
    JsFieldNamesDiffer();
    forall i, j | 0 <= i < j < |ws|
      ensures ws[i].key != ws[j].key
    {
      ResolvedNamesDiffer(schema, JsFieldNames[i], JsFieldNames[j]);
    }
  }

  /** The write at index `i` of the builder is what the payload shows under its key. */
  lemma JsPayloadShows(schema: Schema, job: JobData, date: string, i: nat)
    requires i < |JsFieldNames|
    ensures var w := JsWrite(schema, job, date, i); Emits(JsPayload(schema, job, date), w.key, w.cond, w.value)
  {
    JsWritesDistinct(schema, job, date);
    JsPayloadIsApply(schema, job, date);
    ApplyWrite(map[], JsWrites(schema, job, date), i);
  }

  /**
   * Company is always written, as a title; Position when its property is
   * rich text; Location, Salary and Notes when non-empty and rich text, and
   * Description likewise, cut to 1900 characters; URL, Date Added and Status
   * when of type url, date and select.  No ExternalID is written, and the
   * salary never goes into a number property.
   */
  lemma JsPayloadFields(schema: Schema, job: JobData, date: string)
    ensures var p := JsPayload(schema, job, date);
      && Emits(p, ResolveName(schema, CompanyName), true, TitleText(job.company))
      && Emits(p, ResolveName(schema, PositionName),
               HasType(schema, ResolveName(schema, PositionName), RichTextType), RichText(job.position))
      && Emits(p, ResolveName(schema, LocationName),
               job.location != [] && HasType(schema, ResolveName(schema, LocationName), RichTextType),
               RichText(job.location))
      && Emits(p, ResolveName(schema, UrlName),
               HasType(schema, ResolveName(schema, UrlName), UrlType), UrlValue(job.jobUrl))
      && Emits(p, ResolveName(schema, DateAddedName),
               HasType(schema, ResolveName(schema, DateAddedName), DateType), DateValue(date))
      && Emits(p, ResolveName(schema, StatusName),
               HasType(schema, ResolveName(schema, StatusName), SelectType), SelectValue(job.status))
      && Emits(p, ResolveName(schema, SalaryName),
               job.salary != [] && HasType(schema, ResolveName(schema, SalaryName), RichTextType),
               RichText(job.salary))
      && Emits(p, ResolveName(schema, DescriptionName),
               job.description != [] && HasType(schema, ResolveName(schema, DescriptionName), RichTextType),
               RichText(Take(job.description, DescriptionLimit)))
      && Emits(p, ResolveName(schema, NotesName),
               job.notes != [] && HasType(schema, ResolveName(schema, NotesName), RichTextType),
               RichText(job.notes))
  {
    JsPayloadShows(schema, job, date, 0);
    JsPayloadShows(schema, job, date, 1);
    JsPayloadShows(schema, job, date, 2);
    JsPayloadShows(schema, job, date, 3);
    JsPayloadShows(schema, job, date, 4);
    JsPayloadShows(schema, job, date, 5);
    JsPayloadShows(schema, job, date, 6);
    JsPayloadShows(schema, job, date, 7);
    JsPayloadShows(schema, job, date, 8);
  }

  /** Every written key is one of the nine resolved names. */
  lemma JsPayloadOnlyFields(schema: Schema, job: JobData, date: string, k: string)
    requires k in JsPayload(schema, job, date)
    ensures exists i | 0 <= i < |JsFieldNames| :: k == ResolveName(schema, JsFieldNames[i])
  {
    JsPayloadIsApply(schema, job, date);
    ApplyOnlyWrites(map[], JsWrites(schema, job, date), k);
  }

  /** The property builder of `addJobToNotion`, assignment after assignment. */
  method BuildProperties(schema: Schema, job: JobData, date: string) returns (properties: Payload)
    ensures properties == JsPayload(schema, job, date)
  {
    var companyKey := FindPropertyName(schema, CompanyName);
    properties := map[companyKey := TitleText(job.company)];
    properties := SetIfType(schema, properties, PositionName, RichTextType, RichText(job.position));
    properties := SetIfTypeWhen(job.location != [], schema, properties, LocationName, RichTextType, RichText(job.location));
    properties := SetIfType(schema, properties, UrlName, UrlType, UrlValue(job.jobUrl));
    properties := SetIfType(schema, properties, DateAddedName, DateType, DateValue(date));
    properties := SetIfType(schema, properties, StatusName, SelectType, SelectValue(job.status));
    properties := SetIfTypeWhen(job.salary != [], schema, properties, SalaryName, RichTextType, RichText(job.salary));
    properties := SetIfTypeWhen(job.description != [], schema, properties, DescriptionName, RichTextType,
                              RichText(Take(job.description, DescriptionLimit)));
    properties := SetIfTypeWhen(job.notes != [], schema, properties, NotesName, RichTextType, RichText(job.notes));
  }

  /** `addJobToNotion`: the schema fetch, the properties, the model call, then the page. */
  function AddJob(job: JobData, isoNow: string, net: Network): Result<Response, string> {
    match net.describe
    case Ok(schema) =>
      if net.assistant.Failure? then Failure(net.assistant.error)
      else
        var created := net.createPage(JsPayload(schema, job, DatePart(isoNow)));
        if created.Ok? then Success(Added(created.body)) else Failure(CreateError(created))
    case _ => Failure(DescribeError(net.describe))
  }

  /**
   * The submission either creates the page from the properties built against
   * the fetched schema, or is rejected: with the schema fetch's error, with
   * the model's error, or with the page creation's error.  It never resolves
   * with anything but a created page.
   */
  lemma AddJobOutcomes(job: JobData, isoNow: string, net: Network)
    ensures AddJob(job, isoNow, net).Success? ==> AddJob(job, isoNow, net).value.Added?
    ensures AddJob(job, isoNow, net).Success? <==>
      && net.describe.Ok? && net.assistant.Success?
      && net.createPage(JsPayload(net.describe.body, job, DatePart(isoNow))).Ok?
    ensures !net.describe.Ok? ==> AddJob(job, isoNow, net) == Failure(DescribeError(net.describe))
    ensures net.describe.Ok? && net.assistant.Failure? ==> AddJob(job, isoNow, net) == Failure(net.assistant.error)
    ensures net.describe.Ok? && net.assistant.Success? ==>
      var created := net.createPage(JsPayload(net.describe.body, job, DatePart(isoNow)));
      (created.Ok? ==> AddJob(job, isoNow, net) == Success(Added(created.body)))
      && (!created.Ok? ==> AddJob(job, isoNow, net) == Failure(CreateError(created)))
  {
  }

  /** The service worker's state: only the flag and the recent set. */
  class Worker {
    const gate: Gate

    ghost predicate Valid()
      reads this, gate, gate.recent
    {
      gate.Valid()
    }

    constructor ()
      ensures Valid() && !gate.isSubmitting && gate.recent.urls == []
      ensures fresh(gate) && fresh(gate.recent)
    {
      gate := new Gate();
    }

    /** `addJobToNotion`; it keeps no state of its own. */
    method AddJobToNotion(job: JobData, isoNow: string, net: Network) returns (outcome: Result<Response, string>)
      ensures outcome == AddJob(job, isoNow, net)
    {
      var date := DatePart(isoNow);
      if !net.describe.Ok? {
        return Failure(DescribeError(net.describe));
      }
      var properties := BuildProperties(net.describe.body, job, date);
      if net.assistant.Failure? {
        return Failure(net.assistant.error);
      }
      var created := net.createPage(properties);
      if created.Ok? {
        outcome := Success(Added(created.body));
      } else {
        outcome := Failure(CreateError(created));
      }
    }

    /** The `addJobToNotion` branch of the message listener. */
    method HandleAddJob(job: JobData, forceSubmit: bool, isoNow: string, net: Network) returns (resp: Response)
      requires Valid()
      modifies gate, gate.recent
      ensures Valid()
      ensures var a := Admit(job.jobUrl in old(gate.recent.urls), forceSubmit, old(gate.isSubmitting), job.jobUrl);
        a.Rejected? ==>
          resp == a.response && gate.isSubmitting == old(gate.isSubmitting) && gate.recent.urls == old(gate.recent.urls)
      ensures var a := Admit(job.jobUrl in old(gate.recent.urls), forceSubmit, old(gate.isSubmitting), job.jobUrl);
        var outcome := AddJob(job, isoNow, net);
        a == Proceed ==>
          && resp == Reply(outcome) && !gate.isSubmitting
          && gate.recent.urls == if Records(outcome, job.jobUrl) then Inserted(old(gate.recent.urls), job.jobUrl)
                                 else old(gate.recent.urls)
    {
      var admission := gate.Start(job.jobUrl, forceSubmit);
      if admission.Rejected? {
        return admission.response;
      }
      var outcome := AddJobToNotion(job, isoNow, net);
      resp := gate.Settle(job.jobUrl, outcome);
    }
  }
}
