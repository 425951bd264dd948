/**
 * background.js at the repository root: the first service worker.  It sends
 * one object literal with fixed property names, without looking at the
 * database's schema, and keeps no state between messages.
 */
module RootBackground {
  import opened Wrappers
  import opened JsString
  import opened Notion
  import opened Submission

  /** The property object as sent: a `null` value is `None`. */
  type FixedPayload = map<string, Option<PropValue>>

  /** The nine property names of the literal, in its order. */
  const RootFieldNames := [CompanyName, PositionName, LocationName, UrlName, DateAddedName,
                           StatusName, SalaryName, DescriptionName, NotesName]

  /** `field ? { rich_text: [...] } : null` */
  function TextOrNull(field: string): (r: Option<PropValue>)
    ensures r.None? <==> field == []
    ensures r.Some? ==> r.value == RichText(field)
  {
    if field != [] then Some(RichText(field)) else None
  }

  /** The `properties` literal of `addJobToNotion` for a request made at `isoNow`. */
  function RootPayload(job: JobData, isoNow: string): FixedPayload {
    map[CompanyName := Some(TitleText(job.company)),
        PositionName := Some(RichText(job.position)),
        LocationName := TextOrNull(job.location),
        UrlName := Some(UrlValue(job.jobUrl)),
        DateAddedName := Some(DateValue(DatePart(isoNow))),
        StatusName := Some(SelectValue(job.status)),
        SalaryName := TextOrNull(job.salary),
        DescriptionName := TextOrNull(job.description),
        NotesName := TextOrNull(job.notes)]
  }

  /** Exactly the nine fixed names are sent, whatever the job holds. */
  lemma RootPayloadKeys(job: JobData, isoNow: string)
    ensures forall k :: k in RootPayload(job, isoNow) <==> k in RootFieldNames
  {
  }

  /**
   * Company, Position, URL, Date Added and Status are always sent, as the
   * job holds them; the date is the part of the timestamp before `T`.
   */
  lemma RootPayloadFixedFields(job: JobData, isoNow: string)
    ensures var p := RootPayload(job, isoNow);
      && p[CompanyName] == Some(TitleText(job.company))
      && p[PositionName] == Some(RichText(job.position))
      && p[UrlName] == Some(UrlValue(job.jobUrl))
      && p[StatusName] == Some(SelectValue(job.status))
      && p[DateAddedName].Some? && p[DateAddedName].value.DateValue?
      && IsPrefixOf(p[DateAddedName].value.start, isoNow)
      && (IsIsoTimestamp(isoNow) ==> p[DateAddedName] == Some(DateValue(isoNow[..10])))
  {
    if IsIsoTimestamp(isoNow) {
      DatePartOfTimestamp(isoNow);
    }
  }

  /** Location, Salary, Description and Notes are `null` exactly when empty, and otherwise sent verbatim. */
  lemma RootPayloadNullableFields(job: JobData, isoNow: string)
    ensures var p := RootPayload(job, isoNow);
      && (p[LocationName].None? <==> job.location == [])
      && (p[SalaryName].None? <==> job.salary == [])
      && (p[DescriptionName].None? <==> job.description == [])
      && (p[NotesName].None? <==> job.notes == [])
      && (job.location != [] ==> p[LocationName] == Some(RichText(job.location)))
      && (job.salary != [] ==> p[SalaryName] == Some(RichText(job.salary)))
      && (job.description != [] ==> p[DescriptionName] == Some(RichText(job.description)))
      && (job.notes != [] ==> p[NotesName] == Some(RichText(job.notes)))
  {
  }

  /** `addJobToNotion`: the created page, or the message of the error it throws. */
  function AddJob(job: JobData, isoNow: string, createPage: FixedPayload -> Fetched<string>): Result<Response, string> {
    match createPage(RootPayload(job, isoNow))
    case Ok(page) => Success(Added(page))
    case HttpError(_, message) => Failure(OrElse(message, "Error adding job to Notion"))
    case NetworkError(reason) => Failure(reason)
  }

  /** The listener: the result as it is, or `{success: false, error}` for a rejection. */
  function Handle(job: JobData, isoNow: string, createPage: FixedPayload -> Fetched<string>): Response {
    Reply(AddJob(job, isoNow, createPage))
  }

  /**
   * The reply is the created page exactly when Notion created it; any
   * failure is answered with the server's or the network's message, or
   * with "Error adding job to Notion" when that is empty.  Unlike the later
   * workers, the status code never appears in the message.
   */
  lemma HandleOutcomes(job: JobData, isoNow: string, createPage: FixedPayload -> Fetched<string>)
    ensures var c := createPage(RootPayload(job, isoNow));
      && (c.Ok? <==> Handle(job, isoNow, createPage).Added?)
      && (c.Ok? ==> Handle(job, isoNow, createPage) == Added(c.body))
      && (c.HttpError? ==> Handle(job, isoNow, createPage) == Failed(HandlerError(c.message)))
      && (c.NetworkError? ==> Handle(job, isoNow, createPage) == Failed(HandlerError(c.reason)))
      && (!c.Ok? ==> Handle(job, isoNow, createPage).Failed? && Handle(job, isoNow, createPage).error != [])
      && (c.HttpError? && c.message != [] ==> Handle(job, isoNow, createPage) == Failed(c.message))
      && (c.NetworkError? && c.reason != [] ==> Handle(job, isoNow, createPage) == Failed(c.reason))
      && ((c.HttpError? && c.message == []) || (c.NetworkError? && c.reason == []) ==>
            Handle(job, isoNow, createPage) == Failed("Error adding job to Notion"))
  {
  }

  /** Two failed creations with the same message get the same reply, whatever their status codes. */
  lemma StatusIsNotReported(job: JobData, isoNow: string, f: FixedPayload -> Fetched<string>,
                            g: FixedPayload -> Fetched<string>, s1: nat, s2: nat, message: string)
    requires f(RootPayload(job, isoNow)) == HttpError(s1, message)
    requires g(RootPayload(job, isoNow)) == HttpError(s2, message)
    ensures Handle(job, isoNow, f) == Handle(job, isoNow, g)
  {
  }
}
