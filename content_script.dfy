/**
 * src/contentScript.js: the LinkedIn-only page script that answers the
 * `extractJobInfo` message with the five job fields, or with `{error}` when
 * extraction throws.
 */
module ContentScript {
  import opened Wrappers
  import opened JsString
  import opened Dom
  import opened Normalizer

  const Titles := [".job-details-jobs-unified-top-card__job-title"]

  const Companies := [
    ".topcard__org-name-link", ".job-details-jobs-unified-top-card__company-name",
    "a[data-tracking-control-name=\"public_jobs_topcard-org-name\"]",
    ".jobs-unified-top-card__company-name",
    "a[data-tracking-control-name=\"public_jobs_topcard_company_name\"]",
    "a[data-test-job-company-name]"]

  const Locations := [
    ".topcard__flavor--bullet", ".job-details-jobs-unified-top-card__bullet",
    ".jobs-unified-top-card__bullet", ".job-details-jobs-unified-top-card__workplace-type",
    "span[data-test-job-location]", ".jobs-unified-top-card__location"]

  const Salaries := [
    ".compensation__salary-range", ".job-details-jobs-unified-top-card__salary-range", ".salary-range-text"]

  const Descriptions := [
    ".jobs-description__container", ".jobs-description-content__text", ".jobs-description",
    ".description__text", "[data-test-job-description]"]

  const DescriptionLimit := 5000

  /** The reply sent back to the popup. */
  datatype Reply = Info(job: JobInfo) | ErrorReply(error: string)

  /** `extractJobInfo()`: LinkedIn job pages only, five empty fields anywhere else. */
  function JobInfoOf(doc: Document): Result<JobInfo, string> {
    if IsLinkedInJobUrl(doc.url) then LinkedInJob(doc) else Success(Defaults)
  }

  /**
   * Every field is the trimmed text of the first selector with non-empty
   * trimmed text; the location also has its whitespace runs collapsed and the
   * description is cut to 5000 characters, without an ellipsis.
   */
  function LinkedInJob(doc: Document): (r: Result<JobInfo, string>)
    ensures r.Success? ==>
      && FirstField(doc, Locations, TrimmedText).Success?
      && r.value.location == CollapseSpace(FirstField(doc, Locations, TrimmedText).value)
    ensures r.Success? ==>
      && FirstField(doc, Descriptions, TrimmedText).Success?
      && r.value.description == Take(FirstField(doc, Descriptions, TrimmedText).value, DescriptionLimit)
  {
    var position :- FirstField(doc, Titles, TrimmedText);
    var company :- FirstField(doc, Companies, TrimmedText);
    var location :- FirstField(doc, Locations, TrimmedText);
    var salary :- FirstField(doc, Salaries, TrimmedText);
    var description :- FirstField(doc, Descriptions, TrimmedText);
    Success(JobInfo(company, position, CollapseSpace(location), salary, Take(description, DescriptionLimit)))
  }

  /**
   * The message listener: only `extractJobInfo` is answered; a rejected
   * extraction is answered with its error, whose message is modelled by the
   * selector the browser refused.
   */
  function ReplyTo(action: string, doc: Document): Option<Reply> {
    if action != "extractJobInfo" then None
    else match JobInfoOf(doc)
      case Success(job) => Some(Info(job))
      case Failure(sel) => Some(ErrorReply(sel))
  }

  method ExtractFromLinkedIn(doc: Document) returns (r: Result<JobInfo, string>)
    ensures r == LinkedInJob(doc)
  {
    var found := ScanSelectors(doc, Titles, TrimmedText);
    var position := FieldOf(found, Titles);
    if position.Failure? {
      return Failure(position.error);
    }
    found := ScanSelectors(doc, Companies, TrimmedText);
    var company := FieldOf(found, Companies);
    if company.Failure? {
      return Failure(company.error);
    }
    found := ScanSelectors(doc, Locations, TrimmedText);
    var location := FieldOf(found, Locations);
    if location.Failure? {
      return Failure(location.error);
    }
    found := ScanSelectors(doc, Salaries, TrimmedText);
    var salary := FieldOf(found, Salaries);
    if salary.Failure? {
      return Failure(salary.error);
    }
    found := ScanSelectors(doc, Descriptions, TrimmedText);
    var description := FieldOf(found, Descriptions);
    if description.Failure? {
      return Failure(description.error);
    }
    r := Success(JobInfo(company.value, position.value, CollapseSpace(location.value), salary.value,
                         Take(description.value, DescriptionLimit)));
  }

  method ExtractJobInfo(doc: Document) returns (r: Result<JobInfo, string>)
    ensures r == JobInfoOf(doc)
  {
    r := Success(Defaults);
    if IsLinkedInJobUrl(doc.url) {
      r := ExtractFromLinkedIn(doc);
    }
  }

  /**
   * Only `extractJobInfo` is answered; off LinkedIn the answer is always the
   * five empty fields, and an error answer names a selector of a LinkedIn
   * page that the browser refused.
   */
  lemma ReplyToOutcomes(action: string, doc: Document)
    ensures ReplyTo(action, doc).Some? <==> action == "extractJobInfo"
    ensures action == "extractJobInfo" && !IsLinkedInJobUrl(doc.url) ==> ReplyTo(action, doc) == Some(Info(Defaults))
    ensures var r := ReplyTo(action, doc);
      r.Some? && r.value.ErrorReply? ==> IsLinkedInJobUrl(doc.url) && Query(doc, r.value.error).Throws?
  {
    var r := ReplyTo(action, doc);
    if r.Some? && r.value.ErrorReply? {
      FirstFieldMeaning(doc, Titles, TrimmedText);
      FirstFieldMeaning(doc, Companies, TrimmedText);
      FirstFieldMeaning(doc, Locations, TrimmedText);
      FirstFieldMeaning(doc, Salaries, TrimmedText);
      FirstFieldMeaning(doc, Descriptions, TrimmedText);
    }
  }

  /** Off LinkedIn the reply is the five empty fields, whatever the page holds. */
  lemma NotLinkedInIsEmpty(doc: Document)
    requires !IsLinkedInJobUrl(doc.url)
    ensures ReplyTo("extractJobInfo", doc) == Some(Info(Defaults))
  {
  }

  /**
   * The location is tidy (single plain spaces, trimmed) and is the collapsed
   * text of the first location element with visible text; the description is
   * a prefix of at most 5000 characters of the first non-blank description
   * element's trimmed text.
   */
  lemma LinkedInJobShape(doc: Document)
    ensures LinkedInJob(doc).Success? ==>
      var job := LinkedInJob(doc).value;
      && IsTidy(job.location)
      && |job.description| <= DescriptionLimit
      && (job.location != [] ==> exists k | 0 <= k < |Locations| ::
            Query(doc, Locations[k]).Found? && job.location == CollapseSpace(Trim(Query(doc, Locations[k]).element.text)))
      && (job.description != [] ==> exists k | 0 <= k < |Descriptions| ::
            Query(doc, Descriptions[k]).Found? && IsPrefixOf(job.description, Trim(Query(doc, Descriptions[k]).element.text)))
  {
    LocationShape(doc);
    DescriptionShape(doc);
  }

  /** A found location collapses to tidy text taken from one of the location elements. */
  lemma LocationShape(doc: Document)
    ensures var f := FirstField(doc, Locations, TrimmedText);
      f.Success? ==>
        && IsTidy(CollapseSpace(f.value))
        && (f.value != [] ==> exists k | 0 <= k < |Locations| ::
              Query(doc, Locations[k]).Found? && CollapseSpace(f.value) == CollapseSpace(Trim(Query(doc, Locations[k]).element.text)))
  {
    FirstFieldMeaning(doc, Locations, TrimmedText);
    var loc := FirstField(doc, Locations, TrimmedText);
    if loc.Success? {
      if loc.value != [] {
        var k :| 0 <= k < |Locations| && Query(doc, Locations[k]).Found?
          && Trim(Query(doc, Locations[k]).element.text) == loc.value;
        CollapsedTrimIsTidy(Query(doc, Locations[k]).element.text);
      } else {
        CollapsedTrimIsTidy([]);
      }
    }
  }

  /** A found description, cut to the limit, is a prefix of one description element's trimmed text. */
  lemma DescriptionShape(doc: Document)
    ensures var f := FirstField(doc, Descriptions, TrimmedText);
      f.Success? && f.value != [] ==> exists k | 0 <= k < |Descriptions| ::
        Query(doc, Descriptions[k]).Found?
        && IsPrefixOf(Take(f.value, DescriptionLimit), Trim(Query(doc, Descriptions[k]).element.text))
  {
    FirstFieldMeaning(doc, Descriptions, TrimmedText);
  }
}
