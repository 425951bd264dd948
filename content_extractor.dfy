/**
 * content.js: the page script that recognises a LinkedIn, Indeed, Glassdoor
 * or Google Jobs page from its URL and reads the five job fields from it.
 */
module ContentExtractor {
  import opened Wrappers
  import opened JsString
  import opened Dom
  import opened Normalizer

  // ------------------------------------------------------------ selector tables

  const LinkedInTitles := [
    ".top-card-layout__title", ".job-details-jobs-unified-top-card__job-title",
    "h1.t-24", "h1.job-view-title", "h1[data-test-job-title]"]

  const LinkedInCompanies := [
    ".topcard__org-name-link", ".job-details-jobs-unified-top-card__company-name",
    "a[data-tracking-control-name=\"public_jobs_topcard-org-name\"]",
    ".jobs-unified-top-card__company-name",
    "a[data-tracking-control-name=\"public_jobs_topcard_company_name\"]",
    "a[data-test-job-company-name]"]

  const LinkedInLocations := [
    ".topcard__flavor--bullet", ".job-details-jobs-unified-top-card__bullet",
    ".jobs-unified-top-card__bullet", ".job-details-jobs-unified-top-card__workplace-type",
    "span[data-test-job-location]", ".jobs-unified-top-card__location"]

  const CompensationSections := [
    ".compensation-insights-section", ".salary-insights-section",
    ".job-details-jobs-unified-top-card__job-insight",
    ".job-details-jobs-unified-top-card__salary-context"]

  const JobInsights := [
    ".decorated-job-posting__details--employment-status",
    ".job-details-jobs-unified-top-card__job-insight",
    "li.jobs-unified-top-card__job-insight",
    ".jobs-box__group .t-14 span[aria-hidden=\"true\"]",
    ".job-view-layout.jobs-details .jobs-box__group"]

  const SalaryDescriptionSources := [
    ".description__text", ".jobs-description-content",
    ".jobs-box__html-content", ".jobs-description__content"]

  const LinkedInDescriptions := [
    ".jobs-description__container", ".jobs-description", ".jobs-box__html-content",
    ".jobs-description-content", ".description__text", "[data-job-description]"]

  const IndeedDescriptions := [
    ".jobsearch-jobDescriptionText", "[data-testid=\"job-description\"]", "#jobDescriptionText"]

  const GlassdoorDescriptions := [
    ".jobDescriptionContent", ".desc", "[data-test=\"description\"]",
    ".jobDescriptionPadding", ".job-description"]

  const GoogleDescriptions := [
    ".HBvzbc", ".YgLbBe", ".WbZuDe", "[data-vi-job-description=\"true\"]"]

  const LinkedInDescriptionCap := 20000
  const OtherDescriptionCap := 5000

  // --------------------------------------------------------------- URL dispatch

  datatype Site = LinkedIn | Indeed | Glassdoor | GoogleSearch | Unsupported

  /** The URL tests of `extractJobInfo`, tried in this order; Google also needs its page marker. */
  function SiteOf(url: string): Site {
    if IsLinkedInJobUrl(url) then LinkedIn
    else if Includes(url, "indeed.com/viewjob") || Includes(url, "indeed.com/job/") then Indeed
    else if Includes(url, "glassdoor.com") && (Includes(url, "/job-listing/") || Includes(url, "/Details/")) then Glassdoor
    else if Includes(url, "google.com/search") then GoogleSearch
    else Unsupported
  }

  const GoogleMarker := ".vNEEBe"

  /** What `extractJobInfo()` returns; a failure is the exception (the rejected selector) it lets escape. */
  function JobInfoOf(doc: Document, engine: Engine): Result<JobInfo, string> {
    match SiteOf(doc.url)
    case LinkedIn => LinkedInJob(doc, engine)
    case Indeed => IndeedJob(doc, engine)
    case Glassdoor => GlassdoorJob(doc, engine)
    case GoogleSearch =>
      (match Query(doc, GoogleMarker)
       case Throws => Failure(GoogleMarker)
       case Missing => Success(Defaults)
       case Found(_) => GoogleJob(doc, engine))
    case Unsupported => Success(Defaults)
  }

  method ExtractJobInfo(doc: Document, engine: Engine) returns (r: Result<JobInfo, string>)
    ensures r == JobInfoOf(doc, engine)
  {
    match SiteOf(doc.url)
    case LinkedIn =>
      r := ExtractFromLinkedIn(doc, engine);
    case Indeed =>
      r := ExtractFromIndeed(doc, engine);
    case Glassdoor =>
      r := ExtractFromGlassdoor(doc, engine);
    case GoogleSearch =>
      var marker := Query(doc, GoogleMarker);
      if marker.Throws? {
        r := Failure(GoogleMarker);
      } else if marker.Found? {
        r := ExtractFromGoogleJobs(doc, engine);
      } else {
        r := Success(Defaults);
      }
    case Unsupported =>
      r := Success(Defaults);
  }

  /** A page whose URL none of the four sites claims yields five empty fields. */
  lemma UnsupportedPageIsEmpty(doc: Document, engine: Engine)
    requires !IsLinkedInJobUrl(doc.url)
    requires !Includes(doc.url, "indeed.com/viewjob") && !Includes(doc.url, "indeed.com/job/")
    requires !Includes(doc.url, "glassdoor.com") || !(Includes(doc.url, "/job-listing/") || Includes(doc.url, "/Details/"))
    requires !Includes(doc.url, "google.com/search")
    ensures JobInfoOf(doc, engine) == Success(Defaults)
  {
  }

  /** A Google search page without the job-panel marker yields five empty fields. */
  lemma GoogleWithoutMarkerIsEmpty(doc: Document, engine: Engine)
    requires SiteOf(doc.url) == GoogleSearch && Query(doc, GoogleMarker).Missing?
    ensures JobInfoOf(doc, engine) == Success(Defaults)
  {
  }

  // ------------------------------------------------------------------ LinkedIn

  function LinkedInJob(doc: Document, engine: Engine): Result<JobInfo, string> {
    var position :- FirstField(doc, LinkedInTitles, TrimmedText);
    var company :- FirstField(doc, LinkedInCompanies, TrimmedText);
    var location :- FirstField(doc, LinkedInLocations, TrimmedText);
    var salary :- LinkedInSalary(doc, engine);
    var description :- LinkedInDescription(doc, engine);
    Success(JobInfo(company, position, location, salary, description))
  }

  /** The first description container with non-empty cleaned text, cut to 20000 characters plus an ellipsis. */
  function LinkedInDescription(doc: Document, engine: Engine): Result<string, string> {
    var description :- FirstField(doc, LinkedInDescriptions, CleanedMarkup(engine, true));
    Success(CapWithEllipsis(description, LinkedInDescriptionCap))
  }

  method ExtractFromLinkedIn(doc: Document, engine: Engine) returns (r: Result<JobInfo, string>)
    ensures r == LinkedInJob(doc, engine)
  {
    var title := ScanSelectors(doc, LinkedInTitles, TrimmedText);
    var position := FieldOf(title, LinkedInTitles);
    if position.Failure? {
      return Failure(position.error);
    }
    var found := ScanSelectors(doc, LinkedInCompanies, TrimmedText);
    var company := FieldOf(found, LinkedInCompanies);
    if company.Failure? {
      return Failure(company.error);
    }
    found := ScanSelectors(doc, LinkedInLocations, TrimmedText);
    var location := FieldOf(found, LinkedInLocations);
    if location.Failure? {
      return Failure(location.error);
    }
    var salary := ScanLinkedInSalary(doc, engine);
    if salary.Failure? {
      return Failure(salary.error);
    }
    var description := ScanLinkedInDescription(doc, engine);
    if description.Failure? {
      return Failure(description.error);
    }
    r := Success(JobInfo(company.value, position.value, location.value, salary.value, description.value));
  }

  method ScanLinkedInDescription(doc: Document, engine: Engine) returns (r: Result<string, string>)
    ensures r == LinkedInDescription(doc, engine)
  {
    var found := ScanSelectors(doc, LinkedInDescriptions, CleanedMarkup(engine, true));
    var description := FieldOf(found, LinkedInDescriptions);
    if description.Failure? {
      return Failure(description.error);
    }
    var text := description.value;
    if |text| > LinkedInDescriptionCap {
      text := text[..LinkedInDescriptionCap] + "...";
    }
    r := Success(text);
  }

  /**
   * A LinkedIn description is always tidy (single spaces, no line breaks,
   * trimmed): both the cleaned markup and the collapsed-text fallback are,
   * and so is the cut with its ellipsis.  It never exceeds 20003 characters.
   */
  lemma LinkedInDescriptionShape(doc: Document, engine: Engine)
    ensures LinkedInDescription(doc, engine).Success? ==>
      var d := LinkedInDescription(doc, engine).value;
      IsTidy(d) && |d| <= LinkedInDescriptionCap + 3
  {
    var sels := LinkedInDescriptions;
    var view := CleanedMarkup(engine, true);
    FirstFieldMeaning(doc, sels, view);
    var f := FirstField(doc, sels, view);
    if f.Success? {
      if f.value != [] {
        var k :| 0 <= k < |sels| && Query(doc, sels[k]).Found?
          && ViewText(view, Query(doc, sels[k]).element) == f.value;
        var e := Query(doc, sels[k]).element;
        CollapsedTrimIsTidy(e.text);
        assert IsTidy(ViewText(view, e));
      }
      CapKeepsTidy(f.value, LinkedInDescriptionCap);
    }
  }

  method ScanLinkedInSalary(doc: Document, engine: Engine) returns (r: Result<string, string>)
    ensures r == LinkedInSalary(doc, engine)
  {
    r := Sections(doc);
    if r == Success([]) {
      r := Insights(doc);
      if r == Success([]) {
        r := PatternsInDescription(doc, engine);
      }
    }
  }

  // ----------------------------------------------------- LinkedIn salary cascade

  /** The three salary sources, a later one consulted only while the salary is still empty. */
  function LinkedInSalary(doc: Document, engine: Engine): Result<string, string> {
    var fromSection :- SectionSalary(doc, CompensationSections);
    if fromSection != [] then Success(fromSection)
    else
      var fromInsight :- InsightSalary(doc, JobInsights);
      if fromInsight != [] then Success(fromInsight)
      else PatternSalary(doc, SalaryDescriptionSources, engine.salaryPatterns)
  }

  /** Stage one: the first compensation section whose lower-cased text mentions `salary`, whitespace collapsed. */
  function SectionSalary(doc: Document, sels: seq<string>): Result<string, string> {
    if sels == [] then Success([])
    else match Query(doc, sels[0])
      case Throws => Failure(sels[0])
      case Found(e) =>
        if Includes(Lower(e.text), "salary") then Success(CollapseSpace(Trim(e.text)))
        else SectionSalary(doc, sels[1..])
      case Missing => SectionSalary(doc, sels[1..])
  }

  method Sections(doc: Document) returns (r: Result<string, string>)
    ensures r == SectionSalary(doc, CompensationSections)
  {
    var sels := CompensationSections;
    var i := 0;
    while i < |sels|
      invariant 0 <= i <= |sels|
      invariant SectionSalary(doc, sels) == SectionSalary(doc, sels[i..])
    {
      assert sels[i..][1..] == sels[i + 1..];
      var l := Query(doc, sels[i]);
      if l.Throws? {
        return Failure(sels[i]);
      }
      if l.Found? && Includes(Lower(l.element.text), "salary") {
        return Success(CollapseSpace(Trim(l.element.text)));
      }
      i := i + 1;
    }
    r := Success([]);
  }

  predicate MentionsSalary(l: Lookup) {
    l.Found? && Includes(Lower(l.element.text), "salary")
  }

  /**
   * Stage one comes back empty exactly when no compensation section mentions
   * `salary` and none of their selectors throws; otherwise the salary is the
   * collapsed text of the first section that does.
   */
  lemma {:induction false} SectionSalaryEmptyIff(doc: Document, sels: seq<string>)
    ensures SectionSalary(doc, sels) == Success([]) <==>
      forall k | 0 <= k < |sels| :: !Query(doc, sels[k]).Throws? && !MentionsSalary(Query(doc, sels[k]))
    ensures SectionSalary(doc, sels).Success? && SectionSalary(doc, sels).value != [] ==>
      exists k | 0 <= k < |sels| :: MentionsSalary(Query(doc, sels[k]))
        && SectionSalary(doc, sels).value == CollapseSpace(Trim(Query(doc, sels[k]).element.text))
  {
    if sels != [] {
      SectionSalaryEmptyIff(doc, sels[1..]);
      assert forall k | 1 <= k < |sels| :: sels[1..][k - 1] == sels[k];
      var l := Query(doc, sels[0]);
      if MentionsSalary(l) {
        MentionIsNonBlank(l.element.text, "salary");
      }
    }
  }

  /** The mentions that make a job-insight element count as a salary: `salary`, `compensation`, `pay`, `$`, `€`, `£`. */
  predicate MentionsPay(e: Element) {
    var t := Lower(e.text);
    Includes(t, "salary") || Includes(t, "compensation") || Includes(t, "pay")
    || Includes(t, "$") || Includes(t, "€") || Includes(t, "£")
  }

  function FirstPayMention(els: seq<Element>): (r: Option<Element>)
    ensures r.Some? ==> r.value in els && MentionsPay(r.value)
    ensures r.None? ==> forall k | 0 <= k < |els| :: !MentionsPay(els[k])
  {
    if els == [] then None
    else if MentionsPay(els[0]) then Some(els[0])
    else FirstPayMention(els[1..])
  }

  /** Stage two: per insight selector, the first of all matching elements that mentions pay. */
  function InsightSalary(doc: Document, sels: seq<string>): Result<string, string> {
    if sels == [] then Success([])
    else
      var els :- QueryAll(doc, sels[0]);
      match FirstPayMention(els)
      case Some(e) =>
        if Trim(e.text) != [] then Success(Trim(e.text)) else InsightSalary(doc, sels[1..])
      case None => InsightSalary(doc, sels[1..])
  }

  method Insights(doc: Document) returns (r: Result<string, string>)
    ensures r == InsightSalary(doc, JobInsights)
  {
    var sels := JobInsights;
    var i := 0;
    while i < |sels|
      invariant 0 <= i <= |sels|
      invariant InsightSalary(doc, sels) == InsightSalary(doc, sels[i..])
    {
      assert sels[i..][1..] == sels[i + 1..];
      var all := QueryAll(doc, sels[i]);
      if all.Failure? {
        return Failure(all.error);
      }
      var els := all.value;
      var salary := "";
      var k := 0;
      while k < |els|
        invariant 0 <= k <= |els|
        invariant FirstPayMention(els) == FirstPayMention(els[k..])
        invariant salary == []
      {
        assert els[k..][1..] == els[k + 1..];
        if MentionsPay(els[k]) {
          salary := Trim(els[k].text);
          break;
        }
        k := k + 1;
      }
      if salary != [] {
        return Success(salary);
      }
      i := i + 1;
    }
    r := Success([]);
  }

  /** An element that mentions pay has non-whitespace text, so the outer loop always stops at it. */
  lemma PayMentionIsNonBlank(e: Element)
    requires MentionsPay(e)
    ensures Trim(e.text) != []
  {
    var t := Lower(e.text);
    if Includes(t, "salary") {
      MentionIsNonBlank(e.text, "salary");
    } else if Includes(t, "compensation") {
      MentionIsNonBlank(e.text, "compensation");
    } else if Includes(t, "pay") {
      MentionIsNonBlank(e.text, "pay");
    } else if Includes(t, "$") {
      MentionIsNonBlank(e.text, "$");
    } else if Includes(t, "€") {
      MentionIsNonBlank(e.text, "€");
    } else {
      MentionIsNonBlank(e.text, "£");
    }
  }

  /** A non-empty stage-two salary is the trimmed text of some element that mentions pay. */
  lemma {:induction false} InsightSalaryFound(doc: Document, sels: seq<string>)
    ensures InsightSalary(doc, sels).Success? && InsightSalary(doc, sels).value != [] ==>
      exists k, e | 0 <= k < |sels| && QueryAll(doc, sels[k]).Success? && e in QueryAll(doc, sels[k]).value ::
        MentionsPay(e) && InsightSalary(doc, sels).value == Trim(e.text)
  {
    if sels != [] {
      InsightSalaryFound(doc, sels[1..]);
      assert forall k | 1 <= k < |sels| :: sels[1..][k - 1] == sels[k];
    }
  }

  lemma MentionIsNonBlank(s: string, needle: string)
    requires needle != [] && !IsSpace(needle[0]) && Includes(Lower(s), needle)
    ensures Trim(s) != []
  {
    var i := IndexOf(Lower(s), needle).value;
    assert Lower(s)[i] == needle[0];
    LowerCharSpace(s[i]);
    TrimNonEmpty(s, i);
  }

  function FirstPatternMatch(patterns: seq<string -> Option<string>>, text: string): Option<string> {
    if patterns == [] then None
    else match patterns[0](text)
      case Some(m) => Some(m)
      case None => FirstPatternMatch(patterns[1..], text)
  }

  /** Stage three: the first match of the first matching pattern in the first description element that yields one. */
  function PatternSalary(doc: Document, sels: seq<string>, patterns: seq<string -> Option<string>>): Result<string, string> {
    if sels == [] then Success([])
    else match Query(doc, sels[0])
      case Throws => Failure(sels[0])
      case Missing => PatternSalary(doc, sels[1..], patterns)
      case Found(e) =>
        match FirstPatternMatch(patterns, e.text)
        case Some(m) => if m != [] then Success(m) else PatternSalary(doc, sels[1..], patterns)
        case None => PatternSalary(doc, sels[1..], patterns)
  }

  /** A description element that leaves stage three's salary empty: absent, or no pattern yields a non-empty match in it. */
  predicate YieldsNoPattern(doc: Document, sel: string, patterns: seq<string -> Option<string>>) {
    match Query(doc, sel)
    case Throws => false
    case Missing => true
    case Found(e) => var m := FirstPatternMatch(patterns, e.text); m.None? || m.value == []
  }

  /**
   * A non-empty stage-three salary is what the first matching pattern gives
   * for some description element, every earlier element yielding nothing;
   * an exception names a selector that every earlier one passed over.
   */
  lemma {:induction false} PatternSalaryFound(doc: Document, sels: seq<string>, patterns: seq<string -> Option<string>>)
    ensures var r := PatternSalary(doc, sels, patterns);
      r.Success? && r.value != [] ==>
        exists i | 0 <= i < |sels| ::
          Query(doc, sels[i]).Found? && FirstPatternMatch(patterns, Query(doc, sels[i]).element.text) == Some(r.value)
          && forall j | 0 <= j < i :: YieldsNoPattern(doc, sels[j], patterns)
    ensures var r := PatternSalary(doc, sels, patterns);
      r.Failure? ==>
        exists i | 0 <= i < |sels| ::
          Query(doc, sels[i]).Throws? && r.error == sels[i]
          && forall j | 0 <= j < i :: YieldsNoPattern(doc, sels[j], patterns)
  {
    if sels != [] {
      PatternSalaryFound(doc, sels[1..], patterns);
      assert forall k | 1 <= k < |sels| :: sels[1..][k - 1] == sels[k];
      var r := PatternSalary(doc, sels, patterns);
      if !YieldsNoPattern(doc, sels[0], patterns) {
        if r.Success? && r.value != [] {
          assert Query(doc, sels[0]).Found?;
        }
      } else {
        assert r == PatternSalary(doc, sels[1..], patterns);
        if r.Success? && r.value != [] {
          var i :| 0 <= i < |sels[1..]| && Query(doc, sels[1..][i]).Found?
            && FirstPatternMatch(patterns, Query(doc, sels[1..][i]).element.text) == Some(r.value)
            && forall j | 0 <= j < i :: YieldsNoPattern(doc, sels[1..][j], patterns);
          assert sels[1..][i] == sels[i + 1];
          assert forall j | 0 <= j < i + 1 :: YieldsNoPattern(doc, sels[j], patterns);
        }
        if r.Failure? {
          var i :| 0 <= i < |sels[1..]| && Query(doc, sels[1..][i]).Throws? && r.error == sels[1..][i]
            && forall j | 0 <= j < i :: YieldsNoPattern(doc, sels[1..][j], patterns);
          assert sels[1..][i] == sels[i + 1];
          assert forall j | 0 <= j < i + 1 :: YieldsNoPattern(doc, sels[j], patterns);
        }
      }
    }
  }

  /** Stage three stays empty exactly when every description element yields nothing and none throws. */
  lemma {:induction false} PatternSalaryEmptyIff(doc: Document, sels: seq<string>, patterns: seq<string -> Option<string>>)
    ensures PatternSalary(doc, sels, patterns) == Success([]) <==>
      forall j | 0 <= j < |sels| :: YieldsNoPattern(doc, sels[j], patterns)
  {
    if sels != [] {
      PatternSalaryEmptyIff(doc, sels[1..], patterns);
      assert forall k | 1 <= k < |sels| :: sels[1..][k - 1] == sels[k];
      if YieldsNoPattern(doc, sels[0], patterns) {
        assert PatternSalary(doc, sels, patterns) == PatternSalary(doc, sels[1..], patterns);
      }
    }
  }

  method PatternsInDescription(doc: Document, engine: Engine) returns (r: Result<string, string>)
    ensures r == PatternSalary(doc, SalaryDescriptionSources, engine.salaryPatterns)
  {
    var sels, patterns := SalaryDescriptionSources, engine.salaryPatterns;
    var i := 0;
    while i < |sels|
      invariant 0 <= i <= |sels|
      invariant PatternSalary(doc, sels, patterns) == PatternSalary(doc, sels[i..], patterns)
    {
      assert sels[i..][1..] == sels[i + 1..];
      var l := Query(doc, sels[i]);
      if l.Throws? {
        return Failure(sels[i]);
      }
      if l.Found? {
        var salary := "";
        var k := 0;
        while k < |patterns|
          invariant 0 <= k <= |patterns|
          invariant FirstPatternMatch(patterns, l.element.text) == FirstPatternMatch(patterns[k..], l.element.text)
          invariant salary == []
        {
          assert patterns[k..][1..] == patterns[k + 1..];
          var m := patterns[k](l.element.text);
          if m.Some? {
            salary := m.value;
            break;
          }
          k := k + 1;
        }
        if salary != [] {
          return Success(salary);
        }
      }
      i := i + 1;
    }
    r := Success([]);
  }

  // ------------------------------------------- Indeed, Glassdoor and Google Jobs

  /** `if (el) field = el.textContent.trim()`: the field is set whenever the element exists, even to an empty string. */
  function PresentText(doc: Document, sel: string): Result<string, string> {
    match Query(doc, sel)
    case Throws => Failure(sel)
    case Missing => Success([])
    case Found(e) => Success(Trim(e.text))
  }

  /** The job of a site whose title, company, location and salary each come from one selector. */
  function SingleSelectorJob(doc: Document, engine: Engine, title: string, company: string,
                             location: string, salary: string, descriptions: seq<string>): Result<JobInfo, string> {
    var position :- PresentText(doc, title);
    var companyName :- PresentText(doc, company);
    var place :- PresentText(doc, location);
    var pay :- PresentText(doc, salary);
    var description :- FirstField(doc, descriptions, CleanedMarkup(engine, false));
    Success(JobInfo(companyName, position, place, pay, CapWithEllipsis(description, OtherDescriptionCap)))
  }

  /** The field a single-selector site reads from `sel`: the trimmed text of its element, or empty when there is none. */
  predicate ShowsText(doc: Document, sel: string, field: string) {
    (Query(doc, sel).Found? && field == Trim(Query(doc, sel).element.text))
    || (Query(doc, sel).Missing? && field == [])
  }

  /**
   * A single-selector site succeeds exactly when none of its selectors
   * throws; each of title, company, location and salary is then the trimmed
   * text of its one element, even when blank, or empty when it is absent,
   * and the description is the first non-empty cleaned description cut to
   * 5000 characters plus `...`.
   */
  lemma SingleSelectorJobShape(doc: Document, engine: Engine, title: string, company: string,
                               location: string, salary: string, descriptions: seq<string>)
    ensures var r := SingleSelectorJob(doc, engine, title, company, location, salary, descriptions);
      r.Success? <==>
        !Query(doc, title).Throws? && !Query(doc, company).Throws? && !Query(doc, location).Throws?
        && !Query(doc, salary).Throws? && FirstField(doc, descriptions, CleanedMarkup(engine, false)).Success?
    ensures var r := SingleSelectorJob(doc, engine, title, company, location, salary, descriptions);
      r.Success? ==>
        ShowsText(doc, title, r.value.position) && ShowsText(doc, company, r.value.company)
        && ShowsText(doc, location, r.value.location) && ShowsText(doc, salary, r.value.salary)
        && r.value.description
           == CapWithEllipsis(FirstField(doc, descriptions, CleanedMarkup(engine, false)).value, OtherDescriptionCap)
        && |r.value.description| <= OtherDescriptionCap + 3
  {
  }

  function IndeedJob(doc: Document, engine: Engine): Result<JobInfo, string> {
    SingleSelectorJob(doc, engine, "h1.jobsearch-JobInfoHeader-title", "[data-testid=\"inlineCompanyName\"]",
                      "[data-testid=\"job-location\"]", "[data-testid=\"attribute_snippet_compensation\"]",
                      IndeedDescriptions)
  }

  function GlassdoorJob(doc: Document, engine: Engine): Result<JobInfo, string> {
    SingleSelectorJob(doc, engine, ".e1tk4fih2", ".e1tk4fih5", ".e1tk4fih4", "[data-test=\"detailSalary\"]",
                      GlassdoorDescriptions)
  }

  method ExtractSingleSelectorSite(doc: Document, engine: Engine, title: string, company: string,
                                   location: string, salary: string, descriptions: seq<string>)
    returns (r: Result<JobInfo, string>)
    ensures r == SingleSelectorJob(doc, engine, title, company, location, salary, descriptions)
  {
    var position := PresentText(doc, title);
    if position.Failure? {
      return Failure(position.error);
    }
    var companyName := PresentText(doc, company);
    if companyName.Failure? {
      return Failure(companyName.error);
    }
    var place := PresentText(doc, location);
    if place.Failure? {
      return Failure(place.error);
    }
    var pay := PresentText(doc, salary);
    if pay.Failure? {
      return Failure(pay.error);
    }
    var found := ScanSelectors(doc, descriptions, CleanedMarkup(engine, false));
    var description := FieldOf(found, descriptions);
    if description.Failure? {
      return Failure(description.error);
    }
    r := Success(JobInfo(companyName.value, position.value, place.value, pay.value,
                         CapWithEllipsis(description.value, OtherDescriptionCap)));
  }

  method ExtractFromIndeed(doc: Document, engine: Engine) returns (r: Result<JobInfo, string>)
    ensures r == IndeedJob(doc, engine)
  {
    r := ExtractSingleSelectorSite(doc, engine, "h1.jobsearch-JobInfoHeader-title", "[data-testid=\"inlineCompanyName\"]",
                                   "[data-testid=\"job-location\"]", "[data-testid=\"attribute_snippet_compensation\"]",
                                   IndeedDescriptions);
  }

  method ExtractFromGlassdoor(doc: Document, engine: Engine) returns (r: Result<JobInfo, string>)
    ensures r == GlassdoorJob(doc, engine)
  {
    r := ExtractSingleSelectorSite(doc, engine, ".e1tk4fih2", ".e1tk4fih5", ".e1tk4fih4", "[data-test=\"detailSalary\"]",
                                   GlassdoorDescriptions);
  }

  /** A `.LL4CDc` element counts as a salary when it shows `$`, or mentions `salary` or `per hour` in lower case. */
  predicate LooksLikeSalary(e: Element) {
    Includes(e.text, "$") || Includes(Lower(e.text), "salary") || Includes(Lower(e.text), "per hour")
  }

  /** The forEach without a break: the LAST element that looks like a salary. */
  function LastSalaryElement(els: seq<Element>): Option<Element> {
    if els == [] then None
    else if LooksLikeSalary(els[|els| - 1]) then Some(els[|els| - 1])
    else LastSalaryElement(els[..|els| - 1])
  }

  /** The salary Google's branch keeps: the trimmed text of that element, or empty. */
  function LastSalary(els: seq<Element>): string {
    match LastSalaryElement(els)
    case None => []
    case Some(e) => Trim(e.text)
  }

  /** Google's salary is the last salary-looking element, never an earlier one; empty when none looks like a salary. */
  lemma LastSalaryIsLast(els: seq<Element>)
    ensures (forall k | 0 <= k < |els| :: !LooksLikeSalary(els[k])) ==> LastSalary(els) == []
    ensures forall k | 0 <= k < |els| && LooksLikeSalary(els[k]) ::
      (forall j | k < j < |els| :: !LooksLikeSalary(els[j])) ==> LastSalary(els) == Trim(els[k].text)
  {
    if forall k | 0 <= k < |els| :: !LooksLikeSalary(els[k]) {
      NoSalaryElement(els);
    }
    forall k | 0 <= k < |els| && LooksLikeSalary(els[k]) && (forall j | k < j < |els| :: !LooksLikeSalary(els[j]))
      ensures LastSalary(els) == Trim(els[k].text)
    {
      LastSalaryElementAt(els, k);
    }
  }

  lemma {:induction false} NoSalaryElement(els: seq<Element>)
    requires forall k | 0 <= k < |els| :: !LooksLikeSalary(els[k])
    ensures LastSalaryElement(els) == None
    decreases |els|
  {
    if els != [] {
      var init := els[..|els| - 1];
      assert forall k | 0 <= k < |init| :: init[k] == els[k];
      NoSalaryElement(init);
    }
  }

  lemma {:induction false} LastSalaryElementAt(els: seq<Element>, k: nat)
    requires k < |els| && LooksLikeSalary(els[k])
    requires forall j | k < j < |els| :: !LooksLikeSalary(els[j])
    ensures LastSalaryElement(els) == Some(els[k])
    decreases |els|
  {
    var n := |els| - 1;
    if k < n {
      var init := els[..n];
      assert !LooksLikeSalary(els[n]);
      assert init[k] == els[k];
      assert forall j | k < j < n :: init[j] == els[j];
      LastSalaryElementAt(init, k);
    }
  }

  /** The salary loop of Google's branch. */
  method ScanGoogleSalary(els: seq<Element>) returns (salary: string)
    ensures salary == LastSalary(els)
  {
    salary := "";
    for k := 0 to |els|
      invariant salary == LastSalary(els[..k])
    {
      assert els[..k + 1][..k] == els[..k];
      if LooksLikeSalary(els[k]) {
        salary := Trim(els[k].text);
      }
    }
    assert els[..|els|] == els;
  }

  function GoogleJob(doc: Document, engine: Engine): Result<JobInfo, string> {
    var position :- PresentText(doc, ".BjJfJf");
    var company :- PresentText(doc, GoogleMarker);
    var location :- PresentText(doc, ".Qk80Jf");
    var els :- QueryAll(doc, ".LL4CDc");
    var description :- FirstField(doc, GoogleDescriptions, CleanedMarkup(engine, false));
    Success(JobInfo(company, position, location, LastSalary(els), CapWithEllipsis(description, OtherDescriptionCap)))
  }

  method ExtractFromGoogleJobs(doc: Document, engine: Engine) returns (r: Result<JobInfo, string>)
    ensures r == GoogleJob(doc, engine)
  {
    var position := PresentText(doc, ".BjJfJf");
    if position.Failure? {
      return Failure(position.error);
    }
    var company := PresentText(doc, GoogleMarker);
    if company.Failure? {
      return Failure(company.error);
    }
    var location := PresentText(doc, ".Qk80Jf");
    if location.Failure? {
      return Failure(location.error);
    }
    var all := QueryAll(doc, ".LL4CDc");
    if all.Failure? {
      return Failure(all.error);
    }
    var salary := ScanGoogleSalary(all.value);
    var found := ScanSelectors(doc, GoogleDescriptions, CleanedMarkup(engine, false));
    var description := FieldOf(found, GoogleDescriptions);
    if description.Failure? {
      return Failure(description.error);
    }
    r := Success(JobInfo(company.value, position.value, location.value, salary,
                         CapWithEllipsis(description.value, OtherDescriptionCap)));
  }
}
