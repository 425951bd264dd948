/**
 * src/sidebarInjector.ts: the extraction the injected sidebar runs on a
 * LinkedIn job page.  Its selector lists are those of `LinkedInSelectors` in
 * src/constants.ts; one salary selector form, `base:contains('text')`, is
 * resolved by hand because the browser does not know `:contains`.
 */
module SidebarExtractor {
  import opened Wrappers
  import opened JsString
  import opened Dom

  // The two `:contains` selectors, spelt out of their parts:
  // `.jobs-unified-top-card__job-insight:contains('$')` and
  // `.jobs-unified-top-card__job-insight-container .jobs-unified-top-card__job-insight:contains('$')`.
  const InsightBase := ".jobs-unified-top-card__job-insight"
  const NestedInsightBase := InsightBase + "-container " + InsightBase
  const ContainsMarker := ":contains"
  const QuotedDollar := "('$')"
  const InsightContainsDollar := InsightBase + ContainsMarker + QuotedDollar
  const NestedInsightContainsDollar := NestedInsightBase + ContainsMarker + QuotedDollar

  /** The selector lists of `LinkedInSelectors`, tried in order for each field. */
  datatype SelectorSet = SelectorSet(
    title: seq<string>, company: seq<string>, location: seq<string>,
    salary: seq<string>, description: seq<string>)

  const LinkedInSelectors := SelectorSet(
    title := [
      ".job-details-jobs-unified-top-card__job-title", "h1.top-card-layout__title", "h1.job-title",
      "h2.t-24.t-bold.jobs-unified-top-card__job-title", ".jobs-unified-top-card__job-title"],
    company := [
      ".topcard__org-name-link", ".job-details-jobs-unified-top-card__company-name",
      "a[data-tracking-control-name=\"public_jobs_topcard-org-name\"]",
      ".jobs-unified-top-card__company-name",
      "a[data-tracking-control-name=\"public_jobs_topcard_company_name\"]",
      "a[data-test-job-company-name]",
      ".jobs-unified-top-card__subtitle-primary-grouping .jobs-unified-top-card__company-name"],
    location := [
      ".job-details-jobs-unified-top-card__bullet", ".job-details-jobs-unified-top-card__workplace-type",
      ".topcard__flavor--bullet", ".job-details-jobs-unified-top-card__company-name + span", "span.location",
      ".jobs-unified-top-card__bullet", ".jobs-unified-top-card__workplace-type",
      ".jobs-unified-top-card__subtitle-primary-grouping .jobs-unified-top-card__bullet"],
    salary := [
      ".compensation__salary",
      ".job-details-jobs-unified-top-card__job-insight > .job-details-jobs-unified-top-card__job-insight-view-model-secondary",
      InsightContainsDollar, NestedInsightContainsDollar],
    description := [
      ".job-details-jobs-unified-top-card__description-container", ".show-more-less-html__markup", "#job-details",
      ".description__text", ".jobs-description", ".jobs-description-content", ".jobs-box__html-content"])

  // ------------------------------------------------------------- `:contains`

  /** A character the regular-expression `.` does not match. */
  predicate IsLineTerminator(c: char) {
    c == '\n' || c == '\r' || c == '\U{2028}' || c == '\U{2029}'
  }

  /** Where the lazy `(.*?)"` that starts at `from` ends: the first `"` before any line terminator. */
  function ClosingQuote(s: string, from: nat): (r: Option<nat>)
    decreases |s| - from
    ensures r.Some? ==> from <= r.value < |s| && s[r.value] == '"'
    ensures r.Some? ==> forall k | from <= k < r.value :: s[k] != '"' && !IsLineTerminator(s[k])
  {
    if from >= |s| || IsLineTerminator(s[from]) then None
    else if s[from] == '"' then Some(from)
    else ClosingQuote(s, from + 1)
  }

  /** The first match of `/:"(.*?)"/` at or after `from`, as its capture group. */
  function QuotedAfterColon(s: string, from: nat): Option<string>
    decreases |s| - from
  {
    if from + 2 > |s| then None
    else if s[from] == ':' && s[from + 1] == '"' then
      match ClosingQuote(s, from + 2)
      case Some(j) => Some(s[from + 2..j])
      case None => QuotedAfterColon(s, from + 1)
    else QuotedAfterColon(s, from + 1)
  }

  /** `selector.match(/:"(.*?)"/)?.[1] || "$"` */
  function Needle(sel: string): (r: string)
    ensures r != []
  {
    match QuotedAfterColon(sel, 0)
    case Some(g) => if g != [] then g else "$"
    case None => "$"
  }

  /** The regular expression looks for a double quote, so a selector without one searches for `$`. */
  lemma {:induction false} NoDoubleQuoteNoMatch(s: string, from: nat)
    requires '"' !in s
    ensures QuotedAfterColon(s, from) == None
    decreases |s| - from
  {
    if from + 2 <= |s| {
      assert s[from + 1] != '"' by {
        assert s[from + 1] in s;
      }
      NoDoubleQuoteNoMatch(s, from + 1);
    }
  }

  /** `Array.from(elements).find(el => el.textContent.includes(needle))` */
  function FirstContaining(els: seq<Element>, needle: string): (r: Option<Element>)
    ensures r.Some? ==> r.value in els && Includes(r.value.text, needle)
    ensures r.None? ==> forall k | 0 <= k < |els| :: !Includes(els[k].text, needle)
  {
    if els == [] then None
    else if Includes(els[0].text, needle) then Some(els[0])
    else FirstContaining(els[1..], needle)
  }

  /** The element one salary selector yields: a plain query, or the first element of the base selector containing the needle. */
  function SalaryLookup(doc: Document, sel: string): Lookup {
    if Includes(sel, ContainsMarker) then
      match QueryAll(doc, BeforeFirst(sel, ContainsMarker))
      case Failure(_) => Throws
      case Success(els) =>
        match FirstContaining(els, Needle(sel))
        case Some(e) => Found(e)
        case None => Missing
    else Query(doc, sel)
  }

  function SalaryLookups(doc: Document, sels: seq<string>): (ls: seq<Lookup>)
    ensures |ls| == |sels|
    ensures forall i | 0 <= i < |sels| :: ls[i] == SalaryLookup(doc, sels[i])
  {
    seq(|sels|, i requires 0 <= i < |sels| => SalaryLookup(doc, sels[i]))
  }

  /**
   * Both `:contains` salary selectors search the elements of their base
   * selector for a dollar sign, since they quote with single quotes.
   */
  lemma ContainsSelectorsSearchForDollar()
    ensures BeforeFirst(InsightContainsDollar, ContainsMarker) == InsightBase
    ensures BeforeFirst(NestedInsightContainsDollar, ContainsMarker) == NestedInsightBase
    ensures Needle(InsightContainsDollar) == "$" && Needle(NestedInsightContainsDollar) == "$"
  {
    InsightBaseIsPlain();
    NestedInsightBaseIsPlain();
    BeforeFirstOf(InsightBase, ContainsMarker, QuotedDollar);
    BeforeFirstOf(NestedInsightBase, ContainsMarker, QuotedDollar);
    assert '"' !in ContainsMarker && '"' !in QuotedDollar;
    assert InsightContainsDollar == InsightBase + ContainsMarker + QuotedDollar;
    assert NestedInsightContainsDollar == NestedInsightBase + ContainsMarker + QuotedDollar;
    NoDoubleQuoteNoMatch(InsightContainsDollar, 0);
    NoDoubleQuoteNoMatch(NestedInsightContainsDollar, 0);
  }

  lemma InsightBaseIsPlain()
    ensures ':' !in InsightBase && '"' !in InsightBase
  {
    var a, b, d, e := ".jobs-unif", "ied-top-ca", "rd__job-in", "sight";
    assert InsightBase == a + b + d + e;
    assert ':' !in a && ':' !in b && ':' !in d && ':' !in e;
    assert '"' !in a && '"' !in b && '"' !in d && '"' !in e;
  }

  lemma NestedInsightBaseIsPlain()
    ensures ':' !in NestedInsightBase && '"' !in NestedInsightBase
  {
    InsightBaseIsPlain();
    var glue := "-container ";
    assert ':' !in glue && '"' !in glue;
    assert NestedInsightBase == InsightBase + glue + InsightBase;
  }

  /** A `:contains` salary element shows the needle in its text. */
  lemma ContainsLookupShowsNeedle(doc: Document, sel: string)
    requires Includes(sel, ContainsMarker) && SalaryLookup(doc, sel).Found?
    ensures Includes(SalaryLookup(doc, sel).element.text, Needle(sel))
  {
  }

  method LookUpSalary(doc: Document, sel: string) returns (l: Lookup)
    ensures l == SalaryLookup(doc, sel)
  {
    if Includes(sel, ContainsMarker) {
      var needle := Needle(sel);
      var all := QueryAll(doc, BeforeFirst(sel, ContainsMarker));
      if all.Failure? {
        l := Throws;
      } else {
        var e := FirstContaining(all.value, needle);
        l := if e.Some? then Found(e.value) else Missing;
      }
    } else {
      l := Query(doc, sel);
    }
  }

  /** The salary loop: the first salary selector whose element has non-empty trimmed text. */
  method ScanSalary(doc: Document, sels: seq<string>) returns (r: Scan)
    ensures Chosen(SalaryLookups(doc, sels), TrimmedText, r)
    ensures r == FirstNonEmpty(SalaryLookups(doc, sels), TrimmedText)
  {
    ghost var ls := SalaryLookups(doc, sels);
    var i := 0;
    while i < |sels|
      invariant 0 <= i <= |sels|
      invariant BlankBefore(ls, TrimmedText, i)
    {
      var l := LookUpSalary(doc, sels[i]);
      assert l == ls[i];
      if l.Throws? {
        r := Threw(i);
        ChosenIsFirst(ls, TrimmedText, r);
        return;
      }
      if l.Found? && Trim(l.element.text) != [] {
        r := Hit(i, Trim(l.element.text));
        ChosenIsFirst(ls, TrimmedText, r);
        return;
      }
      i := i + 1;
    }
    r := Miss;
    ChosenIsFirst(ls, TrimmedText, r);
  }

  // ---------------------------------------------------------------- extraction

  /** `extractFromLinkedIn()`: every field is the trimmed text of the first element with visible text. */
  function LinkedInJob(doc: Document, sels: SelectorSet): Result<JobInfo, string> {
    var position :- FirstField(doc, sels.title, TrimmedText);
    var company :- FirstField(doc, sels.company, TrimmedText);
    var location :- FirstField(doc, sels.location, TrimmedText);
    var salary :- FieldOf(FirstNonEmpty(SalaryLookups(doc, sels.salary), TrimmedText), sels.salary);
    var description :- FirstField(doc, sels.description, TrimmedText);
    Success(JobInfo(company, position, location, salary, description))
  }

  /** `extractJobInfo()`: a throwing extraction is caught and leaves the five empty fields. */
  function SidebarJob(doc: Document, sels: SelectorSet): JobInfo {
    if !IsLinkedInJobUrl(doc.url) then Defaults
    else match LinkedInJob(doc, sels)
      case Success(job) => job
      case Failure(_) => Defaults
  }

  method ExtractFromLinkedIn(doc: Document, sels: SelectorSet) returns (r: Result<JobInfo, string>)
    ensures r == LinkedInJob(doc, sels)
  {
    var found := ScanSelectors(doc, sels.title, TrimmedText);
    var position := FieldOf(found, sels.title);
    if position.Failure? {
      return Failure(position.error);
    }
    found := ScanSelectors(doc, sels.company, TrimmedText);
    var company := FieldOf(found, sels.company);
    if company.Failure? {
      return Failure(company.error);
    }
    found := ScanSelectors(doc, sels.location, TrimmedText);
    var location := FieldOf(found, sels.location);
    if location.Failure? {
      return Failure(location.error);
    }
    found := ScanSalary(doc, sels.salary);
    var salary := FieldOf(found, sels.salary);
    if salary.Failure? {
      return Failure(salary.error);
    }
    found := ScanSelectors(doc, sels.description, TrimmedText);
    var description := FieldOf(found, sels.description);
    if description.Failure? {
      return Failure(description.error);
    }
    r := Success(JobInfo(company.value, position.value, location.value, salary.value, description.value));
  }

  method ExtractJobInfo(doc: Document) returns (job: JobInfo)
    ensures job == SidebarJob(doc, LinkedInSelectors)
  {
    job := Defaults;
    if IsLinkedInJobUrl(doc.url) {
      var r := ExtractFromLinkedIn(doc, LinkedInSelectors);
      if r.Success? {
        job := r.value;
      }
    }
  }

  predicate IsTrimmed(s: string) {
    Trim(s) == s
  }

  /** Every field the sidebar shows is already trimmed. */
  lemma DefaultsTrimmed()
    ensures TrimmedJob(Defaults)
  {
    TrimOfTrimmed([]);
  }

  lemma SidebarFieldsAreTrimmed(doc: Document, sels: SelectorSet)
    ensures TrimmedJob(SidebarJob(doc, sels))
  {
    if IsLinkedInJobUrl(doc.url) {
      LinkedInJobIsTrimmed(doc, sels);
      if LinkedInJob(doc, sels).Failure? {
        DefaultsTrimmed();
      }
    } else {
      DefaultsTrimmed();
    }
  }

  predicate TrimmedJob(job: JobInfo) {
    IsTrimmed(job.company) && IsTrimmed(job.position) && IsTrimmed(job.location)
    && IsTrimmed(job.salary) && IsTrimmed(job.description)
  }

  lemma LinkedInJobIsTrimmed(doc: Document, sels: SelectorSet)
    ensures LinkedInJob(doc, sels).Success? ==> TrimmedJob(LinkedInJob(doc, sels).value)
  {
    var r := LinkedInJob(doc, sels);
    if r.Success? {
      LinkedInJobFields(doc, sels);
      TrimmedField(Lookups(doc, sels.title), sels.title);
      TrimmedField(Lookups(doc, sels.company), sels.company);
      TrimmedField(Lookups(doc, sels.location), sels.location);
      TrimmedField(SalaryLookups(doc, sels.salary), sels.salary);
      TrimmedField(Lookups(doc, sels.description), sels.description);
    }
  }

  /** A successful extraction is made of the five scans' values. */
  lemma LinkedInJobFields(doc: Document, sels: SelectorSet)
    ensures LinkedInJob(doc, sels).Success? ==>
      var job := LinkedInJob(doc, sels).value;
      && FirstField(doc, sels.title, TrimmedText) == Success(job.position)
      && FirstField(doc, sels.company, TrimmedText) == Success(job.company)
      && FirstField(doc, sels.location, TrimmedText) == Success(job.location)
      && FieldOf(FirstNonEmpty(SalaryLookups(doc, sels.salary), TrimmedText), sels.salary) == Success(job.salary)
      && FirstField(doc, sels.description, TrimmedText) == Success(job.description)
  {
  }

  lemma TrimmedField(ls: seq<Lookup>, sels: seq<string>)
    requires |ls| == |sels|
    ensures var f := FieldOf(FirstNonEmpty(ls, TrimmedText), sels); f.Success? ==> IsTrimmed(f.value)
  {
    FirstNonEmptyChosen(ls, TrimmedText);
    var r := FirstNonEmpty(ls, TrimmedText);
    if r.Hit? {
      var t := ls[r.index].element.text;
      TrimEdges(t);
      TrimOfTrimmed(Trim(t));
    } else {
      TrimOfTrimmed([]);
    }
  }
}
