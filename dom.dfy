/**
 * The page as the extractors see it, and the one loop every extractor
 * repeats: walk an ordered selector list and keep the first element whose
 * text is non-empty.
 */
module Dom {
  import opened Wrappers
  import opened JsString
  import Normalizer

  /** An element's `textContent` and `innerHTML`. */
  datatype Element = Element(text: string, html: string)

  /**
   * A loaded page: its URL and what `document.querySelector` and
   * `document.querySelectorAll` return for each selector.  `invalid` holds
   * for the selectors the engine rejects by throwing a `SyntaxError`.
   */
  datatype Document = Document(
    url: string,
    query: string -> Option<Element>,
    queryAll: string -> seq<Element>,
    invalid: string -> bool)

  /**
   * What the browser's HTML parser and regular-expression engine do and the
   * model does not define: the DOM half of `cleanupDescription`, the lazy
   * `<p>`/`<li>`/`<h1-6>` rewrites, and the first match (if any) of each
   * salary pattern of content.js, in the order the patterns are listed.
   */
  datatype Engine = Engine(
    sanitize: string -> Option<string>,
    rewriteBlocks: string -> string,
    salaryPatterns: seq<string -> Option<string>>)

  /** The five fields every extractor fills, all defaulting to the empty string. */
  datatype JobInfo = JobInfo(company: string, position: string, location: string,
                             salary: string, description: string)

  const Defaults := JobInfo("", "", "", "", "")

  /** The outcome of `document.querySelector(sel)`: no element, an element, or a thrown `SyntaxError`. */
  datatype Lookup = Missing | Found(element: Element) | Throws

  function Query(doc: Document, sel: string): Lookup {
    if doc.invalid(sel) then Throws
    else match doc.query(sel)
      case None => Missing
      case Some(e) => Found(e)
  }

  /** `document.querySelectorAll(sel)`; a failure carries the rejected selector. */
  function QueryAll(doc: Document, sel: string): Result<seq<Element>, string> {
    if doc.invalid(sel) then Failure(sel) else Success(doc.queryAll(sel))
  }

  /** `Query` applied to every selector of a list, in order. */
  function Lookups(doc: Document, sels: seq<string>): (ls: seq<Lookup>)
    ensures |ls| == |sels|
    ensures forall i | 0 <= i < |sels| :: ls[i] == Query(doc, sels[i])
  {
    seq(|sels|, i requires 0 <= i < |sels| => Query(doc, sels[i]))
  }

  /**
   * The text a scan judges an element by: its trimmed `textContent`, or
   * (for a description) its cleaned markup with the extractor's fallback
   * when cleaning throws.
   */
  datatype View = TrimmedText | CleanedMarkup(engine: Engine, collapseFallback: bool)

  function ViewText(view: View, e: Element): string {
    match view
    case TrimmedText => Trim(e.text)
    case CleanedMarkup(engine, collapse) =>
      match Normalizer.CleanupDescription(e.html, engine.sanitize, engine.rewriteBlocks)
      case Some(d) => d
      case None => if collapse then CollapseSpace(Trim(e.text)) else Trim(e.text)
  }

  /** A lookup a scan passes over: no element, or an element whose viewed text is empty. */
  predicate Blank(l: Lookup, view: View) {
    l.Missing? || (l.Found? && ViewText(view, l.element) == [])
  }

  predicate BlankBefore(ls: seq<Lookup>, view: View, n: nat) {
    forall j | 0 <= j < n && j < |ls| :: Blank(ls[j], view)
  }

  /** Where a scan stopped: at a usable element (with its text), at the end, or at a selector that threw. */
  datatype Scan = Hit(index: nat, text: string) | Miss | Threw(index: nat)

  /** The first lookup with non-empty text, unless a throwing selector comes first. */
  function FirstNonEmpty(ls: seq<Lookup>, view: View): (r: Scan)
    ensures r.Hit? ==> r.index < |ls| && r.text != []
    ensures r.Threw? ==> r.index < |ls|
  {
    if ls == [] then Miss
    else match ls[0]
      case Throws => Threw(0)
      case Found(e) =>
        if ViewText(view, e) != [] then Hit(0, ViewText(view, e))
        else Later(FirstNonEmpty(ls[1..], view))
      case Missing => Later(FirstNonEmpty(ls[1..], view))
  }

  function Later(r: Scan): Scan {
    match r
    case Hit(i, t) => Hit(i + 1, t)
    case Miss => Miss
    case Threw(i) => Threw(i + 1)
  }

  /** The strict priority order of a scan, stated without recursion. */
  predicate Chosen(ls: seq<Lookup>, view: View, r: Scan) {
    match r
    case Hit(i, t) =>
      i < |ls| && ls[i].Found? && t == ViewText(view, ls[i].element) && t != [] && BlankBefore(ls, view, i)
    case Miss => BlankBefore(ls, view, |ls|)
    case Threw(i) => i < |ls| && ls[i].Throws? && BlankBefore(ls, view, i)
  }

  /**
   * A scan returns the text of the FIRST element with non-empty text; every
   * earlier selector matched nothing or matched an element whose text is
   * empty.  A scan that finds nothing saw only such selectors.
   */
  lemma {:induction false} FirstNonEmptyChosen(ls: seq<Lookup>, view: View)
    ensures Chosen(ls, view, FirstNonEmpty(ls, view))
  {
    if ls != [] && Blank(ls[0], view) {
      FirstNonEmptyChosen(ls[1..], view);
      LaterChosen(ls, view, FirstNonEmpty(ls[1..], view));
    }
  }

  /** Passing over a blank first lookup keeps the priority order of the rest. */
  lemma LaterChosen(ls: seq<Lookup>, view: View, tail: Scan)
    requires ls != [] && Blank(ls[0], view) && Chosen(ls[1..], view, tail)
    ensures Chosen(ls, view, Later(tail))
  {
    match tail
    case Hit(i, _) =>
      BlankBeforeShift(ls, view, i);
      assert ls[i + 1] == ls[1..][i];
    case Miss =>
      BlankBeforeShift(ls, view, |ls| - 1);
    case Threw(i) =>
      BlankBeforeShift(ls, view, i);
      assert ls[i + 1] == ls[1..][i];
  }

  lemma BlankBeforeShift(ls: seq<Lookup>, view: View, n: nat)
    requires ls != [] && Blank(ls[0], view) && BlankBefore(ls[1..], view, n)
    ensures BlankBefore(ls, view, n + 1)
  {
    forall j | 0 < j < n + 1 && j < |ls|
      ensures Blank(ls[j], view)
    {
      assert ls[j] == ls[1..][j - 1];
    }
  }

  /** The priority order determines the outcome of a scan. */
  lemma ChosenUnique(ls: seq<Lookup>, view: View, r1: Scan, r2: Scan)
    requires Chosen(ls, view, r1) && Chosen(ls, view, r2)
    ensures r1 == r2
  {
  }

  /** The one outcome the priority order allows is the scan's. */
  lemma ChosenIsFirst(ls: seq<Lookup>, view: View, r: Scan)
    requires Chosen(ls, view, r)
    ensures r == FirstNonEmpty(ls, view)
  {
    FirstNonEmptyChosen(ls, view);
    ChosenUnique(ls, view, r, FirstNonEmpty(ls, view));
  }

  /**
   * `for (const selector of sels) { const el = document.querySelector(selector);
   * if (el && <text of el>) { <field> = <text of el>; break; } }`
   */
  method ScanSelectors(doc: Document, sels: seq<string>, view: View) returns (r: Scan)
    ensures Chosen(Lookups(doc, sels), view, r)
    ensures r == FirstNonEmpty(Lookups(doc, sels), view)
  {
    ghost var ls := Lookups(doc, sels);
    var i := 0;
    while i < |sels|
      invariant 0 <= i <= |sels|
      invariant BlankBefore(ls, view, i)
    {
      var l := Query(doc, sels[i]);
      assert l == ls[i];
      if l.Throws? {
        r := Threw(i);
        ChosenIsFirst(ls, view, r);
        return;
      }
      if l.Found? {
        var t := ViewText(view, l.element);
        if t != [] {
          r := Hit(i, t);
          ChosenIsFirst(ls, view, r);
          return;
        }
      }
      i := i + 1;
    }
    r := Miss;
    ChosenIsFirst(ls, view, r);
  }

  /** The field value a scan yields: the text found, the empty default, or the selector that threw. */
  function FieldOf(r: Scan, sels: seq<string>): Result<string, string>
    requires r.Threw? ==> r.index < |sels|
  {
    match r
    case Hit(_, t) => Success(t)
    case Miss => Success([])
    case Threw(i) => Failure(sels[i])
  }

  /** The field value of the first non-empty element for a selector list. */
  function FirstField(doc: Document, sels: seq<string>, view: View): Result<string, string> {
    FieldOf(FirstNonEmpty(Lookups(doc, sels), view), sels)
  }

  /**
   * A field with a value came from the first selector whose element has
   * non-empty text; an empty field means every selector was blank; a failure
   * names the first selector that threw, all earlier ones being blank.
   */
  lemma FirstFieldMeaning(doc: Document, sels: seq<string>, view: View)
    ensures FirstField(doc, sels, view) == Success([]) <==> BlankBefore(Lookups(doc, sels), view, |sels|)
    ensures FirstField(doc, sels, view).Success? && FirstField(doc, sels, view).value != [] ==>
      exists k | 0 <= k < |sels| ::
        && Query(doc, sels[k]).Found?
        && ViewText(view, Query(doc, sels[k]).element) == FirstField(doc, sels, view).value
        && BlankBefore(Lookups(doc, sels), view, k)
    ensures FirstField(doc, sels, view).Failure? ==>
      exists k | 0 <= k < |sels| ::
        && sels[k] == FirstField(doc, sels, view).error
        && Query(doc, sels[k]).Throws?
        && BlankBefore(Lookups(doc, sels), view, k)
  {
    var ls := Lookups(doc, sels);
    FirstNonEmptyChosen(ls, view);
  }

  /**
   * The LinkedIn job-page test shared by content.js, src/contentScript.js and
   * src/sidebarInjector.ts.
   */
  predicate IsLinkedInJobUrl(url: string) {
    || Includes(url, "linkedin.com/jobs/")
    || Includes(url, "linkedin.com/job/")
    || (Includes(url, "linkedin.com") && Includes(url, "/view/"))
  }
}
