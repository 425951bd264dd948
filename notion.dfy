/**
 * What the background scripts know about Notion: the job record they are
 * sent, a database's property schema, how a logical field name is resolved
 * against it (`findPropertyName`, identical in src/background.ts and
 * src/background.js), the property values they write, and the outcome of a
 * call to the Notion HTTP API.
 */
module Notion {
  import opened Wrappers
  import opened JsString

  /** `request.data.jobData`; an absent `id` is the empty string. */
  datatype JobData = JobData(
    company: string, position: string, location: string, jobUrl: string, salary: string,
    status: string, description: string, notes: string, id: string)

  // ------------------------------------------------------------------- schema

  /**
   * A database's `properties` object: its keys in `for…in` enumeration order
   * and the `type` of each property.
   */
  datatype Schema = Schema(keys: seq<string>, types: map<string, string>)

  /** As for every JavaScript object, the keys are distinct and are exactly the properties. */
  predicate ValidSchema(s: Schema) {
    && (forall i, j | 0 <= i < j < |s.keys| :: s.keys[i] != s.keys[j])
    && s.types.Keys == set k | k in s.keys
  }

  const RichTextType := "rich_text"
  const UrlType := "url"
  const SelectType := "select"
  const DateType := "date"
  const NumberType := "number"

  /** `dbSchema.properties[key]?.type === t` */
  predicate HasType(s: Schema, key: string, t: string) {
    key in s.types && s.types[key] == t
  }

  /** The position of the first key, from `from` on, whose lower-cased form is `lowered`. */
  function FirstCaseInsensitive(keys: seq<string>, lowered: string, from: nat): (r: Option<nat>)
    decreases |keys| - from
    ensures r.Some? ==> from <= r.value < |keys| && Lower(keys[r.value]) == lowered
    ensures r.Some? ==> forall j | from <= j < r.value :: Lower(keys[j]) != lowered
    ensures r.None? ==> forall j | from <= j < |keys| :: Lower(keys[j]) != lowered
  {
    if from >= |keys| then None
    else if Lower(keys[from]) == lowered then Some(from)
    else FirstCaseInsensitive(keys, lowered, from + 1)
  }

  /** The property name `findPropertyName(n)` settles on. */
  function ResolveName(s: Schema, n: string): string {
    if n in s.types then n
    else match FirstCaseInsensitive(s.keys, Lower(n), 0)
      case Some(i) => s.keys[i]
      case None => n
  }

  /** `findPropertyName`: the exact key, else the first key equal ignoring case, else `n` itself. */
  method FindPropertyName(s: Schema, n: string) returns (r: string)
    ensures r == ResolveName(s, n)
  {
    if n in s.types {
      return n;
    }
    var lowered := Lower(n);
    for i := 0 to |s.keys|
      invariant forall j | 0 <= j < i :: Lower(s.keys[j]) != lowered
    {
      if Lower(s.keys[i]) == lowered {
        return s.keys[i];
      }
    }
    return n;
  }

  /**
   * The three outcomes of the resolver: `n` when it is a key; otherwise the
   * first key in enumeration order equal to `n` ignoring case; otherwise `n`.
   */
  lemma ResolveNameCases(s: Schema, n: string)
    ensures n in s.types ==> ResolveName(s, n) == n
    ensures n !in s.types && (exists i | 0 <= i < |s.keys| :: Lower(s.keys[i]) == Lower(n)) ==>
      exists i | 0 <= i < |s.keys| ::
        && ResolveName(s, n) == s.keys[i] && Lower(s.keys[i]) == Lower(n)
        && forall j | 0 <= j < i :: Lower(s.keys[j]) != Lower(n)
    ensures (forall i | 0 <= i < |s.keys| :: Lower(s.keys[i]) != Lower(n)) ==> ResolveName(s, n) == n
  {
  }

  /** The resolved name is always a property of the schema or the name asked for. */
  lemma ResolveNameIsKeyOrSelf(s: Schema, n: string)
    requires ValidSchema(s)
    ensures ResolveName(s, n) in s.types || ResolveName(s, n) == n
  {
  }

  /** Resolution never changes a name's lower-cased form. */
  lemma ResolveNameKeepsLower(s: Schema, n: string)
    ensures Lower(ResolveName(s, n)) == Lower(n)
  {
  }

  /** Two names that differ ignoring case resolve to different properties. */
  lemma ResolvedNamesDiffer(s: Schema, a: string, b: string)
    requires Lower(a) != Lower(b)
    ensures ResolveName(s, a) != ResolveName(s, b)
  {
    ResolveNameKeepsLower(s, a);
    ResolveNameKeepsLower(s, b);
  }

  // ------------------------------------------------------- the logical fields

  const ExternalIdName := "ExternalID"
  const CompanyName := "Company"
  const PositionName := "Position"
  const LocationName := "Location"
  const UrlName := "URL"
  const StatusName := "Status"
  const DateAddedName := "Date Added"
  const DescriptionName := "Description"
  const NotesName := "Notes"
  const SalaryName := "Salary"

  const FieldNames := [ExternalIdName, CompanyName, PositionName, LocationName, UrlName,
                       StatusName, DateAddedName, DescriptionName, NotesName, SalaryName]

  /** No two of the ten field names are equal ignoring case, so no resolved property receives two fields. */
  lemma FieldNamesDifferIgnoringCase()
    ensures forall i, j | 0 <= i < j < |FieldNames| :: Lower(FieldNames[i]) != Lower(FieldNames[j])
  {
    forall i, j | 0 <= i < j < |FieldNames|
      ensures Lower(FieldNames[i]) != Lower(FieldNames[j])
    {
      var a, b := FieldNames[i], FieldNames[j];
      if |a| == |b| {
        var k := if a[0] != b[0] then 0 else 1;
        assert a[k] != b[k] && LowerChar(a[k]) != LowerChar(b[k]);
        assert Lower(a)[k] != Lower(b)[k];
      }
    }
  }

  /** The same holds for any selection of distinct field names. */
  lemma SubsetDiffersIgnoringCase(names: seq<string>)
    requires forall i | 0 <= i < |names| :: names[i] in FieldNames
    requires forall i, j | 0 <= i < j < |names| :: names[i] != names[j]
    ensures forall i, j | 0 <= i < j < |names| :: Lower(names[i]) != Lower(names[j])
  {
    FieldNamesDifferIgnoringCase();
    forall i, j | 0 <= i < j < |names|
      ensures Lower(names[i]) != Lower(names[j])
    {
      var a :| 0 <= a < |FieldNames| && FieldNames[a] == names[i];
      var b :| 0 <= b < |FieldNames| && FieldNames[b] == names[j];
      if a > b {
        assert Lower(FieldNames[b]) != Lower(FieldNames[a]);
      }
    }
  }

  // ------------------------------------------------------------------- values

  /** The property values the payload holds. */
  datatype PropValue =
    | TitleText(content: string)
    | RichText(content: string)
    | UrlValue(url: string)
    | DateValue(start: string)
    | SelectValue(name: string)
    | NumberValue(source: string)

  /** The created page's properties: property name to value. */
  type Payload = map<string, PropValue>

  /** `iso.split("T")[0]` */
  function DatePart(iso: string): (r: string)
    ensures IsPrefixOf(r, iso)
  {
    BeforeFirst(iso, "T")
  }

  /** A `toISOString()` result: ten characters of date, then `T`, then the time. */
  predicate IsIsoTimestamp(iso: string) {
    |iso| > 10 && iso[10] == 'T' && 'T' !in iso[..10]
  }

  /** Of an ISO timestamp, the date part is the calendar date `YYYY-MM-DD`. */
  lemma DatePartOfTimestamp(iso: string)
    requires IsIsoTimestamp(iso)
    ensures DatePart(iso) == iso[..10]
  {
    assert iso == iso[..10] + "T" + iso[11..];
    BeforeFirstOf(iso[..10], "T", iso[11..]);
  }

  /** The four characters `/[^\\d.-]/g` spares: backslash, `d`, `.` and `-`. */
  predicate SparedByFilter(c: char) {
    c == '\\' || c == 'd' || c == '.' || c == '-'
  }

  /** `salary.replace(/[^\\d.-]/g, "")`, read literally: every other character is removed. */
  function KeepAsWritten(s: string): (r: string)
    ensures |r| <= |s|
    ensures forall k | 0 <= k < |r| :: SparedByFilter(r[k])
  {
    if s == [] then []
    else (if SparedByFilter(s[0]) then [s[0]] else []) + KeepAsWritten(s[1..])
  }

  predicate IsDigit(c: char) {
    '0' <= c <= '9'
  }

  /**
   * `!isNaN(parseFloat(s))`: after leading whitespace and an optional sign,
   * `s` starts with a digit, with `.` and a digit, or with `Infinity`.
   */
  predicate ParsesAsNumber(s: string) {
    var t := TrimStart(s);
    var u := if t != [] && (t[0] == '+' || t[0] == '-') then t[1..] else t;
    || (u != [] && IsDigit(u[0]))
    || (|u| >= 2 && u[0] == '.' && IsDigit(u[1]))
    || (|u| >= 8 && u[..8] == "Infinity")
  }

  /**
   * No salary survives the filter as a number: the filter removes every digit,
   * so `parseFloat` always yields NaN.
   */
  lemma FilteredSalaryNeverParses(salary: string)
    ensures !ParsesAsNumber(KeepAsWritten(salary))
  {
    SparedTextNeverParses(KeepAsWritten(salary));
  }

  /** Text made only of the spared characters has no digit and no `Infinity` for `parseFloat` to read. */
  lemma SparedTextNeverParses(s: string)
    requires forall k | 0 <= k < |s| :: SparedByFilter(s[k])
    ensures !ParsesAsNumber(s)
  {
    if s != [] {
      assert !IsSpace(s[0]);
      assert TrimStart(s) == s;
      var u := if s[0] == '-' then s[1..] else s;
      assert forall k | 0 <= k < |u| :: SparedByFilter(u[k]);
      if u != [] {
        assert !IsDigit(u[0]) && u[0] != 'I';
      }
      if |u| >= 2 {
        assert !IsDigit(u[1]);
      }
      if |u| >= 8 {
        assert u[..8][0] != "Infinity"[0];
      }
    }
  }

  // ----------------------------------------------------------- building payloads

  /** One `if (cond) properties[key] = value` of the builder. */
  datatype Write = Write(cond: bool, key: string, value: PropValue)

  /** One write carried out on `p`. */
  function Put(p: Payload, w: Write): Payload {
    if w.cond then p[w.key := w.value] else p
  }

  /** `{cond: type of the resolved property is t, key: the resolved name, value}` */
  function Typed(s: Schema, name: string, t: string, value: PropValue): (w: Write)
    ensures w.key == ResolveName(s, name)
  {
    var key := ResolveName(s, name);
    Write(HasType(s, key, t), key, value)
  }

  /** A write the builder makes only when `c` also holds. */
  function Guarded(c: bool, w: Write): (g: Write)
    ensures g.key == w.key && g.value == w.value
  {
    w.(cond := c && w.cond)
  }

  /** The writes carried out in order on `p`. */
  function Apply(p: Payload, ws: seq<Write>): Payload
    decreases |ws|
  {
    if ws == [] then p else Apply(Put(p, ws[0]), ws[1..])
  }

  predicate DistinctKeys(ws: seq<Write>) {
    forall i, j | 0 <= i < j < |ws| :: ws[i].key != ws[j].key
  }

  /**
   * The step every builder repeats: resolve `name`, and write `value` under
   * the resolved name when the schema gives that property type `t`.
   */
  method SetIfType(s: Schema, properties: Payload, name: string, t: string, value: PropValue) returns (r: Payload)
    ensures r == Put(properties, Typed(s, name, t, value))
  {
    var key := FindPropertyName(s, name);
    r := properties;
    if HasType(s, key, t) {
      r := r[key := value];
    }
  }

  /** The same step behind a test of the job's own field (`if (jobData.location) { … }`). */
  method SetIfTypeWhen(c: bool, s: Schema, properties: Payload, name: string, t: string, value: PropValue)
    returns (r: Payload)
    ensures r == Put(properties, Guarded(c, Typed(s, name, t, value)))
  {
    r := properties;
    if c {
      r := SetIfType(s, properties, name, t, value);
    }
  }

  /** A key no write names keeps what it had. */
  lemma {:induction false} ApplyElsewhere(p: Payload, ws: seq<Write>, k: string)
    requires forall i | 0 <= i < |ws| :: ws[i].key != k
    ensures k in Apply(p, ws) <==> k in p
    ensures k in p ==> Apply(p, ws)[k] == p[k]
    decreases |ws|
  {
    if ws != [] {
      var q := Put(p, ws[0]);
      assert ws[0].key != k;
      ApplyElsewhere(q, ws[1..], k);
    }
  }

  /** With distinct keys, each write's key holds its value exactly when its condition held. */
  lemma {:induction false} ApplyWrite(p: Payload, ws: seq<Write>, i: nat)
    requires DistinctKeys(ws) && i < |ws|
    ensures ws[i].key in Apply(p, ws) <==> ws[i].cond || ws[i].key in p
    ensures ws[i].cond ==> Apply(p, ws)[ws[i].key] == ws[i].value
    decreases |ws|
  {
    var q := Put(p, ws[0]);
    if i == 0 {
      ApplyElsewhere(q, ws[1..], ws[0].key);
    } else {
      assert ws[0].key != ws[i].key;
      assert ws[1..][i - 1] == ws[i];
      ApplyWrite(q, ws[1..], i - 1);
    }
  }

  /** Nothing but the written keys appears. */
  lemma {:induction false} ApplyOnlyWrites(p: Payload, ws: seq<Write>, k: string)
    requires k in Apply(p, ws)
    ensures k in p || exists i | 0 <= i < |ws| :: ws[i].key == k && ws[i].cond
    decreases |ws|
  {
    if ws != [] {
      var q := Put(p, ws[0]);
      ApplyOnlyWrites(q, ws[1..], k);
      if k !in q {
        var i :| 0 <= i < |ws[1..]| && ws[1..][i].key == k && ws[1..][i].cond;
        assert ws[i + 1].key == k && ws[i + 1].cond;
      } else if k !in p {
        assert ws[0].key == k && ws[0].cond;
      }
    }
  }

  /** `key` holds `value` exactly when `cond` holds, and is absent otherwise. */
  predicate Emits(p: Payload, key: string, cond: bool, value: PropValue) {
    (key in p <==> cond) && (cond ==> p[key] == value)
  }

  /** One step of `Apply`: carrying out write `k` and then the rest. */
  lemma ApplyStep(p: Payload, ws: seq<Write>, k: nat)
    requires k < |ws|
    ensures Apply(p, ws[k..]) == Apply(Put(p, ws[k]), ws[k + 1..])
  {
    assert ws[k..][1..] == ws[k + 1..];
  }

  /** Five writes carried out in order. */
  lemma ApplyFive(p: Payload, ws: seq<Write>)
    requires |ws| == 5
    ensures Apply(p, ws) == Put(Put(Put(Put(Put(p, ws[0]), ws[1]), ws[2]), ws[3]), ws[4])
  {
    var q := p;
    ApplyStep(q, ws, 0);
    q := Put(q, ws[0]);
    ApplyStep(q, ws, 1);
    q := Put(q, ws[1]);
    ApplyStep(q, ws, 2);
    q := Put(q, ws[2]);
    ApplyStep(q, ws, 3);
    q := Put(q, ws[3]);
    ApplyStep(q, ws, 4);
    assert ws[0..] == ws && ws[5..] == [];
  }

  /** Four writes carried out in order. */
  lemma ApplyFour(p: Payload, ws: seq<Write>)
    requires |ws| == 4
    ensures Apply(p, ws) == Put(Put(Put(Put(p, ws[0]), ws[1]), ws[2]), ws[3])
  {
    var q := p;
    ApplyStep(q, ws, 0);
    q := Put(q, ws[0]);
    ApplyStep(q, ws, 1);
    q := Put(q, ws[1]);
    ApplyStep(q, ws, 2);
    q := Put(q, ws[2]);
    ApplyStep(q, ws, 3);
    assert ws[0..] == ws && ws[4..] == [];
  }

  /** Nine writes carried out in order. */
  lemma ApplyNine(p: Payload, ws: seq<Write>)
    requires |ws| == 9
    ensures Apply(p, ws)
         == Put(Put(Put(Put(Put(Put(Put(Put(Put(p, ws[0]), ws[1]), ws[2]), ws[3]), ws[4]),
                ws[5]), ws[6]), ws[7]), ws[8])
  {
    ApplySplit(p, ws, 5);
    ApplyFive(p, ws[..5]);
    ApplyFour(Apply(p, ws[..5]), ws[5..]);
  }

  /** Ten writes carried out in order. */
  lemma ApplyTen(p: Payload, ws: seq<Write>)
    requires |ws| == 10
    ensures Apply(p, ws)
         == Put(Put(Put(Put(Put(Put(Put(Put(Put(Put(p, ws[0]), ws[1]), ws[2]), ws[3]), ws[4]),
                ws[5]), ws[6]), ws[7]), ws[8]), ws[9])
  {
    ApplySplit(p, ws, 5);
    ApplyFive(p, ws[..5]);
    ApplyFive(Apply(p, ws[..5]), ws[5..]);
  }

  /** Carrying out a list of writes is carrying out its two halves one after the other. */
  lemma {:induction false} ApplySplit(p: Payload, ws: seq<Write>, k: nat)
    requires k <= |ws|
    ensures Apply(p, ws) == Apply(Apply(p, ws[..k]), ws[k..])
    decreases k
  {
    if k > 0 {
      var q := Put(p, ws[0]);
      assert ws[1..][..k - 1] == ws[..k][1..];
      assert ws[1..][k - 1..] == ws[k..];
      ApplySplit(q, ws[1..], k - 1);
    } else {
      assert ws[k..] == ws;
    }
  }

  // ------------------------------------------------------------ HTTP results

  /** The outcome of one `fetch` to the Notion API: a body, an error response, or a rejected request. */
  datatype Fetched<T> = Ok(body: T) | HttpError(status: nat, message: string) | NetworkError(reason: string)

  /** JavaScript's `a || b` on strings. */
  function OrElse(a: string, b: string): (r: string)
    ensures a != [] ==> r == a
    ensures a == [] ==> r == b
  {
    if a != [] then a else b
  }

  /** The prefix of the status fallback of a failed schema fetch. */
  const DescribePrefix := "Error fetching database: "

  /** The prefix of the status fallback of a failed page creation. */
  const CreatePrefix := "Error: "

  /** The message of the error a failed schema fetch throws: the server's message, else the status. */
  function DescribeError<T>(f: Fetched<T>): (r: string)
    requires !f.Ok?
    ensures r != [] || (f.NetworkError? && f.reason == [])
    ensures f.HttpError? && f.message != [] ==> r == f.message
    ensures f.HttpError? && f.message == [] ==>
      && r == DescribePrefix + NatToString(f.status)
      && AllDigits(r[|DescribePrefix|..]) && DigitsValue(r[|DescribePrefix|..]) == f.status
    ensures f.NetworkError? ==> r == f.reason
  {
    match f
    case HttpError(status, message) =>
      var fallback := DescribePrefix + NatToString(status);
      assert fallback[|DescribePrefix|..] == NatToString(status);
      OrElse(message, fallback)
    case NetworkError(reason) => reason
  }

  /** The message of the error a failed page creation throws: the server's message, else the status. */
  function CreateError<T>(f: Fetched<T>): (r: string)
    requires !f.Ok?
    ensures r != [] || (f.NetworkError? && f.reason == [])
    ensures f.HttpError? && f.message != [] ==> r == f.message
    ensures f.HttpError? && f.message == [] ==>
      && r == CreatePrefix + NatToString(f.status)
      && AllDigits(r[|CreatePrefix|..]) && DigitsValue(r[|CreatePrefix|..]) == f.status
    ensures f.NetworkError? ==> r == f.reason
  {
    match f
    case HttpError(status, message) =>
      var fallback := CreatePrefix + NatToString(status);
      assert fallback[|CreatePrefix|..] == NatToString(status);
      OrElse(message, fallback)
    case NetworkError(reason) => reason
  }

  /** The message a rejected submission is answered with. */
  function HandlerError(message: string): (r: string)
    ensures r != []
    ensures message != [] ==> r == message
    ensures message == [] ==> r == "Error adding job to Notion"
  {
    OrElse(message, "Error adding job to Notion")
  }
}
