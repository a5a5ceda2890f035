// The `/docx` export route: its check of the request body, the choice of the
// phone text that names the report, the clean-up of that text and the name of
// the file sent back.
module ExportRoute {
  import opened Js
  import DocxGenerator

  /** The route's answer: a 400, a 500 with the error's message, or the
      document with the file name of its Content-Disposition header. */
  datatype Response =
    | BadRequest(error: string)
    | ServerError(details: string)
    | Download(filename: string, sections: seq<DocxGenerator.Section>)

  const MissingParams := "Missing required parameters: data and apiName are required"
  const ReplaceTypeError := "selector.replace is not a function"

  // ---------------------------------------------------------------------------
  // The selector
  // ---------------------------------------------------------------------------

  /** The characters `.replace(/\+/g, '').replace(/\s+/g, '')` removes. */
  predicate Stripped(c: char)
  {
    c == '+' || IsSpace(c)
  }

  /** `s.replace(/\+/g, '').replace(/\s+/g, '')` */
  function StripPhone(s: string): (r: string)
    ensures |r| <= |s|
    ensures forall i :: 0 <= i < |r| ==> !Stripped(r[i])
  {
    if s == [] then [] else (if Stripped(s[0]) then [] else [s[0]]) + StripPhone(s[1..])
  }

  /** Stripping keeps every digit, in order. */
  lemma {:induction false} StripKeepsDigits(s: string)
    ensures Digits(StripPhone(s)) == Digits(s)
  {
    if s != [] {
      StripKeepsDigits(s[1..]);
      var head := if Stripped(s[0]) then [] else [s[0]];
      DigitsAppend(head, StripPhone(s[1..]));
      assert Digits(head) == (if IsDigit(s[0]) then [s[0]] else []) by {
        if !Stripped(s[0]) {
          assert head[1..] == [];
        }
      }
    }
  }

  /** Text without a plus sign or white space is left as it is. */
  lemma {:induction false} StripKeepsClean(s: string)
    requires forall i :: 0 <= i < |s| ==> !Stripped(s[i])
    ensures StripPhone(s) == s
  {
    if s != [] {
      StripKeepsClean(s[1..]);
    }
  }

  lemma StripIdempotent(s: string)
    ensures StripPhone(StripPhone(s)) == StripPhone(s)
  {
    StripKeepsClean(StripPhone(s));
  }

  /** `typeof selector === 'number' ? String(selector) : selector`, followed
      by the replace, which only strings have. */
  function SelectorText(v: Json): (r: Result<string>)
    ensures r.Ok? <==> v.JNum? || v.JStr?
    ensures v.JStr? ==> r == Ok(StripPhone(v.s))
    ensures v.JNum? ==> r == Ok(StripPhone(IntToString(v.n)))
  {
    match v
    case JNum(n) => Ok(StripPhone(IntToString(n)))
    case JStr(s) => Ok(StripPhone(s))
    case _ => Err(ReplaceTypeError)
  }

  const QueryPhoneKeys := ["display_international", "display", "number", "raw"]
  const PersonPhoneKeys := ["display_international", "display", "number"]

  /** `phone.k1 || phone.k2 || ... || phone`, stripped; reading a property
      of a null or missing entry throws. */
  function PhoneSelector(phone: Val, keys: seq<string>): (r: Result<string>)
    requires keys != []
    ensures (phone.None? || phone.value.JNull?) ==> r.Err?
    ensures phone.Some? && !phone.value.JNull? ==>
              r == SelectorText(Or(DocxGenerator.FirstTruthy(phone, keys), phone).value)
  {
    var _ :- Read(phone, keys[0]);
    SelectorText(Or(DocxGenerator.FirstTruthy(phone, keys), phone).value)
  }

  /** `data.person.phones[0]` when `data.person && data.person.phones && phones.length > 0`. */
  function FirstPersonPhone(data: Json): Option<Val>
  {
    var p := Prop(Some(data), "person");
    var phones := Prop(p, "phones");
    if Truthy(p) && Truthy(phones) && NonEmptyLength(phones) then Some(At(phones, 0)) else None
  }

  /** The selector before sanitising: the first query phone, else the
      `phoneNumber` argument, else the first person phone, else "Unknown"
      (the `phoneNumber ||` of the last branch is always falsy there). */
  function Selector(data: Json, phoneNumber: Val): (r: Result<string>)
    ensures DocxGenerator.FirstQueryPhone(data).Some? ==>
              r == PhoneSelector(DocxGenerator.FirstQueryPhone(data).value, QueryPhoneKeys)
    ensures DocxGenerator.FirstQueryPhone(data).None? && Truthy(phoneNumber) ==>
              r == Ok(StripPhone(JsString(phoneNumber.value)))
    ensures DocxGenerator.FirstQueryPhone(data).None? && !Truthy(phoneNumber) && FirstPersonPhone(data).Some? ==>
              r == PhoneSelector(FirstPersonPhone(data).value, PersonPhoneKeys)
    ensures DocxGenerator.FirstQueryPhone(data).None? && !Truthy(phoneNumber) && FirstPersonPhone(data).None? ==>
              r == Ok("Unknown")
  {
    match DocxGenerator.FirstQueryPhone(data)
    case Some(phone) => PhoneSelector(phone, QueryPhoneKeys)
    case None =>
      if Truthy(phoneNumber) then Ok(StripPhone(JsString(phoneNumber.value)))
      else
        match FirstPersonPhone(data)
        case Some(phone) => PhoneSelector(phone, PersonPhoneKeys)
        case None => Ok("Unknown")
  }

  /** The query phone's `display_international` wins over everything else. */
  lemma QueryDisplayInternationalWins(data: Json, phoneNumber: Val, phone: Fields, s: string)
    requires DocxGenerator.FirstQueryPhone(data) == Some(Some(JObj(phone)))
    requires Get(phone, "display_international") == Some(JStr(s)) && s != ""
    ensures Selector(data, phoneNumber) == Ok(StripPhone(s))
  {
    DocxGenerator.PropChainPicks(Some(JObj(phone)), QueryPhoneKeys, 0);
  }

  /** A query phone entry without any of the four fields names the report by
      the entry itself, which must then be a string or a number. */
  lemma {:induction false} QueryEntryItself(data: Json, phoneNumber: Val, entry: Json)
    requires DocxGenerator.FirstQueryPhone(data) == Some(Some(entry))
    requires !entry.JNull?
    requires forall j :: 0 <= j < |QueryPhoneKeys| ==> !Truthy(Prop(Some(entry), QueryPhoneKeys[j]))
    ensures Selector(data, phoneNumber) == SelectorText(entry)
  {
    DocxGenerator.PropChainNone(Some(entry), QueryPhoneKeys);
  }

  /** The person phone is consulted only without a query phone and without
      a `phoneNumber` argument; its `raw` field is never read. */
  lemma {:induction false} PersonPhoneIgnoresRaw(data: Json, phone: Fields, s: string)
    requires DocxGenerator.FirstQueryPhone(data).None?
    requires FirstPersonPhone(data) == Some(Some(JObj(phone)))
    requires forall j :: 0 <= j < |PersonPhoneKeys| ==> !Truthy(Get(phone, PersonPhoneKeys[j]))
    ensures Selector(data, None) == Err(ReplaceTypeError)
  {
    DocxGenerator.PropChainNone(Some(JObj(phone)), PersonPhoneKeys);
  }

  // ---------------------------------------------------------------------------
  // The file name
  // ---------------------------------------------------------------------------

  predicate FileNameChar(c: char)
  {
    'a' <= c <= 'z' || 'A' <= c <= 'Z' || '0' <= c <= '9' || c == '_' || c == '-'
  }

  /** `s.replace(/[^a-zA-Z0-9_-]/g, '')` */
  function KeepFileNameChars(s: string): (r: string)
    ensures |r| <= |s|
    ensures forall i :: 0 <= i < |r| ==> FileNameChar(r[i])
  {
    if s == [] then [] else (if FileNameChar(s[0]) then [s[0]] else []) + KeepFileNameChars(s[1..])
  }

  /** Text made of file-name characters is kept whole. */
  lemma {:induction false} KeepCleanName(s: string)
    requires forall i :: 0 <= i < |s| ==> FileNameChar(s[i])
    ensures KeepFileNameChars(s) == s
  {
    if s != [] {
      KeepCleanName(s[1..]);
    }
  }

  const MaxSelector := 50

  /** `String(selector).replace(...).substring(0, 50) || 'report'`: only
      file-name characters, between 1 and 50 of them, and the kept
      characters' prefix unless none is left. */
  function SanitizeSelector(s: string): (r: string)
    ensures 0 < |r| <= MaxSelector
    ensures forall i :: 0 <= i < |r| ==> FileNameChar(r[i])
    ensures KeepFileNameChars(s) == [] ==> r == "report"
    ensures KeepFileNameChars(s) != [] ==> StartsWith(KeepFileNameChars(s), r)
    ensures |KeepFileNameChars(s)| <= MaxSelector ==> KeepFileNameChars(s) != [] ==> r == KeepFileNameChars(s)
  {
    var kept := KeepFileNameChars(s);
    var cut := if |kept| <= MaxSelector then kept else kept[..MaxSelector];
    if cut == "" then "report" else cut
  }

  /** Sanitising what it produced changes nothing. */
  lemma SanitizeIdempotent(s: string)
    ensures SanitizeSelector(SanitizeSelector(s)) == SanitizeSelector(s)
  {
    KeepCleanName(SanitizeSelector(s));
  }

  const Suffix := " Enrichment.docx"

  /** `filename || `${sanitizedSelector} Enrichment.docx`` */
  function FileName(filename: Val, sanitized: string): (r: string)
    ensures Truthy(filename) ==> r == JsString(filename.value)
    ensures !Truthy(filename) ==> EndsWith(r, Suffix) && StartsWith(r, sanitized)
  {
    if Truthy(filename) then JsString(filename.value) else sanitized + Suffix
  }

  // ---------------------------------------------------------------------------
  // The handler
  // ---------------------------------------------------------------------------

  /** `metadata.debugMode || false` over `metadata || {}`. */
  function DebugMode(metadata: Val): bool
  {
    Truthy(Prop(Or(metadata, Some(JObj([]))), "debugMode"))
  }

  /** What the handler answers for a request body; `fmtDate`, `today` and
      `generated` stand for the date rendering and the clock. */
  function ExportResponse(body: Fields, fmtDate: Json -> string, today: string, generated: string): (r: Response)
    ensures r.BadRequest? <==> !Truthy(Get(body, "data")) || !Truthy(Get(body, "apiName"))
    ensures r.BadRequest? ==> r.error == MissingParams
    ensures r.Download? ==>
              DocxGenerator.DocumentFor(Get(body, "data").value, DebugMode(Get(body, "metadata")), fmtDate, today, generated) == Ok(r.sections)
    ensures r.Download? ==>
              var sel := Selector(Get(body, "data").value, Get(body, "phoneNumber"));
              sel.Ok? && r.filename == FileName(Get(body, "filename"), SanitizeSelector(sel.value))
    ensures Truthy(Get(body, "data")) && Truthy(Get(body, "apiName")) ==>
              var doc := DocxGenerator.DocumentFor(Get(body, "data").value, DebugMode(Get(body, "metadata")), fmtDate, today, generated);
              var sel := Selector(Get(body, "data").value, Get(body, "phoneNumber"));
              && (doc.Err? ==> r == ServerError(doc.msg))
              && (doc.Ok? && sel.Err? ==> r == ServerError(sel.msg))
              && (doc.Ok? && sel.Ok? ==> r.Download?)
  {
    var data := Get(body, "data");
    if !Truthy(data) || !Truthy(Get(body, "apiName")) then BadRequest(MissingParams)
    else
      match DocxGenerator.DocumentFor(data.value, DebugMode(Get(body, "metadata")), fmtDate, today, generated)
      case Err(m) => ServerError(m)
      case Ok(sections) =>
        match Selector(data.value, Get(body, "phoneNumber"))
        case Err(m) => ServerError(m)
        case Ok(selector) => Download(FileName(Get(body, "filename"), SanitizeSelector(selector)), sections)
  }

  /** The handler as it runs: check, generate, pick and clean the selector,
      name the file. */
  method ExportDocx(body: Fields, fmtDate: Json -> string, today: string, generated: string) returns (r: Response)
    ensures r == ExportResponse(body, fmtDate, today, generated)
  {
    var data, apiName, phoneNumber := Get(body, "data"), Get(body, "apiName"), Get(body, "phoneNumber");
    var metadata, filename := Get(body, "metadata"), Get(body, "filename");
    if !Truthy(data) || !Truthy(apiName) {
      return BadRequest(MissingParams);
    }
    var document := DocxGenerator.GenerateDocument(data.value, DebugMode(metadata), fmtDate, today, generated);
    if document.Err? {
      return ServerError(document.msg);
    }
    var selector: string := "";
    var phone := DocxGenerator.FirstQueryPhone(data.value);
    if phone.Some? {
      var picked := PhoneSelector(phone.value, QueryPhoneKeys);
      if picked.Err? {
        return ServerError(picked.msg);
      }
      selector := picked.value;
    } else if Truthy(phoneNumber) {
      selector := StripPhone(JsString(phoneNumber.value));
    } else {
      phone := FirstPersonPhone(data.value);
      if phone.Some? {
        var picked := PhoneSelector(phone.value, PersonPhoneKeys);
        if picked.Err? {
          return ServerError(picked.msg);
        }
        selector := picked.value;
      } else {
        selector := "Unknown";
      }
    }
    var sanitized := SanitizeSelector(selector);
    r := Download(FileName(filename, sanitized), document.value);
  }

  /** A clean selector of at most 50 characters names the file as it is. */
  lemma CleanSelectorFileName(s: string)
    requires 0 < |s| <= MaxSelector && forall i :: 0 <= i < |s| ==> FileNameChar(s[i])
    ensures FileName(None, SanitizeSelector(s)) == s + Suffix
  {
    KeepCleanName(s);
  }

  /** A request naming no phone anywhere gets "Unknown Enrichment.docx". */
  lemma {:induction false} UnknownFileName(data: Json)
    requires DocxGenerator.FirstQueryPhone(data).None? && FirstPersonPhone(data).None?
    ensures FileName(None, SanitizeSelector(Selector(data, None).value)) == "Unknown" + Suffix
  {
    assert Selector(data, None) == Ok("Unknown");
    UnknownIsClean();
  }

  lemma UnknownIsClean()
    ensures FileName(None, SanitizeSelector("Unknown")) == "Unknown" + Suffix
  {
    var u := "Unknown";
    assert SanitizeSelector(u) == u by {
      assert forall i :: 0 <= i < |u| ==> FileNameChar(u[i]);
      KeepCleanName(u);
    }
  }
}
