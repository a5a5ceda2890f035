/** The data side of the DOCX report generator: the sanitizer, phone
    formatting, selector and country-code extraction, payload unwrapping,
    person normalisation, and the text and order of the report sections.
    The document library's objects are reduced to a `Section`: a heading,
    paragraph lines and table rows of strings. */
module DocxGenerator {
  import opened Js
  import opened KeyPolicy

  /** One block of the report: heading text, paragraph lines, table rows. */
  datatype Section = Section(heading: string, lines: seq<string>, rows: seq<seq<string>>)

  // ===========================================================================
  // sanitizeForDoc
  // ===========================================================================

  /** `sanitizeForDoc(data, debugMode)`; the JSON deep clone is the identity on trees. */
  method SanitizeForDoc(data: Json, debugMode: bool) returns (r: Json)
    ensures r == Prune(data, Doc(debugMode))
  {
    r := CleanTree(data, Doc(debugMode));
  }

  /** The deny-list, `brandBlocks` and `endpoint` are gone at every depth. */
  lemma {:induction false} DocDropsInternalKeys(data: Json, debugMode: bool, k: string)
    requires InternalKey(k) || k == "brandBlocks" || k == "endpoint"
    ensures !HasKey(Prune(data, Doc(debugMode)), k)
  {
    PruneRemoves(data, Doc(debugMode), k);
  }

  /** None of the fields the test fixture checks for survives (without debug mode). */
  lemma {:induction false} DocDropsFixtureFields(data: Json)
    ensures forall k | k in ["quota_allotted", "quota_current", "quota_reset", "qps_allotted",
                             "qps_current", "@search_pointer", "email_md5", "endpoint"] ::
      !HasKey(Prune(data, Doc(false)), k)
  {
    forall k | k in ["quota_allotted", "quota_current", "quota_reset", "qps_allotted",
                     "qps_current", "@search_pointer", "email_md5", "endpoint"]
      ensures !HasKey(Prune(data, Doc(false)), k)
    {
      assert Drops(Doc(false), k) by {
        if k != "@search_pointer" && k != "email_md5" && k != "endpoint" {
          assert StartsWith(k, "quota") || StartsWith(k, "qps");
        } else if k == "email_md5" {
          assert EndsWith(k, "_md5");
        }
      }
      PruneRemoves(data, Doc(false), k);
    }
  }

  // ===========================================================================
  // formatPhoneNumber, extractSelector, extractCountryCode
  // ===========================================================================

  /** `formatPhoneNumber(phone)`: the digits of the input, grouped when
      there are 12, 11 or 10 of them; any other input is returned as given,
      and a falsy input gives "". */
  function FormatPhoneNumber(phone: Val): Json
  {
    if !Truthy(phone) then JStr("")
    else
      match GroupDigits(Digits(JsString(phone.value)))
      case Some(grouped) => JStr(grouped)
      case None => phone.value
  }

  /** The three layouts: +CC AAA BBB CCCC, +C AAA BBB CCCC and AAA BBB CCCC. */
  function GroupDigits(c: string): Option<string>
  {
    if |c| == 12 then Some("+" + c[..2] + " " + c[2..5] + " " + c[5..8] + " " + c[8..])
    else if |c| == 11 then Some("+" + c[..1] + " " + c[1..4] + " " + c[4..7] + " " + c[7..])
    else if |c| == 10 then Some(c[..3] + " " + c[3..6] + " " + c[6..])
    else None
  }

  /** Digits across a single-space join. */
  lemma {:induction false} DigitsSpaced(x: string, y: string)
    ensures Digits(x + " " + y) == Digits(x) + Digits(y)
  {
    DigitsAppend(x + " ", y);
    DigitsAppend(x, " ");
    assert Digits(" ") == "" by { assert IsDigit(' ') == false; }
  }

  lemma {:induction false} AllDigits(c: string, i: nat, j: nat)
    requires i <= j <= |c|
    requires forall k :: 0 <= k < |c| ==> IsDigit(c[k])
    ensures Digits(c[i..j]) == c[i..j]
  {
    assert forall k :: 0 <= k < j - i ==> c[i..j][k] == c[i + k];
    DigitsOfDigits(c[i..j]);
  }

  lemma {:induction false} DigitsPlus(x: string)
    ensures Digits("+" + x) == Digits(x)
  {
    DigitsAppend("+", x);
    assert Digits("+") == "" by { assert IsDigit('+') == false; }
  }

  lemma {:induction false} ThreeGroups(p: string, q: string, r: string)
    ensures Digits(p + " " + q + " " + r) == Digits(p) + Digits(q) + Digits(r)
  {
    DigitsSpaced(p + " " + q, r);
    DigitsSpaced(p, q);
  }

  lemma {:induction false} FourGroups(p: string, q: string, r: string, t: string)
    ensures Digits("+" + p + " " + q + " " + r + " " + t) == Digits(p) + Digits(q) + Digits(r) + Digits(t)
  {
    assert "+" + p + " " + q + " " + r + " " + t == "+" + (p + " " + q + " " + r + " " + t);
    DigitsPlus(p + " " + q + " " + r + " " + t);
    DigitsSpaced(p + " " + q + " " + r, t);
    ThreeGroups(p, q, r);
  }

  /** Grouping only inserts "+" and spaces: the digits come back out unchanged. */
  lemma {:induction false} GroupKeepsDigits(c: string)
    requires forall k :: 0 <= k < |c| ==> IsDigit(c[k])
    ensures GroupDigits(c).Some? <==> |c| in {10, 11, 12}
    ensures GroupDigits(c).Some? ==> Digits(GroupDigits(c).value) == c
  {
    if |c| == 10 {
      GroupTenDigits(c);
    } else if |c| == 11 {
      GroupElevenDigits(c);
    } else if |c| == 12 {
      GroupTwelveDigits(c);
    }
  }

  lemma {:induction false} GroupTenDigits(c: string)
    requires |c| == 10 && forall k :: 0 <= k < |c| ==> IsDigit(c[k])
    ensures Digits(c[..3] + " " + c[3..6] + " " + c[6..]) == c
  {
    ThreeGroups(c[..3], c[3..6], c[6..]);
    AllDigits(c, 0, 3);
    AllDigits(c, 3, 6);
    AllDigits(c, 6, 10);
    assert c[6..] == c[6..10];
    assert c[..3] + c[3..6] + c[6..] == c;
  }

  lemma {:induction false} GroupElevenDigits(c: string)
    requires |c| == 11 && forall k :: 0 <= k < |c| ==> IsDigit(c[k])
    ensures Digits("+" + c[..1] + " " + c[1..4] + " " + c[4..7] + " " + c[7..]) == c
  {
    FourGroups(c[..1], c[1..4], c[4..7], c[7..]);
    AllDigits(c, 0, 1);
    AllDigits(c, 1, 4);
    AllDigits(c, 4, 7);
    AllDigits(c, 7, 11);
    assert c[7..] == c[7..11];
    assert c[..1] + c[1..4] + c[4..7] + c[7..] == c;
  }

  lemma {:induction false} GroupTwelveDigits(c: string)
    requires |c| == 12 && forall k :: 0 <= k < |c| ==> IsDigit(c[k])
    ensures Digits("+" + c[..2] + " " + c[2..5] + " " + c[5..8] + " " + c[8..]) == c
  {
    FourGroups(c[..2], c[2..5], c[5..8], c[8..]);
    AllDigits(c, 0, 2);
    AllDigits(c, 2, 5);
    AllDigits(c, 5, 8);
    AllDigits(c, 8, 12);
    assert c[8..] == c[8..12];
    assert c[..2] + c[2..5] + c[5..8] + c[8..] == c;
  }

  /** Whenever the phone is reformatted, the result has exactly the input's digits. */
  lemma {:induction false} FormatPhoneKeepsDigits(phone: Val)
    requires Truthy(phone)
    requires |Digits(JsString(phone.value))| in {10, 11, 12}
    ensures FormatPhoneNumber(phone).JStr?
    ensures Digits(FormatPhoneNumber(phone).s) == Digits(JsString(phone.value))
  {
    GroupKeepsDigits(Digits(JsString(phone.value)));
  }

  /** Any other digit count returns the input itself; a falsy input gives "". */
  lemma {:induction false} FormatPhoneOtherwise(phone: Val)
    ensures !Truthy(phone) ==> FormatPhoneNumber(phone) == JStr("")
    ensures Truthy(phone) && |Digits(JsString(phone.value))| !in {10, 11, 12} ==> FormatPhoneNumber(phone) == phone.value
  {
    if Truthy(phone) {
      GroupKeepsDigits(Digits(JsString(phone.value)));
    }
  }

  /** Formatting an already formatted number changes nothing. */
  lemma {:induction false} FormatPhoneIdempotent(phone: Val)
    ensures FormatPhoneNumber(Some(FormatPhoneNumber(phone))) == FormatPhoneNumber(phone)
  {
    if Truthy(phone) {
      var c := Digits(JsString(phone.value));
      GroupKeepsDigits(c);
      if |c| in {10, 11, 12} {
        var x := GroupDigits(c).value;
        assert Truthy(Some(JStr(x))) by { assert |Digits(x)| == |c|; }
        assert JsString(JStr(x)) == x;
      }
    }
  }

  lemma TwelveDigits()
    ensures Digits("526671056185") == "526671056185"
  {
    DigitsOfDigits("526671056185");
  }

  lemma TwelveGroups()
    ensures GroupDigits("526671056185") == Some("+52 667 105 6185")
  {
    var c := "526671056185";
    assert |c| == 12;
    assert GroupDigits(c) == Some("+" + c[..2] + " " + c[2..5] + " " + c[5..8] + " " + c[8..]);
    assert c[..2] == "52" && c[2..5] == "667" && c[5..8] == "105" && c[8..] == "6185";
    assert "+" + c[..2] + " " + c[2..5] + " " + c[5..8] + " " + c[8..] == "+52 667 105 6185";
  }

  /** The twelve-digit number of the phone-formatting test. */
  lemma FormatPhoneTwelve()
    ensures FormatPhoneNumber(Some(JStr("526671056185"))) == JStr("+52 667 105 6185")
  {
    TwelveDigits();
    TwelveGroups();
  }

  lemma TenDigits()
    ensures Digits("6671056185") == "6671056185"
  {
    DigitsOfDigits("6671056185");
  }

  lemma TenGroups()
    ensures GroupDigits("6671056185") == Some("667 105 6185")
  {
    var c := "6671056185";
    assert |c| == 10;
    assert GroupDigits(c) == Some(c[..3] + " " + c[3..6] + " " + c[6..]);
    assert c[..3] == "667" && c[3..6] == "105" && c[6..] == "6185";
    assert c[..3] + " " + c[3..6] + " " + c[6..] == "667 105 6185";
  }

  /** The ten-digit local number of the phone-formatting test. */
  lemma FormatPhoneTen()
    ensures FormatPhoneNumber(Some(JStr("6671056185"))) == JStr("667 105 6185")
  {
    TenDigits();
    TenGroups();
  }

  /** The already formatted number of the phone-formatting test comes back unchanged. */
  lemma FormatPhoneFormatted()
    ensures FormatPhoneNumber(Some(JStr("+52 667 105 6185"))) == JStr("+52 667 105 6185")
  {
    FormatPhoneIdempotent(Some(JStr("526671056185")));
    FormatPhoneTwelve();
  }

  /** `data.query.phones[0]` when `data.query && data.query.phones && phones.length > 0`. */
  function FirstQueryPhone(data: Json): Option<Val>
  {
    var q := Prop(Some(data), "query");
    var phones := Prop(q, "phones");
    if Truthy(q) && Truthy(phones) && NonEmptyLength(phones) then Some(At(phones, 0)) else None
  }

  /** `extractSelector(data)`: `phones[0].number`, else `.raw`, else the
      entry itself; "Unknown" without a query phone. Reading `.number` of
      a null or undefined first entry throws. */
  function ExtractSelector(data: Json): (r: Result<Json>)
    ensures FirstQueryPhone(data).None? ==> r == Ok(JStr("Unknown"))
    ensures FirstQueryPhone(data).Some? ==>
      var phone := FirstQueryPhone(data).value;
      && (r.Err? <==> phone.None? || phone.value.JNull?)
      && (r.Ok? ==>
            if Truthy(Prop(phone, "number")) then Some(r.value) == Prop(phone, "number")
            else if Truthy(Prop(phone, "raw")) then Some(r.value) == Prop(phone, "raw")
            else Some(r.value) == phone)
  {
    match FirstQueryPhone(data)
    case None => Ok(JStr("Unknown"))
    case Some(phone) =>
      var number :- Read(phone, "number");
      if Truthy(number) then Ok(number.value)
      else if Truthy(Prop(phone, "raw")) then Ok(Prop(phone, "raw").value)
      else Ok(phone.value)
  }

  /** `extractCountryCode(data)`: the first query phone's truthy `country_code`, else "";
      a null or undefined first entry throws. */
  function ExtractCountryCode(data: Json): (r: Result<Json>)
    ensures FirstQueryPhone(data).None? ==> r == Ok(JStr(""))
    ensures FirstQueryPhone(data).Some? ==>
      var phone := FirstQueryPhone(data).value;
      && (r.Err? <==> phone.None? || phone.value.JNull?)
      && (r.Ok? ==>
            if Truthy(Prop(phone, "country_code")) then Some(r.value) == Prop(phone, "country_code")
            else r.value == JStr(""))
  {
    match FirstQueryPhone(data)
    case None => Ok(JStr(""))
    case Some(phone) =>
      var cc :- Read(phone, "country_code");
      if Truthy(cc) then Ok(cc.value) else Ok(JStr(""))
  }

  // ===========================================================================
  // Unwrap and person normalisation
  // ===========================================================================

  /** A `{data, status}` object without `person`: an envelope around `data`. */
  predicate IsEnvelope(j: Json)
  {
    var d := Some(j);
    Truthy(Prop(d, "data")) && Truthy(Prop(d, "status")) && !Truthy(Prop(d, "person"))
  }

  /** The envelope's `data`, or the object itself when it is no envelope. */
  function Opened(j: Json): (r: Json)
    ensures IsEnvelope(j) ==> Some(r) == Prop(Some(j), "data")
    ensures !IsEnvelope(j) ==> r == j
  {
    if IsEnvelope(j) then Prop(Some(j), "data").value else j
  }

  /** The payload: `.data`, else `.results`, else the whole; then one more
      `.data` when it has `data` and `status` but no `person`. Reading a
      property of null throws. */
  function Unwrap(sanitized: Json): (r: Result<Json>)
    ensures sanitized.JNull? <==> r.Err?
    ensures Truthy(Prop(Some(sanitized), "data")) ==> r == Ok(Opened(Prop(Some(sanitized), "data").value))
    ensures !Truthy(Prop(Some(sanitized), "data")) && Truthy(Prop(Some(sanitized), "results")) ==>
      r == Ok(Opened(Prop(Some(sanitized), "results").value))
    ensures !sanitized.JNull? && !Truthy(Prop(Some(sanitized), "data")) && !Truthy(Prop(Some(sanitized), "results")) ==>
      r == Ok(Opened(sanitized))
  {
    if sanitized.JNull? then Err("Cannot read properties of null (reading 'data')")
    else
      var s := Some(sanitized);
      var rd :=
        if Truthy(Prop(s, "data")) then Prop(s, "data").value
        else if Truthy(Prop(s, "results")) then Prop(s, "results").value
        else sanitized;
      Ok(Opened(rd))
  }

  /** A `{data: {status, data: payload}}` envelope without `person` yields
      the payload. */
  lemma UnwrapEnvelope(inner: Fields, payload: Json)
    requires Truthy(Get(inner, "status")) && Get(inner, "data") == Some(payload) && Truthy(Some(payload))
    requires !Truthy(Get(inner, "person"))
    ensures Unwrap(JObj([("data", JObj(inner))])) == Ok(payload)
  {
  }

  /** An inner object that has its own `person` is kept whole. */
  lemma UnwrapKeepsPerson(inner: Fields)
    requires Truthy(Get(inner, "person"))
    ensures Unwrap(JObj([("data", JObj(inner))])) == Ok(JObj(inner))
    ensures Unwrap(JObj([("results", JObj(inner))])) == Ok(JObj(inner))
  {
    assert Get([("results", JObj(inner))], "data") == None;
  }

  /** Without a truthy `data` or `results`, nor the inner envelope shape,
      the sanitized tree itself is the payload. */
  lemma UnwrapBare(sanitized: Json)
    requires sanitized != JNull
    requires !Truthy(Prop(Some(sanitized), "data")) && !Truthy(Prop(Some(sanitized), "results"))
    ensures Unwrap(sanitized) == Ok(sanitized)
  {
  }

  /** Which list of the person an item normaliser is for. */
  datatype ItemKind = NameItem | PhoneItem | EmailItem | AddressItem

  /** Output key and the source keys tried in order (`a || b || ''`). */
  function ItemSpec(kind: ItemKind): seq<(string, seq<string>)>
  {
    match kind
    case NameItem => [("display", ["display"]), ("first", ["first"]), ("middle", ["middle"]), ("last", ["last"]),
                      ("valid_since", ["@valid_since", "valid_since"]), ("last_seen", ["@last_seen", "last_seen"])]
    case PhoneItem => [("number", ["number"]), ("display", ["display"]), ("display_international", ["display_international"]),
                       ("type", ["@type", "type"]), ("carrier", ["carrier"]),
                       ("valid_since", ["@valid_since", "valid_since"]), ("last_seen", ["@last_seen", "last_seen"])]
    case EmailItem => [("address", ["address", "display"]), ("type", ["@type", "type"]),
                       ("valid_since", ["@valid_since", "valid_since"]), ("last_seen", ["@last_seen", "last_seen"])]
    case AddressItem => [("display", ["display", "address"]), ("city", ["city"]), ("state", ["state"]), ("country", ["country"]),
                         ("valid_since", ["@valid_since", "valid_since"]), ("last_seen", ["@last_seen", "last_seen"])]
  }

  /** `v[k1] || v[k2] || ...`, undefined when none is truthy. */
  function FirstTruthy(v: Val, keys: seq<string>): Val
  {
    if keys == [] then None
    else if Truthy(Prop(v, keys[0])) then Prop(v, keys[0])
    else FirstTruthy(v, keys[1..])
  }

  /** The chain yields the first truthy property. */
  lemma {:induction false} PropChainPicks(v: Val, keys: seq<string>, i: nat)
    requires i < |keys| && Truthy(Prop(v, keys[i]))
    requires forall j :: 0 <= j < i ==> !Truthy(Prop(v, keys[j]))
    ensures FirstTruthy(v, keys) == Prop(v, keys[i])
  {
    if i > 0 {
      assert !Truthy(Prop(v, keys[0]));
      PropChainPicks(v, keys[1..], i - 1);
    }
  }

  /** The chain is undefined when no property is truthy. */
  lemma {:induction false} PropChainNone(v: Val, keys: seq<string>)
    requires forall j :: 0 <= j < |keys| ==> !Truthy(Prop(v, keys[j]))
    ensures FirstTruthy(v, keys) == None
  {
    if keys != [] {
      assert !Truthy(Prop(v, keys[0]));
      PropChainNone(v, keys[1..]);
    }
  }

  /** One normalised list item. */
  function NormalizeItem(item: Json, kind: ItemKind): Json
  {
    JObj(Pick(Some(item), ItemSpec(kind)))
  }

  /** The object literal: each output key bound to its first truthy source, or "". */
  function Pick(v: Val, spec: seq<(string, seq<string>)>): Fields
  {
    if spec == [] then [] else [(spec[0].0, OrEmpty(FirstTruthy(v, spec[0].1)))] + Pick(v, spec[1..])
  }

  lemma {:induction false} PickGet(v: Val, spec: seq<(string, seq<string>)>, i: nat)
    requires i < |spec| && forall j :: 0 <= j < i ==> spec[j].0 != spec[i].0
    ensures Get(Pick(v, spec), spec[i].0) == Some(OrEmpty(FirstTruthy(v, spec[i].1)))
  {
    if i > 0 {
      PickGet(v, spec[1..], i - 1);
    }
  }

  lemma FirstOfTwo(v: Val, a: string, b: string)
    ensures FirstTruthy(v, [a, b]) == if Truthy(Prop(v, a)) then Prop(v, a) else if Truthy(Prop(v, b)) then Prop(v, b) else None
  {
    assert [a, b][1..] == [b];
    assert [b][1..] == [];
    assert FirstTruthy(v, []) == None;
    assert FirstTruthy(v, [b]) == if Truthy(Prop(v, b)) then Prop(v, b) else FirstTruthy(v, []);
  }

  /** `list?.map(normalise) || []`: absent or null is [], an array is mapped
      (a null item throws), anything else has no `map` and throws. */
  function NormalizeList(list: Val, kind: ItemKind): (r: Result<Json>)
    ensures r.Ok? ==> r.value.JArr?
    ensures (list.None? || list.value.JNull?) ==> r == Ok(JArr([]))
    ensures r.Ok? && IsArray(list) ==> |r.value.items| == |list.value.items|
    ensures r.Ok? && IsArray(list) ==> forall i :: 0 <= i < |list.value.items| ==>
      r.value.items[i] == NormalizeItem(list.value.items[i], kind)
    ensures IsArray(list) ==> (r.Ok? <==> forall i :: 0 <= i < |list.value.items| ==> list.value.items[i] != JNull)
    ensures list.Some? && !list.value.JNull? && !IsArray(list) ==> r.Err?
  {
    match list
    case None => Ok(JArr([]))
    case Some(JNull) => Ok(JArr([]))
    case Some(JArr(xs)) =>
      if exists i :: 0 <= i < |xs| && xs[i] == JNull then Err("Cannot read properties of null")
      else Ok(JArr(seq(|xs|, i requires 0 <= i < |xs| => NormalizeItem(xs[i], kind))))
    case Some(_) => Err("map is not a function")
  }

  /** `typeof gender === 'object' ? gender.content : gender` (null throws). */
  function NormalizeGender(gender: Val): Result<Val>
  {
    if gender.Some? && gender.value.JNull? then Err("Cannot read properties of null (reading 'content')")
    else if IsObjectLike(gender) then Ok(Prop(gender, "content"))
    else Ok(gender)
  }

  /** The explicit properties of the normalised object. */
  datatype Parts = Parts(names: Json, phones: Json, emails: Json, addresses: Json, gender: Val, languages: Json)

  /** The explicit properties, evaluated in the literal's order (the first
      to throw decides the error). */
  function PersonParts(person: Val): (r: Result<Parts>)
    ensures r.Ok? <==>
      && NormalizeList(Prop(person, "names"), NameItem).Ok?
      && NormalizeList(Prop(person, "phones"), PhoneItem).Ok?
      && NormalizeList(Prop(person, "emails"), EmailItem).Ok?
      && NormalizeList(Prop(person, "addresses"), AddressItem).Ok?
      && NormalizeGender(Prop(person, "gender")).Ok?
    ensures r.Ok? ==> r.value == Parts(
      NormalizeList(Prop(person, "names"), NameItem).value,
      NormalizeList(Prop(person, "phones"), PhoneItem).value,
      NormalizeList(Prop(person, "emails"), EmailItem).value,
      NormalizeList(Prop(person, "addresses"), AddressItem).value,
      NormalizeGender(Prop(person, "gender")).value,
      Or(Prop(person, "languages"), Some(JArr([]))).value)
  {
    var names :- NormalizeList(Prop(person, "names"), NameItem);
    var phones :- NormalizeList(Prop(person, "phones"), PhoneItem);
    var emails :- NormalizeList(Prop(person, "emails"), EmailItem);
    var addresses :- NormalizeList(Prop(person, "addresses"), AddressItem);
    var gender :- NormalizeGender(Prop(person, "gender"));
    Ok(Parts(names, phones, emails, addresses, gender, Or(Prop(person, "languages"), Some(JArr([]))).value))
  }

  /** `{...responseData, ...responseData.person}` */
  function Spread(rd: Json): Fields
  {
    var person := Prop(Some(rd), "person");
    Assign(Entries(rd), if person.Some? then Entries(person.value) else [])
  }

  /** `{...responseData, ...person, names, phones, emails, addresses, gender, languages}` */
  function NormalizePerson(rd: Json): Result<Json>
  {
    var parts :- PersonParts(Prop(Some(rd), "person"));
    Ok(JObj(Overlay(Spread(rd), Bindings(parts))))
  }

  /** The explicit properties of the literal, in the order they are written. */
  function Bindings(parts: Parts): seq<(string, Val)>
  {
    [("names", Some(parts.names)), ("phones", Some(parts.phones)), ("emails", Some(parts.emails)),
     ("addresses", Some(parts.addresses)), ("gender", parts.gender), ("languages", Some(parts.languages))]
  }

  /** The bindings written over the spread in turn: a value is assigned,
      undefined leaves the key reading as undefined. */
  function Overlay(spread: Fields, bs: seq<(string, Val)>): Fields
    decreases |bs|
  {
    if bs == [] then spread
    else
      var last := bs[|bs| - 1];
      var before := Overlay(spread, bs[..|bs| - 1]);
      if last.1.Some? then Put(before, last.0, last.1.value) else Remove(before, last.0)
  }

  /** The last binding of `k`, if any. */
  function Bound(bs: seq<(string, Val)>, k: string): Option<Val>
    decreases |bs|
  {
    if bs == [] then None
    else if bs[|bs| - 1].0 == k then Some(bs[|bs| - 1].1)
    else Bound(bs[..|bs| - 1], k)
  }

  /** After the overlay a key reads its last binding, or the spread's value when unbound. */
  lemma {:induction false} OverlayGet(spread: Fields, bs: seq<(string, Val)>, k: string)
    ensures Get(Overlay(spread, bs), k) == if Bound(bs, k).Some? then Bound(bs, k).value else Get(spread, k)
    decreases |bs|
  {
    if bs != [] {
      OverlayGet(spread, bs[..|bs| - 1], k);
    }
  }

  /** The value the literal gives an explicit key. */
  function ExplicitValue(parts: Parts, k: string): Val
  {
    if k == "languages" then Some(parts.languages)
    else if k == "gender" then parts.gender
    else if k == "addresses" then Some(parts.addresses)
    else if k == "emails" then Some(parts.emails)
    else if k == "phones" then Some(parts.phones)
    else if k == "names" then Some(parts.names)
    else None
  }

  lemma {:induction false} BoundIn(parts: Parts, k: string)
    ensures Bound(Bindings(parts), k) ==
      if k in ExplicitKeys then Some(ExplicitValue(parts, k)) else None
  {
    var bs := Bindings(parts);
    assert bs[..5][..4] == bs[..4] && bs[..4][..3] == bs[..3] && bs[..3][..2] == bs[..2] && bs[..2][..1] == bs[..1] && bs[..1][..0] == [];
    assert Bound(bs[..1], k) == if k == "names" then Some(Some(parts.names)) else None;
    assert Bound(bs[..2], k) == if k == "phones" then Some(Some(parts.phones)) else Bound(bs[..1], k);
    assert Bound(bs[..3], k) == if k == "emails" then Some(Some(parts.emails)) else Bound(bs[..2], k);
    assert Bound(bs[..4], k) == if k == "addresses" then Some(Some(parts.addresses)) else Bound(bs[..3], k);
    assert Bound(bs[..5], k) == if k == "gender" then Some(parts.gender) else Bound(bs[..4], k);
  }

  const ExplicitKeys := ["names", "phones", "emails", "addresses", "gender", "languages"]

  /** What the normalised person holds under the explicit keys: the four
      lists mapped item for item (empty when absent), an object gender
      replaced by its `content`, and `languages` defaulting to [], as
      PersonParts states them. */
  lemma {:induction false} NormalizePersonShape(rd: Json, k: string)
    requires NormalizePerson(rd).Ok?
    requires k in ExplicitKeys
    ensures PersonParts(Prop(Some(rd), "person")).Ok?
    ensures Prop(Some(NormalizePerson(rd).value), k) == ExplicitValue(PersonParts(Prop(Some(rd), "person")).value, k)
  {
    ReadsBinding(Spread(rd), PersonParts(Prop(Some(rd), "person")).value, k);
  }

  lemma {:induction false} ReadsBinding(spread: Fields, parts: Parts, k: string)
    requires k in ExplicitKeys
    ensures Get(Overlay(spread, Bindings(parts)), k) == ExplicitValue(parts, k)
  {
    OverlayGet(spread, Bindings(parts), k);
    BoundIn(parts, k);
  }

  /** Every other key reads what the person's entries written over the
      payload's entries left there. */
  lemma {:induction false} NormalizePersonSpread(rd: Json, k: string)
    requires NormalizePerson(rd).Ok?
    requires k !in ExplicitKeys
    ensures Prop(Some(NormalizePerson(rd).value), k) == Get(Spread(rd), k)
  {
    ReadsSpread(Spread(rd), PersonParts(Prop(Some(rd), "person")).value, k);
  }

  lemma {:induction false} ReadsSpread(spread: Fields, parts: Parts, k: string)
    requires k !in ExplicitKeys
    ensures Get(Overlay(spread, Bindings(parts)), k) == Get(spread, k)
  {
    OverlayGet(spread, Bindings(parts), k);
    BoundIn(parts, k);
  }

  /** The normaliser spec of every list ends with the two date fields,
      whose output keys occur nowhere earlier. */
  predicate EndsWithDates(spec: seq<(string, seq<string>)>)
  {
    && |spec| >= 2
    && spec[|spec| - 2] == ("valid_since", ["@valid_since", "valid_since"])
    && spec[|spec| - 1] == ("last_seen", ["@last_seen", "last_seen"])
    && forall j :: 0 <= j < |spec| - 2 ==> spec[j].0 != "valid_since" && spec[j].0 != "last_seen"
  }

  lemma SpecEndsWithDates(kind: ItemKind)
    ensures EndsWithDates(ItemSpec(kind))
  {
  }

  /** A field whose spec is `(out, [a, b])` reads `item[a] || item[b] || ''`
      in the normalised item; with SpecEndsWithDates this is how every
      list's `valid_since` and `last_seen` prefer the `@`-prefixed field
      and fall back to "". */
  lemma {:induction false} NormalizedField(item: Json, spec: seq<(string, seq<string>)>, i: nat, out: string, a: string, b: string)
    requires i < |spec| && spec[i] == (out, [a, b]) && forall j :: 0 <= j < i ==> spec[j].0 != out
    ensures Prop(Some(JObj(Pick(Some(item), spec))), out) == Some(
      if Truthy(Prop(Some(item), a)) then Prop(Some(item), a).value
      else if Truthy(Prop(Some(item), b)) then Prop(Some(item), b).value
      else JStr(""))
  {
    PickGet(Some(item), spec, i);
    FirstOfTwo(Some(item), a, b);
  }

  // ===========================================================================
  // Section text
  // ===========================================================================

  /** How one table cell is filled from a list item. */
  datatype Column = Text(keys: seq<string>) | DateOf(key: string) | PhoneOf(key: string)

  /** `formatDate(v)`: "" for a falsy value, the date text otherwise
      (the date text itself is a parameter). */
  function FormatDate(fmtDate: Json -> string, v: Val): string
  {
    if Truthy(v) then fmtDate(v.value) else ""
  }

  /** One cell: `item.a || item.b || ''`, `formatDate(item.k) || ''` or `formatPhoneNumber(item.k) || ''`. */
  function CellText(item: Json, col: Column, fmtDate: Json -> string): string
  {
    match col
    case Text(keys) => JsString(OrEmpty(FirstTruthy(Some(item), keys)))
    case DateOf(k) => FormatDate(fmtDate, Prop(Some(item), k))
    case PhoneOf(k) => JsString(OrEmpty(Some(FormatPhoneNumber(Prop(Some(item), k)))))
  }

  /** One data row (reading any field of a null item throws). */
  function RowOf(item: Json, cols: seq<Column>, fmtDate: Json -> string): (r: Result<seq<string>>)
    ensures r.Ok? <==> item != JNull
    ensures r.Ok? ==> |r.value| == |cols| && forall i :: 0 <= i < |cols| ==> r.value[i] == CellText(item, cols[i], fmtDate)
  {
    if item.JNull? then Err("Cannot read properties of null")
    else Ok(seq(|cols|, i requires 0 <= i < |cols| => CellText(item, cols[i], fmtDate)))
  }

  function RowsOf(items: seq<Json>, cols: seq<Column>, fmtDate: Json -> string): (r: Result<seq<seq<string>>>)
    ensures r.Ok? <==> forall i :: 0 <= i < |items| ==> items[i] != JNull
    ensures r.Ok? ==> |r.value| == |items| && forall i :: 0 <= i < |items| ==> Ok(r.value[i]) == RowOf(items[i], cols, fmtDate)
  {
    if items == [] then Ok([])
    else
      var first :- RowOf(items[0], cols, fmtDate);
      var rest :- RowsOf(items[1..], cols, fmtDate);
      Ok([first] + rest)
  }

  /** Which table a list produces. */
  datatype Table = Names | Phones | Emails | Addresses

  function TableKey(t: Table): string
  {
    match t
    case Names => "names"
    case Phones => "phones"
    case Emails => "emails"
    case Addresses => "addresses"
  }

  function TableTitle(t: Table): string
  {
    match t
    case Names => "Names"
    case Phones => "Phones"
    case Emails => "Emails"
    case Addresses => "Addresses"
  }

  function TableHeader(t: Table): seq<string>
  {
    match t
    case Names => ["Display Name", "First", "Middle", "Last", "Valid Since", "Last Seen"]
    case Phones => ["Phone (Intl)", "Phone (Local)", "Type", "Carrier", "Valid Since", "Last Seen"]
    case Emails => ["Email", "Type", "Valid Since", "Last Seen"]
    case Addresses => ["Address (Display)", "City", "State", "Country", "Valid Since", "Last Seen"]
  }

  function TableColumns(t: Table): seq<Column>
  {
    match t
    case Names => [Text(["display"]), Text(["first"]), Text(["middle"]), Text(["last"]), DateOf("valid_since"), DateOf("last_seen")]
    case Phones => [PhoneOf("number"), Text(["display_international", "display"]), Text(["type"]), Text(["carrier"]),
                    DateOf("valid_since"), DateOf("last_seen")]
    case Emails => [Text(["address", "email"]), Text(["type"]), DateOf("valid_since"), DateOf("last_seen")]
    case Addresses => [Text(["display", "address"]), Text(["city"]), Text(["state"]), Text(["country"]),
                       DateOf("valid_since"), DateOf("last_seen")]
  }

  /** The list guard `!list || !Array.isArray(list) || list.length === 0`. */
  predicate NonEmptyArray(v: Val)
  {
    IsArray(v) && |v.value.items| > 0
  }

  /** `create<Table>Table(list)`: nothing unless a non-empty array; else a
      header row and one row per item. */
  function TableSection(t: Table, list: Val, fmtDate: Json -> string): (r: Result<seq<Section>>)
    ensures !NonEmptyArray(list) ==> r == Ok([])
    ensures r.Ok? && NonEmptyArray(list) ==>
      |r.value| == 1 && r.value[0].heading == TableTitle(t) && r.value[0].lines == [] &&
      |r.value[0].rows| == 1 + |list.value.items| && r.value[0].rows[0] == TableHeader(t)
    ensures NonEmptyArray(list) ==> (r.Ok? <==> forall i :: 0 <= i < |list.value.items| ==> list.value.items[i] != JNull)
    ensures r.Ok? && NonEmptyArray(list) ==> RowsOf(list.value.items, TableColumns(t), fmtDate) == Ok(r.value[0].rows[1..])
  {
    if !NonEmptyArray(list) then Ok([])
    else
      var rows :- RowsOf(list.value.items, TableColumns(t), fmtDate);
      Ok([Section(TableTitle(t), [], [TableHeader(t)] + rows)])
  }

  /** `createTitle(selector)` */
  function TitleSection(selector: Json): Section
  {
    Section(JsString(selector), ["Enrichment Report"], [])
  }

  /** `createQuerySummary(data)`: queried phone, the country code when
      truthy, and the query date (today's date when there is no timestamp). */
  function QuerySummary(data: Json, fmtDate: Json -> string, today: string): (r: Result<Section>)
    ensures r.Ok? <==> ExtractSelector(data).Ok? && ExtractCountryCode(data).Ok?
    ensures r.Ok? ==>
      r.value.heading == "Query Summary" && r.value.lines == [] && 2 <= |r.value.rows| &&
      r.value.rows[0] == ["Queried Phone", JsString(ExtractSelector(data).value)] &&
      (|r.value.rows| == 3 <==> Truthy(Some(ExtractCountryCode(data).value))) &&
      (|r.value.rows| == 3 ==> r.value.rows[1] == ["Country Code", JsString(ExtractCountryCode(data).value)]) &&
      |r.value.rows[|r.value.rows| - 1]| == 2 && r.value.rows[|r.value.rows| - 1][0] == "Query Date"
  {
    var selector :- ExtractSelector(data);
    var cc :- ExtractCountryCode(data);
    var q := Prop(Some(data), "query");
    var date := if Truthy(q) && Truthy(Prop(q, "timestamp")) then FormatDate(fmtDate, Prop(q, "timestamp")) else today;
    Ok(Section("Query Summary", [],
      [["Queried Phone", JsString(selector)]]
      + (if Truthy(Some(cc)) then [["Country Code", JsString(cc)]] else [])
      + [["Query Date", date]]))
  }

  /** The gender shown: `data.gender`, else `genders[0].content || genders[0]`. */
  function GenderValue(data: Json): Val
  {
    var d := Some(data);
    var gs := Prop(d, "genders");
    if Truthy(Prop(d, "gender")) then Prop(d, "gender")
    else if Truthy(gs) && Truthy(At(gs, 0)) then Or(Prop(At(gs, 0), "content"), At(gs, 0))
    else Some(JStr(""))
  }

  /** `data.gender || (data.genders && data.genders.length > 0)`, and the
      gender chosen is truthy. */
  predicate HasGender(data: Json)
  {
    var d := Some(data);
    var gs := Prop(d, "genders");
    (Truthy(Prop(d, "gender")) || (Truthy(gs) && NonEmptyLength(gs))) && Truthy(GenderValue(data))
  }

  /** The "Gender: " line; a gender that is not a string has no `charAt` and throws. */
  function GenderLines(data: Json): (r: Result<seq<string>>)
    ensures !HasGender(data) ==> r == Ok([])
    ensures HasGender(data) ==> (r.Ok? <==> GenderValue(data).value.JStr?)
    ensures r.Ok? && HasGender(data) ==> r.value == ["Gender: " + CapitalizeFirst(GenderValue(data).value.s)]
  {
    var d := Some(data);
    var gs := Prop(d, "genders");
    if !(Truthy(Prop(d, "gender")) || (Truthy(gs) && NonEmptyLength(gs))) then Ok([])
    else
      var g := GenderValue(data);
      if !Truthy(g) then Ok([])
      else if g.value.JStr? then Ok(["Gender: " + CapitalizeFirst(g.value.s)])
      else Err("gender.charAt is not a function")
  }

  /** One language: a string as is, "language (region)", the language, or
      the JSON text; only a null entry throws (reading `.language`). */
  function LanguageText(lang: Json): (r: Result<string>)
    ensures r.Err? <==> lang.JNull?
    ensures lang.JStr? ==> r == Ok(lang.s)
    ensures !lang.JStr? && r.Ok? ==>
      var language := Prop(Some(lang), "language");
      var region := Prop(Some(lang), "region");
      if Truthy(language) && Truthy(region) then r.value == JsString(language.value) + " (" + JsString(region.value) + ")"
      else if Truthy(language) then r.value == JsString(language.value)
      else r.value == Stringify(lang)
  {
    if lang.JStr? then Ok(lang.s)
    else
      var language :- Read(Some(lang), "language");
      var region := Prop(Some(lang), "region");
      if Truthy(language) && Truthy(region) then Ok(JsString(language.value) + " (" + JsString(region.value) + ")")
      else if Truthy(language) then Ok(JsString(language.value))
      else Ok(Stringify(lang))
  }

  /** `languages.map(...)`: one text per entry, failing on the first null. */
  function LanguageTexts(langs: seq<Json>): (r: Result<seq<string>>)
    ensures r.Ok? <==> forall i :: 0 <= i < |langs| ==> langs[i] != JNull
    ensures r.Ok? ==> |r.value| == |langs| && forall i :: 0 <= i < |langs| ==> Ok(r.value[i]) == LanguageText(langs[i])
  {
    if langs == [] then Ok([])
    else
      var first :- LanguageText(langs[0]);
      var rest :- LanguageTexts(langs[1..]);
      Ok([first] + rest)
  }

  /** The "Languages: " line for a non-empty language array. */
  function LanguageLines(data: Json): (r: Result<seq<string>>)
    ensures !NonEmptyArray(Prop(Some(data), "languages")) ==> r == Ok([])
    ensures NonEmptyArray(Prop(Some(data), "languages")) ==>
      var items := Prop(Some(data), "languages").value.items;
      && (r.Ok? <==> forall i :: 0 <= i < |items| ==> items[i] != JNull)
      && (r.Ok? ==> r.value == ["Languages: " + Join(LanguageTexts(items).value, ", ")])
  {
    var langs := Prop(Some(data), "languages");
    if !NonEmptyArray(langs) then Ok([])
    else
      var texts :- LanguageTexts(langs.value.items);
      Ok(["Languages: " + Join(texts, ", ")])
  }

  /** `createDemographics(data)`: the gender line then the languages line,
      omitted when it has neither; either line can throw. */
  function Demographics(data: Json): (r: Result<seq<Section>>)
    ensures r.Ok? <==> GenderLines(data).Ok? && LanguageLines(data).Ok?
    ensures r.Ok? ==> |r.value| <= 1
    ensures r.Ok? ==> (|r.value| == 1 <==> HasGender(data) || NonEmptyArray(Prop(Some(data), "languages")))
    ensures r.Ok? && |r.value| == 1 ==>
      r.value[0] == Section("Demographics", GenderLines(data).value + LanguageLines(data).value, []) &&
      1 <= |r.value[0].lines| <= 2
  {
    var gender :- GenderLines(data);
    var languages :- LanguageLines(data);
    var lines := gender + languages;
    if lines == [] then Ok([]) else Ok([Section("Demographics", lines, [])])
  }

  /** `items.length` of an array field, else 0. */
  function ListCount(v: Val): nat
  {
    if IsArray(v) then |v.value.items| else 0
  }

  /** The six counts of `createAvailableDataTable`, with the `else if` rule for genders. */
  function AvailableCounts(data: Json): Fields
  {
    var d := Some(data);
    [("Addresses", JNum(ListCount(Prop(d, "addresses")))),
     ("Phones", JNum(ListCount(Prop(d, "phones")))),
     ("Emails", JNum(ListCount(Prop(d, "emails")))),
     ("Names", JNum(ListCount(Prop(d, "names")))),
     ("Genders", JNum(if IsArray(Prop(d, "genders")) then ListCount(Prop(d, "genders"))
                      else if Truthy(Prop(d, "gender")) then 1 else 0)),
     ("Languages", JNum(ListCount(Prop(d, "languages"))))]
  }

  /** The `counts` object: six zeros, then each count assigned in turn
      (each key already exists, so an assignment replaces its entry in place). */
  method AvailableDataCounts(data: Json) returns (counts: Fields)
    ensures counts == AvailableCounts(data)
  {
    var d := Some(data);
    counts := [("Addresses", JNum(0)), ("Phones", JNum(0)), ("Emails", JNum(0)), ("Names", JNum(0)), ("Genders", JNum(0)), ("Languages", JNum(0))];
    counts := CountList(counts, 0, Prop(d, "addresses"));
    counts := CountList(counts, 1, Prop(d, "phones"));
    counts := CountList(counts, 2, Prop(d, "emails"));
    counts := CountList(counts, 3, Prop(d, "names"));
    var genders := Prop(d, "genders");
    if Truthy(genders) && IsArray(genders) {
      counts := counts[4 := ("Genders", JNum(|genders.value.items|))];
    } else if Truthy(Prop(d, "gender")) {
      counts := counts[4 := ("Genders", JNum(1))];
    }
    counts := CountList(counts, 5, Prop(d, "languages"));
  }

  /** `if (list && Array.isArray(list)) counts[name] = list.length` */
  method CountList(counts: Fields, i: nat, list: Val) returns (r: Fields)
    requires i < |counts| && counts[i].1 == JNum(0)
    ensures r == counts[i := (counts[i].0, JNum(ListCount(list)))]
  {
    r := counts;
    if Truthy(list) && IsArray(list) {
      r := r[i := (counts[i].0, JNum(|list.value.items|))];
    }
  }

  /** Exactly six rows in a fixed order; each count is the list's length or
      0, and Genders is 1 for a lone truthy `gender`. */
  lemma AvailableCountsShape(data: Json)
    ensures Keys(AvailableCounts(data)) == ["Addresses", "Phones", "Emails", "Names", "Genders", "Languages"]
    ensures forall i :: 0 <= i < 6 && i != 4 ==>
      AvailableCounts(data)[i].1 == JNum(ListCount(Prop(Some(data), ["addresses", "phones", "emails", "names", "", "languages"][i])))
    ensures IsArray(Prop(Some(data), "genders")) ==> AvailableCounts(data)[4].1 == JNum(|Prop(Some(data), "genders").value.items|)
    ensures !IsArray(Prop(Some(data), "genders")) ==> AvailableCounts(data)[4].1 == JNum(if Truthy(Prop(Some(data), "gender")) then 1 else 0)
  {
  }

  /** `createAvailableDataTable(data)` */
  function AvailableDataSection(counts: Fields): Section
  {
    Section("Available Data", [], [["Data Type", "Count"]] + seq(|counts|, i requires 0 <= i < |counts| => [counts[i].0, JsString(counts[i].1)]))
  }

  function MetadataSection(generated: string): Section
  {
    Section("Report Metadata", ["Generated: " + generated], [])
  }

  /** `if (rd.<list> && rd.<list>.length > 0) sections.push(...create<Table>Table(rd.<list>))` */
  function TableFor(t: Table, rd: Json, fmtDate: Json -> string): (r: Result<seq<Section>>)
    ensures r.Ok? ==> Headings(r.value) == (if NonEmptyArray(Prop(Some(rd), TableKey(t))) then [TableTitle(t)] else [])
    ensures r.Ok? ==> forall s :: s in r.value ==> s.lines == []
  {
    var list := Prop(Some(rd), TableKey(t));
    if Truthy(list) && NonEmptyLength(list) then TableSection(t, list, fmtDate) else Ok([])
  }

  /** The four optional tables, in order, for the normalised payload. */
  function Tables(rd: Json, fmtDate: Json -> string): Result<seq<Section>>
  {
    var names :- TableFor(Names, rd, fmtDate);
    var phones :- TableFor(Phones, rd, fmtDate);
    var emails :- TableFor(Emails, rd, fmtDate);
    var addresses :- TableFor(Addresses, rd, fmtDate);
    Ok(names + phones + emails + addresses)
  }

  /** The sections of the report for a normalised payload. */
  function SectionsFor(rd: Json, fmtDate: Json -> string, today: string, generated: string): Result<seq<Section>>
  {
    var selector :- ExtractSelector(rd);
    var summary :- QuerySummary(rd, fmtDate, today);
    var tables :- Tables(rd, fmtDate);
    var demographics :- Demographics(rd);
    Ok([TitleSection(selector)] + [summary] + [Section("Identity Summary", [], [])] + tables + demographics
       + [AvailableDataSection(AvailableCounts(rd))] + [MetadataSection(generated)])
  }

  /** The payload after unwrapping and, when it has a `person`, normalising. */
  function ReportData(data: Json, debugMode: bool): Result<Json>
  {
    var rd :- Unwrap(Prune(data, Doc(debugMode)));
    if Truthy(Prop(Some(rd), "person")) then NormalizePerson(rd) else Ok(rd)
  }

  /** `generateDocument(data, apiName, phoneNumber, metadata)` up to the
      document object; `fmtDate` renders a date value, `today` and
      `generated` are the current date and time as the report prints them. */
  function DocumentFor(data: Json, debugMode: bool, fmtDate: Json -> string, today: string, generated: string): Result<seq<Section>>
  {
    var rd :- ReportData(data, debugMode);
    SectionsFor(rd, fmtDate, today, generated)
  }

  /** The first half of `generateDocument`: sanitize, unwrap, and
      reassign `responseData` to the normalised person. */
  method PrepareResponseData(data: Json, debugMode: bool) returns (r: Result<Json>)
    ensures r == ReportData(data, debugMode)
  {
    var sanitized := SanitizeForDoc(data, debugMode);
    var responseData :- Unwrap(sanitized);
    if Truthy(Prop(Some(responseData), "person")) {
      responseData :- NormalizePerson(responseData);
    }
    return Ok(responseData);
  }

  /** The second half: the `sections` array, pushed in order. */
  method BuildSections(responseData: Json, fmtDate: Json -> string, today: string, generated: string)
    returns (r: Result<seq<Section>>)
    ensures r == SectionsFor(responseData, fmtDate, today, generated)
  {
    var selector :- ExtractSelector(responseData);
    var sections: seq<Section> := [];
    sections := sections + [TitleSection(selector)];
    assert sections == [TitleSection(selector)];
    var summary :- QuerySummary(responseData, fmtDate, today);
    sections := sections + [summary];
    sections := sections + [Section("Identity Summary", [], [])];
    var tables :- Tables(responseData, fmtDate);
    sections := sections + tables;
    var demographics :- Demographics(responseData);
    sections := sections + demographics;
    var counts := AvailableDataCounts(responseData);
    sections := sections + [AvailableDataSection(counts)];
    sections := sections + [MetadataSection(generated)];
    return Ok(sections);
  }

  /** `generateDocument(data, apiName, phoneNumber, metadata)` up to the
      document object. */
  method GenerateDocument(data: Json, debugMode: bool, fmtDate: Json -> string, today: string, generated: string)
    returns (r: Result<seq<Section>>)
    ensures r == DocumentFor(data, debugMode, fmtDate, today, generated)
  {
    var responseData :- PrepareResponseData(data, debugMode);
    r := BuildSections(responseData, fmtDate, today, generated);
  }

  function Headings(secs: seq<Section>): (r: seq<string>)
    ensures |r| == |secs|
  {
    seq(|secs|, i requires 0 <= i < |secs| => secs[i].heading)
  }

  /** A table's heading when its list is a non-empty array. */
  function PresentTable(t: Table, rd: Json): seq<string>
  {
    if NonEmptyArray(Prop(Some(rd), TableKey(t))) then [TableTitle(t)] else []
  }

  /** The table headings present, in the fixed order: names, phones, emails, addresses. */
  function PresentTables(rd: Json): seq<string>
  {
    PresentTable(Names, rd) + PresentTable(Phones, rd) + PresentTable(Emails, rd) + PresentTable(Addresses, rd)
  }

  lemma {:induction false} TablesShape(rd: Json, fmtDate: Json -> string)
    requires Tables(rd, fmtDate).Ok?
    ensures Headings(Tables(rd, fmtDate).value) == PresentTables(rd)
  {
    var n := TableFor(Names, rd, fmtDate).value;
    var p := TableFor(Phones, rd, fmtDate).value;
    var e := TableFor(Emails, rd, fmtDate).value;
    var a := TableFor(Addresses, rd, fmtDate).value;
    assert Tables(rd, fmtDate).value == n + p + e + a;
    HeadingsAppend(n + p + e, a);
    HeadingsAppend(n + p, e);
    HeadingsAppend(n, p);
  }

  lemma HeadingsAppend(a: seq<Section>, b: seq<Section>)
    ensures Headings(a + b) == Headings(a) + Headings(b)
  {
  }

  /** The fixed section order: title, query summary, identity-summary
      heading, the non-empty tables among names, phones, emails and
      addresses, demographics when it has a line, available data, report metadata. */
  lemma {:induction false} SectionOrder(rd: Json, fmtDate: Json -> string, today: string, generated: string)
    requires SectionsFor(rd, fmtDate, today, generated).Ok?
    ensures ExtractSelector(rd).Ok? && Tables(rd, fmtDate).Ok? && Demographics(rd).Ok?
    ensures Headings(SectionsFor(rd, fmtDate, today, generated).value) ==
      [JsString(ExtractSelector(rd).value), "Query Summary", "Identity Summary"]
      + PresentTables(rd) + Headings(Demographics(rd).value) + ["Available Data", "Report Metadata"]
  {
    var summary := QuerySummary(rd, fmtDate, today).value;
    var selector := ExtractSelector(rd).value;
    SectionsSplit(rd, fmtDate, today, generated);
    TablesShape(rd, fmtDate);
    LayoutHeadings(SectionsFor(rd, fmtDate, today, generated).value, TitleSection(selector), summary,
      Tables(rd, fmtDate).value, Demographics(rd).value, AvailableDataSection(AvailableCounts(rd)), MetadataSection(generated));
  }

  lemma LayoutHeadings(secs: seq<Section>, title: Section, summary: Section, tables: seq<Section>, demo: seq<Section>, avail: Section, meta: Section)
    requires secs == [title, summary, Section("Identity Summary", [], [])] + tables + demo + [avail, meta]
    ensures Headings(secs) == [title.heading, summary.heading, "Identity Summary"] + Headings(tables) + Headings(demo) + [avail.heading, meta.heading]
  {
    var head := [title, summary, Section("Identity Summary", [], [])];
    HeadingsAppend(head + tables + demo, [avail, meta]);
    HeadingsAppend(head + tables, demo);
    HeadingsAppend(head, tables);
  }

  lemma SectionsSplit(rd: Json, fmtDate: Json -> string, today: string, generated: string)
    requires SectionsFor(rd, fmtDate, today, generated).Ok?
    ensures ExtractSelector(rd).Ok? && QuerySummary(rd, fmtDate, today).Ok? && Tables(rd, fmtDate).Ok? && Demographics(rd).Ok?
    ensures SectionsFor(rd, fmtDate, today, generated).value ==
      [TitleSection(ExtractSelector(rd).value), QuerySummary(rd, fmtDate, today).value, Section("Identity Summary", [], [])]
      + Tables(rd, fmtDate).value + Demographics(rd).value
      + [AvailableDataSection(AvailableCounts(rd)), MetadataSection(generated)]
  {
    var t := TitleSection(ExtractSelector(rd).value);
    var summary := QuerySummary(rd, fmtDate, today).value;
    var identity := Section("Identity Summary", [], []);
    var avail := AvailableDataSection(AvailableCounts(rd));
    var meta := MetadataSection(generated);
    var mid := [t] + [summary] + [identity] + Tables(rd, fmtDate).value + Demographics(rd).value;
    assert SectionsFor(rd, fmtDate, today, generated).value == mid + [avail] + [meta];
    ThreeSingletons(t, summary, identity);
    TwoSingletons(mid, avail, meta);
  }

  lemma ThreeSingletons<T>(a: T, b: T, c: T)
    ensures [a] + [b] + [c] == [a, b, c]
  {
  }

  lemma TwoSingletons<T>(s: seq<T>, a: T, b: T)
    ensures s + [a] + [b] == s + [a, b]
  {
  }
}
