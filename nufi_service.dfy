// The request-parameter rules of the nine NUFI service calls: which request
// fields each call forwards, how they are trimmed, and when a call is refused
// before it reaches the upstream API; and the decision, once the upstream
// call has answered or failed, between its data, the demo data and an error.
module NufiService {
  import opened Js

  // ---------------------------------------------------------------------------
  // Cleaning the request parameters
  // ---------------------------------------------------------------------------

  /** How a kept value becomes text: `value.trim()` (a TypeError for a value
      that is not a string) or `value.toString().trim()`. */
  datatype Conversion = TrimString | TrimToString

  const TrimTypeError := "value.trim is not a function"

  /** The TypeError `params.<field>.trim()` raises on a value that is not a string. */
  function FieldTrimError(field: string): string
  {
    "params." + field + ".trim is not a function"
  }

  /** The trimmed text of a value, or the TypeError `trim` raises on it. */
  function TrimmedText(conv: Conversion, value: Json): (r: Result<string>)
    ensures r.Err? <==> conv == TrimString && !value.JStr?
  {
    match conv
    case TrimString => if value.JStr? then Ok(Trim(value.s)) else Err(TrimTypeError)
    case TrimToString => Ok(Trim(JsString(value)))
  }

  /** An entry the cleaning keeps: a whitelisted key with a truthy value whose
      trimmed text is not empty. */
  predicate Qualifies(conv: Conversion, keys: seq<string>, p: (string, Json))
  {
    p.0 in keys && Truthy(Some(p.1)) && TrimmedText(conv, p.1).Ok? && TrimmedText(conv, p.1).value != ""
  }

  /** An entry whose trimming throws. */
  predicate Throws(conv: Conversion, keys: seq<string>, p: (string, Json))
  {
    p.0 in keys && Truthy(Some(p.1)) && TrimmedText(conv, p.1).Err?
  }

  /** The cleaned entry `q` was produced from the request entry `p`. */
  predicate KeptFrom(conv: Conversion, keys: seq<string>, p: (string, Json), q: (string, Json))
  {
    Qualifies(conv, keys, p) && q == (p.0, JStr(TrimmedText(conv, p.1).value))
  }

  predicate AnyQualifies(conv: Conversion, keys: seq<string>, params: Fields)
  {
    exists j :: 0 <= j < |params| && Qualifies(conv, keys, params[j])
  }

  predicate AnyThrows(conv: Conversion, keys: seq<string>, params: Fields)
  {
    exists j :: 0 <= j < |params| && Throws(conv, keys, params[j])
  }

  /** One step of the `reduce` over `Object.entries(params)`. */
  function CleanStep(conv: Conversion, keys: seq<string>, acc: Fields, p: (string, Json)): Result<Fields>
  {
    if p.0 in keys && Truthy(Some(p.1)) then
      match TrimmedText(conv, p.1)
      case Err(m) => Err(m)
      case Ok(t) => if t != "" then Ok(Put(acc, p.0, JStr(t))) else Ok(acc)
    else Ok(acc)
  }

  /** `Object.entries(params).reduce(step, {})`: the fold of CleanStep from the left. */
  function Cleaned(conv: Conversion, params: Fields, keys: seq<string>): Result<Fields>
    decreases |params|
  {
    if params == [] then Ok([])
    else
      match Cleaned(conv, params[..|params| - 1], keys)
      case Err(m) => Err(m)
      case Ok(acc) => CleanStep(conv, keys, acc, params[|params| - 1])
  }

  /** The reduce as the loop it performs. */
  method CleanParams(conv: Conversion, params: Fields, keys: seq<string>) returns (r: Result<Fields>)
    ensures r == Cleaned(conv, params, keys)
  {
    var acc: Fields := [];
    var i := 0;
    while i < |params|
      invariant 0 <= i <= |params|
      invariant Cleaned(conv, params[..i], keys) == Ok(acc)
    {
      var key, value := params[i].0, params[i].1;
      assert Cleaned(conv, params[..i + 1], keys) == CleanStep(conv, keys, acc, params[i]) by {
        assert params[..i + 1][..i] == params[..i];
        assert params[..i + 1][i] == params[i];
      }
      if key in keys && Truthy(Some(value)) {
        var text := TrimmedText(conv, value);
        if text.Err? {
          CleanedErrSticks(conv, params, keys, i + 1);
          return Err(text.msg);
        }
        if text.value != "" {
          acc := Put(acc, key, JStr(text.value));
        }
      }
      i := i + 1;
    }
    assert params[..i] == params;
    return Ok(acc);
  }

  /** Once a prefix throws, the whole reduce throws the same error. */
  lemma {:induction false} CleanedErrSticks(conv: Conversion, params: Fields, keys: seq<string>, n: nat)
    requires n <= |params| && Cleaned(conv, params[..n], keys).Err?
    ensures Cleaned(conv, params, keys) == Cleaned(conv, params[..n], keys)
    decreases |params| - n
  {
    if n < |params| {
      var m := n + 1;
      assert params[..m][..n] == params[..n];
      CleanedErrSticks(conv, params, keys, m);
    } else {
      assert params[..n] == params;
    }
  }

  /** Every cleaned entry comes from a qualifying request entry, trimmed. */
  lemma {:induction false} CleanedSound(conv: Conversion, params: Fields, keys: seq<string>)
    requires Cleaned(conv, params, keys).Ok?
    ensures forall q :: q in Cleaned(conv, params, keys).value ==>
              exists j :: 0 <= j < |params| && KeptFrom(conv, keys, params[j], q)
    decreases |params|
  {
    if params != [] {
      var init := params[..|params| - 1];
      var last := params[|params| - 1];
      CleanedSound(conv, init, keys);
      var acc := Cleaned(conv, init, keys).value;
      forall q | q in Cleaned(conv, params, keys).value
        ensures exists j :: 0 <= j < |params| && KeptFrom(conv, keys, params[j], q)
      {
        if q in acc {
          var j :| 0 <= j < |init| && KeptFrom(conv, keys, init[j], q);
          assert params[j] == init[j];
        } else {
          assert KeptFrom(conv, keys, params[|params| - 1], q);
        }
      }
    }
  }

  /** One step keeps every key it had and adds the key of a qualifying entry. */
  lemma CleanStepKeys(conv: Conversion, keys: seq<string>, acc: Fields, p: (string, Json))
    requires CleanStep(conv, keys, acc, p).Ok?
    ensures forall x :: x in Keys(acc) ==> x in Keys(CleanStep(conv, keys, acc, p).value)
    ensures Qualifies(conv, keys, p) ==> p.0 in Keys(CleanStep(conv, keys, acc, p).value)
  {
    if p.0 in keys && Truthy(Some(p.1)) {
      var t := TrimmedText(conv, p.1);
      if t.Ok? && t.value != "" {
        PutKeys(acc, p.0, JStr(t.value));
      }
    }
  }

  /** Every qualifying request entry's key is among the cleaned keys. */
  lemma CleanedComplete(conv: Conversion, params: Fields, keys: seq<string>)
    requires Cleaned(conv, params, keys).Ok?
    ensures forall j :: 0 <= j < |params| && Qualifies(conv, keys, params[j]) ==>
              params[j].0 in Keys(Cleaned(conv, params, keys).value)
  {
    forall j | 0 <= j < |params| && Qualifies(conv, keys, params[j])
      ensures params[j].0 in Keys(Cleaned(conv, params, keys).value)
    {
      CleanedKeeps(conv, params, keys, j);
    }
  }

  /** The key of one qualifying entry is in the cleaned object. */
  lemma {:induction false} CleanedKeeps(conv: Conversion, params: Fields, keys: seq<string>, j: nat)
    requires Cleaned(conv, params, keys).Ok? && j < |params| && Qualifies(conv, keys, params[j])
    ensures params[j].0 in Keys(Cleaned(conv, params, keys).value)
    decreases |params|
  {
    var init := params[..|params| - 1];
    var last := params[|params| - 1];
    var acc := Cleaned(conv, init, keys).value;
    assert Cleaned(conv, params, keys) == CleanStep(conv, keys, acc, last);
    CleanStepKeys(conv, keys, acc, last);
    if j < |init| {
      assert init[j] == params[j];
      CleanedKeeps(conv, init, keys, j);
    }
  }

  /** The reduce throws exactly when some whitelisted truthy value cannot be
      trimmed, and then with the TypeError. */
  lemma {:induction false} CleanedThrows(conv: Conversion, params: Fields, keys: seq<string>)
    ensures Cleaned(conv, params, keys).Err? <==> AnyThrows(conv, keys, params)
    ensures Cleaned(conv, params, keys).Err? ==> Cleaned(conv, params, keys).msg == TrimTypeError
    decreases |params|
  {
    if params != [] {
      var init := params[..|params| - 1];
      CleanedThrows(conv, init, keys);
      if AnyThrows(conv, keys, init) {
        var j :| 0 <= j < |init| && Throws(conv, keys, init[j]);
        assert params[j] == init[j];
      }
      if AnyThrows(conv, keys, params) {
        var j :| 0 <= j < |params| && Throws(conv, keys, params[j]);
        if j < |init| {
          assert init[j] == params[j];
        }
      }
    }
  }

  /** The cleaned entries are exactly empty when nothing qualifies. */
  lemma {:induction false} CleanedEmpty(conv: Conversion, params: Fields, keys: seq<string>)
    requires Cleaned(conv, params, keys).Ok?
    ensures Cleaned(conv, params, keys).value == [] <==> !AnyQualifies(conv, keys, params)
  {
    var r := Cleaned(conv, params, keys).value;
    CleanedSound(conv, params, keys);
    CleanedComplete(conv, params, keys);
    if r != [] {
      assert r[0] in r;
      var j :| 0 <= j < |params| && KeptFrom(conv, keys, params[j], r[0]);
    }
    if AnyQualifies(conv, keys, params) {
      var j :| 0 <= j < |params| && Qualifies(conv, keys, params[j]);
      assert params[j].0 in Keys(r);
    }
  }

  /** A key reads a truthy value from the cleaned entries exactly when some
      qualifying request entry has that key. */
  lemma CleanedHas(conv: Conversion, params: Fields, keys: seq<string>, k: string)
    requires Cleaned(conv, params, keys).Ok?
    ensures Truthy(Get(Cleaned(conv, params, keys).value, k)) <==>
            exists j :: 0 <= j < |params| && params[j].0 == k && Qualifies(conv, keys, params[j])
  {
    var r := Cleaned(conv, params, keys).value;
    GetFinds(r, k);
    if exists j :: 0 <= j < |params| && params[j].0 == k && Qualifies(conv, keys, params[j]) {
      CleanedComplete(conv, params, keys);
      assert k in Keys(r);
    }
    if Get(r, k).Some? {
      CleanedSound(conv, params, keys);
      var j :| 0 <= j < |params| && KeptFrom(conv, keys, params[j], (k, Get(r, k).value));
      assert Truthy(Get(r, k));
      assert params[j].0 == k && Qualifies(conv, keys, params[j]);
    }
  }

  /** Only whitelisted keys are kept. */
  lemma CleanedKeysIn(conv: Conversion, params: Fields, keys: seq<string>)
    requires Cleaned(conv, params, keys).Ok?
    ensures forall q :: q in Cleaned(conv, params, keys).value ==> q.0 in keys
  {
    CleanedSound(conv, params, keys);
    forall q | q in Cleaned(conv, params, keys).value ensures q.0 in keys {
      var j :| 0 <= j < |params| && KeptFrom(conv, keys, params[j], q);
    }
  }

  /** `toString().trim()` never throws. */
  lemma ToStringNeverThrows(params: Fields, keys: seq<string>)
    ensures Cleaned(TrimToString, params, keys).Ok?
  {
    CleanedThrows(TrimToString, params, keys);
  }

  // ---------------------------------------------------------------------------
  // The service calls
  // ---------------------------------------------------------------------------

  /** A service call either refuses with an Error message or calls the API
      (`makeApiCall`) with its endpoint name, path and cleaned parameters. */
  datatype Outcome = Rejected(message: string) | Call(endpoint: string, path: string, params: Fields)

  /** `params.phone || params.email` */
  predicate ContactSupplied(params: Fields)
  {
    Truthy(Get(params, "phone")) || Truthy(Get(params, "email"))
  }

  /** The shape shared by general enrichment and the international
      blacklist: whitelist, trim, refuse an empty result with a message that
      depends on whether a phone or e-mail was sent. */
  function WhitelistCall(params: Fields, keys: seq<string>, wrongApi: string, needsParam: string,
                         endpoint: string, path: string): (r: Outcome)
    ensures AnyThrows(TrimString, keys, params) ==> r == Rejected(TrimTypeError)
    ensures !AnyThrows(TrimString, keys, params) ==>
              (r.Call? <==> AnyQualifies(TrimString, keys, params))
    ensures !AnyThrows(TrimString, keys, params) && !AnyQualifies(TrimString, keys, params) ==>
              r == Rejected(if ContactSupplied(params) then wrongApi else needsParam)
    ensures r.Call? ==> r.endpoint == endpoint && r.path == path
    ensures r.Call? ==> forall q :: q in r.params ==> exists j :: 0 <= j < |params| && KeptFrom(TrimString, keys, params[j], q)
    ensures r.Call? ==> forall j :: 0 <= j < |params| && Qualifies(TrimString, keys, params[j]) ==> params[j].0 in Keys(r.params)
    ensures r.Call? ==> forall q :: q in r.params ==> q.0 in keys
  {
    CleanedThrows(TrimString, params, keys);
    match Cleaned(TrimString, params, keys)
    case Err(m) => Rejected(m)
    case Ok(clean) =>
      CleanedEmpty(TrimString, params, keys);
      CleanedSound(TrimString, params, keys);
      CleanedComplete(TrimString, params, keys);
      CleanedKeysIn(TrimString, params, keys);
      if |clean| == 0 then
        (if ContactSupplied(params) then Rejected(wrongApi) else Rejected(needsParam))
      else Call(endpoint, path, clean)
  }

  const EnrichmentKeys := ["rfc", "curp", "nombre", "apellidoPaterno", "apellidoMaterno", "fechaNacimiento", "entidadNacimiento"]
  const EnrichmentWrongApi := "Phone and Email are not valid for General Data Enrichment. Please select \"Data Enrichment by Phone\" or \"Data Enrichment by Email\" from the dropdown."
  const EnrichmentNeedsParam := "At least one valid search parameter is required (RFC, CURP, Name, Birth Date, etc.)"

  /** General data enrichment: forwards the non-blank whitelisted fields,
      refuses when none is left. */
  function GeneralDataEnrichment(params: Fields): (r: Outcome)
    ensures !AnyThrows(TrimString, EnrichmentKeys, params) ==>
              (r.Call? <==> AnyQualifies(TrimString, EnrichmentKeys, params))
    ensures r == Rejected(EnrichmentWrongApi) <==>
              !AnyThrows(TrimString, EnrichmentKeys, params) && !AnyQualifies(TrimString, EnrichmentKeys, params) && ContactSupplied(params)
    ensures r == Rejected(EnrichmentNeedsParam) <==>
              !AnyThrows(TrimString, EnrichmentKeys, params) && !AnyQualifies(TrimString, EnrichmentKeys, params) && !ContactSupplied(params)
    ensures r.Call? ==> r.endpoint == "enrichment" && forall q :: q in r.params ==> q.0 in EnrichmentKeys
  {
    WhitelistCall(params, EnrichmentKeys, EnrichmentWrongApi, EnrichmentNeedsParam,
                           "enrichment", "/enriquecimientoidentidades/v3/enriquecimiento")
  }

  const BlacklistKeys := ["nombre", "apellidoPaterno", "apellidoMaterno", "fechaNacimiento", "pais"]
  const BlacklistWrongApi := "Phone and Email are not valid for International Blacklists. This API requires names and birth dates. Try \"Data Enrichment by Phone/Email\" instead."
  const BlacklistNeedsParam := "At least one valid search parameter is required (Name, Birth Date, Country)"

  /** International blacklist search: the same rules over its own whitelist. */
  function InternationalBlacklist(params: Fields): (r: Outcome)
    ensures !AnyThrows(TrimString, BlacklistKeys, params) ==>
              (r.Call? <==> AnyQualifies(TrimString, BlacklistKeys, params))
    ensures r == Rejected(BlacklistWrongApi) <==>
              !AnyThrows(TrimString, BlacklistKeys, params) && !AnyQualifies(TrimString, BlacklistKeys, params) && ContactSupplied(params)
    ensures r == Rejected(BlacklistNeedsParam) <==>
              !AnyThrows(TrimString, BlacklistKeys, params) && !AnyQualifies(TrimString, BlacklistKeys, params) && !ContactSupplied(params)
    ensures r.Call? ==> r.endpoint == "blacklist" && forall q :: q in r.params ==> q.0 in BlacklistKeys
  {
    WhitelistCall(params, BlacklistKeys, BlacklistWrongApi, BlacklistNeedsParam,
                           "blacklist", "/listainternacional/v1/busqueda")
  }

  /** A phone or e-mail sent only by e-mail, say, into the general
      enrichment is told it picked the wrong API. */
  lemma WrongApiForContactOnly(params: Fields)
    requires forall j :: 0 <= j < |params| ==> params[j].0 !in EnrichmentKeys
    requires ContactSupplied(params)
    ensures GeneralDataEnrichment(params) == Rejected(EnrichmentWrongApi)
  {
  }

  /** `if (params[from] && params[from].trim() !== '') cleanParams[to] = params[from].trim()`,
      then refuse when `cleanParams[to]` is falsy. */
  function SingleFieldCall(params: Fields, from: string, to: string, missing: string,
                           endpoint: string, path: string): (r: Outcome)
    ensures r.Call? <==> Get(params, from).Some? && Get(params, from).value.JStr? && Trim(Get(params, from).value.s) != ""
    ensures r.Call? ==> r == Call(endpoint, path, [(to, JStr(Trim(Get(params, from).value.s)))])
    ensures Truthy(Get(params, from)) && !Get(params, from).value.JStr? ==> r == Rejected(FieldTrimError(from))
    ensures !Truthy(Get(params, from)) || (Get(params, from).value.JStr? && Blank(Get(params, from).value.s)) ==>
              r == Rejected(missing)
  {
    var v := Get(params, from);
    if Truthy(v) && !v.value.JStr? then Rejected(FieldTrimError(from))
    else if Truthy(v) && Trim(v.value.s) != "" then Call(endpoint, path, [(to, JStr(Trim(v.value.s)))])
    else Rejected(missing)
  }

  const PhonePath := "/enriquecimientoidentidades/v3/telefono"
  const EmailPath := "/enriquecimientoidentidades/v3/correo"

  /** A phone call is made exactly for a non-blank phone text and sends only
      `telefono`, trimmed. */
  function EnrichmentByPhone(params: Fields): (r: Outcome)
    ensures r.Call? <==> Get(params, "phone").Some? && Get(params, "phone").value.JStr? && !Blank(Get(params, "phone").value.s)
    ensures r.Call? ==> r == Call("enrichment-phone", PhonePath, [("telefono", JStr(Trim(Get(params, "phone").value.s)))])
    ensures !Truthy(Get(params, "phone")) ==> r == Rejected("Phone number is required")
    ensures Truthy(Get(params, "phone")) && !Get(params, "phone").value.JStr? ==> r == Rejected(FieldTrimError("phone"))
  {
    SingleFieldCall(params, "phone", "telefono", "Phone number is required", "enrichment-phone", PhonePath)
  }

  /** An e-mail call sends only `correo`, trimmed. */
  function EnrichmentByEmail(params: Fields): (r: Outcome)
    ensures r.Call? <==> Get(params, "email").Some? && Get(params, "email").value.JStr? && !Blank(Get(params, "email").value.s)
    ensures r.Call? ==> r == Call("enrichment-email", EmailPath, [("correo", JStr(Trim(Get(params, "email").value.s)))])
    ensures !Truthy(Get(params, "email")) ==> r == Rejected("Email address is required")
    ensures Truthy(Get(params, "email")) && !Get(params, "email").value.JStr? ==> r == Rejected(FieldTrimError("email"))
  {
    SingleFieldCall(params, "email", "correo", "Email address is required", "enrichment-email", EmailPath)
  }

  /** Phone profiling sends only `telefono`, trimmed. */
  function ProfilingPhone(params: Fields): (r: Outcome)
    ensures r.Call? <==> Get(params, "phone").Some? && Get(params, "phone").value.JStr? && !Blank(Get(params, "phone").value.s)
    ensures r.Call? ==> r == Call("profiling-phone", "/perfilamiento/v1/telefono", [("telefono", JStr(Trim(Get(params, "phone").value.s)))])
    ensures !Truthy(Get(params, "phone")) ==> r == Rejected("Phone number is required for profiling")
    ensures Truthy(Get(params, "phone")) && !Get(params, "phone").value.JStr? ==> r == Rejected(FieldTrimError("phone"))
  {
    SingleFieldCall(params, "phone", "telefono", "Phone number is required for profiling", "profiling-phone", "/perfilamiento/v1/telefono")
  }

  /** E-mail profiling sends only `correo`, trimmed. */
  function ProfilingEmail(params: Fields): (r: Outcome)
    ensures r.Call? <==> Get(params, "email").Some? && Get(params, "email").value.JStr? && !Blank(Get(params, "email").value.s)
    ensures r.Call? ==> r == Call("profiling-email", "/perfilamiento/v1/correo", [("correo", JStr(Trim(Get(params, "email").value.s)))])
    ensures !Truthy(Get(params, "email")) ==> r == Rejected("Email address is required for profiling")
    ensures Truthy(Get(params, "email")) && !Get(params, "email").value.JStr? ==> r == Rejected(FieldTrimError("email"))
  {
    SingleFieldCall(params, "email", "correo", "Email address is required for profiling", "profiling-email", "/perfilamiento/v1/correo")
  }

  const RenapoRequired := "CURP is required for RENAPO validation"

  /** RENAPO validation forwards only the trimmed `curp` and refuses
      without one, whatever else was sent. */
  function Renapo(params: Fields): (r: Outcome)
    ensures r.Call? <==> Get(params, "curp").Some? && Get(params, "curp").value.JStr? && !Blank(Get(params, "curp").value.s)
    ensures r.Call? ==> r == Call("renapo-curp", "/renapo/v1/validacion", [("curp", JStr(Trim(Get(params, "curp").value.s)))])
    ensures !Truthy(Get(params, "curp")) ==> r == Rejected(RenapoRequired)
    ensures Truthy(Get(params, "curp")) && !Get(params, "curp").value.JStr? ==> r == Rejected(FieldTrimError("curp"))
  {
    SingleFieldCall(params, "curp", "curp", RenapoRequired, "renapo-curp", "/renapo/v1/validacion")
  }

  const NameKeys := ["nombre", "apellidoPaterno", "apellidoMaterno"]
  const NameRequired := "At least first name or paternal surname is required"

  /** An entry naming the person: a non-blank first name or paternal surname. */
  predicate NamesPerson(p: (string, Json))
  {
    (p.0 == "nombre" || p.0 == "apellidoPaterno") && Qualifies(TrimString, NameKeys, p)
  }

  /** Name enrichment calls exactly when a first name or paternal surname
      survives cleaning; a maternal surname alone is not enough. */
  function EnrichmentByName(params: Fields): (r: Outcome)
    ensures !AnyThrows(TrimString, NameKeys, params) ==>
              (r.Call? <==> exists j :: 0 <= j < |params| && NamesPerson(params[j]))
    ensures !AnyThrows(TrimString, NameKeys, params) && r.Rejected? ==> r.message == NameRequired
    ensures r.Call? ==> r.endpoint == "enrichment-name" && forall q :: q in r.params ==> q.0 in NameKeys
  {
    CleanedThrows(TrimString, params, NameKeys);
    match Cleaned(TrimString, params, NameKeys)
    case Err(m) => Rejected(m)
    case Ok(clean) =>
      CleanedHas(TrimString, params, NameKeys, "nombre");
      CleanedHas(TrimString, params, NameKeys, "apellidoPaterno");
      CleanedKeysIn(TrimString, params, NameKeys);
      if !Truthy(Get(clean, "nombre")) && !Truthy(Get(clean, "apellidoPaterno")) then Rejected(NameRequired)
      else Call("enrichment-name", "/enriquecimientoidentidades/v3/nombre", clean)
  }

  /** A request holding only a maternal surname is refused. */
  lemma {:induction false} MaternalSurnameAlone(s: string)
    ensures EnrichmentByName([("apellidoMaterno", JStr(s))]) == Rejected(NameRequired)
  {
    var params := [("apellidoMaterno", JStr(s))];
    assert !AnyThrows(TrimString, NameKeys, params);
    assert !NamesPerson(params[0]);
  }

  // ---------------------------------------------------------------------------
  // CURP calculation
  // ---------------------------------------------------------------------------

  const CurpKeys := ["tipo_busqueda", "clave_entidad", "dia_nacimiento", "mes_nacimiento", "nombres",
                     "primer_apellido", "segundo_apellido", "anio_nacimiento", "sexo", "curp"]
  const CurpRequired := ["nombres", "primer_apellido", "dia_nacimiento", "mes_nacimiento", "anio_nacimiento", "sexo", "clave_entidad"]
  const MissingPrefix := "Missing required fields for CURP calculation: "
  const CurpForValidation := "CURP is required for validation"

  /** `xs` is `ys` with some elements left out, in order. */
  predicate Subsequence(xs: seq<string>, ys: seq<string>)
    decreases |ys|
  {
    xs == [] || (ys != [] && ((xs[0] == ys[0] && Subsequence(xs[1..], ys[1..])) || Subsequence(xs, ys[1..])))
  }

  /** `required.filter(field => !cleanParams[field])` */
  function MissingFields(clean: Fields, required: seq<string>): (r: seq<string>)
    ensures forall x :: x in r <==> x in required && !Truthy(Get(clean, x))
    ensures Subsequence(r, required)
  {
    if required == [] then []
    else
      var rest := MissingFields(clean, required[1..]);
      if !Truthy(Get(clean, required[0])) then
        assert ([required[0]] + rest)[1..] == rest;
        [required[0]] + rest
      else rest
  }

  /** The cleaned parameters with `tipo_busqueda` defaulted: "curp" when a
      CURP was sent, else "datos". */
  function WithTipo(clean: Fields): (r: Fields)
  {
    if !Truthy(Get(clean, "tipo_busqueda")) then
      Put(clean, "tipo_busqueda", JStr(if Truthy(Get(clean, "curp")) then "curp" else "datos"))
    else clean
  }

  /** The search type the call runs with. */
  function Tipo(clean: Fields): (t: Val)
    ensures !Truthy(Get(clean, "tipo_busqueda")) ==>
              t == Some(JStr(if Truthy(Get(clean, "curp")) then "curp" else "datos"))
    ensures Truthy(Get(clean, "tipo_busqueda")) ==> t == Get(clean, "tipo_busqueda")
  {
    Get(WithTipo(clean), "tipo_busqueda")
  }

  /** The cleaned CURP parameters: `toString().trim()` of the whitelisted
      truthy values, which never throws. */
  function CurpParams(params: Fields): (clean: Fields)
    ensures Cleaned(TrimToString, params, CurpKeys) == Ok(clean)
    ensures forall q :: q in clean ==> q.0 in CurpKeys
  {
    ToStringNeverThrows(params, CurpKeys);
    CleanedKeysIn(TrimToString, params, CurpKeys);
    Cleaned(TrimToString, params, CurpKeys).value
  }

  const CurpPath := "/curp/v1/consulta"

  /** The checks after cleaning: "datos" needs all seven person fields and
      names the missing ones in required-list order; "curp" needs the CURP;
      any other type goes through unchecked. */
  function CurpCheck(clean: Fields): (r: Outcome)
    ensures var missing := MissingFields(clean, CurpRequired);
            && (Tipo(clean) == Some(JStr("datos")) ==>
                  (r.Rejected? <==> missing != []) && (r.Rejected? ==> r.message == MissingPrefix + Join(missing, ", ")))
            && (Tipo(clean) == Some(JStr("curp")) ==>
                  (r.Rejected? <==> !Truthy(Get(clean, "curp"))) && (r.Rejected? ==> r.message == CurpForValidation))
            && (Tipo(clean) != Some(JStr("datos")) && Tipo(clean) != Some(JStr("curp")) ==> r.Call?)
    ensures r.Call? ==> r == Call("curp-calculation", CurpPath, WithTipo(clean))
  {
    var withTipo := WithTipo(clean);
    var tipo := Get(withTipo, "tipo_busqueda");
    MissingFieldsSame(withTipo, clean, CurpRequired);
    var missing := MissingFields(withTipo, CurpRequired);
    if tipo == Some(JStr("datos")) then
      if |missing| > 0 then Rejected(MissingPrefix + Join(missing, ", "))
      else Call("curp-calculation", CurpPath, withTipo)
    else if tipo == Some(JStr("curp")) then
      if !Truthy(Get(withTipo, "curp")) then Rejected(CurpForValidation)
      else Call("curp-calculation", CurpPath, withTipo)
    else Call("curp-calculation", CurpPath, withTipo)
  }

  /** CURP calculation sends only whitelisted keys, always with a search type. */
  function CurpCalculation(params: Fields): (r: Outcome)
    ensures r.Call? ==> r.endpoint == "curp-calculation"
    ensures r.Call? ==> Get(r.params, "tipo_busqueda") == Tipo(CurpParams(params))
    ensures r.Call? ==> forall q :: q in r.params ==> q.0 in CurpKeys
  {
    var clean := CurpParams(params);
    assert "tipo_busqueda" in CurpKeys;
    CurpCheck(clean)
  }

  /** The missing list reads only the required keys. */
  lemma {:induction false} MissingFieldsSame(a: Fields, b: Fields, required: seq<string>)
    requires forall x :: x != "tipo_busqueda" ==> Get(a, x) == Get(b, x)
    requires "tipo_busqueda" !in required
    ensures MissingFields(a, required) == MissingFields(b, required)
    decreases |required|
  {
    if required != [] {
      MissingFieldsSame(a, b, required[1..]);
    }
  }

  /** Without a type, a request that sends a CURP validates it and one that
      does not calculates it. */
  lemma {:induction false} TipoDefaults(params: Fields)
    requires !exists j :: 0 <= j < |params| && params[j].0 == "tipo_busqueda" && Qualifies(TrimToString, CurpKeys, params[j])
    ensures Tipo(CurpParams(params)) ==
            Some(JStr(if exists j :: 0 <= j < |params| && params[j].0 == "curp" && Qualifies(TrimToString, CurpKeys, params[j])
                      then "curp" else "datos"))
  {
    var clean := CurpParams(params);
    CleanedHas(TrimToString, params, CurpKeys, "tipo_busqueda");
    CleanedHas(TrimToString, params, CurpKeys, "curp");
  }

  /** When every required field was sent with a value, none is missing. */
  lemma {:induction false} NoneMissing(params: Fields, required: seq<string>)
    requires forall k :: k in required ==>
               exists j :: 0 <= j < |params| && params[j].0 == k && Qualifies(TrimToString, CurpKeys, params[j])
    ensures MissingFields(CurpParams(params), required) == []
  {
    var missing := MissingFields(CurpParams(params), required);
    if missing != [] {
      var k := missing[0];
      assert k in missing;
      CleanedHas(TrimToString, params, CurpKeys, k);
      assert false;
    }
  }

  /** A calculation request with every person field present goes through. */
  lemma {:induction false} DatosWithAllFieldsCalls(params: Fields)
    requires forall k :: k in CurpRequired ==>
               exists j :: 0 <= j < |params| && params[j].0 == k && Qualifies(TrimToString, CurpKeys, params[j])
    requires Tipo(CurpParams(params)) == Some(JStr("datos"))
    ensures CurpCalculation(params).Call?
  {
    NoneMissing(params, CurpRequired);
  }

  // ---------------------------------------------------------------------------
  // After the upstream call
  // ---------------------------------------------------------------------------

  const NetworkErrors := ["ENOTFOUND", "ECONNREFUSED", "ETIMEDOUT", "ECONNABORTED", "EHOSTUNREACH", "ENETUNREACH"]

  /** How the upstream call ended: with response data, or with an error
      carrying a code, a message and possibly a response. */
  datatype Reply = Answered(data: Json) | Failed(code: Option<string>, message: string, response: Val)

  /** What `makeApiCall` produces: the demo data for the endpoint (with the
      reason when it replaced a failed call), the upstream data, or the
      error object it throws. */
  datatype CallResult =
    | Demo(endpoint: string, params: Fields, fallbackReason: Option<string>)
    | Success(data: Json, endpoint: string, paramsUsed: seq<string>)
    | Thrown(error: Val, status: Val, details: Val)

  /** A failure that stands for an unreachable API. */
  predicate Unreachable(code: Option<string>, message: string)
  {
    (code.Some? && code.value in NetworkErrors) || Contains(message, "timeout")
  }

  function MakeApiCall(demoMode: bool, reply: Reply, endpoint: string, cleanParams: Fields): (r: CallResult)
    ensures r.Demo? <==> demoMode || (reply.Failed? && Unreachable(reply.code, reply.message))
    ensures r.Demo? ==> r.endpoint == endpoint && r.params == cleanParams
    ensures r.Demo? && !demoMode ==> r.fallbackReason == Some("API unreachable: " + reply.message)
    ensures r.Success? <==> !demoMode && reply.Answered?
    ensures r.Success? ==> r.data == reply.data && r.paramsUsed == Keys(cleanParams)
    ensures r.Thrown? ==>
      var body := Prop(reply.response, "data");
      && reply.Failed?
      && r.error == (if Truthy(Prop(body, "message")) then Prop(body, "message") else Some(JStr(reply.message)))
      && r.status == Prop(reply.response, "status")
      && r.details == body
  {
    if demoMode then Demo(endpoint, cleanParams, None)
    else match reply
      case Answered(data) => Success(data, endpoint, Keys(cleanParams))
      case Failed(code, message, response) =>
        if Unreachable(code, message) then Demo(endpoint, cleanParams, Some("API unreachable: " + message))
        else
          var body := Prop(response, "data");
          Thrown(Or(Prop(body, "message"), Some(JStr(message))), Prop(response, "status"), body)
  }

  /** A refused connection falls back to the demo data; a failure with a
      code outside the list and no "timeout" in its message is thrown. */
  lemma {:induction false} FallbackCases(message: string, endpoint: string, cleanParams: Fields)
    ensures MakeApiCall(false, Failed(Some("ECONNREFUSED"), message, None), endpoint, cleanParams).Demo?
    ensures !Contains(message, "timeout") ==>
              MakeApiCall(false, Failed(Some("ECONNRESET"), message, None), endpoint, cleanParams) ==
              Thrown(Some(JStr(message)), None, None)
  {
    assert NetworkErrors[1] == "ECONNREFUSED";
    assert "ECONNRESET" !in NetworkErrors by {
      assert forall i :: 0 <= i < |NetworkErrors| ==> NetworkErrors[i][..5] != "ECONNRESET"[..5] || NetworkErrors[i] != "ECONNRESET";
    }
  }
}
