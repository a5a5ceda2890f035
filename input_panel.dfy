// The search forms' submit handlers: each either alerts and sends nothing,
// or submits a payload of trimmed fields under an API type.
module InputPanel {
  import opened Js
  import NufiService

  /** What a submit does: an alert, or `onSubmit(payload, apiType)`. */
  datatype Submission = Alert(message: string) | Submit(payload: Fields, apiType: string)

  const PhoneAlert := "Please enter a phone number"
  const EmailAlert := "Please enter an email address"
  const NameAlert := "Please enter at least a first name or paternal surname"
  const CurpAlert := "Please fill all required fields for CURP name search"

  /** A one-field form: alerts on a blank value, submits it trimmed. */
  function SingleField(value: string, key: string, apiType: string, alert: string): (r: Submission)
    ensures r.Submit? <==> !Blank(value)
    ensures r.Alert? ==> r.message == alert
    ensures r.Submit? ==> r.apiType == apiType && Keys(r.payload) == [key]
                          && Get(r.payload, key) == Some(JStr(Trim(value)))
  {
    if Trim(value) == "" then Alert(alert) else Submit([(key, JStr(Trim(value)))], apiType)
  }

  /** `handlePhoneSubmit` */
  function PhoneSubmit(phone: string): (r: Submission)
    ensures r.Submit? <==> !Blank(phone)
    ensures r.Alert? ==> r.message == PhoneAlert
    ensures r.Submit? ==> r == Submit([("phone", JStr(Trim(phone)))], "enrichmentByPhone")
  {
    SingleField(phone, "phone", "enrichmentByPhone", PhoneAlert)
  }

  /** `handleEmailSubmit` */
  function EmailSubmit(email: string): (r: Submission)
    ensures r.Submit? <==> !Blank(email)
    ensures r.Alert? ==> r.message == EmailAlert
    ensures r.Submit? ==> r == Submit([("email", JStr(Trim(email)))], "enrichmentByEmail")
  {
    SingleField(email, "email", "enrichmentByEmail", EmailAlert)
  }

  /** Whatever the phone form submits, the server forwards unchanged. */
  lemma PhoneFormReachesService(phone: string)
    requires PhoneSubmit(phone).Submit?
    ensures NufiService.EnrichmentByPhone(PhoneSubmit(phone).payload)
            == NufiService.Call("enrichment-phone", NufiService.PhonePath, [("telefono", JStr(Trim(phone)))])
  {
    TrimIdempotent(phone);
  }

  /** Whatever the e-mail form submits, the server forwards unchanged. */
  lemma EmailFormReachesService(email: string)
    requires EmailSubmit(email).Submit?
    ensures NufiService.EnrichmentByEmail(EmailSubmit(email).payload)
            == NufiService.Call("enrichment-email", NufiService.EmailPath, [("correo", JStr(Trim(email)))])
  {
    TrimIdempotent(email);
  }

  /** `...(value.trim() && { key: value.trim() })` */
  function Optional(key: string, value: string): (r: Fields)
    ensures Blank(value) ==> r == []
    ensures !Blank(value) ==> r == [(key, JStr(Trim(value)))]
    ensures forall q :: q in r <==> !Blank(value) && q == (key, JStr(Trim(value)))
  {
    if Trim(value) == "" then [] else [(key, JStr(Trim(value)))]
  }

  /** The name payload, field by field in form order. */
  function NamePayload(nombre: string, paterno: string, materno: string): Fields
  {
    Optional("nombre", nombre) + Optional("apellidoPaterno", paterno) + Optional("apellidoMaterno", materno)
  }

  /** The name payload holds exactly the non-blank fields, trimmed. */
  lemma NamePayloadHolds(nombre: string, paterno: string, materno: string, q: (string, Json))
    ensures q in NamePayload(nombre, paterno, materno) <==>
              (!Blank(nombre) && q == ("nombre", JStr(Trim(nombre))))
              || (!Blank(paterno) && q == ("apellidoPaterno", JStr(Trim(paterno))))
              || (!Blank(materno) && q == ("apellidoMaterno", JStr(Trim(materno))))
  {
    var a, b, c := Optional("nombre", nombre), Optional("apellidoPaterno", paterno), Optional("apellidoMaterno", materno);
    assert q in a + b + c <==> q in a || q in b || q in c;
  }

  /** `handleNameSubmit`: alerts when both the first name and the paternal
      surname are blank; otherwise submits the name payload. */
  function NameSubmit(nombre: string, paterno: string, materno: string): (r: Submission)
    ensures r.Alert? <==> Blank(nombre) && Blank(paterno)
    ensures r.Alert? ==> r.message == NameAlert
    ensures r.Submit? ==> r == Submit(NamePayload(nombre, paterno, materno), "enrichmentByName")
  {
    if Blank(nombre) && Blank(paterno) then Alert(NameAlert)
    else Submit(NamePayload(nombre, paterno, materno), "enrichmentByName")
  }

  // ---------------------------------------------------------------------------
  // The CURP-by-data form
  // ---------------------------------------------------------------------------

  /** The text fields of the CURP form (its `tipo_busqueda` is fixed). */
  datatype CurpForm = CurpForm(claveEntidad: string, diaNacimiento: string, mesNacimiento: string,
                               anioNacimiento: string, nombres: string, primerApellido: string,
                               segundoApellido: string, sexo: string)

  const FormRequired := ["clave_entidad", "dia_nacimiento", "mes_nacimiento", "anio_nacimiento",
                         "nombres", "primer_apellido", "sexo"]

  /** The required fields' values, in the order of FormRequired. */
  function RequiredValues(form: CurpForm): (vs: seq<string>)
    ensures |vs| == |FormRequired|
  {
    [form.claveEntidad, form.diaNacimiento, form.mesNacimiento, form.anioNacimiento,
     form.nombres, form.primerApellido, form.sexo]
  }

  /** `names.filter(name => !value(name).trim())`, with the values given
      alongside the names: whether each value is blank. */
  function MissingOf(names: seq<string>, blank: seq<bool>): (r: seq<string>)
    requires |names| == |blank|
    ensures r == [] <==> forall i :: 0 <= i < |names| ==> !blank[i]
    ensures forall i :: 0 <= i < |names| && blank[i] ==> names[i] in r
    ensures forall x :: x in r ==> x in names
  {
    if names == [] then []
    else
      var rest := MissingOf(names[1..], blank[1..]);
      assert forall i :: 1 <= i < |names| ==> names[1..][i - 1] == names[i] && blank[1..][i - 1] == blank[i];
      if blank[0] then [names[0]] + rest else rest
  }

  /** Which required fields are blank. */
  function BlankRequired(form: CurpForm): (b: seq<bool>)
    ensures |b| == |FormRequired|
    ensures forall i :: 0 <= i < |FormRequired| ==> b[i] == Blank(RequiredValues(form)[i])
  {
    var vs := RequiredValues(form);
    seq(|vs|, i requires 0 <= i < |vs| => Blank(vs[i]))
  }

  /** `(key, value.trim())` for each key and its value. */
  function TrimmedEntries(keys: seq<string>, values: seq<string>): (r: Fields)
    requires |keys| == |values|
    ensures |r| == |keys|
    ensures forall i :: 0 <= i < |keys| ==> r[i] == (keys[i], JStr(Trim(values[i])))
  {
    seq(|keys|, i requires 0 <= i < |keys| => (keys[i], JStr(Trim(values[i]))))
  }

  lemma TrimmedKeys(keys: seq<string>, values: seq<string>)
    requires |keys| == |values|
    ensures Keys(TrimmedEntries(keys, values)) == keys
  {
  }

  /** The payload's keys in order, with or without `segundo_apellido`. */
  function PayloadKeys(withSegundo: bool): seq<string>
  {
    (["tipo_busqueda"] + FormRequired[..6]) + ((if withSegundo then ["segundo_apellido"] else []) + ["sexo"])
  }

  /** Prepending one element shifts every index by one. */
  lemma ConsShifts<T>(x: T, s: seq<T>)
    ensures forall i :: 0 <= i < |s| ==> ([x] + s)[i + 1] == s[i]
  {
  }

  /** The payload of a complete form: `tipo_busqueda` 'datos', the required
      fields trimmed in form order, and `segundo_apellido` (before `sexo`)
      only when it is not blank. */
  function CurpPayload(form: CurpForm): (r: Fields)
    ensures |r| == (if Blank(form.segundoApellido) then 8 else 9)
    ensures r[0] == ("tipo_busqueda", JStr("datos"))
    ensures r[|r| - 1] == ("sexo", JStr(Trim(form.sexo)))
  {
    var vs := RequiredValues(form);
    [("tipo_busqueda", JStr("datos"))] + TrimmedEntries(FormRequired[..6], vs[..6])
    + (Optional("segundo_apellido", form.segundoApellido) + [("sexo", JStr(Trim(form.sexo)))])
  }

  /** Entries one to six of the payload are the first six required fields,
      trimmed, in form order. */
  lemma CurpPayloadFields(form: CurpForm)
    ensures forall i :: 0 <= i < 6 ==>
              CurpPayload(form)[i + 1] == (FormRequired[i], JStr(Trim(RequiredValues(form)[i])))
  {
    var vs := RequiredValues(form);
    var b := TrimmedEntries(FormRequired[..6], vs[..6]);
    var tail := Optional("segundo_apellido", form.segundoApellido) + [("sexo", JStr(Trim(form.sexo)))];
    var head := [("tipo_busqueda", JStr("datos"))] + b;
    assert CurpPayload(form) == head + tail;
    ConsShifts(("tipo_busqueda", JStr("datos")), b);
    forall i | 0 <= i < 6
      ensures CurpPayload(form)[i + 1] == (FormRequired[i], JStr(Trim(vs[i])))
    {
      assert (head + tail)[i + 1] == head[i + 1] == b[i];
      assert b[i] == (FormRequired[..6][i], JStr(Trim(vs[..6][i])));
    }
  }

  /** A filled-in second surname is the entry just before `sexo`. */
  lemma CurpPayloadSegundo(form: CurpForm)
    requires !Blank(form.segundoApellido)
    ensures CurpPayload(form)[7] == ("segundo_apellido", JStr(Trim(form.segundoApellido)))
  {
    var vs := RequiredValues(form);
    var c := Optional("segundo_apellido", form.segundoApellido);
    var head := [("tipo_busqueda", JStr("datos"))] + TrimmedEntries(FormRequired[..6], vs[..6]);
    var tail := c + [("sexo", JStr(Trim(form.sexo)))];
    assert c == [("segundo_apellido", JStr(Trim(form.segundoApellido)))];
    assert tail[0] == c[0];
    assert |head| == 7;
    AppendAt(head, tail, 7);
    assert CurpPayload(form) == head + tail;
  }

  /** Indexing past the first part of a concatenation indexes the second. */
  lemma AppendAt<T>(a: seq<T>, b: seq<T>, i: nat)
    requires |a| <= i < |a| + |b|
    ensures (a + b)[i] == b[i - |a|]
  {
  }

  /** The payload's keys are exactly the required names in form order, with
      `segundo_apellido` before `sexo` when it was filled in. */
  lemma CurpPayloadKeys(form: CurpForm)
    ensures Keys(CurpPayload(form)) == PayloadKeys(!Blank(form.segundoApellido))
  {
    var vs := RequiredValues(form);
    var a: Fields := [("tipo_busqueda", JStr("datos"))];
    var b := TrimmedEntries(FormRequired[..6], vs[..6]);
    var c := Optional("segundo_apellido", form.segundoApellido);
    var d: Fields := [("sexo", JStr(Trim(form.sexo)))];
    assert CurpPayload(form) == (a + b) + (c + d);
    TrimmedKeys(FormRequired[..6], vs[..6]);
    assert Keys(a) == ["tipo_busqueda"];
    assert Keys(d) == ["sexo"];
    assert Keys(c) == if Blank(form.segundoApellido) then [] else ["segundo_apellido"];
    KeysAppend(a, b);
    KeysAppend(c, d);
    KeysAppend(a + b, c + d);
  }

  /** `handleCurpSubmit`: alerts when any required field is blank, otherwise
      submits the payload as 'renapo'. */
  function CurpSubmit(form: CurpForm): (r: Submission)
    ensures r.Alert? <==> exists i :: 0 <= i < |FormRequired| && Blank(RequiredValues(form)[i])
    ensures r.Alert? ==> r.message == CurpAlert
    ensures r.Submit? ==> r == Submit(CurpPayload(form), "renapo")
  {
    if MissingOf(FormRequired, BlankRequired(form)) != [] then Alert(CurpAlert)
    else Submit(CurpPayload(form), "renapo")
  }

  /** The payload never carries a `curp`. */
  lemma CurpPayloadLacksCurp(form: CurpForm)
    ensures Get(CurpPayload(form), "curp") == None
  {
    var ks := PayloadKeys(!Blank(form.segundoApellido));
    assert FormRequired[..6] == ["clave_entidad", "dia_nacimiento", "mes_nacimiento", "anio_nacimiento",
                                 "nombres", "primer_apellido"];
    assert "curp" !in ks;
    CurpPayloadKeys(form);
    NotAKey(CurpPayload(form), "curp");
  }

  /** The CURP form always submits to RENAPO validation, which needs a
      `curp` the form never sends: every complete form is refused. */
  lemma CurpFormRefusedByRenapo(form: CurpForm)
    requires CurpSubmit(form).Submit?
    ensures NufiService.Renapo(CurpSubmit(form).payload) == NufiService.Rejected(NufiService.RenapoRequired)
  {
    CurpPayloadLacksCurp(form);
  }
}
