// The demo data generator: a 32-bit string hash of the searched value picks
// names, places and scores from fixed lists, so the same search always gets
// the same made-up answer. The timestamp is a parameter.
module MockNufi {
  import opened Js
  import NufiService

  // ---------------------------------------------------------------------------
  // The string hash
  // ---------------------------------------------------------------------------

  const TwoTo31: int := 0x8000_0000
  const TwoTo32: int := 0x1_0000_0000

  /** JavaScript's ToInt32: the 32-bit two's-complement value congruent to x. */
  function ToInt32(x: int): (r: int)
    ensures -TwoTo31 <= r < TwoTo31
    ensures (x - r) % TwoTo32 == 0
    ensures -TwoTo31 <= x < TwoTo31 ==> r == x
  {
    var m := x % TwoTo32;
    if m >= TwoTo31 then m - TwoTo32 else m
  }

  /** Congruent numbers have the same 32-bit value. */
  lemma ToInt32Congruent(x: int, y: int)
    requires (x - y) % TwoTo32 == 0
    ensures ToInt32(x) == ToInt32(y)
  {
    var q := (x - y) / TwoTo32;
    assert x == y + q * TwoTo32;
    assert x % TwoTo32 == y % TwoTo32;
  }

  /** A multiple of 2^32 stays one when multiplied by 31. */
  lemma TimesStaysMultiple(a: int)
    requires a % TwoTo32 == 0
    ensures (31 * a) % TwoTo32 == 0
  {
    var q := a / TwoTo32;
    assert a == q * TwoTo32;
    assert 31 * a == (31 * q) * TwoTo32;
  }

  /** One step of the loop: `hash = ((hash << 5) - hash) + char`, then
      `hash & hash`; the shift works on 32 bits, the subtraction and the
      addition on doubles (exact at these sizes). */
  function HashStep(hash: int, c: char): int
  {
    ToInt32(ToInt32(hash * 32) - hash + (c as int))
  }

  /** Each step is the 32-bit truncation of 31 * hash + the character code. */
  lemma HashStepWraps(hash: int, c: char)
    ensures HashStep(hash, c) == ToInt32(31 * hash + (c as int))
  {
    var shifted := ToInt32(hash * 32);
    assert (hash * 32 - shifted) % TwoTo32 == 0;
    var d := (hash * 32 - shifted) / TwoTo32;
    assert hash * 32 - shifted == d * TwoTo32;
    assert (shifted - hash + (c as int)) - (31 * hash + (c as int)) == (-d) * TwoTo32;
    ToInt32Congruent(shifted - hash + (c as int), 31 * hash + (c as int));
  }

  /** The signed hash after the whole string. */
  function Hash32(s: string): (r: int)
    ensures -TwoTo31 <= r < TwoTo31
  {
    if s == [] then 0 else HashStep(Hash32(s[..|s| - 1]), s[|s| - 1])
  }

  /** The polynomial the hash approximates: sum of code(s[i]) * 31^(n-1-i). */
  function Poly(s: string): int
  {
    if s == [] then 0 else 31 * Poly(s[..|s| - 1]) + (s[|s| - 1] as int)
  }

  /** The hash is the polynomial, wrapped to 32 bits once at the end. */
  lemma {:induction false} HashIsPolynomial(s: string)
    ensures Hash32(s) == ToInt32(Poly(s))
  {
    if s != [] {
      var p, c := s[..|s| - 1], s[|s| - 1];
      HashIsPolynomial(p);
      HashStepWraps(Hash32(p), c);
      assert (Poly(p) - Hash32(p)) % TwoTo32 == 0;
      TimesStaysMultiple(Poly(p) - Hash32(p));
      assert Poly(s) - (31 * Hash32(p) + (c as int)) == 31 * (Poly(p) - Hash32(p));
      ToInt32Congruent(Poly(s), 31 * Hash32(p) + (c as int));
    }
  }

  function Abs(x: int): (r: nat)
    ensures r == x || r == -x
  {
    if x < 0 then -x else x
  }

  /** `hashString(str)`: the absolute value of the signed hash, so at most
      2^31 (reached by -2^31, which has no positive int32 counterpart). */
  function HashOf(s: string): (r: nat)
    ensures r <= TwoTo31
    ensures s == [] ==> r == 0
  {
    Abs(Hash32(s))
  }

  /** `hashString` as the loop it is. */
  method HashString(str: string) returns (h: nat)
    ensures h == HashOf(str)
    ensures h <= TwoTo31
  {
    var hash := 0;
    var i := 0;
    while i < |str|
      invariant 0 <= i <= |str|
      invariant hash == Hash32(str[..i])
    {
      assert str[..i + 1][..i] == str[..i];
      var shifted := ToInt32(hash * 32);
      hash := shifted - hash + (str[i] as int);
      hash := ToInt32(hash);
      i := i + 1;
    }
    assert str[..|str|] == str;
    h := if hash < 0 then -hash else hash;
  }

  // ---------------------------------------------------------------------------
  // Picks and thresholds
  // ---------------------------------------------------------------------------

  /** `xs[(hash * k) % xs.length]`: always an element of the list. */
  function Pick(xs: seq<string>, hash: nat, k: nat): (r: string)
    requires |xs| > 0
    ensures r in xs
  {
    xs[(hash * k) % |xs|]
  }

  /** `hash % 100` */
  function RiskScore(hash: nat): (r: nat)
    ensures r < 100
  {
    hash % 100
  }

  const RiskLevels := ["Very Low", "Low", "Medium", "High", "Very High"]

  /** The e-mail profile's level: a chain of thresholds at 20, 40, 60, 80. */
  function RiskLevel(score: nat): (r: string)
    ensures score < 100 ==> r == RiskLevels[score / 20]
  {
    if score < 20 then "Very Low"
    else if score < 40 then "Low"
    else if score < 60 then "Medium"
    else if score < 80 then "High"
    else "Very High"
  }

  /** The phone profile's level: the same thresholds into the level list. */
  function PhoneRiskLevel(score: nat): (r: string)
    ensures r in RiskLevels
  {
    if score < 20 then RiskLevels[0]
    else if score < 40 then RiskLevels[1]
    else if score < 60 then RiskLevels[2]
    else if score < 80 then RiskLevels[3]
    else RiskLevels[4]
  }

  /** Both profiles grade a score alike. */
  lemma SameRiskScale(score: nat)
    ensures PhoneRiskLevel(score) == RiskLevel(score)
  {
  }

  /** A higher score never has a lower level. */
  lemma RiskLevelMonotone(a: nat, b: nat)
    requires a <= b < 100
    ensures exists i, j :: 0 <= i <= j < |RiskLevels| && RiskLevels[i] == RiskLevel(a) && RiskLevels[j] == RiskLevel(b)
  {
    assert a / 20 <= b / 20;
    assert RiskLevels[a / 20] == RiskLevel(a) && RiskLevels[b / 20] == RiskLevel(b);
  }

  /** `hash % 3 === 0 ? 'Mobile' : hash % 3 === 1 ? 'Mobile' : 'Landline'` */
  function LineType(hash: nat): (r: string)
    ensures r == "Landline" <==> hash % 3 == 2
    ensures r == "Mobile" <==> hash % 3 != 2
  {
    if hash % 3 == 0 then "Mobile" else if hash % 3 == 1 then "Mobile" else "Landline"
  }

  /** `String(n).padStart(width, '0')` */
  function PadStart(s: string, width: nat): (r: string)
    ensures |r| == if |s| >= width then |s| else width
    ensures r[|r| - |s|..] == s
    ensures forall i :: 0 <= i < |r| - |s| ==> r[i] == '0'
  {
    if |s| >= width then s else seq(width - |s|, _ => '0') + s
  }

  function Pad2(n: nat): string
  {
    PadStart(IntToString(n), 2)
  }

  /** `JavaScript's `s.substring(0, n)` */
  function Prefix(s: string, n: nat): (r: string)
    ensures |r| <= n && r <= s
  {
    if |s| <= n then s else s[..n]
  }

  /** `v || d` used as text: the value's text when truthy, otherwise d. */
  function TextOr(v: Val, d: string): string
  {
    if Truthy(v) then JsString(v.value) else d
  }

  /** `hashString(v || '')` on a request parameter: a string is hashed; any
      other value has no `length`, so the loop does not run and the hash is 0. */
  function HashParam(v: Val): nat
  {
    if v.Some? && v.value.JStr? then HashOf(v.value.s) else 0
  }

  /** `email?.split('@')[i] || d` for a string or missing e-mail. */
  function EmailPart(email: Val, i: nat, d: string): string
  {
    if email.Some? && email.value.JStr? then
      var parts := Split(email.value.s, '@');
      if i < |parts| && parts[i] != "" then parts[i] else d
    else d
  }

  /** `xs.slice(0, n)` */
  function Take(xs: seq<string>, n: nat): (r: seq<string>)
    ensures |r| == if |xs| <= n then |xs| else n
    ensures r <= xs
  {
    if |xs| <= n then xs else xs[..n]
  }

  // ---------------------------------------------------------------------------
  // The blacklist check
  // ---------------------------------------------------------------------------

  /** About one name in twenty is listed. */
  predicate Listed(hash: nat)
  {
    hash % 20 == 0
  }

  const BlacklistLevels := ["None", "Low", "Medium", "High", "Critical"]

  /** `isListed ? levels[1 + (hash % 4)] : 'None'`, as written. */
  function BlacklistRiskAsWritten(hash: nat): (r: string)
    ensures !Listed(hash) ==> r == "None"
    ensures Listed(hash) ==> r in BlacklistLevels[1..]
  {
    if Listed(hash) then BlacklistLevels[1 + hash % 4] else "None"
  }

  /** Being listed fixes hash % 4 at 0, so a listed name is always "Low". */
  lemma ListedIsAlwaysLow(hash: nat)
    requires Listed(hash)
    ensures BlacklistRiskAsWritten(hash) == "Low"
  {
    var q := hash / 20;
    assert hash == 4 * (5 * q);
  }

  /** The level drawn from the part of the hash the listing test leaves free. */
  function BlacklistRisk(hash: nat): (r: string)
    ensures !Listed(hash) ==> r == "None"
    ensures Listed(hash) ==> r in BlacklistLevels[1..]
  {
    if Listed(hash) then BlacklistLevels[1 + (hash / 20) % 4] else "None"
  }

  /** Every level from Low to Critical is given to some listed name. */
  lemma EveryListedLevelOccurs(j: nat)
    requires j < 4
    ensures Listed(20 * j) && BlacklistRisk(20 * j) == BlacklistLevels[1 + j]
  {
    assert (20 * j) / 20 == j;
  }

  datatype MatchDetails = MatchDetails(listName: string, matchScore: nat, additionalInfo: string)

  /** The details of a listing, null for a name that is not listed. */
  function MatchDetailsFor(hash: nat): (r: Option<MatchDetails>)
    ensures r.Some? <==> Listed(hash)
    ensures r.Some? ==> 75 <= r.value.matchScore <= 99
  {
    if Listed(hash) then
      Some(MatchDetails("PEP - Politically Exposed Persons", 75 + hash % 25,
                        "Possible public official or politically exposed person"))
    else None
  }

  // ---------------------------------------------------------------------------
  // The answers, endpoint by endpoint
  // ---------------------------------------------------------------------------

  datatype MatchEntry = MatchEntry(name: string, email: string, phone: string, location: string)

  /** What `mockData` holds for each endpoint. */
  datatype MockData =
    | PhoneEnrichment(phone: Val, name: string, guessedEmail: string, alternativePhones: seq<string>,
                      facebook: string, linkedin: string, twitter: string,
                      location: string, carrier: string, lineType: string)
    | EmailEnrichment(email: Val, name: string, guessedPhone: string, linkedin: string, twitter: string,
                      emailValid: bool, domain: string, companyName: string)
    | NameEnrichment(fullName: string, possibleMatches: seq<MatchEntry>, totalMatches: nat)
    | PhoneProfiling(phone: Val, riskScore: nat, riskLevel: string, carrier: string, lineType: string,
                     isActive: bool, registrationDate: string, associatedServices: seq<string>,
                     state: string, city: string, timezone: string,
                     likelyAge: string, likelyGender: string, activityLevel: string)
    | EmailProfiling(email: Val, riskScore: nat, riskLevel: string, emailValid: bool, domainAge: string,
                     isBusinessEmail: bool, breachHistory: bool, associatedAccounts: seq<string>,
                     professionalLevel: string, industry: string, activityLevel: string)
    | CurpValidation(curp: Val, isValid: bool, registeredInRenapo: bool, name: string,
                     paternalSurname: string, maternalSurname: string, birthDate: string,
                     birthState: string, gender: string, validationDate: string, status: string)
    | Enrichment(rfc: Val, curp: Val, fullName: string, birthDate: string, birthState: string,
                 street: string, neighborhood: string, city: string, state: string, zipCode: string,
                 taxStatus: string, registrationDate: string)
    | Blacklist(name: string, isListed: bool, listsChecked: seq<string>, checkDate: string,
                riskLevel: string, notes: string, matchDetails: Option<MatchDetails>)
    | NotConfigured(message: string)

  const FirstNames := ["Juan", "María", "Carlos", "Ana", "Luis", "Carmen", "José", "Laura", "Miguel", "Rosa",
                       "Pedro", "Elena", "Antonio", "Isabel", "Francisco"]
  const LastNames := ["García", "Hernández", "Rodríguez", "Martínez", "Sánchez", "López", "González", "Pérez",
                      "Fernández", "Torres", "Ramírez", "Flores", "Rivera", "Gómez", "Díaz"]
  const SecondLastNames := ["López", "Pérez", "Martínez", "Gómez", "Torres", "Silva", "Cruz", "Reyes", "Morales",
                            "Ortiz", "Vargas", "Castro", "Ramos", "Méndez", "Ruiz"]
  const Locations := ["Ciudad de México, CDMX", "Guadalajara, JAL", "Monterrey, NL", "Puebla, PUE",
                      "Querétaro, QRO", "León, GTO", "Toluca, MEX", "Tijuana, BC", "Mérida, YUC", "Cancún, QR"]
  const Carriers := ["Telcel", "Movistar", "AT&T", "Virgin Mobile", "Unefon"]
  const Domains := ["gmail.com", "hotmail.com", "yahoo.com.mx", "outlook.com", "icloud.com", "prodigy.net.mx"]

  /** `enrichment-phone` for the searched phone value. */
  function PhoneEnrichmentData(phone: Val): (r: MockData)
    ensures r.PhoneEnrichment? && r.phone == phone
    ensures r.lineType == "Landline" <==> HashParam(phone) % 3 == 2
  {
    var h := HashParam(phone);
    var first, last, second := Pick(FirstNames, h, 1), Pick(LastNames, h, 3), Pick(SecondLastNames, h, 7);
    var f, l := ToLower(first), ToLower(last);
    PhoneEnrichment(
      phone,
      first + " " + last + " " + second,
      f + "." + l + IntToString(h % 999) + "@" + Pick(Domains, h, 1),
      ["+5255" + IntToString(10000000 + h % 90000000), "+5233" + IntToString(10000000 + (h * 7) % 90000000)],
      "https://facebook.com/" + f + "." + l + "." + IntToString(h % 999),
      "https://linkedin.com/in/" + f + "-" + l + "-" + IntToString(h % 9999),
      "@" + f + Prefix(l, 3) + IntToString(h % 999),
      Pick(Locations, h, 1),
      Pick(Carriers, h, 1),
      LineType(h))
  }

  const EmailNames := ["María Hernández Pérez", "Roberto González Silva", "Laura Martínez Cruz",
                       "Pedro Ramírez López", "Sofia Torres Reyes"]
  const Companies := ["Tech Solutions MX", "Innovación Digital SA", "Grupo Empresarial Norte",
                      "Servicios Profesionales del Sur", "Consultoría Integral"]

  /** `enrichment-email` for the searched e-mail value. */
  function EmailEnrichmentData(email: Val): (r: MockData)
    ensures r.EmailEnrichment? && r.email == email
    ensures r.emailValid <==> HashParam(email) % 10 > 1
  {
    var h := HashParam(email);
    EmailEnrichment(
      email,
      Pick(EmailNames, h, 1),
      "+5255" + IntToString(10000000 + h % 90000000),
      "https://linkedin.com/in/" + EmailPart(email, 0, "user"),
      "@" + EmailPart(email, 0, "user"),
      h % 10 > 1,
      EmailPart(email, 1, "example.com"),
      Pick(Companies, h, 1))
  }

  /** `enrichment-name`: the name echoed back with two fixed matches. */
  function NameEnrichmentData(nombre: Val, paterno: Val, materno: Val): (r: MockData)
    ensures r.NameEnrichment? && r.totalMatches == |r.possibleMatches| == 2
    ensures forall i :: 0 <= i < 2 ==> r.possibleMatches[i].name == ValString(nombre) + " " + ValString(paterno)
  {
    var name := ValString(nombre) + " " + ValString(paterno);
    NameEnrichment(
      Trim(ValString(nombre) + " " + ValString(paterno) + " " + TextOr(materno, "")),
      [MatchEntry(name, "contact@example.com", "+525512345678", "Guadalajara, JAL"),
       MatchEntry(name, "professional@example.mx", "+525587654321", "Monterrey, NL")],
      2)
  }

  const ProfilingStates := ["CDMX", "JAL", "NL", "PUE", "QRO", "GTO", "MEX"]
  const ProfilingCities := ["Ciudad de México", "Guadalajara", "Monterrey", "Puebla", "Querétaro", "León", "Toluca"]
  const AgeRanges := ["18-25", "25-35", "35-45", "45-55", "55+"]
  const ProfilingCarriers := ["Telcel", "Movistar", "AT&T", "Virgin Mobile"]
  const Services := ["WhatsApp", "Banking Apps", "Social Media"]

  /** `profiling-phone` for the searched phone value. */
  function PhoneProfilingData(phone: Val): (r: MockData)
    ensures r.PhoneProfiling? && r.phone == phone
    ensures r.riskScore == HashParam(phone) % 100 && r.riskLevel == RiskLevels[r.riskScore / 20]
    ensures r.lineType == "Mobile" && 1 <= |r.associatedServices| <= 3
  {
    var h := HashParam(phone);
    var score := RiskScore(h);
    SameRiskScale(score);
    var services := Take(Services, h % 3 + 1);
    PhoneProfiling(
      phone, score, PhoneRiskLevel(score), Pick(ProfilingCarriers, h, 1), "Mobile",
      h % 10 > 1,
      "20" + IntToString(10 + h % 15) + "-" + Pad2(h % 12 + 1) + "-" + Pad2(h % 28 + 1),
      services,
      Pick(ProfilingStates, h, 1), Pick(ProfilingCities, h, 1), "America/Mexico_City",
      Pick(AgeRanges, h, 1), if h % 2 == 0 then "Male" else "Female", Pick(RiskLevels, h, 1))
  }

  const Industries := ["Technology", "Finance", "Healthcare", "Education", "Manufacturing", "Retail", "Services"]
  const ProfessionalLevels := ["Entry", "Junior", "Mid-Level", "Mid-Senior", "Senior", "Executive"]
  const Accounts := ["LinkedIn", "GitHub", "Professional Networks"]

  /** `email?.includes(word)` is truthy. */
  predicate EmailMentions(email: Val, word: string)
  {
    email.Some? && email.value.JStr? && Contains(email.value.s, word)
  }

  /** `profiling-email` for the searched e-mail value. */
  function EmailProfilingData(email: Val): (r: MockData)
    ensures r.EmailProfiling? && r.email == email
    ensures r.riskScore == HashParam(email) % 100 && r.riskLevel == RiskLevels[r.riskScore / 20]
    ensures r.isBusinessEmail <==>
              EmailMentions(email, "company") || EmailMentions(email, "corp") || HashParam(email) % 3 == 0
  {
    var h := HashParam(email);
    var score := RiskScore(h);
    EmailProfiling(
      email, score, RiskLevel(score), h % 10 > 1,
      IntToString(h % 15 + 1) + " years",
      EmailMentions(email, "company") || EmailMentions(email, "corp") || h % 3 == 0,
      h % 5 == 0,
      Take(Accounts, h % 3 + 1),
      Pick(ProfessionalLevels, h, 1), Pick(Industries, h, 1), Pick(RiskLevels, h, 1))
  }

  const Genders := ["HOMBRE", "MUJER"]
  const BirthStates := ["CIUDAD DE MEXICO", "JALISCO", "NUEVO LEON", "PUEBLA", "QUERETARO", "GUANAJUATO", "MEXICO"]
  const RenapoFirstNames := ["JUAN", "MARIA", "CARLOS", "ANA", "LUIS", "LAURA", "PEDRO", "SOFIA"]
  const RenapoPaternal := ["GARCIA", "HERNANDEZ", "RODRIGUEZ", "MARTINEZ", "LOPEZ", "GONZALEZ", "SANCHEZ"]
  const RenapoMaternal := ["LOPEZ", "PEREZ", "SILVA", "CRUZ", "GOMEZ", "TORRES", "REYES"]

  /** `renapo-curp` for the searched CURP. */
  function CurpValidationData(curp: Val, timestamp: string): (r: MockData)
    ensures r.CurpValidation? && r.curp == curp && r.validationDate == timestamp
    ensures r.registeredInRenapo ==> r.isValid
    ensures r.status == (if r.registeredInRenapo then "ACTIVO" else "INACTIVO")
  {
    var h := HashParam(curp);
    CurpValidation(
      curp, h % 10 > 1, h % 10 > 2,
      Pick(RenapoFirstNames, h, 1), Pick(RenapoPaternal, h, 1), Pick(RenapoMaternal, h, 3),
      "19" + IntToString(60 + h % 40) + "-" + Pad2(h % 12 + 1) + "-" + Pad2(h % 28 + 1),
      Pick(BirthStates, h, 1), Pick(Genders, h, 1), timestamp,
      if h % 10 > 2 then "ACTIVO" else "INACTIVO")
  }

  const EnrichmentStates := ["CIUDAD DE MEXICO", "JALISCO", "NUEVO LEON", "PUEBLA", "QUERETARO"]
  const Neighborhoods := ["JUAREZ", "POLANCO", "ROMA", "CONDESA", "CENTRO"]
  const Streets := ["AV REFORMA", "INSURGENTES", "PASEO DE LA REFORMA", "AV UNIVERSIDAD", "REVOLUCION"]
  const EnrichmentCities := ["Ciudad de México", "Guadalajara", "Monterrey", "Puebla", "Querétaro"]
  const StateAbbreviations := ["CDMX", "JAL", "NL", "PUE", "QRO"]
  const EnrichmentFirstNames := ["JUAN", "MARIA", "CARLOS", "ANA", "LUIS"]
  const EnrichmentPaternal := ["GARCIA", "HERNANDEZ", "RODRIGUEZ", "MARTINEZ", "LOPEZ"]
  const EnrichmentMaternal := ["LOPEZ", "PEREZ", "SILVA", "CRUZ", "GOMEZ"]

  /** `enrichment`: the searched RFC, CURP and name are echoed when given and
      made up from the hash otherwise. */
  function EnrichmentData(rfc: Val, curp: Val, nombre: Val, paterno: Val, materno: Val): (r: MockData)
    ensures r.Enrichment?
    ensures Truthy(rfc) ==> r.rfc == rfc
    ensures Truthy(curp) ==> r.curp == curp
    ensures r.rfc.Some? && r.curp.Some?
    ensures |r.zipCode| == 5
  {
    var h := HashOf(TextOr(Or(rfc, Or(curp, nombre)), ""));
    Enrichment(
      if Truthy(rfc) then rfc else Some(JStr("GAL" + IntToString(900000 + h % 100000) + "ABC")),
      if Truthy(curp) then curp else Some(JStr("GALO900115HDFRRN" + Pad2(h % 100))),
      if Truthy(nombre) then ToUpper(JsString(nombre.value) + " " + TextOr(paterno, "") + " " + TextOr(materno, ""))
      else Pick(EnrichmentFirstNames, h, 1) + " " + Pick(EnrichmentPaternal, h, 1) + " " + Pick(EnrichmentMaternal, h, 1),
      "19" + IntToString(60 + h % 40) + "-" + Pad2(h % 12 + 1) + "-" + Pad2(h % 28 + 1),
      Pick(EnrichmentStates, h, 1),
      Pick(Streets, h, 1) + " " + IntToString(100 + h % 900),
      Pick(Neighborhoods, h, 1), Pick(EnrichmentCities, h, 1), Pick(StateAbbreviations, h, 1),
      ZipCode(h),
      if h % 10 > 2 then "ACTIVO" else "INACTIVO",
      "20" + Pad2(h % 15) + "-" + Pad2(h % 12 + 1) + "-" + Pad2(h % 28 + 1))
  }

  /** `String(6000 + hash % 4000).padStart(5, '0')`: always five digits. */
  function ZipCode(hash: nat): (r: string)
    ensures |r| == 5
  {
    var n := 6000 + hash % 4000;
    FourDigits(n);
    PadStart(IntToString(n), 5)
  }

  /** A number from 1000 to 9999 has four digits. */
  lemma FourDigits(n: nat)
    requires 1000 <= n < 10000
    ensures |IntToString(n)| == 4
  {
    NatToStringLength(n);
    NatToStringLength(n / 10);
    NatToStringLength(n / 100);
    NatToStringLength(n / 1000);
  }

  lemma NatToStringLength(n: nat)
    ensures |NatToString(n)| == if n < 10 then 1 else |NatToString(n / 10)| + 1
  {
  }

  const ListsChecked := ["OFAC - Office of Foreign Assets Control", "UN Sanctions List", "EU Sanctions List",
                         "Interpol Wanted List", "PEP - Politically Exposed Persons"]

  /** Which generator: the source as written, or with the two corrections
      listed under Findings (the search keys the service actually sends,
      and the listed level drawn from the free part of the hash). */
  datatype Reading = AsWritten | Corrected

  /** The level a name with hash `h` gets under each reading. */
  function LevelFor(h: nat, reading: Reading): (r: string)
    ensures reading == AsWritten ==> r == BlacklistRiskAsWritten(h)
    ensures reading == Corrected ==> r == BlacklistRisk(h)
  {
    if reading == AsWritten then BlacklistRiskAsWritten(h) else BlacklistRisk(h)
  }

  /** `blacklist` for the searched name. */
  function BlacklistData(nombre: Val, paterno: Val, timestamp: string, reading: Reading): (r: MockData)
    ensures r.Blacklist? && r.checkDate == timestamp && r.listsChecked == ListsChecked
    ensures var h := HashOf(TextOr(nombre, "") + TextOr(paterno, ""));
            (r.isListed <==> Listed(h)) && r.riskLevel == LevelFor(h, reading) && r.matchDetails == MatchDetailsFor(h)
    ensures !r.isListed ==> r.riskLevel == "None" && r.matchDetails.None?
    ensures r.isListed ==> r.riskLevel in BlacklistLevels[1..] && r.matchDetails.Some?
  {
    var h := HashOf(TextOr(nombre, "") + TextOr(paterno, ""));
    Blacklist(
      TextOr(nombre, "Unknown") + " " + TextOr(paterno, ""),
      Listed(h), ListsChecked, timestamp, LevelFor(h, reading),
      if Listed(h) then "Potential match found - requires manual verification"
      else "No matches found in international sanctions or watchlists",
      MatchDetailsFor(h))
  }

  // ---------------------------------------------------------------------------
  // The envelope
  // ---------------------------------------------------------------------------

  const NotConfiguredMessage := "Mock data not configured for this endpoint"
  const DemoNote := "This is simulated data for testing purposes"

  /** The endpoints the generator knows. */
  const MockEndpoints := ["enrichment-phone", "enrichment-email", "enrichment-name", "profiling-phone",
                          "profiling-email", "renapo-curp", "enrichment", "blacklist"]

  datatype MockResponse = MockResponse(success: bool, data: MockData, timestamp: string, endpoint: string,
                                       paramsUsed: seq<string>, mode: string, note: string)

  /** The searched phone: the service sends it as `telefono`; `phone` as well
      for a caller that passes the form's own key. */
  function PhoneInput(params: Fields): Val
  {
    Or(Get(params, "telefono"), Get(params, "phone"))
  }

  /** The searched e-mail: `correo`, or `email`. */
  function EmailInput(params: Fields): Val
  {
    Or(Get(params, "correo"), Get(params, "email"))
  }

  /** What the generator reads as written: only `phone`. */
  function PhoneInputAsWritten(params: Fields): Val
  {
    Get(params, "phone")
  }

  /** Only `email`. */
  function EmailInputAsWritten(params: Fields): Val
  {
    Get(params, "email")
  }

  /** The searched phone under each reading. */
  function PhoneFor(params: Fields, reading: Reading): (r: Val)
    ensures reading == AsWritten ==> r == Get(params, "phone")
    ensures reading == Corrected ==> r == Or(Get(params, "telefono"), Get(params, "phone"))
  {
    if reading == AsWritten then PhoneInputAsWritten(params) else PhoneInput(params)
  }

  /** The searched e-mail under each reading. */
  function EmailFor(params: Fields, reading: Reading): (r: Val)
    ensures reading == AsWritten ==> r == Get(params, "email")
    ensures reading == Corrected ==> r == Or(Get(params, "correo"), Get(params, "email"))
  {
    if reading == AsWritten then EmailInputAsWritten(params) else EmailInput(params)
  }

  /** The data block for an endpoint (the `switch` of `generateMockResponse`). */
  function DataFor(endpoint: string, params: Fields, timestamp: string, reading: Reading): (r: MockData)
    ensures r.NotConfigured? <==> endpoint !in MockEndpoints
    ensures r.NotConfigured? ==> r.message == NotConfiguredMessage
  {
    if endpoint == "enrichment-phone" then PhoneEnrichmentData(PhoneFor(params, reading))
    else if endpoint == "enrichment-email" then EmailEnrichmentData(EmailFor(params, reading))
    else if endpoint == "enrichment-name" then
      NameEnrichmentData(Get(params, "nombre"), Get(params, "apellidoPaterno"), Get(params, "apellidoMaterno"))
    else if endpoint == "profiling-phone" then PhoneProfilingData(PhoneFor(params, reading))
    else if endpoint == "profiling-email" then EmailProfilingData(EmailFor(params, reading))
    else if endpoint == "renapo-curp" then CurpValidationData(Get(params, "curp"), timestamp)
    else if endpoint == "enrichment" then
      EnrichmentData(Get(params, "rfc"), Get(params, "curp"), Get(params, "nombre"),
                     Get(params, "apellidoPaterno"), Get(params, "apellidoMaterno"))
    else if endpoint == "blacklist" then BlacklistData(Get(params, "nombre"), Get(params, "apellidoPaterno"), timestamp, reading)
    else NotConfigured(NotConfiguredMessage)
  }

  /** `generateMockResponse` as written: always a success in demo mode,
      listing the parameter names it was given. */
  function GenerateMockResponse(endpoint: string, params: Fields, timestamp: string): (r: MockResponse)
    ensures r.success && r.mode == "DEMO_MODE" && r.note == DemoNote
    ensures r.endpoint == endpoint && r.timestamp == timestamp && r.paramsUsed == Keys(params)
    ensures r.data == DataFor(endpoint, params, timestamp, AsWritten)
    ensures r.data.NotConfigured? <==> endpoint !in MockEndpoints
  {
    MockResponse(true, DataFor(endpoint, params, timestamp, AsWritten), timestamp, endpoint, Keys(params), "DEMO_MODE", DemoNote)
  }

  /** The same envelope around the corrected data. */
  function CorrectedMockResponse(endpoint: string, params: Fields, timestamp: string): (r: MockResponse)
    ensures r.success && r.mode == "DEMO_MODE" && r.note == DemoNote
    ensures r.endpoint == endpoint && r.timestamp == timestamp && r.paramsUsed == Keys(params)
    ensures r.data == DataFor(endpoint, params, timestamp, Corrected)
    ensures r.data.NotConfigured? <==> endpoint !in MockEndpoints
  {
    MockResponse(true, DataFor(endpoint, params, timestamp, Corrected), timestamp, endpoint, Keys(params), "DEMO_MODE", DemoNote)
  }

  /** The two generators differ only where the corrections apply: every
      endpoint other than the phone, e-mail and blacklist ones gets the same data. */
  lemma {:induction false} CorrectionsAreLocal(endpoint: string, params: Fields, timestamp: string)
    requires endpoint !in ["enrichment-phone", "enrichment-email", "profiling-phone", "profiling-email", "blacklist"]
    ensures CorrectedMockResponse(endpoint, params, timestamp) == GenerateMockResponse(endpoint, params, timestamp)
  {
    assert DataFor(endpoint, params, timestamp, Corrected) == DataFor(endpoint, params, timestamp, AsWritten);
  }

  // ---------------------------------------------------------------------------
  // The generator behind the service's demo mode
  // ---------------------------------------------------------------------------

  /** CURP calculation has no demo data: in demo mode it always answers
      the not-configured message. */
  lemma CurpCalculationHasNoDemoData(params: Fields, timestamp: string)
    requires NufiService.CurpCalculation(params).Call?
    ensures var c := NufiService.CurpCalculation(params);
            GenerateMockResponse(c.endpoint, c.params, timestamp).data == NotConfigured(NotConfiguredMessage)
  {
  }

  /** Demo data for a phone search is built from the `phone` parameter as
      written, and from `telefono` (else `phone`) once corrected. */
  lemma DemoPhoneData(params: Fields, timestamp: string)
    ensures GenerateMockResponse("enrichment-phone", params, timestamp).data == PhoneEnrichmentData(Get(params, "phone"))
    ensures CorrectedMockResponse("enrichment-phone", params, timestamp).data
         == PhoneEnrichmentData(Or(Get(params, "telefono"), Get(params, "phone")))
  {
  }

  /** Demo data for an e-mail search is built from `email` as written, and
      from `correo` (else `email`) once corrected. */
  lemma DemoEmailData(params: Fields, timestamp: string)
    ensures GenerateMockResponse("enrichment-email", params, timestamp).data == EmailEnrichmentData(Get(params, "email"))
    ensures CorrectedMockResponse("enrichment-email", params, timestamp).data
         == EmailEnrichmentData(Or(Get(params, "correo"), Get(params, "email")))
  {
  }

  /** As written, every listed name in the blacklist answer is "Low". */
  lemma BlacklistAnswerAlwaysLow(params: Fields, timestamp: string)
    ensures var r := GenerateMockResponse("blacklist", params, timestamp).data;
            r.Blacklist? && (r.isListed ==> r.riskLevel == "Low")
  {
    DataForBlacklist(params, timestamp, AsWritten);
    var h := HashOf(TextOr(Get(params, "nombre"), "") + TextOr(Get(params, "apellidoPaterno"), ""));
    if Listed(h) {
      ListedIsAlwaysLow(h);
    }
  }

  /** Once corrected, a listed name's level comes from the hash divided by 20. */
  lemma BlacklistAnswerCorrected(params: Fields, timestamp: string)
    ensures var h := HashOf(TextOr(Get(params, "nombre"), "") + TextOr(Get(params, "apellidoPaterno"), ""));
            var r := CorrectedMockResponse("blacklist", params, timestamp).data;
            r.Blacklist? && (r.isListed ==> r.riskLevel == BlacklistLevels[1 + (h / 20) % 4])
  {
    DataForBlacklist(params, timestamp, Corrected);
  }

  /** The blacklist endpoint gets the blacklist block. */
  lemma DataForBlacklist(params: Fields, timestamp: string, reading: Reading)
    ensures DataFor("blacklist", params, timestamp, reading)
         == BlacklistData(Get(params, "nombre"), Get(params, "apellidoPaterno"), timestamp, reading)
  {
  }

  /** As written, the generator looks for `phone` in what the service sends,
      which only has `telefono`: every phone search hashes the empty string
      and gets the same data. */
  lemma AsWrittenPhoneDemoIgnoresInput(params: Fields, timestamp: string)
    requires NufiService.EnrichmentByPhone(params).Call?
    ensures var c := NufiService.EnrichmentByPhone(params);
            PhoneInputAsWritten(c.params).None?
            && GenerateMockResponse(c.endpoint, c.params, timestamp).data == PhoneEnrichmentData(None)
  {
    var c := NufiService.EnrichmentByPhone(params);
    OnlyKey(c.params, "telefono", "phone");
  }

  /** Reading `telefono`, the demo data echoes and hashes the searched phone. */
  lemma PhoneDemoEchoesInput(params: Fields, timestamp: string)
    requires NufiService.EnrichmentByPhone(params).Call?
    ensures var c := NufiService.EnrichmentByPhone(params);
            c.endpoint == "enrichment-phone"
            && PhoneInput(c.params) == Some(JStr(Trim(Get(params, "phone").value.s)))
            && CorrectedMockResponse(c.endpoint, c.params, timestamp).data
               == PhoneEnrichmentData(Some(JStr(Trim(Get(params, "phone").value.s))))
  {
  }

  /** Reading `correo`, the demo data echoes and hashes the searched e-mail;
      as written it reads `email`, which the service never sends. */
  lemma EmailDemoEchoesInput(params: Fields, timestamp: string)
    requires NufiService.EnrichmentByEmail(params).Call?
    ensures var c := NufiService.EnrichmentByEmail(params);
            c.endpoint == "enrichment-email"
            && EmailInput(c.params) == Some(JStr(Trim(Get(params, "email").value.s)))
            && EmailInputAsWritten(c.params).None?
            && GenerateMockResponse(c.endpoint, c.params, timestamp).data == EmailEnrichmentData(None)
            && CorrectedMockResponse(c.endpoint, c.params, timestamp).data
               == EmailEnrichmentData(Some(JStr(Trim(Get(params, "email").value.s))))
  {
    var c := NufiService.EnrichmentByEmail(params);
    OnlyKey(c.params, "correo", "email");
  }

  /** One entry under `key` holds nothing under any other key. */
  lemma OnlyKey(fs: Fields, key: string, other: string)
    requires |fs| == 1 && fs[0].0 == key && |key| != |other|
    ensures Get(fs, other).None?
  {
    assert fs[1..] == [];
  }
}
