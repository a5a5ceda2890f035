/** The dossier view's helper functions `formatKey`, `formatDisplayValue`,
    `sanitizeForDisplay`, `buildDossier` and `isMetadataKey`. Their
    definitions are not part of the renderer's text; what is known of them
    is what the renderer's unit tests fix. Each function below is one
    definition consistent with those tests, and the lemmas named
    `...Pinned` state exactly the tested cases. */
module DisplayHelpers {
  import opened Js
  import KeyPolicy

  // ---------------------------------------------------------------------------
  // isMetadataKey
  // ---------------------------------------------------------------------------

  /** Metadata keys are the `@`-prefixed ones. */
  function IsMetadataKey(key: string): (r: bool)
    ensures r <==> |key| > 0 && key[0] == '@'
  {
    StartsWith(key, "@")
  }

  lemma MetadataKeyPinned()
    ensures IsMetadataKey("@search_id") && IsMetadataKey("@match") && IsMetadataKey("@valid_since")
    ensures !IsMetadataKey("name") && !IsMetadataKey("phone") && !IsMetadataKey("email")
  {
  }

  // ---------------------------------------------------------------------------
  // formatKey
  // ---------------------------------------------------------------------------

  /** Whether a character starts a new word after `prev`. */
  predicate WordStart(prev: char)
  {
    prev == '_' || prev == ' '
  }

  /** One key character as a label: underscores become spaces, a capital
      after a lower-case letter is preceded by a space, and the first letter
      of each word is capitalised. */
  function LabelPiece(prev: char, c: char): string
  {
    if c == '_' then " "
    else if IsLowerAscii(prev) && IsUpperAscii(c) then [' ', c]
    else if WordStart(prev) then [UpperChar(c)]
    else [c]
  }

  function Label(prev: char, s: string): string
    decreases s
  {
    if s == [] then [] else LabelPiece(prev, s[0]) + Label(s[0], s[1..])
  }

  /** Labels hold no underscore and drop no character. */
  lemma {:induction false} LabelShape(prev: char, s: string)
    ensures '_' !in Label(prev, s) && |Label(prev, s)| >= |s|
    decreases s
  {
    if s != [] {
      LabelShape(s[0], s[1..]);
    }
  }

  /** Labelling is character by character, so it splits at any point. */
  lemma {:induction false} LabelAppend(prev: char, a: string, b: string)
    requires a != []
    ensures Label(prev, a + b) == Label(prev, a) + Label(a[|a| - 1], b)
    decreases a
  {
    var c, rest := a[0], a[1..];
    LabelCons(prev, c, rest + b);
    LabelCons(prev, c, rest);
    assert a == [c] + rest && a + b == [c] + (rest + b);
    if rest != [] {
      LabelAppend(c, rest, b);
      assert rest[|rest| - 1] == a[|a| - 1];
      AppendAssoc(LabelPiece(prev, c), Label(c, rest), Label(a[|a| - 1], b));
    } else {
      assert rest + b == b;
    }
  }

  lemma LabelCons(prev: char, c: char, s: string)
    ensures Label(prev, [c] + s) == LabelPiece(prev, c) + Label(c, s)
  {
    assert ([c] + s)[0] == c && ([c] + s)[1..] == s;
  }

  lemma AppendAssoc(x: string, y: string, z: string)
    ensures x + (y + z) == (x + y) + z
  {
  }

  /** A key as a title-case label, without its leading `@`. */
  function FormatKey(key: string): (r: string)
    ensures '_' !in r && |r| >= |key| - 1
  {
    var start := if IsMetadataKey(key) then 1 else 0;
    LabelShape('_', key[start..]);
    Label('_', key[start..])
  }

  /** The words of a snake_case key: lower-case letters only. */
  predicate SnakeWord(w: string)
  {
    |w| >= 1 && forall i :: 0 <= i < |w| ==> IsLowerAscii(w[i])
  }

  /** The words of a camelCase key: a letter, then lower-case letters. */
  predicate CamelWord(w: string)
  {
    |w| >= 2 && (IsUpperAscii(w[0]) || IsLowerAscii(w[0]))
    && forall i :: 1 <= i < |w| ==> IsLowerAscii(w[i])
  }

  /** Each word with its first letter capitalised. */
  function Titles(ws: seq<string>): (r: seq<string>)
    ensures |r| == |ws| && forall i :: 0 <= i < |ws| ==> r[i] == CapitalizeFirst(ws[i])
  {
    seq(|ws|, i requires 0 <= i < |ws| => CapitalizeFirst(ws[i]))
  }

  /** The words written one after the other. */
  function Concat(ws: seq<string>): string
  {
    if ws == [] then "" else Concat(ws[..|ws| - 1]) + ws[|ws| - 1]
  }

  /** Lower-case letters after a character that starts no word are copied. */
  lemma {:induction false} LowerRun(prev: char, s: string)
    requires !WordStart(prev) && forall i :: 0 <= i < |s| ==> IsLowerAscii(s[i])
    ensures Label(prev, s) == s
    decreases s
  {
    if s != [] {
      assert LabelPiece(prev, s[0]) == [s[0]];
      LowerRun(s[0], s[1..]);
      assert s == [s[0]] + s[1..];
    }
  }

  /** A word at the start of the key, or after an underscore, is capitalised. */
  lemma {:induction false} WordLabel(prev: char, w: string)
    requires WordStart(prev) && |w| >= 1 && (IsUpperAscii(w[0]) || IsLowerAscii(w[0]))
    requires forall i :: 1 <= i < |w| ==> IsLowerAscii(w[i])
    ensures Label(prev, w) == CapitalizeFirst(w)
  {
    assert LabelPiece(prev, w[0]) == [UpperChar(w[0])];
    LowerRun(w[0], w[1..]);
  }

  /** A capital after a lower-case letter opens a new word. */
  lemma {:induction false} CamelLabel(prev: char, w: string)
    requires IsLowerAscii(prev) && |w| >= 1 && IsUpperAscii(w[0])
    requires forall i :: 1 <= i < |w| ==> IsLowerAscii(w[i])
    ensures Label(prev, w) == " " + w
  {
    assert LabelPiece(prev, w[0]) == [' ', w[0]];
    LowerRun(w[0], w[1..]);
    assert Label(prev, w) == [' ', w[0]] + w[1..];
    assert [' ', w[0]] + w[1..] == [' '] + w;
  }

  /** Joining one more word appends the separator and the word. */
  lemma JoinLast(ws: seq<string>, sep: string)
    requires |ws| >= 2
    ensures Join(ws, sep) == Join(ws[..|ws| - 1], sep) + sep + ws[|ws| - 1]
  {
  }

  /** Capitalising all the words but the last, then the last. */
  lemma TitlesInit(ws: seq<string>)
    requires |ws| >= 1
    ensures Titles(ws)[..|ws| - 1] == Titles(ws[..|ws| - 1])
    ensures Titles(ws)[|ws| - 1] == CapitalizeFirst(ws[|ws| - 1])
  {
  }

  /** A join ends with the last character of its last part. */
  lemma {:induction false} JoinLastChar(ws: seq<string>, sep: string)
    requires |ws| >= 1 && |ws[|ws| - 1]| >= 1
    ensures |Join(ws, sep)| >= 1
    ensures Join(ws, sep)[|Join(ws, sep)| - 1] == ws[|ws| - 1][|ws[|ws| - 1]| - 1]
  {
  }

  /** One more snake word: an underscore becomes a space, the word is capitalised. */
  lemma {:induction false} SnakeStep(head: string, last: string)
    requires |head| >= 1 && !WordStart(head[|head| - 1]) && SnakeWord(last)
    ensures Label('_', head + "_" + last) == Label('_', head) + " " + CapitalizeFirst(last)
  {
    var tail := ['_'] + last;
    assert head + "_" + last == head + tail;
    LabelAppend('_', head, tail);
    assert tail[0] == '_' && tail[1..] == last;
    assert Label(head[|head| - 1], tail) == [' '] + Label('_', last);
    WordLabel('_', last);
  }

  /** A snake_case key becomes its words, capitalised and separated by spaces. */
  lemma {:induction false} SnakeCaseLabel(ws: seq<string>)
    requires |ws| >= 1 && forall i :: 0 <= i < |ws| ==> SnakeWord(ws[i])
    ensures Label('_', Join(ws, "_")) == Join(Titles(ws), " ")
    decreases |ws|
  {
    if |ws| == 1 {
      SnakeOne(ws[0]);
      assert ws == [ws[0]];
    } else {
      var init := ws[..|ws| - 1];
      assert forall i :: 0 <= i < |init| ==> init[i] == ws[i];
      SnakeCaseLabel(init);
      SnakeGrow(ws);
      TitlesGrow(ws);
    }
  }

  /** A single snake word is capitalised. */
  lemma {:induction false} SnakeOne(w: string)
    requires SnakeWord(w)
    ensures Label('_', Join([w], "_")) == Join(Titles([w]), " ")
  {
    WordLabel('_', w);
  }

  /** The inductive step of SnakeCaseLabel: one more word adds a space and
      the word capitalised. */
  lemma {:induction false} SnakeGrow(ws: seq<string>)
    requires |ws| >= 2 && SnakeWord(ws[|ws| - 2]) && SnakeWord(ws[|ws| - 1])
    ensures Label('_', Join(ws, "_")) == Label('_', Join(ws[..|ws| - 1], "_")) + " " + CapitalizeFirst(ws[|ws| - 1])
  {
    var init, last := ws[..|ws| - 1], ws[|ws| - 1];
    var head := Join(init, "_");
    assert !WordStart(head[|head| - 1]) by {
      var prev := init[|init| - 1];
      assert IsLowerAscii(prev[|prev| - 1]);
      JoinLastChar(init, "_");
    }
    JoinLast(ws, "_");
    SnakeStep(head, last);
  }

  /** One more word adds a space and the word capitalised to the titles. */
  lemma {:induction false} TitlesGrow(ws: seq<string>)
    requires |ws| >= 2
    ensures Join(Titles(ws), " ") == Join(Titles(ws[..|ws| - 1]), " ") + " " + CapitalizeFirst(ws[|ws| - 1])
  {
    var ts := Titles(ws);
    TitlesInit(ws);
    JoinLast(ts, " ");
    assert ts[..|ts| - 1] == Titles(ws[..|ws| - 1]);
  }

  /** One more camel word: a space goes before its capital. */
  lemma {:induction false} CamelStep(head: string, last: string)
    requires |head| >= 1 && IsLowerAscii(head[|head| - 1]) && CamelWord(last) && IsUpperAscii(last[0])
    ensures Label('_', head + last) == Label('_', head) + " " + CapitalizeFirst(last)
  {
    LabelAppend('_', head, last);
    CamelLabel(head[|head| - 1], last);
    assert CapitalizeFirst(last) == last;
  }

  /** A camelCase key becomes its words, capitalised and separated by spaces. */
  lemma {:induction false} CamelCaseLabel(ws: seq<string>)
    requires |ws| >= 1 && forall i :: 0 <= i < |ws| ==> CamelWord(ws[i])
    requires forall i :: 1 <= i < |ws| ==> |ws[i]| >= 1 && IsUpperAscii(ws[i][0])
    ensures Label('_', Concat(ws)) == Join(Titles(ws), " ")
    decreases |ws|
  {
    if |ws| == 1 {
      CamelOne(ws[0]);
      assert ws == [ws[0]];
    } else {
      var init := ws[..|ws| - 1];
      assert forall i :: 0 <= i < |init| ==> init[i] == ws[i];
      CamelCaseLabel(init);
      CamelGrow(ws);
      TitlesGrow(ws);
    }
  }

  /** A single camel word is capitalised. */
  lemma {:induction false} CamelOne(w: string)
    requires CamelWord(w)
    ensures Label('_', Concat([w])) == Join(Titles([w]), " ")
  {
    assert Concat([w]) == w by {
      assert [w][..0] == [];
    }
    WordLabel('_', w);
  }

  /** The inductive step of CamelCaseLabel: one more word adds a space and
      the word capitalised. */
  lemma {:induction false} CamelGrow(ws: seq<string>)
    requires |ws| >= 2 && CamelWord(ws[|ws| - 2]) && CamelWord(ws[|ws| - 1]) && IsUpperAscii(ws[|ws| - 1][0])
    ensures Label('_', Concat(ws)) == Label('_', Concat(ws[..|ws| - 1])) + " " + CapitalizeFirst(ws[|ws| - 1])
  {
    var init, last := ws[..|ws| - 1], ws[|ws| - 1];
    var prev := init[|init| - 1];
    assert Concat(init) == Concat(init[..|init| - 1]) + prev;
    CamelStep(Concat(init), last);
  }

  /** The label of a key that is not a metadata key. */
  lemma FormatKeyPlain(key: string)
    requires key == [] || key[0] != '@'
    ensures FormatKey(key) == Label('_', key)
  {
    assert key[0..] == key;
  }

  /** The label of a metadata key is that of the key without its `@`. */
  lemma FormatKeyMetadata(key: string)
    ensures FormatKey("@" + key) == Label('_', key)
  {
    assert ("@" + key)[1..] == key;
  }

  lemma FormatKeySnakePinned()
    ensures FormatKey("first_name") == "First Name"
  {
    var ws := ["first", "name"];
    SnakeCaseLabel(ws);
    var k := Join(ws, "_");
    FormatKeyPlain(k);
    assert k == "first_name";
    assert Join(Titles(ws), " ") == "First Name";
  }

  lemma FormatKeyCamelPinned()
    ensures FormatKey("phoneNumber") == "Phone Number"
  {
    var ws := ["phone", "Number"];
    CamelCaseLabel(ws);
    var k := Concat(ws);
    FormatKeyPlain(k);
    assert k == "phoneNumber";
    assert Join(Titles(ws), " ") == "Phone Number";
  }

  lemma FormatKeyMetadataPinned()
    ensures FormatKey("@search_id") == "Search Id"
  {
    var ws := ["search", "id"];
    SnakeCaseLabel(ws);
    var k := Join(ws, "_");
    FormatKeyMetadata(k);
    assert "@" + k == "@search_id";
    assert Join(Titles(ws), " ") == "Search Id";
  }

  lemma FormatKeyMixedPinned()
    ensures FormatKey("QpsAllotted") == "Qps Allotted"
  {
    var ws := ["Qps", "Allotted"];
    CamelCaseLabel(ws);
    var k := Concat(ws);
    FormatKeyPlain(k);
    assert k == "QpsAllotted";
    assert Join(Titles(ws), " ") == "Qps Allotted";
  }

  // ---------------------------------------------------------------------------
  // formatDisplayValue
  // ---------------------------------------------------------------------------

  /** A name part kept by `filter(Boolean)`. */
  function Part(p: Val): seq<string>
  {
    if Truthy(p) then [JsString(p.value)] else []
  }

  /** `[first, middle, last].filter(Boolean).join(' ')` */
  function NameFromParts(v: Val): string
  {
    Join(Part(Prop(v, "first")) + Part(Prop(v, "middle")) + Part(Prop(v, "last")), " ")
  }

  /** A value as table text: "N/A" for null and undefined, scalars as
      `String(...)` writes them, an object by its `display`, `content` or
      name parts, anything else as JSON. */
  function FormatDisplayValue(v: Val): (r: string)
    ensures v.None? || v == Some(JNull) ==> r == "N/A"
  {
    match v
    case None => "N/A"
    case Some(JNull) => "N/A"
    case Some(JObj(_)) =>
      if Truthy(Prop(v, "display")) then JsString(Prop(v, "display").value)
      else if Truthy(Prop(v, "content")) then JsString(Prop(v, "content").value)
      else if Truthy(Prop(v, "first")) || Truthy(Prop(v, "last")) then NameFromParts(v)
      else Stringify(v.value)
    case Some(JArr(_)) => Stringify(v.value)
    case Some(j) => JsString(j)
  }

  lemma FormatDisplayPrimitivesPinned()
    ensures FormatDisplayValue(Some(JStr("test"))) == "test"
    ensures FormatDisplayValue(Some(JNum(42))) == "42"
    ensures FormatDisplayValue(Some(JBool(true))) == "true"
    ensures FormatDisplayValue(Some(JNull)) == "N/A"
    ensures FormatDisplayValue(None) == "N/A"
  {
    assert IntToString(42) == "42" by {
      assert NatToString(42) == NatToString(4) + [DigitChar(2)];
    }
  }

  lemma FormatDisplayObjectsPinned()
    ensures FormatDisplayValue(Some(JObj([("display", JStr("Shown"))]))) == "Shown"
    ensures FormatDisplayValue(Some(JObj([("content", JStr("Content"))]))) == "Content"
  {
  }

  lemma FormatDisplayNamePinned()
    ensures FormatDisplayValue(Some(JObj([("first", JStr("John")), ("middle", JStr("Q")), ("last", JStr("Doe"))])))
            == "John Q Doe"
  {
    var v := Some(JObj([("first", JStr("John")), ("middle", JStr("Q")), ("last", JStr("Doe"))]));
    assert Prop(v, "display") == None && Prop(v, "content") == None;
    assert Prop(v, "first") == Some(JStr("John"));
    assert Prop(v, "middle") == Some(JStr("Q"));
    assert Prop(v, "last") == Some(JStr("Doe"));
    assert Part(Prop(v, "first")) + Part(Prop(v, "middle")) + Part(Prop(v, "last")) == ["John", "Q", "Doe"];
    assert Join(["John", "Q", "Doe"], " ") == "John Q Doe";
  }

  /** A number's text reads back as the same number. */
  lemma {:induction false} FormatDisplayNumber(n: int)
    ensures ParseInt(FormatDisplayValue(Some(JNum(n)))) == n
  {
    IntToStringRoundTrip(n);
  }

  /** A string is shown as it is. */
  lemma FormatDisplayString(s: string)
    ensures FormatDisplayValue(Some(JStr(s))) == s
  {
  }

  // ---------------------------------------------------------------------------
  // sanitizeForDisplay
  // ---------------------------------------------------------------------------

  /** Removes `@search_pointer` and every `*_md5` key, at any depth. */
  function SanitizeForDisplay(data: Json): (r: Json)
    ensures KeyPolicy.Clean(r, KeyPolicy.Display)
  {
    KeyPolicy.PruneIsClean(data, KeyPolicy.Display);
    KeyPolicy.Prune(data, KeyPolicy.Display)
  }

  /** Neither `@search_pointer` nor a `*_md5` key survives anywhere, arrays
      of objects included. */
  lemma {:induction false} SanitizeDropsPinned(data: Json, k: string)
    requires k == "@search_pointer" || EndsWith(k, "_md5")
    ensures !KeyPolicy.HasKey(SanitizeForDisplay(data), k)
  {
    KeyPolicy.CleanHasNoDroppedKey(SanitizeForDisplay(data), KeyPolicy.Display, k);
  }

  /** Other `@` keys such as `@id`, `@match` and `@valid_since` stay, with
      their values sanitized. */
  lemma {:induction false} SanitizeKeepsPinned(fs: Fields, i: nat)
    requires i < |fs| && fs[i].0 in ["@id", "@match", "@valid_since"]
    ensures (fs[i].0, SanitizeForDisplay(fs[i].1)) in SanitizeForDisplay(JObj(fs)).fields
  {
    assert !KeyPolicy.Drops(KeyPolicy.Display, fs[i].0);
    KeyPolicy.PruneKeeps(fs, KeyPolicy.Display, i);
  }

  /** Sanitizing twice is sanitizing once. */
  lemma {:induction false} SanitizeIdempotent(data: Json)
    ensures SanitizeForDisplay(SanitizeForDisplay(data)) == SanitizeForDisplay(data)
  {
    KeyPolicy.PruneIdempotent(data, KeyPolicy.Display);
  }

  // ---------------------------------------------------------------------------
  // buildDossier
  // ---------------------------------------------------------------------------

  /** The lists and scalar facts the dossier card reads from a person. */
  datatype Dossier = Dossier(
    names: seq<Json>, phones: seq<Json>, emails: seq<Json>, addresses: seq<Json>,
    usernames: seq<Json>, user_ids: seq<Json>, urls: seq<Json>, relationships: seq<Json>,
    jobs: seq<Json>, educations: seq<Json>, images: seq<Json>, languages: seq<Json>,
    ethnicities: seq<Json>, origin_countries: seq<Json>,
    gender: Val, dob: Val, matchValue: Val)

  /** The person's list under `k`, or [] when it has none. */
  function ListField(person: Val, k: string): (r: seq<Json>)
    ensures IsArray(Prop(person, k)) ==> r == Prop(person, k).value.items
    ensures !IsArray(Prop(person, k)) ==> r == []
  {
    var v := Prop(person, k);
    if v.Some? && v.value.JArr? then v.value.items else []
  }

  /** null (or undefined) has no dossier; otherwise every list is copied or
      defaults to [], and `matchValue` is the person's `@match`. */
  function BuildDossier(person: Val): (r: Option<Dossier>)
    ensures r.None? <==> person.None? || person == Some(JNull)
    ensures r.Some? ==> r.value.gender == Prop(person, "gender") && r.value.matchValue == Prop(person, "@match")
  {
    if person.None? || person == Some(JNull) then None
    else Some(Dossier(
      ListField(person, "names"), ListField(person, "phones"), ListField(person, "emails"),
      ListField(person, "addresses"), ListField(person, "usernames"), ListField(person, "user_ids"),
      ListField(person, "urls"), ListField(person, "relationships"), ListField(person, "jobs"),
      ListField(person, "educations"), ListField(person, "images"), ListField(person, "languages"),
      ListField(person, "ethnicities"), ListField(person, "origin_countries"),
      Prop(person, "gender"), Prop(person, "dob"), Prop(person, "@match")))
  }

  lemma BuildDossierNullPinned()
    ensures BuildDossier(Some(JNull)) == None && BuildDossier(None) == None
  {
  }

  /** A key the person object lacks gives an empty list. */
  lemma {:induction false} MissingListIsEmpty(fs: Fields, k: string)
    requires k !in Keys(fs)
    ensures ListField(Some(JObj(fs)), k) == []
  {
    GetFinds(fs, k);
  }

  /** The pinned case: a person with only `names` has no phones and no user IDs. */
  lemma {:induction false} BuildDossierMissingPinned(names: seq<Json>)
    ensures BuildDossier(Some(JObj([("names", JArr(names))]))).value.names == names
    ensures BuildDossier(Some(JObj([("names", JArr(names))]))).value.phones == []
    ensures BuildDossier(Some(JObj([("names", JArr(names))]))).value.user_ids == []
  {
    var fs := [("names", JArr(names))];
    assert Keys(fs) == ["names"];
    MissingListIsEmpty(fs, "phones");
    MissingListIsEmpty(fs, "user_ids");
  }
}
