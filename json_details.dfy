/** The dossier view of a search response: the collapsible sections of the
    details panel, the tables of a person's names, phones, e-mails and other
    lists with their "View All" windowing, the primary values shown in the
    card header, where the payload and its status are found, and the
    Search Metadata block. Rendering is reduced to the values each element
    shows. */
module JsonDetails {
  import opened Js
  import DisplayHelpers

  // ===========================================================================
  // Expandable section and expandable table
  // ===========================================================================

  /** A titled section whose content is shown while it is expanded; a click
      on its header toggles it. */
  class ExpandableSection {
    const title: string
    var expanded: bool

    constructor (title: string, defaultExpanded: bool)
      ensures this.title == title && expanded == defaultExpanded
    {
      this.title := title;
      expanded := defaultExpanded;
    }

    /** The header's arrow: down while expanded, right while collapsed. */
    function Icon(): (r: string)
      reads this
      ensures r == ArrowFor(expanded)
    {
      ArrowFor(expanded)
    }

    /** A header click. */
    method Toggle()
      modifies this
      ensures expanded == !old(expanded)
    {
      expanded := !expanded;
    }
  }

  function ArrowFor(expanded: bool): (r: string)
    ensures r == "\U{25BC}" <==> expanded
  {
    if expanded then "\U{25BC}" else "\U{25B6}"
  }

  /** A table column: the key it reads, its header label and, optionally,
      its own way of rendering an item (undefined renders nothing). */
  datatype Column = Column(key: string, heading: string, render: Option<Json -> Val>)

  /** `formatDisplayValue(value, key)`, which this model takes as given. */
  type Formatter = (Val, string) -> string

  /** A cell: the column's render function when it has one, otherwise the
      formatted value of the item's property under the column's key. */
  function Cell(col: Column, item: Json, fmt: Formatter): (r: Val)
    ensures col.render.Some? ==> r == col.render.value(item)
    ensures col.render.None? ==> r == Some(JStr(fmt(Prop(Some(item), col.key), col.key)))
  {
    match col.render
    case Some(f) => f(item)
    case None => Some(JStr(fmt(Prop(Some(item), col.key), col.key)))
  }

  /** One table row: a cell per column, in column order. */
  function Row(item: Json, columns: seq<Column>, fmt: Formatter): (r: seq<Val>)
    ensures |r| == |columns|
    ensures forall j :: 0 <= j < |columns| ==> r[j] == Cell(columns[j], item, fmt)
  {
    seq(|columns|, j requires 0 <= j < |columns| => Cell(columns[j], item, fmt))
  }

  function Min(a: nat, b: nat): nat
  {
    if a <= b then a else b
  }

  /** The items on show: all of them when expanded, otherwise the first
      `maxRows` (fewer when there are fewer), in their order. */
  function Window(items: seq<Json>, maxRows: nat, expanded: bool): (r: seq<Json>)
    ensures |r| == if expanded then |items| else Min(maxRows, |items|)
    ensures forall i :: 0 <= i < |r| ==> r[i] == items[i]
  {
    if expanded then items else items[..Min(maxRows, |items|)]
  }

  /** What a table shows: the header texts, the rows on show and the
      "View All"/"View Less" button when there is one. */
  datatype TableView = TableView(header: seq<string>, rows: seq<seq<Val>>, button: Option<string>)

  function ButtonLabel(expanded: bool, n: nat): string
  {
    if expanded then "\U{25BC} View Less" else "\U{25B6} View All (" + IntToString(n) + ")"
  }

  /** The rendered table; an empty list renders nothing. */
  function RenderTable(items: seq<Json>, columns: seq<Column>, maxRows: nat, expanded: bool, fmt: Formatter)
    : (r: Option<TableView>)
    ensures r.None? <==> |items| == 0
    ensures r.Some? ==> |r.value.header| == |columns|
                        && forall j :: 0 <= j < |columns| ==> r.value.header[j] == columns[j].heading
    ensures r.Some? ==> |r.value.rows| == (if expanded then |items| else Min(maxRows, |items|))
    ensures r.Some? ==> forall i :: 0 <= i < |r.value.rows| ==> r.value.rows[i] == Row(items[i], columns, fmt)
    ensures r.Some? ==> (r.value.button.Some? <==> |items| > maxRows)
    ensures r.Some? && r.value.button.Some? ==> r.value.button.value == ButtonLabel(expanded, |items|)
  {
    if |items| == 0 then None
    else
      var shown := Window(items, maxRows, expanded);
      Some(TableView(
        seq(|columns|, j requires 0 <= j < |columns| => columns[j].heading),
        seq(|shown|, i requires 0 <= i < |shown| => Row(shown[i], columns, fmt)),
        if |items| > maxRows then Some(ButtonLabel(expanded, |items|)) else None))
  }

  /** When every item fits, there is no button and both states look the same. */
  lemma {:induction false} ShortTablesDoNotToggle(items: seq<Json>, columns: seq<Column>, maxRows: nat, fmt: Formatter)
    requires |items| <= maxRows
    ensures RenderTable(items, columns, maxRows, false, fmt) == RenderTable(items, columns, maxRows, true, fmt)
  {
    assert Window(items, maxRows, false) == items;
  }

  /** The collapsed rows are the first rows of the expanded table. */
  lemma {:induction false} CollapsedRowsLeadExpanded(items: seq<Json>, columns: seq<Column>, maxRows: nat, fmt: Formatter)
    requires |items| > 0
    ensures RenderTable(items, columns, maxRows, false, fmt).value.rows
            <= RenderTable(items, columns, maxRows, true, fmt).value.rows
  {
    var c := RenderTable(items, columns, maxRows, false, fmt).value.rows;
    var e := RenderTable(items, columns, maxRows, true, fmt).value.rows;
    assert |c| <= |e|;
    assert c == e[..|c|];
  }

  /** The collapsed button announces the full number of items, which reads back. */
  lemma {:induction false} ViewAllCountsEverything(n: nat)
    ensures ButtonLabel(false, n) == "\U{25B6} View All (" + IntToString(n) + ")"
    ensures ParseInt(IntToString(n)) == n
  {
    IntToStringRoundTrip(n);
  }

  /** A table with a "View All" toggle. Its items, columns and row limit
      come from the caller; only `expanded` changes. */
  class ExpandableTable {
    const items: seq<Json>
    const columns: seq<Column>
    const maxRows: nat
    var expanded: bool

    /** A table starts collapsed. */
    constructor (items: seq<Json>, columns: seq<Column>, maxRows: nat)
      ensures this.items == items && this.columns == columns && this.maxRows == maxRows
      ensures !expanded
    {
      this.items := items;
      this.columns := columns;
      this.maxRows := maxRows;
      expanded := false;
    }

    function View(fmt: Formatter): (r: Option<TableView>)
      reads this
      ensures r == RenderTable(items, columns, maxRows, expanded, fmt)
    {
      RenderTable(items, columns, maxRows, expanded, fmt)
    }

    /** A click on "View All" or "View Less". */
    method Toggle()
      modifies this
      ensures expanded == !old(expanded)
    {
      expanded := !expanded;
    }
  }

  // ===========================================================================
  // Primary values of the card header
  // ===========================================================================

  /** The first truthy candidate, or the fallback when none is truthy. */
  function FirstTruthy(cands: seq<Val>, fallback: Json): Json
  {
    if cands == [] then fallback
    else if Truthy(cands[0]) then cands[0].value
    else FirstTruthy(cands[1..], fallback)
  }

  /** FirstTruthy picks the earliest truthy candidate and falls back only
      when every candidate is falsy. */
  lemma {:induction false} FirstTruthyPicks(cands: seq<Val>, fallback: Json, i: nat)
    requires i < |cands| && Truthy(cands[i]) && forall j :: 0 <= j < i ==> !Truthy(cands[j])
    ensures Some(FirstTruthy(cands, fallback)) == cands[i]
  {
    if i > 0 {
      FirstTruthyPicks(cands[1..], fallback, i - 1);
    }
  }

  lemma {:induction false} FirstTruthyFallsBack(cands: seq<Val>, fallback: Json)
    requires forall j :: 0 <= j < |cands| ==> !Truthy(cands[j])
    ensures FirstTruthy(cands, fallback) == fallback
  {
    if cands != [] {
      FirstTruthyFallsBack(cands[1..], fallback);
    }
  }

  /** `a || b || fallback` picks as FirstTruthy does. */
  lemma FirstTruthyOfTwo(a: Val, b: Val, fallback: Json)
    ensures FirstTruthy([a, b], fallback) == OrElse(Or(a, b), fallback)
  {
    assert [a, b][1..] == [b];
    assert FirstTruthy([b], fallback) == OrElse(b, fallback) by {
      assert [b][1..] == [];
    }
  }

  /** `a || b || c || fallback` picks as FirstTruthy does. */
  lemma FirstTruthyOfThree(a: Val, b: Val, c: Val, fallback: Json)
    ensures FirstTruthy([a, b, c], fallback) == OrElse(Or(Or(a, b), c), fallback)
  {
    assert [a, b, c][1..] == [b, c];
    FirstTruthyOfTwo(b, c, fallback);
  }

  /** `a || b || ... || fallback` */
  function OrElse(v: Val, fallback: Json): (r: Json)
    ensures Truthy(v) ==> Some(r) == v
    ensures !Truthy(v) ==> r == fallback
  {
    if Truthy(v) then v.value else fallback
  }

  /** `list[0]`: an array's or string's first element; an object's key "0". */
  function Head(list: Val): Val
  {
    match list
    case Some(JObj(_)) => Prop(list, "0")
    case _ => At(list, 0)
  }

  /** `person.k || []` */
  function PersonList(person: Val, k: string): (r: Val)
    ensures Truthy(r)
  {
    Or(Prop(person, k), Some(JArr([])))
  }

  /** `` `${first || ''} ${last || ''}`.trim() `` */
  function FullName(name: Val): (r: string)
    ensures r == [] || (!IsSpace(r[0]) && !IsSpace(r[|r| - 1]))
  {
    Trim(JsString(OrEmpty(Prop(name, "first"))) + " " + JsString(OrEmpty(Prop(name, "last"))))
  }

  /** The header name: the first name's `display`, else its trimmed
      "first last", else "Unknown". */
  function PrimaryName(names: Val): (r: Json)
    ensures r == FirstTruthy([Prop(Head(names), "display"), Some(JStr(FullName(Head(names))))], JStr("Unknown"))
    ensures Truthy(Some(r))
  {
    FirstTruthyOfTwo(Prop(Head(names), "display"), Some(JStr(FullName(Head(names)))), JStr("Unknown"));
    OrElse(Or(Prop(Head(names), "display"), Some(JStr(FullName(Head(names))))), JStr("Unknown"))
  }

  /** The header phone: `display_international`, else `display`, else
      `number` of the first phone, else "N/A". */
  function PrimaryPhone(phones: Val): (r: Json)
    ensures r == FirstTruthy([Prop(Head(phones), "display_international"), Prop(Head(phones), "display"),
                              Prop(Head(phones), "number")], JStr("N/A"))
    ensures Truthy(Some(r))
  {
    var p := Head(phones);
    FirstTruthyOfThree(Prop(p, "display_international"), Prop(p, "display"), Prop(p, "number"), JStr("N/A"));
    OrElse(Or(Or(Prop(p, "display_international"), Prop(p, "display")), Prop(p, "number")), JStr("N/A"))
  }

  /** The header e-mail: the first e-mail's `address`, else the entry itself, else "N/A". */
  function PrimaryEmail(emails: Val): (r: Json)
    ensures r == FirstTruthy([Prop(Head(emails), "address"), Head(emails)], JStr("N/A"))
    ensures Truthy(Some(r))
  {
    FirstTruthyOfTwo(Prop(Head(emails), "address"), Head(emails), JStr("N/A"));
    OrElse(Or(Prop(Head(emails), "address"), Head(emails)), JStr("N/A"))
  }

  /** `` `${city || ''}, ${state || ''}`.trim() `` */
  function CityState(address: Val): string
  {
    Trim(JsString(OrEmpty(Prop(address, "city"))) + ", " + JsString(OrEmpty(Prop(address, "state"))))
  }

  /** The header location: the first address's `display`, else its trimmed
      "city, state", else "N/A". */
  function PrimaryLocation(addresses: Val): (r: Json)
    ensures r == FirstTruthy([Prop(Head(addresses), "display"), Some(JStr(CityState(Head(addresses))))], JStr("N/A"))
  {
    var a := Head(addresses);
    FirstTruthyOfTwo(Prop(a, "display"), Some(JStr(CityState(a))), JStr("N/A"));
    OrElse(Or(Prop(a, "display"), Some(JStr(CityState(a)))), JStr("N/A"))
  }

  /** Trimming removes only white space, so any other character survives. */
  lemma {:induction false} TrimKeeps(s: string, i: nat)
    requires i < |s| && !IsSpace(s[i])
    ensures s[i] in Trim(s)
  {
    var t := TrimStart(s);
    var k := |s| - |t|;
    assert k <= i;
    assert t[i - k] == s[i];
    var u := TrimEnd(t);
    assert i - k < |u|;
    assert u[i - k] == s[i];
  }

  /** The city-and-state text always holds the comma between them. */
  lemma {:induction false} CityStateHasComma(address: Val)
    ensures ',' in CityState(address)
  {
    var city := JsString(OrEmpty(Prop(address, "city")));
    var s := city + ", " + JsString(OrEmpty(Prop(address, "state")));
    assert s[|city|] == ',';
    TrimKeeps(s, |city|);
  }

  /** A falsy first candidate hands the chain to a non-empty text. */
  lemma TextAfterFalsy(first: Val, text: string, fallback: Json)
    requires !Truthy(first) && text != ""
    ensures FirstTruthy([first, Some(JStr(text))], fallback) == JStr(text)
  {
    FirstTruthyOfTwo(first, Some(JStr(text)), fallback);
  }

  /** Without a `display`, the location is the city-and-state text, which
      keeps its comma, so it is never empty and never the "N/A" fallback. */
  lemma {:induction false} LocationNeverFallsBack(addresses: Val)
    requires !Truthy(Prop(Head(addresses), "display"))
    ensures PrimaryLocation(addresses) == JStr(CityState(Head(addresses)))
    ensures ',' in CityState(Head(addresses))
    ensures PrimaryLocation(addresses) != JStr("N/A")
  {
    var a := Head(addresses);
    CityStateHasComma(a);
    TextAfterFalsy(Prop(a, "display"), CityState(a), JStr("N/A"));
    NoCommaInFallback();
  }

  lemma NoCommaInFallback()
    ensures ',' !in "N/A"
  {
  }

  /** The header photo: the first image's `url`, else the entry itself, else null. */
  function PrimaryImage(images: Val): (r: Json)
    ensures r == FirstTruthy([Prop(Head(images), "url"), Head(images)], JNull)
  {
    FirstTruthyOfTwo(Prop(Head(images), "url"), Head(images), JNull);
    OrElse(Or(Prop(Head(images), "url"), Head(images)), JNull)
  }

  /** `person.gender?.content || person.gender || 'N/A'` */
  function Gender(person: Val): (r: Json)
    ensures r == FirstTruthy([Prop(Prop(person, "gender"), "content"), Prop(person, "gender")], JStr("N/A"))
    ensures Truthy(Some(r))
  {
    var g := Prop(person, "gender");
    FirstTruthyOfTwo(Prop(g, "content"), g, JStr("N/A"));
    OrElse(Or(Prop(g, "content"), g), JStr("N/A"))
  }

  /** `person.dob?.display || person.dob?.date_range?.start || person.dob || 'N/A'` */
  function DateOfBirth(person: Val): (r: Json)
    ensures r == FirstTruthy([Prop(Prop(person, "dob"), "display"),
                              Prop(Prop(Prop(person, "dob"), "date_range"), "start"),
                              Prop(person, "dob")], JStr("N/A"))
    ensures Truthy(Some(r))
  {
    var d := Prop(person, "dob");
    FirstTruthyOfThree(Prop(d, "display"), Prop(Prop(d, "date_range"), "start"), d, JStr("N/A"));
    OrElse(Or(Or(Prop(d, "display"), Prop(Prop(d, "date_range"), "start")), d), JStr("N/A"))
  }

  // ===========================================================================
  // Entity tables of the dossier card
  // ===========================================================================

  datatype TableSpec = TableSpec(title: string, items: seq<Json>, columns: seq<Column>, maxRows: nat)

  const NamesTitle := "Names"
  const PhonesTitle := "Phone Numbers"
  const EmailsTitle := "Email Addresses"
  const AddressesTitle := "Addresses"
  const UsernamesTitle := "Usernames"
  const UserIdsTitle := "User IDs"
  const UrlsTitle := "URLs"
  const RelationshipsTitle := "Relationships"
  const EmploymentTitle := "Employment"
  const EducationTitle := "Education"

  /** Usernames and user IDs show five rows before "View All"; every other list three. */
  function RowsFor(title: string): nat
  {
    if title == UsernamesTitle || title == UserIdsTitle then 5 else 3
  }

  /** A plain column. */
  function Plain(key: string, heading: string): Column
  {
    Column(key, heading, None)
  }

  /** A date column: the property formatted as a date. */
  function DateColumn(key: string, heading: string, fmt: Formatter): Column
  {
    Column(key, heading, Some((item: Json) => Some(JStr(fmt(Prop(Some(item), key), "date")))))
  }

  /** `item.a || item.b || ... || item` */
  function ItemOr(item: Json, keys: seq<string>): (r: Val)
    ensures r.Some?
    decreases |keys|
  {
    if keys == [] then Some(item) else Or(Prop(Some(item), keys[0]), ItemOr(item, keys[1..]))
  }

  /** The first `n` characters (`substring(0, n)`). */
  function Prefix(s: string, n: nat): (r: string)
    ensures |r| <= n && r <= s
  {
    if |s| <= n then s else s[..n]
  }

  function NamesTable(d: DisplayHelpers.Dossier, fmt: Formatter): TableSpec
  {
    TableSpec(NamesTitle, d.names,
      [Plain("display", "Name"), Plain("@type", "Type"),
       DateColumn("@valid_since", "Valid Since", fmt), DateColumn("@last_seen", "Last Seen", fmt)], 3)
  }

  /** Phone cell: `display_international`, else `display`, else `number`. */
  function PhoneCell(item: Json): Val
  {
    Or(Or(Prop(Some(item), "display_international"), Prop(Some(item), "display")), Prop(Some(item), "number"))
  }

  function PhonesTable(d: DisplayHelpers.Dossier, fmt: Formatter): TableSpec
  {
    TableSpec(PhonesTitle, d.phones,
      [Column("display_international", "Phone", Some(PhoneCell)), Plain("@type", "Type"),
       DateColumn("@valid_since", "Valid Since", fmt), DateColumn("@last_seen", "Last Seen", fmt)], 3)
  }

  /** Current cell: a check mark for a truthy `@current`, else a dash. */
  function CurrentCell(item: Json): Val
  {
    Some(JStr(if Truthy(Prop(Some(item), "@current")) then "\U{2713}" else "-"))
  }

  function EmailsTable(d: DisplayHelpers.Dossier, fmt: Formatter): TableSpec
  {
    TableSpec(EmailsTitle, d.emails,
      [Plain("address", "Email"), Plain("@type", "Type"), DateColumn("@valid_since", "Valid Since", fmt),
       Column("@current", "Current", Some(CurrentCell))], 3)
  }

  /** Address cell: `display`, else the trimmed "city state country". */
  function AddressCell(item: Json): Val
  {
    Or(Prop(Some(item), "display"),
       Some(JStr(Trim(JsString(OrEmpty(Prop(Some(item), "city"))) + " "
                      + JsString(OrEmpty(Prop(Some(item), "state"))) + " "
                      + JsString(OrEmpty(Prop(Some(item), "country")))))))
  }

  function AddressesTable(d: DisplayHelpers.Dossier, fmt: Formatter): TableSpec
  {
    TableSpec(AddressesTitle, d.addresses,
      [Column("display", "Address", Some(AddressCell)), Plain("city", "City"), Plain("state", "State"),
       Plain("country", "Country"), DateColumn("@valid_since", "Valid Since", fmt)], 3)
  }

  function UsernamesTable(d: DisplayHelpers.Dossier): TableSpec
  {
    TableSpec(UsernamesTitle, d.usernames, [Plain("content", "Username"), Plain("platform", "Platform")], 5)
  }

  /** User ID cell: `id`, else `content`, else `value`, else the item. */
  function UserIdCell(item: Json): Val
  {
    ItemOr(item, ["id", "content", "value"])
  }

  function UserIdsTable(d: DisplayHelpers.Dossier): TableSpec
  {
    TableSpec(UserIdsTitle, d.user_ids, [Column("id", "ID", Some(UserIdCell)), Plain("type", "Type")], 5)
  }

  /** URL cell: the first 60 characters of the `url` (or of the item), then "...". */
  function UrlCell(item: Json): Val
  {
    Some(JStr(Prefix(JsString(ItemOr(item, ["url"]).value), 60) + "..."))
  }

  function UrlsTable(d: DisplayHelpers.Dossier): TableSpec
  {
    TableSpec(UrlsTitle, d.urls, [Column("url", "URL", Some(UrlCell)), Plain("type", "Type")], 3)
  }

  /** Relationship cell: `name`, else `display`, else `content`, else the item. */
  function RelationshipCell(item: Json): Val
  {
    ItemOr(item, ["name", "display", "content"])
  }

  function RelationshipsTable(d: DisplayHelpers.Dossier): TableSpec
  {
    TableSpec(RelationshipsTitle, d.relationships,
      [Column("name", "Name", Some(RelationshipCell)), Plain("relationship", "Relationship"), Plain("type", "Type")], 3)
  }

  function EmploymentTable(d: DisplayHelpers.Dossier): TableSpec
  {
    TableSpec(EmploymentTitle, d.jobs,
      [Plain("title", "Title"), Plain("organization", "Organization"), Plain("industry", "Industry")], 3)
  }

  function EducationTable(d: DisplayHelpers.Dossier): TableSpec
  {
    TableSpec(EducationTitle, d.educations, [Plain("degree", "Degree"), Plain("school", "School")], 3)
  }

  /** The tables a dossier could show, in card order. */
  function EntityCandidates(d: DisplayHelpers.Dossier, fmt: Formatter): (r: seq<TableSpec>)
    ensures |r| == 10
  {
    [NamesTable(d, fmt), PhonesTable(d, fmt), EmailsTable(d, fmt), AddressesTable(d, fmt),
     UsernamesTable(d), UserIdsTable(d), UrlsTable(d), RelationshipsTable(d),
     EmploymentTable(d), EducationTable(d)]
  }

  /** The specs whose list is non-empty, in order. */
  function NonEmpty(ts: seq<TableSpec>): (r: seq<TableSpec>)
    ensures forall t :: t in r ==> t in ts && |t.items| > 0
    ensures forall t :: t in ts && |t.items| > 0 ==> t in r
  {
    if ts == [] then []
    else (if |ts[0].items| > 0 then [ts[0]] else []) + NonEmpty(ts[1..])
  }

  /** Filtering a concatenation filters each part and keeps them in order. */
  lemma {:induction false} NonEmptyAppend(a: seq<TableSpec>, b: seq<TableSpec>)
    ensures NonEmpty(a + b) == NonEmpty(a) + NonEmpty(b)
    decreases |a|
  {
    if a == [] {
      assert a + b == b;
    } else {
      assert (a + b)[0] == a[0] && (a + b)[1..] == a[1..] + b;
      NonEmptyAppend(a[1..], b);
    }
  }

  /** A kept spec sits in the result after exactly the kept specs before it. */
  lemma NonEmptyPosition(ts: seq<TableSpec>, j: nat)
    requires j < |ts| && |ts[j].items| > 0
    ensures |NonEmpty(ts[..j])| < |NonEmpty(ts)|
    ensures NonEmpty(ts)[|NonEmpty(ts[..j])|] == ts[j]
  {
    var before, after := ts[..j], ts[j..];
    assert ts == before + after;
    NonEmptyAppend(before, after);
    assert after[0] == ts[j] && after[1..] == ts[j + 1..];
    assert NonEmpty(after) == [ts[j]] + NonEmpty(ts[j + 1..]);
  }

  /** Two kept specs appear in the result in the order they had among the
      candidates. */
  lemma NonEmptyKeepsOrder(ts: seq<TableSpec>, i: nat, j: nat)
    requires i < j < |ts| && |ts[i].items| > 0 && |ts[j].items| > 0
    ensures exists p, q :: 0 <= p < q < |NonEmpty(ts)| && NonEmpty(ts)[p] == ts[i] && NonEmpty(ts)[q] == ts[j]
  {
    NonEmptyPosition(ts, i);
    NonEmptyPosition(ts, j);
    NonEmptyPrefixGrows(ts, i, j);
    var p, q := |NonEmpty(ts[..i])|, |NonEmpty(ts[..j])|;
    assert 0 <= p < q < |NonEmpty(ts)| && NonEmpty(ts)[p] == ts[i] && NonEmpty(ts)[q] == ts[j];
  }

  /** A prefix that takes in one more kept spec keeps more specs. */
  lemma NonEmptyPrefixGrows(ts: seq<TableSpec>, i: nat, j: nat)
    requires i < j <= |ts| && |ts[i].items| > 0
    ensures |NonEmpty(ts[..i])| < |NonEmpty(ts[..j])|
  {
    var head, mid := ts[..i], ts[i..j];
    assert ts[..j] == head + mid;
    NonEmptyAppend(head, mid);
    assert mid[0] == ts[i];
  }

  /** The tables the card shows. */
  function EntityTables(d: DisplayHelpers.Dossier, fmt: Formatter): seq<TableSpec>
  {
    NonEmpty(EntityCandidates(d, fmt))
  }

  const TableTitles := [NamesTitle, PhonesTitle, EmailsTitle, AddressesTitle, UsernamesTitle, UserIdsTitle,
                        UrlsTitle, RelationshipsTitle, EmploymentTitle, EducationTitle]

  /** Every candidate table has its list's title and the row limit that title calls for. */
  lemma CandidateRows(d: DisplayHelpers.Dossier, fmt: Formatter)
    ensures forall i :: 0 <= i < 10 ==> EntityCandidates(d, fmt)[i].title == TableTitles[i]
    ensures forall t :: t in EntityCandidates(d, fmt) ==> t.maxRows == RowsFor(t.title)
  {
    var c := EntityCandidates(d, fmt);
    forall i | 0 <= i < 10 ensures c[i].title == TableTitles[i] {
      CandidateAt(d, fmt, i);
    }
    forall t | t in c ensures t.maxRows == RowsFor(t.title) {
      var i :| 0 <= i < 10 && c[i] == t;
      CandidateAt(d, fmt, i);
    }
  }

  /** The candidate at position `i` has the i-th title and that title's row limit. */
  lemma CandidateAt(d: DisplayHelpers.Dossier, fmt: Formatter, i: nat)
    requires i < 10
    ensures EntityCandidates(d, fmt)[i].title == TableTitles[i]
    ensures EntityCandidates(d, fmt)[i].maxRows == RowsFor(TableTitles[i])
  {
    RowLimits();
  }

  /** The row limit of each title. */
  lemma RowLimits()
    ensures RowsFor(NamesTitle) == 3 && RowsFor(PhonesTitle) == 3 && RowsFor(EmailsTitle) == 3
    ensures RowsFor(AddressesTitle) == 3 && RowsFor(UrlsTitle) == 3 && RowsFor(RelationshipsTitle) == 3
    ensures RowsFor(EmploymentTitle) == 3 && RowsFor(EducationTitle) == 3
    ensures RowsFor(UsernamesTitle) == 5 && RowsFor(UserIdsTitle) == 5
  {
  }

  /** A table appears exactly when its list is non-empty; a shown table
      collapses at five rows for usernames and user IDs, at three otherwise. */
  lemma {:induction false} EntityTablesShown(d: DisplayHelpers.Dossier, fmt: Formatter)
    ensures forall t :: t in EntityTables(d, fmt) ==> |t.items| > 0 && t.maxRows == RowsFor(t.title)
    ensures forall t :: t in EntityCandidates(d, fmt) ==> (t in EntityTables(d, fmt) <==> |t.items| > 0)
  {
    CandidateRows(d, fmt);
  }

  /** The candidate at position `i` is shown exactly when its list is non-empty. */
  lemma CandidateShownAt(d: DisplayHelpers.Dossier, fmt: Formatter, i: nat)
    requires i < 10
    ensures EntityCandidates(d, fmt)[i] in EntityTables(d, fmt) <==> |EntityCandidates(d, fmt)[i].items| > 0
  {
    var c := EntityCandidates(d, fmt);
    assert c[i] in c;
  }

  /** The usernames table is shown exactly when there are usernames, with five rows. */
  lemma {:induction false} UsernamesShown(d: DisplayHelpers.Dossier, fmt: Formatter)
    ensures UsernamesTable(d) in EntityTables(d, fmt) <==> |d.usernames| > 0
    ensures UsernamesTable(d).maxRows == 5
  {
    assert UsernamesTable(d) == EntityCandidates(d, fmt)[4];
    CandidateShownAt(d, fmt, 4);
  }

  /** The Employment and Education tables are shown exactly when the person
      has jobs, respectively educations, each collapsing at three rows. */
  lemma {:induction false} CareerShown(d: DisplayHelpers.Dossier, fmt: Formatter)
    ensures EmploymentTable(d) in EntityTables(d, fmt) <==> |d.jobs| > 0
    ensures EducationTable(d) in EntityTables(d, fmt) <==> |d.educations| > 0
    ensures EmploymentTable(d).maxRows == 3 && EducationTable(d).maxRows == 3
  {
    assert EmploymentTable(d) == EntityCandidates(d, fmt)[8];
    assert EducationTable(d) == EntityCandidates(d, fmt)[9];
    CandidateShownAt(d, fmt, 8);
    CandidateShownAt(d, fmt, 9);
  }

  // ===========================================================================
  // The details panel
  // ===========================================================================

  /** The payload: `data.data`, else `data`, else the response itself. */
  function Payload(clean: Json): (r: Json)
    ensures r == FirstTruthy([Prop(Prop(Some(clean), "data"), "data"), Prop(Some(clean), "data")], clean)
  {
    FirstTruthyOfTwo(Prop(Prop(Some(clean), "data"), "data"), Prop(Some(clean), "data"), clean);
    OrElse(Or(Prop(Prop(Some(clean), "data"), "data"), Prop(Some(clean), "data")), clean)
  }

  datatype Status = Status(status: Val, code: Val, message: Val)

  /** Each status field from the top level when truthy there, else from the payload. */
  function StatusOf(clean: Json, payload: Json): (r: Status)
    ensures forall k :: k in ["status", "code", "message"] ==>
      var v := StatusField(r, k);
      (Truthy(Prop(Some(clean), k)) ==> v == Prop(Some(clean), k))
      && (!Truthy(Prop(Some(clean), k)) ==> v == Prop(Some(payload), k))
  {
    Status(Or(Prop(Some(clean), "status"), Prop(Some(payload), "status")),
           Or(Prop(Some(clean), "code"), Prop(Some(payload), "code")),
           Or(Prop(Some(clean), "message"), Prop(Some(payload), "message")))
  }

  function StatusField(s: Status, k: string): Val
  {
    if k == "status" then s.status else if k == "code" then s.code else s.message
  }

  /** A value as an entry holds it: undefined stands as null. */
  function NullIfUndefined(v: Val): (r: Json)
    ensures v.Some? ==> r == v.value
    ensures v.None? ==> r == JNull
  {
    if v.Some? then v.value else JNull
  }

  /** An object literal `{k1: v1, ...}`: every key is present, in order; a
      binding whose value is undefined keeps its key and, as the value
      renderer prints undefined and null alike, stands as null. */
  function Literal(bindings: seq<(string, Val)>): (r: Fields)
    ensures Keys(r) == seq(|bindings|, i requires 0 <= i < |bindings| => bindings[i].0)
    ensures forall i :: 0 <= i < |bindings| && bindings[i].1.Some? ==> r[i].1 == bindings[i].1.value
    ensures forall i :: 0 <= i < |bindings| && bindings[i].1.None? ==> r[i].1 == JNull
  {
    seq(|bindings|, i requires 0 <= i < |bindings| => (bindings[i].0, NullIfUndefined(bindings[i].1)))
  }

  /** `Object.entries(obj).filter(([k]) => k.startsWith('@'))` */
  function MetadataEntries(fs: Fields): (r: Fields)
    ensures forall q :: q in r <==> q in fs && DisplayHelpers.IsMetadataKey(q.0)
  {
    if fs == [] then []
    else (if DisplayHelpers.IsMetadataKey(fs[0].0) then [fs[0]] else []) + MetadataEntries(fs[1..])
  }

  /** The Search Metadata object: search id, persons count and top match,
      then every `@` entry of the payload. */
  function SearchMetadata(payload: Json): Fields
  {
    Assign(MetadataBase(payload), Assign([], MetadataEntries(Entries(payload))))
  }

  /** A put leaves every other key's value alone. */
  lemma {:induction false} AssignOtherKey(target: Fields, source: Fields, x: string)
    requires x !in Keys(source)
    ensures Get(Assign(target, source), x) == Get(target, x)
    decreases |source|
  {
    if source != [] {
      assert x != source[0].0;
      assert Keys(source)[1..] == Keys(source[1..]);
      AssignOtherKey(Put(target, source[0].0, source[0].1), source[1..], x);
    }
  }

  /** Every entry of an assignment's result comes from the target or the source. */
  lemma {:induction false} AssignKeysFrom(target: Fields, source: Fields, x: string)
    requires x in Keys(Assign(target, source))
    ensures x in Keys(target) || x in Keys(source)
  {
    var r := Assign(target, source);
    var i :| 0 <= i < |r| && r[i].0 == x;
    assert r[i] in r;
    if r[i] in target {
      var j :| 0 <= j < |target| && target[j] == r[i];
      assert Keys(target)[j] == x;
    } else {
      var j :| 0 <= j < |source| && source[j] == r[i];
      assert Keys(source)[j] == x;
    }
  }

  /** The fixed part of the Search Metadata object. */
  function MetadataBase(payload: Json): (r: Fields)
    ensures Keys(r) == ["search_id", "persons_count", "top_match"]
  {
    Literal([("search_id", Prop(Some(payload), "@search_id")),
             ("persons_count", Prop(Some(payload), "@persons_count")),
             ("top_match", Prop(Some(payload), "top_match"))])
  }

  lemma SearchMetadataSplit(payload: Json)
    ensures SearchMetadata(payload) == Assign(MetadataBase(payload), Assign([], MetadataEntries(Entries(payload))))
  {
  }

  /** A key of the block is a fixed one or an `@` key of the payload. */
  lemma {:induction false} SearchMetadataFrom(payload: Json, x: string)
    requires x in Keys(SearchMetadata(payload))
    ensures x in ["search_id", "persons_count", "top_match"] || (DisplayHelpers.IsMetadataKey(x) && x in Keys(Entries(payload)))
  {
    var base := MetadataBase(payload);
    var meta := MetadataEntries(Entries(payload));
    var spread := Assign([], meta);
    SearchMetadataSplit(payload);
    AssignKeysFrom(base, spread, x);
    if x in Keys(spread) {
      AssignKeysFrom([], meta, x);
      KeyOfEntry(meta, x);
      var q :| q in meta && q.0 == x;
      EntryOfKey(Entries(payload), q);
    } else {
      assert x in Keys(base);
    }
  }

  /** Every `@` key of the payload is a key of the block. */
  lemma {:induction false} SearchMetadataHasMeta(payload: Json, x: string)
    requires DisplayHelpers.IsMetadataKey(x) && x in Keys(Entries(payload))
    ensures x in Keys(SearchMetadata(payload))
  {
    var base := MetadataBase(payload);
    var meta := MetadataEntries(Entries(payload));
    SearchMetadataSplit(payload);
    KeyOfEntry(Entries(payload), x);
    var q :| q in Entries(payload) && q.0 == x;
    EntryOfKey(meta, q);
  }

  /** The block's search_id is the payload's `@search_id` (null when undefined). */
  lemma {:induction false} SearchMetadataId(payload: Json)
    ensures Get(SearchMetadata(payload), "search_id") == Some(NullIfUndefined(Prop(Some(payload), "@search_id")))
  {
    var base := MetadataBase(payload);
    var meta := MetadataEntries(Entries(payload));
    var spread := Assign([], meta);
    SearchMetadataSplit(payload);
    assert "search_id" !in Keys(spread) by {
      if "search_id" in Keys(spread) {
        AssignKeysFrom([], meta, "search_id");
        KeyOfEntry(meta, "search_id");
      }
    }
    AssignOtherKey(base, spread, "search_id");
    GetLiteral(Prop(Some(payload), "@search_id"), Prop(Some(payload), "@persons_count"), Prop(Some(payload), "top_match"));
  }

  /** The block's keys are exactly search_id, persons_count and top_match
      (present even when undefined) and the payload's `@` keys; search_id
      is the payload's `@search_id`. */
  lemma {:induction false} SearchMetadataKeys(payload: Json, x: string)
    ensures x in Keys(SearchMetadata(payload)) <==>
      x in ["search_id", "persons_count", "top_match"] || (DisplayHelpers.IsMetadataKey(x) && x in Keys(Entries(payload)))
    ensures Get(SearchMetadata(payload), "search_id") == Some(NullIfUndefined(Prop(Some(payload), "@search_id")))
  {
    if x in Keys(SearchMetadata(payload)) {
      SearchMetadataFrom(payload, x);
    }
    if DisplayHelpers.IsMetadataKey(x) && x in Keys(Entries(payload)) {
      SearchMetadataHasMeta(payload, x);
    }
    if x in ["search_id", "persons_count", "top_match"] {
      SearchMetadataSplit(payload);
      assert x in Keys(MetadataBase(payload));
    }
    SearchMetadataId(payload);
  }

  /** A key of an entry list belongs to one of its entries. */
  lemma {:induction false} KeyOfEntry(fs: Fields, x: string)
    requires x in Keys(fs)
    ensures exists q :: q in fs && q.0 == x
  {
    var i :| 0 <= i < |fs| && Keys(fs)[i] == x;
    assert fs[i] in fs;
  }

  /** The key of an entry is among the keys. */
  lemma {:induction false} EntryOfKey(fs: Fields, q: (string, Json))
    requires q in fs
    ensures q.0 in Keys(fs)
  {
    var i :| 0 <= i < |fs| && fs[i] == q;
    assert Keys(fs)[i] == q.0;
  }

  /** The search id entry of the Search Metadata object literal. */
  lemma GetLiteral(a: Val, b: Val, c: Val)
    ensures Get(Literal([("search_id", a), ("persons_count", b), ("top_match", c)]), "search_id") == Some(NullIfUndefined(a))
  {
    var r := Literal([("search_id", a), ("persons_count", b), ("top_match", c)]);
    assert Keys(r)[0] == "search_id";
  }

  /** A section of the details panel: its title, whether it starts
      expanded, and what it shows. */
  datatype Section = Section(title: string, defaultExpanded: bool, content: Json)

  const StatusTitle := "API Response Status"
  const MetadataTitle := "Request Metadata"
  const PersonTitle := "Person Information"
  const QueryTitle := "Query Details"
  const AvailableTitle := "Available Premium Data"
  const SearchMetadataTitle := "Search Metadata"
  const QuotaTitle := "API Quota & Rate Limits"

  const QuotaKeys := ["QpsAllotted", "QpsCurrent", "QuotaAllotted", "QuotaCurrent", "QuotaReset",
                      "QpsLiveAllotted", "QpsLiveCurrent"]

  /** The object literal `{k: payload.k, ...}` over the given keys: every
      key is present, in order, holding the payload's value (null when undefined). */
  function Pick(payload: Json, keys: seq<string>): (r: Fields)
    ensures Keys(r) == keys
    ensures forall i :: 0 <= i < |keys| && Prop(Some(payload), keys[i]).Some? ==> Some(r[i].1) == Prop(Some(payload), keys[i])
    ensures forall i :: 0 <= i < |keys| && Prop(Some(payload), keys[i]).None? ==> r[i].1 == JNull
  {
    Literal(seq(|keys|, i requires 0 <= i < |keys| => (keys[i], Prop(Some(payload), keys[i]))))
  }

  /** The sections the panel could show, each with the condition under which it does, in panel order. */
  function Candidates(clean: Json): (r: seq<(bool, Section)>)
    ensures |r| == 7
    ensures forall i :: 0 <= i < 7 ==> r[i].1.title == PanelTitles[i]
  {
    var payload := Payload(clean);
    var status := StatusOf(clean, payload);
    Panel(status, Prop(Some(clean), "metadata"), Prop(Some(payload), "person"),
          Prop(Some(payload), "query"), Prop(Some(payload), "available_data"),
          Prop(Some(payload), "@search_id"), SearchMetadata(payload),
          Truthy(Prop(Some(payload), "QpsAllotted")) || Truthy(Prop(Some(payload), "QuotaAllotted")),
          Pick(payload, QuotaKeys))
  }

  /** The seven candidate sections, in panel order, with their conditions. */
  function Panel(status: Status, metadata: Val, person: Val, query: Val, available: Val,
                 searchId: Val, searchMetadata: Fields, hasQuota: bool, quota: Fields): (r: seq<(bool, Section)>)
    ensures |r| == 7
    ensures forall i :: 0 <= i < 7 ==> r[i].1.title == PanelTitles[i]
  {
    [ (Truthy(status.status) || Truthy(status.code),
       Section(StatusTitle, true, StatusObject(status))),
      (Truthy(metadata), Section(MetadataTitle, true, OrElse(metadata, JNull))),
      (Truthy(person), Section(PersonTitle, true, OrElse(person, JNull))),
      (Truthy(query), Section(QueryTitle, false, OrElse(query, JNull))),
      (Truthy(available), Section(AvailableTitle, true, OrElse(available, JNull))),
      (Truthy(searchId), Section(SearchMetadataTitle, false, JObj(searchMetadata))),
      (hasQuota, Section(QuotaTitle, false, JObj(quota))) ]
  }

  /** The sections whose condition holds, in order. */
  function Shown(cs: seq<(bool, Section)>): (r: seq<Section>)
    ensures forall s :: s in r <==> exists i :: 0 <= i < |cs| && cs[i].0 && cs[i].1 == s
  {
    if cs == [] then []
    else
      var rest := Shown(cs[1..]);
      assert forall i :: 1 <= i < |cs| ==> cs[1..][i - 1] == cs[i];
      (if cs[0].0 then [cs[0].1] else []) + rest
  }

  /** The details panel: nothing to show unless the data is an object (or
      array); otherwise the sections whose data is present, computed on the
      display-sanitized response. */
  function Render(data: Val): (r: Option<seq<Section>>)
    ensures r.None? <==> !IsObjectLike(data)
  {
    if !Truthy(data) || !IsObjectLike(data) then None
    else Some(Shown(Candidates(DisplayHelpers.SanitizeForDisplay(data.value))))
  }

  function Titles(ss: seq<Section>): (r: seq<string>)
    ensures |r| == |ss| && forall i :: 0 <= i < |ss| ==> r[i] == ss[i].title
  {
    seq(|ss|, i requires 0 <= i < |ss| => ss[i].title)
  }

  const PanelTitles := [StatusTitle, MetadataTitle, PersonTitle, QueryTitle, AvailableTitle,
                        SearchMetadataTitle, QuotaTitle]

  /** No two panel titles coincide. */
  lemma PanelTitlesDistinct()
    ensures forall i, j :: 0 <= i < j < 7 ==> PanelTitles[i] != PanelTitles[j]
  {
    assert PanelTitles[0][4] == 'R' && PanelTitles[6][4] == 'Q';
  }

  /** A section whose title no other candidate has is shown exactly when its condition holds. */
  lemma {:induction false} ShownIff(cs: seq<(bool, Section)>, i: nat)
    requires i < |cs| && forall j :: 0 <= j < |cs| && j != i ==> cs[j].1.title != cs[i].1.title
    ensures cs[i].1.title in Titles(Shown(cs)) <==> cs[i].0
  {
    var r := Shown(cs);
    if cs[i].1.title in Titles(r) {
      var k :| 0 <= k < |r| && Titles(r)[k] == cs[i].1.title;
      assert r[k] in r;
      var j :| 0 <= j < |cs| && cs[j].0 && cs[j].1 == r[k];
    }
    if cs[i].0 {
      assert cs[i].1 in r;
      var k :| 0 <= k < |r| && r[k] == cs[i].1;
      assert Titles(r)[k] == cs[i].1.title;
    }
  }

  /** Each panel section is shown exactly when its condition holds. */
  lemma {:induction false} PanelShownIff(cs: seq<(bool, Section)>, i: nat)
    requires |cs| == 7 && i < 7
    requires forall j :: 0 <= j < 7 ==> cs[j].1.title == PanelTitles[j]
    ensures PanelTitles[i] in Titles(Shown(cs)) <==> cs[i].0
  {
    PanelTitlesDistinct();
    ShownIff(cs, i);
  }

  /** The condition of each panel section, and the content of the Search Metadata one. */
  lemma PanelAt(status: Status, metadata: Val, person: Val, query: Val, available: Val,
                searchId: Val, searchMetadata: Fields, hasQuota: bool, quota: Fields)
    ensures var cs := Panel(status, metadata, person, query, available, searchId, searchMetadata, hasQuota, quota);
            && cs[0].0 == (Truthy(status.status) || Truthy(status.code))
            && cs[0].1.content == StatusObject(status)
            && cs[2].0 == Truthy(person)
            && cs[5] == (Truthy(searchId), Section(SearchMetadataTitle, false, JObj(searchMetadata)))
            && cs[6].0 == hasQuota
  {
  }

  /** The condition and content of each candidate section, read off the response. */
  lemma CandidatesAt(clean: Json)
    ensures var payload := Payload(clean);
            var cs := Candidates(clean);
            && cs[0].0 == (Truthy(StatusOf(clean, payload).status) || Truthy(StatusOf(clean, payload).code))
            && cs[0].1.content == StatusObject(StatusOf(clean, payload))
            && cs[2].0 == Truthy(Prop(Some(payload), "person"))
            && cs[5] == (Truthy(Prop(Some(payload), "@search_id")), Section(SearchMetadataTitle, false, JObj(SearchMetadata(payload))))
            && cs[6].0 == (Truthy(Prop(Some(payload), "QpsAllotted")) || Truthy(Prop(Some(payload), "QuotaAllotted")))
  {
    var payload := Payload(clean);
    var status := StatusOf(clean, payload);
    var hasQuota := Truthy(Prop(Some(payload), "QpsAllotted")) || Truthy(Prop(Some(payload), "QuotaAllotted"));
    assert Candidates(clean)
        == Panel(status, Prop(Some(clean), "metadata"), Prop(Some(payload), "person"),
                 Prop(Some(payload), "query"), Prop(Some(payload), "available_data"),
                 Prop(Some(payload), "@search_id"), SearchMetadata(payload), hasQuota, Pick(payload, QuotaKeys));
    PanelAt(status, Prop(Some(clean), "metadata"), Prop(Some(payload), "person"),
            Prop(Some(payload), "query"), Prop(Some(payload), "available_data"),
            Prop(Some(payload), "@search_id"), SearchMetadata(payload), hasQuota, Pick(payload, QuotaKeys));
  }

  /** The Search Metadata section is shown exactly when the payload has a
      truthy `@search_id`, starts collapsed, and shows SearchMetadata. */
  lemma {:induction false} SearchMetadataShown(clean: Json)
    ensures SearchMetadataTitle in Titles(Shown(Candidates(clean))) <==> Truthy(Prop(Some(Payload(clean)), "@search_id"))
    ensures Candidates(clean)[5].1 == Section(SearchMetadataTitle, false, JObj(SearchMetadata(Payload(clean))))
  {
    CandidatesAt(clean);
    PanelShownIff(Candidates(clean), 5);
  }

  /** The status object of the panel: its three keys always, an undefined value as null. */
  function StatusObject(status: Status): (r: Json)
    ensures r.JObj? && Keys(r.fields) == ["status", "code", "message"]
    ensures r.fields[0].1 == NullIfUndefined(status.status)
    ensures r.fields[1].1 == NullIfUndefined(status.code)
    ensures r.fields[2].1 == NullIfUndefined(status.message)
  {
    var r := Literal([("status", status.status), ("code", status.code), ("message", status.message)]);
    assert Keys(r) == ["status", "code", "message"];
    JObj(r)
  }

  /** The status section is shown exactly when the merged status or code is
      truthy, and it always lists status, code and message. */
  lemma {:induction false} StatusShown(clean: Json)
    ensures StatusTitle in Titles(Shown(Candidates(clean)))
            <==> Truthy(StatusOf(clean, Payload(clean)).status) || Truthy(StatusOf(clean, Payload(clean)).code)
    ensures Candidates(clean)[0].1.content == StatusObject(StatusOf(clean, Payload(clean)))
  {
    CandidatesAt(clean);
    PanelShownIff(Candidates(clean), 0);
  }

  /** The quota section is shown exactly when the payload has a truthy
      QpsAllotted or QuotaAllotted. */
  lemma {:induction false} QuotaShown(clean: Json)
    ensures QuotaTitle in Titles(Shown(Candidates(clean)))
            <==> Truthy(Prop(Some(Payload(clean)), "QpsAllotted")) || Truthy(Prop(Some(Payload(clean)), "QuotaAllotted"))
  {
    CandidatesAt(clean);
    PanelShownIff(Candidates(clean), 6);
  }

  /** The person section is shown exactly when the payload has a truthy person. */
  lemma {:induction false} PersonShown(clean: Json)
    ensures PersonTitle in Titles(Shown(Candidates(clean))) <==> Truthy(Prop(Some(Payload(clean)), "person"))
  {
    CandidatesAt(clean);
    PanelShownIff(Candidates(clean), 2);
  }
}
