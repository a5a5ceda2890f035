/** The browser-side export helpers: the export sanitizer, the CSV
    flattener and row builder, the HTML value formatter and section
    renderer, and the data-shape normalisation in front of the DOCX request. */
module ExportUtils {
  import opened Js
  import opened KeyPolicy

  // ===========================================================================
  // sanitizeForExport
  // ===========================================================================

  /** `sanitizeForExport(obj, debugMode)` */
  method SanitizeForExport(obj: Json, debugMode: bool) returns (r: Json)
    ensures r == Prune(obj, Export(debugMode))
  {
    r := CleanTree(obj, Export(debugMode));
  }

  /** The deny-listed identifiers and `endpoint` are gone at every depth,
      whatever the debug flag. */
  lemma {:induction false} ExportDropsInternalKeys(obj: Json, debugMode: bool, k: string)
    requires InternalKey(k) || k == "endpoint"
    ensures !HasKey(Prune(obj, Export(debugMode)), k)
  {
    PruneRemoves(obj, Export(debugMode), k);
  }

  /** Without debug mode no key containing `quota` or `qps` survives. */
  lemma {:induction false} ExportDropsQuotaKeys(obj: Json, k: string)
    requires Contains(k, "quota") || Contains(k, "qps")
    ensures !HasKey(Prune(obj, Export(false)), k)
  {
    PruneRemoves(obj, Export(false), k);
  }

  /** With debug mode a quota/QPS entry that is not otherwise deny-listed stays. */
  lemma {:induction false} DebugKeepsQuotaKeys(fs: Fields, i: nat)
    requires i < |fs| && QuotaKey(fs[i].0) && !InternalKey(fs[i].0) && fs[i].0 != "endpoint"
    ensures HasKey(Prune(JObj(fs), Export(true)), fs[i].0)
  {
    PruneKeeps(fs, Export(true), i);
  }

  // ===========================================================================
  // flattenObject
  // ===========================================================================

  /** Keys the flattener skips at every level. */
  predicate FlattenSkips(k: string)
  {
    InternalKey(k) || k == "metadata"
  }

  /** `prefix ? `${prefix}.${key}` : key` */
  function PathKey(prefix: string, key: string): (r: string)
    ensures prefix != "" ==> StartsWith(r, prefix + ".")
    ensures prefix == "" ==> r == key
  {
    if prefix != "" then prefix + "." + key else key
  }

  /** `typeof x === 'object' && x !== null` */
  predicate IsObjectValue(j: Json)
  {
    j.JArr? || j.JObj?
  }

  /** The single cell an array becomes: "" when empty; the items' JSON
      joined by " | " when the first item is an object; else the items joined by "; ". */
  function ArrayCell(xs: seq<Json>): string
  {
    if xs == [] then ""
    else if IsObjectValue(xs[0]) then Join(seq(|xs|, i requires 0 <= i < |xs| => Stringify(xs[i])), " | ")
    else JoinValues(xs, "; ")
  }

  /** The flat map after the first `n` entries of `obj` under `prefix`. */
  function FlattenUpTo(obj: Json, prefix: string, n: nat): Fields
    requires obj.JObj? && n <= |obj.fields|
    decreases obj, 1, n
  {
    if n == 0 then []
    else FlattenEntry(FlattenUpTo(obj, prefix, n - 1), prefix, obj.fields[n - 1].0, obj.fields[n - 1].1)
  }

  /** One iteration of the loop: the entry `key: value` added to `acc`. */
  function FlattenEntry(acc: Fields, prefix: string, key: string, value: Json): Fields
    decreases value, 2
  {
    if FlattenSkips(key) || value.JNull? then acc
    else
      var newKey := PathKey(prefix, key);
      match value
      case JArr(xs) => Put(acc, newKey, JStr(ArrayCell(xs)))
      case JObj(_) => Assign(acc, FlattenUpTo(value, newKey, |value.fields|))
      case _ => Put(acc, newKey, value)
  }

  /** `flattenObject(obj, prefix)` on an object. */
  function Flatten(obj: Json, prefix: string): Fields
    requires obj.JObj?
  {
    FlattenUpTo(obj, prefix, |obj.fields|)
  }

  /** `flattenObject(data)` at the top: `Object.entries` of null throws; other
      primitives have no entries; arrays and strings have index keys. */
  function FlattenTop(data: Json): Result<Fields>
  {
    if data.JNull? then Err("Cannot convert undefined or null to object")
    else Ok(Flatten(JObj(Entries(data)), ""))
  }

  /** The for-of loop of `flattenObject`, with `Object.assign` of the
      recursive result for nested objects. */
  method FlattenObject(obj: Json, prefix: string) returns (result: Fields)
    requires obj.JObj?
    ensures result == Flatten(obj, prefix)
    decreases obj
  {
    result := [];
    var i := 0;
    while i < |obj.fields|
      invariant 0 <= i <= |obj.fields|
      invariant result == FlattenUpTo(obj, prefix, i)
    {
      var key := obj.fields[i].0;
      var value := obj.fields[i].1;
      if !FlattenSkips(key) && !value.JNull? {
        var newKey := PathKey(prefix, key);
        if value.JArr? {
          result := Put(result, newKey, JStr(ArrayCell(value.items)));
        } else if value.JObj? {
          var nested := FlattenObject(value, newKey);
          result := Assign(result, nested);
        } else {
          result := Put(result, newKey, value);
        }
      }
      i := i + 1;
    }
  }

  /** A value that can sit in a CSV cell: never null, an array or an object. */
  predicate CellValue(j: Json)
  {
    j.JStr? || j.JNum? || j.JBool?
  }

  /** Every flattened value is a string, number or boolean: nulls are skipped,
      arrays become one string and objects are expanded. */
  lemma {:induction false} FlattenCells(obj: Json, prefix: string, n: nat)
    requires obj.JObj? && n <= |obj.fields|
    ensures forall q :: q in FlattenUpTo(obj, prefix, n) ==> CellValue(q.1)
    decreases obj, 1, n
  {
    if n > 0 {
      FlattenCells(obj, prefix, n - 1);
      EntryCells(FlattenUpTo(obj, prefix, n - 1), prefix, obj.fields[n - 1].0, obj.fields[n - 1].1);
    }
  }

  lemma {:induction false} EntryCells(acc: Fields, prefix: string, key: string, value: Json)
    requires forall q :: q in acc ==> CellValue(q.1)
    ensures forall q :: q in FlattenEntry(acc, prefix, key, value) ==> CellValue(q.1)
    decreases value, 2
  {
    if !FlattenSkips(key) && value.JObj? {
      FlattenCells(value, PathKey(prefix, key), |value.fields|);
    }
  }

  /** The flattened map never repeats a key. */
  lemma {:induction false} FlattenDistinct(obj: Json, prefix: string, n: nat)
    requires obj.JObj? && n <= |obj.fields|
    ensures DistinctKeys(FlattenUpTo(obj, prefix, n))
  {
    if n > 0 {
      var acc := FlattenUpTo(obj, prefix, n - 1);
      var e := obj.fields[n - 1];
      assert FlattenUpTo(obj, prefix, n) == FlattenEntry(acc, prefix, e.0, e.1);
      FlattenDistinct(obj, prefix, n - 1);
      EntryDistinct(acc, prefix, e.0, e.1);
    }
  }

  lemma {:induction false} EntryDistinct(acc: Fields, prefix: string, key: string, value: Json)
    requires DistinctKeys(acc)
    ensures DistinctKeys(FlattenEntry(acc, prefix, key, value))
  {
    if !FlattenSkips(key) && !value.JNull? {
      var newKey := PathKey(prefix, key);
      match value {
        case JArr(xs) => PutKeepsDistinct(acc, newKey, JStr(ArrayCell(xs)));
        case JObj(_) => AssignKeepsDistinct(acc, FlattenUpTo(value, newKey, |value.fields|));
        case _ => PutKeepsDistinct(acc, newKey, value);
      }
    }
  }

  lemma StartsWithTrans(s: string, t: string, u: string)
    requires StartsWith(s, t) && StartsWith(t, u)
    ensures StartsWith(s, u)
  {
    assert s[..|u|] == s[..|t|][..|u|];
  }

  /** Under a non-empty prefix every key is "prefix.…": a nested object
      under key k contributes only keys "p.k.…" and never k itself. */
  lemma {:induction false} FlattenUnderPrefix(obj: Json, prefix: string, n: nat)
    requires obj.JObj? && n <= |obj.fields| && prefix != ""
    ensures forall q :: q in FlattenUpTo(obj, prefix, n) ==> StartsWith(q.0, prefix + ".")
    ensures prefix !in Keys(FlattenUpTo(obj, prefix, n))
    decreases obj, 1, n
  {
    var r := FlattenUpTo(obj, prefix, n);
    if n > 0 {
      FlattenUnderPrefix(obj, prefix, n - 1);
      EntryUnderPrefix(FlattenUpTo(obj, prefix, n - 1), prefix, obj.fields[n - 1].0, obj.fields[n - 1].1);
    }
    forall i | 0 <= i < |r| ensures r[i].0 != prefix {
      assert r[i] in r;
    }
  }

  lemma {:induction false} EntryUnderPrefix(acc: Fields, prefix: string, key: string, value: Json)
    requires prefix != ""
    requires forall q :: q in acc ==> StartsWith(q.0, prefix + ".")
    ensures forall q :: q in FlattenEntry(acc, prefix, key, value) ==> StartsWith(q.0, prefix + ".")
    decreases value, 2
  {
    var newKey := PathKey(prefix, key);
    if !FlattenSkips(key) && !value.JNull? {
      if value.JObj? {
        var nested := FlattenUpTo(value, newKey, |value.fields|);
        FlattenUnderPrefix(value, newKey, |value.fields|);
        forall q | q in nested ensures StartsWith(q.0, prefix + ".") {
          StartsWithTrans(q.0, newKey + ".", newKey);
          StartsWithTrans(q.0, newKey, prefix + ".");
        }
        assert FlattenEntry(acc, prefix, key, value) == Assign(acc, nested);
      } else if value.JArr? {
        assert FlattenEntry(acc, prefix, key, value) == Put(acc, newKey, JStr(ArrayCell(value.items)));
      } else {
        assert FlattenEntry(acc, prefix, key, value) == Put(acc, newKey, value);
      }
    }
  }

  /** The entries of `fs` the flattener does not skip at this level. */
  function Retained(fs: Fields): (r: Fields)
    ensures forall q :: q in r ==> q in fs && !FlattenSkips(q.0) && !q.1.JNull?
  {
    if fs == [] then []
    else if FlattenSkips(fs[|fs| - 1].0) || fs[|fs| - 1].1.JNull? then Retained(fs[..|fs| - 1])
    else Retained(fs[..|fs| - 1]) + [fs[|fs| - 1]]
  }

  lemma {:induction false} FlattenSamePrefix(a: Json, b: Json, prefix: string, n: nat)
    requires a.JObj? && b.JObj? && n <= |a.fields| && n <= |b.fields|
    requires a.fields[..n] == b.fields[..n]
    ensures FlattenUpTo(a, prefix, n) == FlattenUpTo(b, prefix, n)
  {
    if n > 0 {
      assert a.fields[..n - 1] == a.fields[..n][..n - 1];
      assert b.fields[..n - 1] == b.fields[..n][..n - 1];
      assert a.fields[n - 1] == a.fields[..n][n - 1];
      assert b.fields[n - 1] == b.fields[..n][n - 1];
      FlattenSamePrefix(a, b, prefix, n - 1);
    }
  }

  /** Skipped keys and null values contribute nothing: dropping them first
      gives the same flat map. Nested levels are flattened by the same
      definition, so this holds at every depth. */
  lemma {:induction false} FlattenIgnoresSkipped(obj: Json, prefix: string, n: nat)
    requires obj.JObj? && n <= |obj.fields|
    ensures FlattenUpTo(obj, prefix, n) == Flatten(JObj(Retained(obj.fields[..n])), prefix)
  {
    if n > 0 {
      var fs := obj.fields[..n];
      assert fs[..n - 1] == obj.fields[..n - 1];
      FlattenIgnoresSkipped(obj, prefix, n - 1);
      var before := Retained(obj.fields[..n - 1]);
      var f := obj.fields[n - 1];
      assert fs[n - 1] == f;
      var acc := FlattenUpTo(obj, prefix, n - 1);
      assert FlattenUpTo(obj, prefix, n) == FlattenEntry(acc, prefix, f.0, f.1);
      if FlattenSkips(f.0) || f.1.JNull? {
        assert Retained(fs) == before;
      } else {
        assert Retained(fs) == before + [f];
        FlattenSnoc(before, f, prefix);
      }
    }
  }

  /** Flattening entries with one more at the end adds that entry last. */
  lemma FlattenSnoc(before: Fields, f: (string, Json), prefix: string)
    ensures Flatten(JObj(before + [f]), prefix) == FlattenEntry(Flatten(JObj(before), prefix), prefix, f.0, f.1)
  {
    var kept := JObj(before + [f]);
    assert kept.fields[..|before|] == before;
    FlattenSamePrefix(kept, JObj(before), prefix, |before|);
    assert JObj(before).fields[..|before|] == before;
    assert kept.fields[|before|] == f;
  }

  /** A later entry never removes a key. */
  lemma {:induction false} FlattenKeysGrow(obj: Json, prefix: string, m: nat, n: nat)
    requires obj.JObj? && m <= n <= |obj.fields|
    ensures forall x :: x in Keys(FlattenUpTo(obj, prefix, m)) ==> x in Keys(FlattenUpTo(obj, prefix, n))
    decreases n - m
  {
    if m < n {
      FlattenKeysGrow(obj, prefix, m + 1, n);
      EntryKeysGrow(FlattenUpTo(obj, prefix, m), prefix, obj.fields[m].0, obj.fields[m].1);
    }
  }

  lemma {:induction false} EntryKeysGrow(acc: Fields, prefix: string, key: string, value: Json)
    ensures forall x :: x in Keys(acc) ==> x in Keys(FlattenEntry(acc, prefix, key, value))
  {
    if !FlattenSkips(key) && !value.JNull? {
      var newKey := PathKey(prefix, key);
      if value.JArr? {
        PutKeys(acc, newKey, JStr(ArrayCell(value.items)));
      } else if !value.JObj? {
        PutKeys(acc, newKey, value);
      }
    }
  }

  /** Nothing non-skipped is lost: the path of every non-null leaf or array
      entry is a key of the result, and so is every key a nested object contributes. */
  lemma {:induction false} FlattenKeepsPaths(obj: Json, prefix: string, i: nat)
    requires obj.JObj? && i < |obj.fields|
    requires !FlattenSkips(obj.fields[i].0) && !obj.fields[i].1.JNull?
    ensures !obj.fields[i].1.JObj? ==> PathKey(prefix, obj.fields[i].0) in Keys(Flatten(obj, prefix))
    ensures obj.fields[i].1.JObj? ==>
      forall x :: x in Keys(Flatten(obj.fields[i].1, PathKey(prefix, obj.fields[i].0))) ==> x in Keys(Flatten(obj, prefix))
  {
    var key, value := obj.fields[i].0, obj.fields[i].1;
    FlattenKeysGrow(obj, prefix, i + 1, |obj.fields|);
    var acc := FlattenUpTo(obj, prefix, i);
    assert FlattenUpTo(obj, prefix, i + 1) == FlattenEntry(acc, prefix, key, value);
    var newKey := PathKey(prefix, key);
    if value.JArr? {
      PutKeys(acc, newKey, JStr(ArrayCell(value.items)));
    } else if !value.JObj? {
      PutKeys(acc, newKey, value);
    }
  }

  // ===========================================================================
  // exportToCSV
  // ===========================================================================

  /** Steps one to four of the header clean-up: drop '@', '.' to '_', '_'
      before each capital, lower case. */
  function HeaderChars(h: string): (r: string)
    ensures '@' !in r && '.' !in r
    ensures forall x :: x in r ==> !IsUpperAscii(x)
  {
    if h == [] then []
    else
      var c := h[0];
      (if c == '@' then "" else if c == '.' then "_" else if IsUpperAscii(c) then ['_', LowerChar(c)] else [LowerChar(c)])
      + HeaderChars(h[1..])
  }

  /** `.replace(/_+/g, '_')` */
  function CollapseUnderscores(s: string): (r: string)
    ensures forall x :: x in r ==> x in s
    ensures forall i :: 0 <= i < |r| - 1 ==> !(r[i] == '_' && r[i + 1] == '_')
  {
    if |s| < 2 then s
    else if s[|s| - 1] == '_' && s[|s| - 2] == '_' then CollapseUnderscores(s[..|s| - 1])
    else
      var init := CollapseUnderscores(s[..|s| - 1]);
      assert s[|s| - 2] in s[..|s| - 1];
      init + [s[|s| - 1]]
  }

  /** `.replace(/^_|_$/g, '')` */
  function TrimUnderscores(s: string): (r: string)
    ensures forall x :: x in r ==> x in s
  {
    var t := if |s| > 0 && s[0] == '_' then s[1..] else s;
    if |t| > 0 && t[|t| - 1] == '_' then t[..|t| - 1] else t
  }

  /** A CSV column title from a flattened key, e.g. "person.firstName" gives "Person First Name". */
  function HeaderLabel(h: string): string
  {
    var t := TrimUnderscores(CollapseUnderscores(HeaderChars(h)));
    var words := Split(t, '_');
    Join(seq(|words|, i requires 0 <= i < |words| => CapitalizeFirst(words[i])), " ")
  }

  /** Column titles hold no '@', '.' or '_'. */
  lemma {:induction false} HeaderLabelClean(h: string)
    ensures '@' !in HeaderLabel(h) && '.' !in HeaderLabel(h) && '_' !in HeaderLabel(h)
  {
    var t := TrimUnderscores(CollapseUnderscores(HeaderChars(h)));
    var words := Split(t, '_');
    var caps := seq(|words|, i requires 0 <= i < |words| => CapitalizeFirst(words[i]));
    forall i | 0 <= i < |caps| ensures '@' !in caps[i] && '.' !in caps[i] && '_' !in caps[i] {
      SplitChars(t, '_', '@');
      SplitChars(t, '_', '.');
      assert forall x :: x in caps[i] ==> x in words[i] || IsUpperAscii(x);
    }
    JoinNoChar(caps, " ", '@');
    JoinNoChar(caps, " ", '.');
    JoinNoChar(caps, " ", '_');
  }

  /** `String(v).replace(/"/g, '""')` */
  function DoubleQuotes(s: string): (r: string)
  {
    if s == [] then [] else (if s[0] == '"' then "\"\"" else [s[0]]) + DoubleQuotes(s[1..])
  }

  /** Reads a doubled-quote text back. */
  function UndoubleQuotes(s: string): string
  {
    if s == [] then []
    else if |s| >= 2 && s[0] == '"' && s[1] == '"' then "\"" + UndoubleQuotes(s[2..])
    else [s[0]] + UndoubleQuotes(s[1..])
  }

  lemma {:induction false} UndoubleDouble(s: string)
    ensures UndoubleQuotes(DoubleQuotes(s)) == s
  {
    if s != [] {
      UndoubleDouble(s[1..]);
      var d := DoubleQuotes(s);
      if s[0] == '"' {
        assert d[2..] == DoubleQuotes(s[1..]);
      } else {
        assert d[1..] == DoubleQuotes(s[1..]);
      }
    }
  }

  /** One CSV data cell. */
  function CsvCell(v: Json): string
  {
    "\"" + DoubleQuotes(JsString(v)) + "\""
  }

  /** Reads a CSV cell back to the text it quotes. */
  function UnquoteCell(c: string): string
  {
    if |c| >= 2 then UndoubleQuotes(c[1..|c| - 1]) else c
  }

  /** Every cell is quoted and gives back `String(v)`. */
  lemma {:induction false} CsvCellRoundTrip(v: Json)
    ensures var c := CsvCell(v); |c| >= 2 && c[0] == '"' && c[|c| - 1] == '"'
    ensures UnquoteCell(CsvCell(v)) == JsString(v)
  {
    var d := DoubleQuotes(JsString(v));
    assert CsvCell(v)[1..|CsvCell(v)| - 1] == d;
    UndoubleDouble(JsString(v));
  }

  function HeaderRow(flat: Fields): (r: seq<string>)
    ensures |r| == |flat|
  {
    seq(|flat|, i requires 0 <= i < |flat| => HeaderLabel(flat[i].0))
  }

  function ValueRow(flat: Fields): (r: seq<string>)
    ensures |r| == |flat|
  {
    seq(|flat|, i requires 0 <= i < |flat| => CsvCell(flat[i].1))
  }

  /** What `exportToCSV` does with its data. */
  datatype CsvOutcome = NoData | Failed(reason: string) | Csv(content: string)

  /** `exportToCSV(data)`: sanitize, flatten, and write a header line and one data line. */
  function ExportToCsv(data: Json): CsvOutcome
  {
    match FlattenTop(Prune(data, Export(false)))
    case Err(m) => Failed(m)
    case Ok(flat) =>
      if |flat| == 0 then NoData
      else Csv(Join([Join(HeaderRow(flat), ","), Join(ValueRow(flat), ",")], "\n"))
  }

  /** An empty flat map exports nothing; otherwise the file is one header
      line and one data line with one title per value, in flat-map order,
      each value quoted so that it reads back as `String(v)`. */
  lemma {:induction false} CsvShape(data: Json)
    requires data != JNull
    ensures var flat := Flatten(JObj(Entries(Prune(data, Export(false)))), "");
      && (ExportToCsv(data) == NoData <==> flat == [])
      && (flat != [] ==>
            && ExportToCsv(data) == Csv(Join(HeaderRow(flat), ",") + "\n" + Join(ValueRow(flat), ","))
            && |HeaderRow(flat)| == |ValueRow(flat)| == |flat|
            && (forall i :: 0 <= i < |flat| ==> HeaderRow(flat)[i] == HeaderLabel(flat[i].0))
            && (forall i :: 0 <= i < |flat| ==> UnquoteCell(ValueRow(flat)[i]) == JsString(flat[i].1)))
  {
    var s := Prune(data, Export(false));
    assert s != JNull by {
      if data.JArr? || data.JObj? {
      } else {
        assert s == data;
      }
    }
    var flat := Flatten(JObj(Entries(s)), "");
    forall i | 0 <= i < |flat| ensures UnquoteCell(ValueRow(flat)[i]) == JsString(flat[i].1) {
      CsvCellRoundTrip(flat[i].1);
    }
    assert FlattenTop(s) == Ok(flat);
    if flat != [] {
      var parts := [Join(HeaderRow(flat), ","), Join(ValueRow(flat), ",")];
      assert parts[..1] == [parts[0]];
      assert Join(parts, "\n") == Join(parts[..1], "\n") + "\n" + parts[1];
    }
  }

  /** Exporting null fails the way `Object.entries(null)` does. */
  lemma ExportNullFails()
    ensures ExportToCsv(JNull).Failed?
  {
  }

  // ===========================================================================
  // formatValue
  // ===========================================================================

  const NaMarker := "<em style=\"color: #999;\">N/A</em>"
  const EmptyMarker := "<em style=\"color: #999;\">Empty</em>"
  const EmptyArrayMarker := "<em style=\"color: #999;\">Empty array</em>"

  /** `formatValue(value)`; an array item whose entries cannot be listed (null) throws. */
  function FormatValue(v: Json): Result<string>
    decreases v, 3
  {
    match v
    case JNull => Ok(NaMarker)
    case JBool(b) => Ok(if b then "Yes" else "No")
    case JStr(s) => Ok(if s != "" then s else EmptyMarker)
    case JNum(n) => Ok(IntToString(n))
    case JArr(xs) =>
      if xs == [] then Ok(EmptyArrayMarker)
      else if IsObjectValue(xs[0]) then FormatItems(v, |xs|)
      else Ok(JoinValues(xs, ", "))
    case JObj(fs) =>
      match FormatEntries(v, |fs|, false)
      case Ok(inner) => Ok("<div style=\"margin-left: 15px; margin-top: 5px;\">" + inner + "</div>")
      case Err(m) => Err(m)
  }

  /** One `<div>` per entry: `<strong>k:</strong> formatValue(v)`; indented inside an item block. */
  function EntryDiv(k: string, formatted: string, inItem: bool): string
  {
    (if inItem then "<div style=\"margin-left: 10px;\">" else "<div>")
    + "<strong>" + k + ":</strong> " + formatted + "</div>"
  }

  /** The first `n` entries of the object or array `parent`, each as an EntryDiv. */
  function FormatEntries(parent: Json, n: nat, inItem: bool): Result<string>
    requires (parent.JObj? && n <= |parent.fields|) || (parent.JArr? && n <= |parent.items|)
    decreases parent, 1, n
  {
    if n == 0 then Ok("")
    else
      var key := if parent.JObj? then parent.fields[n - 1].0 else IntToString(n - 1);
      var value := if parent.JObj? then parent.fields[n - 1].1 else parent.items[n - 1];
      match FormatEntries(parent, n - 1, inItem)
      case Err(m) => Err(m)
      case Ok(prev) =>
        match FormatValue(value)
        case Err(m) => Err(m)
        case Ok(f) => Ok(prev + EntryDiv(key, f, inItem))
  }

  /** The first `n` items of an array of objects, each as an item block. */
  function FormatItems(arr: Json, n: nat): Result<string>
    requires arr.JArr? && n <= |arr.items|
    decreases arr, 1, n
  {
    if n == 0 then Ok("")
    else
      match FormatItems(arr, n - 1)
      case Err(m) => Err(m)
      case Ok(prev) =>
        match ItemEntries(arr.items[n - 1])
        case Err(m) => Err(m)
        case Ok(inner) =>
          Ok(prev + "\n        <div style=\"margin-left: 20px; margin-top: 10px; padding: 10px; background: #fff; border-left: 3px solid #3498db;\">\n          <strong>Item "
             + IntToString(n) + ":</strong><br/>\n          " + inner + "\n        </div>\n      ")
  }

  /** `Object.entries(item).map(...).join('')` for one array item. */
  function ItemEntries(item: Json): Result<string>
    decreases item, 2
  {
    match item
    case JNull => Err("Cannot convert undefined or null to object")
    case JObj(fs) => FormatEntries(item, |fs|, true)
    case JArr(ys) => FormatEntries(item, |ys|, true)
    case JStr(s) => Ok(StringEntries(s, |s|))
    case _ => Ok("")
  }

  /** The entries of a string item: one character per index, shown as itself. */
  function StringEntries(s: string, n: nat): string
    requires n <= |s|
  {
    if n == 0 then "" else StringEntries(s, n - 1) + EntryDiv(IntToString(n - 1), [s[n - 1]], true)
  }

  /** The scalar cases of `formatValue`, with numbers read back to their value. */
  lemma FormatValueScalars(b: bool, s: string, n: int)
    ensures FormatValue(JNull) == Ok(NaMarker)
    ensures FormatValue(JBool(b)) == Ok(if b then "Yes" else "No")
    ensures FormatValue(JStr("")) == Ok(EmptyMarker)
    ensures s != "" ==> FormatValue(JStr(s)) == Ok(s)
    ensures FormatValue(JNum(n)).Ok? && ParseInt(FormatValue(JNum(n)).value) == n
  {
    IntToStringRoundTrip(n);
  }

  /** An array of primitives renders as its items joined by ", ";
      an empty array renders as the empty-array marker. */
  lemma FormatValueArrays(xs: seq<Json>)
    ensures xs == [] ==> FormatValue(JArr(xs)) == Ok(EmptyArrayMarker)
    ensures xs != [] && !IsObjectValue(xs[0]) ==> FormatValue(JArr(xs)) == Ok(JoinValues(xs, ", "))
  {
  }

  // ===========================================================================
  // renderObjectSection
  // ===========================================================================

  /** `key.replace(/([A-Z])/g, ' $1').replace(/[_-]/g, ' ')` */
  function SpaceWords(k: string): (r: string)
    ensures '_' !in r && '-' !in r
  {
    if k == [] then []
    else
      var c := k[0];
      (if IsUpperAscii(c) then [' ', c] else if c == '_' || c == '-' then " " else [c]) + SpaceWords(k[1..])
  }

  /** The section label of a key: words split at capitals, '_' and '-',
      each capitalised, then trimmed. */
  function SectionLabel(k: string): string
  {
    var words := Split(SpaceWords(k), ' ');
    Trim(Join(seq(|words|, i requires 0 <= i < |words| => CapitalizeFirst(words[i])), " "))
  }

  /** Keys renderObjectSection leaves out. */
  predicate SectionSkips(k: string)
  {
    k == "metadata" || StartsWith(k, "@")
  }

  /** A large nested object (more than three keys, not an array) gets its own subsection. */
  predicate Subsection(v: Json)
  {
    v.JObj? && |v.fields| > 3
  }

  function Indent(depth: nat): string
  {
    if depth > 0 then "margin-left: 20px;" else ""
  }

  /** The number of entries `Object.entries(obj)` lists for an object or array. */
  function EntryCount(obj: Json): nat
  {
    if obj.JObj? then |obj.fields| else if obj.JArr? then |obj.items| else 0
  }

  /** The key of entry `i`: an object key, or an array index. */
  function EntryKey(obj: Json, i: nat): string
    requires i < EntryCount(obj)
  {
    if obj.JObj? then obj.fields[i].0 else IntToString(i)
  }

  /** The html accumulated after the first `n` entries of `obj`. */
  function SectionUpTo(obj: Json, depth: nat, n: nat): Result<string>
    requires IsObjectValue(obj) && n <= EntryCount(obj)
    decreases obj, 1, n
  {
    if n == 0 then Ok("")
    else
      match SectionUpTo(obj, depth, n - 1)
      case Err(m) => Err(m)
      case Ok(html) =>
        SectionEntry(html, depth, EntryKey(obj, n - 1), EntryValue(obj, n - 1))
  }

  /** The value of entry `i`: an object's value, or an array item. */
  function EntryValue(obj: Json, i: nat): (v: Json)
    requires i < EntryCount(obj)
    ensures v < obj
  {
    if obj.JObj? then
      assert obj.fields[i] in obj.fields;
      obj.fields[i].1
    else obj.items[i]
  }

  /** The html after entry `i` continues the html before it. */
  lemma SectionStep(obj: Json, depth: nat, i: nat)
    requires IsObjectValue(obj) && i < EntryCount(obj)
    ensures SectionUpTo(obj, depth, i).Err? ==> SectionUpTo(obj, depth, i + 1) == SectionUpTo(obj, depth, i)
    ensures SectionUpTo(obj, depth, i).Ok? ==>
      SectionUpTo(obj, depth, i + 1) == SectionEntry(SectionUpTo(obj, depth, i).value, depth, EntryKey(obj, i), EntryValue(obj, i))
  {
  }

  /** One iteration of the `renderObjectSection` loop. */
  function SectionEntry(html: string, depth: nat, key: string, value: Json): Result<string>
    decreases value, 3
  {
    if SectionSkips(key) then Ok(html)
    else
      var title := SectionLabel(key);
      if Subsection(value) then
        match RenderSection(value, depth + 1)
        case Err(m) => Err(m)
        case Ok(inner) => Ok(html + SubsectionDiv(depth, title, inner))
      else
        match FormatValue(value)
        case Err(m) => Err(m)
        case Ok(f) => Ok(html + KeyValueDiv(depth, title, f))
  }

  function SubsectionDiv(depth: nat, title: string, inner: string): string
  {
    "\n        <div style=\"" + Indent(depth) + "\">\n          <h3 style=\"color: #2c3e50; font-size: 15px; margin-top: 15px; margin-bottom: 10px; border-bottom: 1px solid #e0e0e0; padding-bottom: 5px;\">"
    + title + "</h3>\n          " + inner + "\n        </div>"
  }

  function KeyValueDiv(depth: nat, title: string, formatted: string): string
  {
    "\n        <div style=\"" + Indent(depth) + " margin-bottom: 10px;\">\n          <strong style=\"color: #2c3e50; display: inline-block; min-width: 150px;\">"
    + title + ":</strong> \n          <span style=\"color: #34495e;\">" + formatted + "</span>\n        </div>"
  }

  const NoDataAvailable := "<p>No data available</p>"
  const NoEntries := "<p><em>No data available</em></p>"
  const NoDataToDisplay := "<p><em>No data to display</em></p>"

  /** `renderObjectSection(obj, depth)` */
  function RenderSection(obj: Json, depth: nat): Result<string>
    decreases obj, 2
  {
    if !IsObjectValue(obj) then Ok(NoDataAvailable)
    else if EntryCount(obj) == 0 then Ok(NoEntries)
    else
      match SectionUpTo(obj, depth, EntryCount(obj))
      case Err(m) => Err(m)
      case Ok(html) => Ok(if html != "" then html else NoDataToDisplay)
  }

  /** `renderObjectSection(obj, depth)`: the placeholders for a non-object
      and an empty object, then the loop over the entries. */
  method RenderObjectSection(obj: Json, depth: nat) returns (r: Result<string>)
    ensures r == RenderSection(obj, depth)
    decreases obj, 1
  {
    if !IsObjectValue(obj) {
      return Ok(NoDataAvailable);
    }
    if EntryCount(obj) == 0 {
      return Ok(NoEntries);
    }
    var html := RenderEntries(obj, depth);
    if html.Err? {
      return html;
    }
    return Ok(if html.value != "" then html.value else NoDataToDisplay);
  }

  /** The `html +=` loop of `renderObjectSection` over every entry. */
  method RenderEntries(obj: Json, depth: nat) returns (html: Result<string>)
    requires IsObjectValue(obj)
    ensures html == SectionUpTo(obj, depth, EntryCount(obj))
    decreases obj, 0
  {
    html := Ok("");
    var i := 0;
    while i < EntryCount(obj)
      invariant 0 <= i <= EntryCount(obj)
      invariant html == SectionUpTo(obj, depth, i)
    {
      var key, value := EntryKey(obj, i), EntryValue(obj, i);
      SectionStep(obj, depth, i);
      if html.Ok? {
        html := RenderEntry(html.value, depth, key, value);
      }
      i := i + 1;
    }
  }

  /** One loop iteration: skip, recurse into a subsection, or add a key/value block. */
  method RenderEntry(html: string, depth: nat, key: string, value: Json) returns (r: Result<string>)
    ensures r == SectionEntry(html, depth, key, value)
    decreases value, 2
  {
    if SectionSkips(key) {
      return Ok(html);
    }
    var title := SectionLabel(key);
    if Subsection(value) {
      var inner := RenderObjectSection(value, depth + 1);
      r := if inner.Err? then Err(inner.msg) else Ok(html + SubsectionDiv(depth, title, inner.value));
    } else {
      var f := FormatValue(value);
      r := if f.Err? then Err(f.msg) else Ok(html + KeyValueDiv(depth, title, f.value));
    }
  }

  /** Skipped keys add nothing: the html so far equals the html of the
      entries kept, and an object whose every entry is skipped shows the
      "No data to display" placeholder. */
  lemma {:induction false} SectionIgnoresSkipped(obj: Json, depth: nat, n: nat)
    requires obj.JObj? && n <= |obj.fields|
    requires forall i :: 0 <= i < n ==> SectionSkips(obj.fields[i].0)
    ensures SectionUpTo(obj, depth, n) == Ok("")
  {
    if n > 0 {
      SectionIgnoresSkipped(obj, depth, n - 1);
    }
  }

  lemma {:induction false} AllSkippedShowsPlaceholder(fs: Fields, depth: nat)
    requires fs != [] && forall i :: 0 <= i < |fs| ==> SectionSkips(fs[i].0)
    ensures RenderSection(JObj(fs), depth) == Ok(NoDataToDisplay)
  {
    SectionIgnoresSkipped(JObj(fs), depth, |fs|);
  }

  /** Section labels contain no '_' or '-'. */
  lemma {:induction false} SectionLabelClean(k: string)
    ensures '_' !in SectionLabel(k) && '-' !in SectionLabel(k)
  {
    var words := Split(SpaceWords(k), ' ');
    var caps := seq(|words|, i requires 0 <= i < |words| => CapitalizeFirst(words[i]));
    forall i | 0 <= i < |caps| ensures '_' !in caps[i] && '-' !in caps[i] {
      SplitChars(SpaceWords(k), ' ', '_');
      SplitChars(SpaceWords(k), ' ', '-');
      assert forall x :: x in caps[i] ==> x in words[i] || IsUpperAscii(x);
    }
    JoinNoChar(caps, " ", '_');
    JoinNoChar(caps, " ", '-');
    TrimChars(Join(caps, " "));
  }

  lemma TrimChars(s: string)
    ensures forall x :: x in Trim(s) ==> x in s
  {
    var t := TrimStart(s);
    var u := TrimEnd(t);
    assert forall x :: x in u ==> x in t;
    assert forall x :: x in t ==> x in s;
  }

  // ===========================================================================
  // exportToDOC: data shape in front of the request
  // ===========================================================================

  /** The request body `exportToDOC` posts, or why it stops. */
  datatype DocRequest = DocNoData | DocFailed | DocPost(data: Json, apiName: Json, phoneNumber: string, metadata: Json)

  /** `responseData.data`: `data.data`, else `data.results`, else `data`. */
  function DocPayload(data: Json): (p: Val)
    ensures Truthy(Prop(Some(data), "data")) ==> p == Prop(Some(data), "data")
    ensures !Truthy(Prop(Some(data), "data")) && Truthy(Prop(Some(data), "results")) ==> p == Prop(Some(data), "results")
    ensures !Truthy(Prop(Some(data), "data")) && !Truthy(Prop(Some(data), "results")) ==> p == Some(data)
  {
    var d := Some(data);
    if Truthy(Prop(d, "data")) then Prop(d, "data")
    else if Truthy(Prop(d, "results")) then Prop(d, "results")
    else d
  }

  /** `!responseData.data || (typeof responseData.data === 'object' && Object.keys(...).length === 0)` */
  predicate NothingToExport(payload: Val)
  {
    !Truthy(payload) || (IsObjectLike(payload) && |Entries(payload.value)| == 0)
  }

  /** The shape normalisation and guard at the top of `exportToDOC`. */
  function DocRequestFor(data: Json, apiName: Val, phoneNumber: string): (r: DocRequest)
    ensures r == DocFailed <==> data.JNull?
    ensures r == DocNoData <==> !data.JNull? && NothingToExport(DocPayload(data))
    ensures r.DocPost? ==> Truthy(Some(r.data)) && Some(r.data) == DocPayload(data) && r.phoneNumber == phoneNumber
    ensures r.DocPost? ==> (if Truthy(apiName) then Some(r.apiName) == apiName else r.apiName == JStr("Enrichment Report"))
    ensures r.DocPost? ==>
      var wrapped := Truthy(Prop(Some(data), "data")) || Truthy(Prop(Some(data), "results"));
      if wrapped && Truthy(Prop(Some(data), "metadata")) then Some(r.metadata) == Prop(Some(data), "metadata")
      else r.metadata == JObj([])
  {
    if data.JNull? then DocFailed
    else
      var d := Some(data);
      var payload := DocPayload(data);
      var meta := if Truthy(Prop(d, "data")) || Truthy(Prop(d, "results")) then Prop(d, "metadata") else None;
      if NothingToExport(payload) then DocNoData
      else DocPost(payload.value, if Truthy(apiName) then apiName.value else JStr("Enrichment Report"), phoneNumber,
                   if Truthy(meta) then meta.value else JObj([]))
  }
}
