/** JavaScript values as the rest of the model sees them: parsed JSON trees,
    `undefined` as an absent value, truthiness, `String(...)`, property
    access, and the string primitives the source uses (`trim`, `includes`,
    `startsWith`, `endsWith`, `join`, case mapping, `JSON.stringify`). */
module Js {

  datatype Option<T> = None | Some(value: T)

  /** A computation that either produces a value or throws (the message names the error). */
  datatype Result<T> = Ok(value: T) | Err(msg: string)
  {
    predicate IsFailure()
    {
      Err?
    }

    function PropagateFailure<U>(): Result<U>
      requires Err?
    {
      Err(msg)
    }

    function Extract(): T
      requires Ok?
    {
      value
    }
  }

  /** A JSON-like tree. Objects keep their entries in `Object.entries` order;
      numbers are integers. */
  datatype Json =
    | JNull
    | JBool(b: bool)
    | JNum(n: int)
    | JStr(s: string)
    | JArr(items: seq<Json>)
    | JObj(fields: seq<(string, Json)>)

  type Fields = seq<(string, Json)>

  /** A JavaScript value that may be `undefined` (None). */
  type Val = Option<Json>

  const Undefined: Val := None

  // ---------------------------------------------------------------------------
  // Truthiness and type tests
  // ---------------------------------------------------------------------------

  /** JavaScript truthiness: `undefined`, `null`, `false`, `0` and `""` are falsy. */
  predicate Truthy(v: Val)
  {
    match v
    case None => false
    case Some(j) =>
      match j
      case JNull => false
      case JBool(b) => b
      case JNum(n) => n != 0
      case JStr(s) => s != ""
      case _ => true
  }

  /** `Array.isArray(v)` */
  predicate IsArray(v: Val)
  {
    v.Some? && v.value.JArr?
  }

  /** `typeof v === 'object' && v !== null` (arrays included). */
  predicate IsObjectLike(v: Val)
  {
    v.Some? && (v.value.JArr? || v.value.JObj?)
  }

  /** `typeof v === 'string'` */
  predicate IsString(v: Val)
  {
    v.Some? && v.value.JStr?
  }

  /** `a || b` */
  function Or(a: Val, b: Val): (r: Val)
    ensures Truthy(a) ==> r == a
    ensures !Truthy(a) ==> r == b
  {
    if Truthy(a) then a else b
  }

  /** `a || ''`: a truthy value, else the empty string. */
  function OrEmpty(a: Val): (r: Json)
    ensures Truthy(a) ==> Some(r) == a
    ensures !Truthy(a) ==> r == JStr("")
  {
    if Truthy(a) then a.value else JStr("")
  }

  // ---------------------------------------------------------------------------
  // Property access
  // ---------------------------------------------------------------------------

  function Keys(fs: Fields): (ks: seq<string>)
    ensures |ks| == |fs|
    ensures forall i :: 0 <= i < |fs| ==> ks[i] == fs[i].0
  {
    if fs == [] then [] else [fs[0].0] + Keys(fs[1..])
  }

  /** The keys of two field lists put together. */
  lemma KeysAppend(a: Fields, b: Fields)
    ensures Keys(a + b) == Keys(a) + Keys(b)
  {
  }

  /** The value stored under `k` (the first entry with that key), or undefined. */
  function Get(fs: Fields, k: string): Val
  {
    if fs == [] then None
    else if fs[0].0 == k then Some(fs[0].1)
    else Get(fs[1..], k)
  }

  /** A key reads a value exactly when it is one of the keys, and the value
      read is stored under it. */
  lemma {:induction false} GetFinds(fs: Fields, k: string)
    ensures Get(fs, k).Some? <==> k in Keys(fs)
    ensures Get(fs, k).Some? ==> (k, Get(fs, k).value) in fs
  {
    if fs != [] {
      GetFinds(fs[1..], k);
      assert Keys(fs) == [fs[0].0] + Keys(fs[1..]);
    }
  }

  /** A key that is not among the keys reads as undefined. */
  lemma NotAKey(fs: Fields, k: string)
    requires k !in Keys(fs)
    ensures Get(fs, k) == None
  {
    GetFinds(fs, k);
  }

  /** `v?.[k]`: the property `k` of an object, `length` of an array or a
      string; undefined otherwise (reading a property of null or undefined,
      a TypeError in JavaScript, is read as undefined here). */
  function Prop(v: Val, k: string): Val
  {
    match v
    case Some(JObj(fs)) => Get(fs, k)
    case Some(JArr(xs)) => if k == "length" then Some(JNum(|xs|)) else None
    case Some(JStr(s)) => if k == "length" then Some(JNum(|s|)) else None
    case _ => None
  }

  /** `v.k` with JavaScript's failure: reading a property of null or
      undefined throws a TypeError. */
  function Read(v: Val, k: string): (r: Result<Val>)
    ensures r.Ok? <==> v.Some? && !v.value.JNull?
    ensures r.Ok? ==> r.value == Prop(v, k)
  {
    if v.None? then Err("Cannot read properties of undefined (reading '" + k + "')")
    else if v.value.JNull? then Err("Cannot read properties of null (reading '" + k + "')")
    else Ok(Prop(v, k))
  }

  /** `v?.[i]` for an array or a string. */
  function At(v: Val, i: nat): Val
  {
    match v
    case Some(JArr(xs)) => if i < |xs| then Some(xs[i]) else None
    case Some(JStr(s)) => if i < |s| then Some(JStr([s[i]])) else None
    case _ => None
  }

  /** `v.length > 0` */
  predicate NonEmptyLength(v: Val)
  {
    var len := Prop(v, "length");
    len.Some? && len.value.JNum? && len.value.n > 0
  }

  /** `Object.entries(v)` for the values it is defined on; arrays and strings
      give index-keyed entries. */
  function Entries(j: Json): (fs: Fields)
    ensures j.JObj? ==> fs == j.fields
    ensures j.JArr? ==> |fs| == |j.items|
  {
    match j
    case JObj(fs) => fs
    case JArr(xs) => seq(|xs|, i requires 0 <= i < |xs| => (IntToString(i), xs[i]))
    case JStr(s) => seq(|s|, i requires 0 <= i < |s| => (IntToString(i), JStr([s[i]])))
    case _ => []
  }

  /** `obj[k] = v` on an object with entries `fs`: an existing key keeps its
      position and takes the new value; a new key is appended. */
  function Put(fs: Fields, k: string, v: Json): (r: Fields)
    ensures Get(r, k) == Some(v)
    ensures forall x :: x != k ==> Get(r, x) == Get(fs, x)
    ensures forall q :: q in r ==> q in fs || q == (k, v)
  {
    if fs == [] then [(k, v)]
    else if fs[0].0 == k then [(k, v)] + fs[1..]
    else [fs[0]] + Put(fs[1..], k, v)
  }

  /** Setting an existing key keeps the keys; a new key is appended. */
  lemma {:induction false} PutKeys(fs: Fields, k: string, v: Json)
    ensures k in Keys(fs) ==> Keys(Put(fs, k, v)) == Keys(fs)
    ensures k !in Keys(fs) ==> Keys(Put(fs, k, v)) == Keys(fs) + [k]
  {
    if fs != [] && fs[0].0 != k {
      PutKeys(fs[1..], k, v);
      assert Keys(fs) == [fs[0].0] + Keys(fs[1..]);
    }
  }

  /** Setting one key leaves every other key reading as before. */
  lemma PutOther(fs: Fields, k: string, v: Json, x: string)
    requires x != k
    ensures Get(Put(fs, k, v), x) == Get(fs, x)
  {
  }

  /** The entries of `fs` without key `k` (what reading `k` sees after it
      is set to undefined). */
  function Remove(fs: Fields, k: string): (r: Fields)
    ensures Get(r, k) == None
    ensures forall x :: x != k ==> Get(r, x) == Get(fs, x)
  {
    if fs == [] then []
    else if fs[0].0 == k then Remove(fs[1..], k)
    else [fs[0]] + Remove(fs[1..], k)
  }

  /** `Object.assign(target, source)`: each entry of `source` is put in order. */
  function Assign(target: Fields, source: Fields): (r: Fields)
    ensures forall q :: q in r ==> q in target || q in source
    ensures forall x :: x in Keys(target) || x in Keys(source) ==> x in Keys(r)
    decreases |source|
  {
    if source == [] then target
    else
      PutKeys(target, source[0].0, source[0].1);
      Assign(Put(target, source[0].0, source[0].1), source[1..])
  }

  predicate Distinct<T(==)>(xs: seq<T>)
  {
    forall i, j :: 0 <= i < j < |xs| ==> xs[i] != xs[j]
  }

  /** No key occurs twice. */
  predicate DistinctKeys(fs: Fields)
  {
    Distinct(Keys(fs))
  }

  lemma {:induction false} PutKeepsDistinct(fs: Fields, k: string, v: Json)
    requires DistinctKeys(fs)
    ensures DistinctKeys(Put(fs, k, v))
  {
    var r := Put(fs, k, v);
    var ks, rs := Keys(fs), Keys(r);
    PutKeys(fs, k, v);
    if k in ks {
      assert rs == ks;
    } else {
      assert rs == ks + [k];
      forall i, j | 0 <= i < j < |rs| ensures rs[i] != rs[j] {
        if j == |ks| {
          assert rs[i] == ks[i];
        } else {
          assert rs[i] == ks[i] && rs[j] == ks[j];
        }
      }
    }
  }

  lemma {:induction false} AssignKeepsDistinct(target: Fields, source: Fields)
    requires DistinctKeys(target)
    ensures DistinctKeys(Assign(target, source))
    decreases |source|
  {
    if source != [] {
      PutKeepsDistinct(target, source[0].0, source[0].1);
      AssignKeepsDistinct(Put(target, source[0].0, source[0].1), source[1..]);
    }
  }

  // ---------------------------------------------------------------------------
  // Numbers as text
  // ---------------------------------------------------------------------------

  function DigitChar(d: int): char
    requires 0 <= d < 10
  {
    "0123456789"[d]
  }

  predicate IsDigit(c: char)
  {
    '0' <= c <= '9'
  }

  /** The decimal digits of a natural number, most significant first. */
  function NatToString(n: nat): (s: string)
    ensures |s| >= 1
    ensures forall i :: 0 <= i < |s| ==> IsDigit(s[i])
    decreases n
  {
    if n < 10 then [DigitChar(n)] else NatToString(n / 10) + [DigitChar(n % 10)]
  }

  /** `String(n)` for an integer. */
  function IntToString(n: int): (s: string)
    ensures |s| >= 1
  {
    if n < 0 then "-" + NatToString(-n) else NatToString(n)
  }

  /** Reads back a run of decimal digits. */
  function ParseDigits(s: string): int
  {
    if s == [] then 0 else 10 * ParseDigits(s[..|s| - 1]) + ((s[|s| - 1] as int) - ('0' as int))
  }

  /** Reads back what IntToString writes. */
  function ParseInt(s: string): int
  {
    if |s| > 0 && s[0] == '-' then -ParseDigits(s[1..]) else ParseDigits(s)
  }

  lemma {:induction false} ParseNatToString(n: nat)
    ensures ParseDigits(NatToString(n)) == n
    decreases n
  {
    var s := NatToString(n);
    if n >= 10 {
      ParseNatToString(n / 10);
      assert s[..|s| - 1] == NatToString(n / 10);
      assert s[|s| - 1] == DigitChar(n % 10);
    }
  }

  /** The minus sign is read back before the digits. */
  lemma NegativeRoundTrip(n: nat)
    ensures ParseInt("-" + NatToString(n)) == -(n as int)
  {
    var s := "-" + NatToString(n);
    assert s[1..] == NatToString(n);
    ParseNatToString(n);
  }

  /** Digits alone are read back as the number they spell. */
  lemma UnsignedRoundTrip(n: nat)
    ensures ParseInt(NatToString(n)) == n
  {
    var s := NatToString(n);
    assert IsDigit(s[0]);
    assert ParseInt(s) == ParseDigits(s);
    ParseNatToString(n);
  }

  /** Decimal rendering of an integer round-trips. */
  lemma {:induction false} IntToStringRoundTrip(n: int)
    ensures ParseInt(IntToString(n)) == n
  {
    if n < 0 {
      assert IntToString(n) == "-" + NatToString(-n);
      NegativeRoundTrip(-n);
    } else {
      UnsignedRoundTrip(n);
    }
  }

  // ---------------------------------------------------------------------------
  // Strings
  // ---------------------------------------------------------------------------

  /** The characters JavaScript's `trim` and `\s` treat as white space. */
  predicate IsSpace(c: char)
  {
    c == ' ' || c == '\t' || c == '\n' || c == '\r' || c == '\U{B}' || c == '\U{C}'
    || c == '\U{A0}' || c == '\U{1680}' || ('\U{2000}' <= c <= '\U{200A}')
    || c == '\U{2028}' || c == '\U{2029}' || c == '\U{202F}' || c == '\U{205F}'
    || c == '\U{3000}' || c == '\U{FEFF}'
  }

  function TrimStart(s: string): (r: string)
    ensures |r| <= |s| && r == s[|s| - |r|..]
    ensures r == [] || !IsSpace(r[0])
    ensures forall i :: 0 <= i < |s| - |r| ==> IsSpace(s[i])
  {
    if s != [] && IsSpace(s[0]) then
      var r := TrimStart(s[1..]);
      assert s[1..][|s| - 1 - |r|..] == s[|s| - |r|..];
      assert forall i :: 1 <= i < |s| - |r| ==> s[i] == s[1..][i - 1];
      r
    else s
  }

  function TrimEnd(s: string): (r: string)
    ensures |r| <= |s| && r == s[..|r|]
    ensures r == [] || !IsSpace(r[|r| - 1])
    ensures forall i :: |r| <= i < |s| ==> IsSpace(s[i])
  {
    if s != [] && IsSpace(s[|s| - 1]) then TrimEnd(s[..|s| - 1]) else s
  }

  /** `s.trim()` */
  function Trim(s: string): (r: string)
    ensures r == [] || (!IsSpace(r[0]) && !IsSpace(r[|r| - 1]))
  {
    TrimEnd(TrimStart(s))
  }

  /** A string is blank when it trims to nothing. */
  predicate Blank(s: string)
  {
    Trim(s) == ""
  }

  /** Trimming twice trims nothing more. */
  lemma TrimIdempotent(s: string)
    ensures Trim(Trim(s)) == Trim(s)
  {
    var t := Trim(s);
    assert TrimStart(t) == t;
    assert TrimEnd(t) == t;
  }

  lemma {:induction false} BlankIffAllSpace(s: string)
    ensures Blank(s) <==> forall i :: 0 <= i < |s| ==> IsSpace(s[i])
  {
    if forall i :: 0 <= i < |s| ==> IsSpace(s[i]) {
      AllSpaceTrimsAway(s);
    } else {
      var t := TrimStart(s);
      assert s == s[..|s| - |t|] + t;
    }
  }

  lemma {:induction false} AllSpaceTrimsAway(s: string)
    requires forall i :: 0 <= i < |s| ==> IsSpace(s[i])
    ensures TrimStart(s) == []
  {
    if s != [] {
      AllSpaceTrimsAway(s[1..]);
    }
  }

  predicate StartsWith(s: string, p: string)
  {
    |p| <= |s| && s[..|p|] == p
  }

  predicate EndsWith(s: string, p: string)
  {
    |p| <= |s| && s[|s| - |p|..] == p
  }

  /** `s.includes(p)` */
  predicate Contains(s: string, p: string)
  {
    StartsWith(s, p) || (s != [] && Contains(s[1..], p))
  }

  predicate IsUpperAscii(c: char)
  {
    'A' <= c <= 'Z'
  }

  predicate IsLowerAscii(c: char)
  {
    'a' <= c <= 'z'
  }

  function UpperChar(c: char): char
  {
    if IsLowerAscii(c) then (c as int - 32) as char else c
  }

  function LowerChar(c: char): char
  {
    if IsUpperAscii(c) then (c as int + 32) as char else c
  }

  /** `s.toUpperCase()` (ASCII letters only). */
  function ToUpper(s: string): (r: string)
    ensures |r| == |s|
    ensures forall i :: 0 <= i < |s| ==> r[i] == UpperChar(s[i])
  {
    if s == [] then [] else [UpperChar(s[0])] + ToUpper(s[1..])
  }

  /** `s.toLowerCase()` (ASCII letters only). */
  function ToLower(s: string): (r: string)
    ensures |r| == |s|
    ensures forall i :: 0 <= i < |s| ==> r[i] == LowerChar(s[i])
  {
    if s == [] then [] else [LowerChar(s[0])] + ToLower(s[1..])
  }

  /** `s.charAt(0).toUpperCase() + s.slice(1)` */
  function CapitalizeFirst(s: string): (r: string)
    ensures |r| == |s|
    ensures s != [] ==> r[0] == UpperChar(s[0]) && r[1..] == s[1..]
  {
    if s == [] then [] else [UpperChar(s[0])] + s[1..]
  }

  /** `parts.join(sep)` */
  function Join(parts: seq<string>, sep: string): string
  {
    if parts == [] then ""
    else if |parts| == 1 then parts[0]
    else Join(parts[..|parts| - 1], sep) + sep + parts[|parts| - 1]
  }

  lemma {:induction false} JoinNoChar(parts: seq<string>, sep: string, c: char)
    requires forall i :: 0 <= i < |parts| ==> c !in parts[i]
    requires c !in sep
    ensures c !in Join(parts, sep)
  {
    if |parts| > 1 {
      JoinNoChar(parts[..|parts| - 1], sep, c);
    }
  }

  lemma {:induction false} JoinCons(a: string, rest: seq<string>, sep: string)
    requires rest != []
    ensures Join([a] + rest, sep) == a + sep + Join(rest, sep)
    decreases |rest|
  {
    var all := [a] + rest;
    if |rest| > 1 {
      assert all[..|all| - 1] == [a] + rest[..|rest| - 1];
      JoinCons(a, rest[..|rest| - 1], sep);
    } else {
      assert all[..|all| - 1] == [a];
    }
  }

  /** `s.split(c)` for a one-character separator: the pieces between separators. */
  function Split(s: string, c: char): (r: seq<string>)
    ensures |r| >= 1
    ensures forall i :: 0 <= i < |r| ==> c !in r[i]
  {
    if s == [] then [""]
    else
      var rest := Split(s[1..], c);
      if s[0] == c then [""] + rest else [[s[0]] + rest[0]] + rest[1..]
  }

  /** Joining the pieces with the separator gives the string back. */
  lemma {:induction false} JoinSplit(s: string, c: char)
    ensures Join(Split(s, c), [c]) == s
  {
    if s != [] {
      JoinSplit(s[1..], c);
      if s[0] == c {
        JoinCons("", Split(s[1..], c), [c]);
        assert s == [c] + s[1..];
      } else {
        JoinSplitGlue(s[0], Split(s[1..], c), [c]);
        assert s == [s[0]] + s[1..];
      }
    }
  }

  /** Gluing a character onto the first piece prefixes the join with it. */
  lemma {:induction false} JoinSplitGlue(x: char, rest: seq<string>, sep: string)
    requires rest != []
    ensures Join([[x] + rest[0]] + rest[1..], sep) == [x] + Join(rest, sep)
  {
    if |rest| == 1 {
      assert [[x] + rest[0]] + rest[1..] == [[x] + rest[0]];
    } else {
      JoinCons(rest[0], rest[1..], sep);
      assert rest == [rest[0]] + rest[1..];
      JoinCons([x] + rest[0], rest[1..], sep);
    }
  }

  /** Every character of a piece occurs in the split string. */
  lemma {:induction false} SplitChars(s: string, c: char, x: char)
    ensures forall i :: 0 <= i < |Split(s, c)| && x in Split(s, c)[i] ==> x in s
  {
    if s != [] {
      SplitChars(s[1..], c, x);
      var rest := Split(s[1..], c);
      var r := Split(s, c);
      forall i | 0 <= i < |r| && x in r[i] ensures x in s {
        if s[0] == c {
          if i > 0 {
            assert r[i] == rest[i - 1];
          }
        } else if i > 0 {
          assert r[i] == rest[i];
        } else {
          assert r[0] == [s[0]] + rest[0];
        }
        assert x in s[1..] ==> x in s;
      }
    }
  }

  /** Every character of a join comes from a part or from the separator. */
  lemma {:induction false} JoinChars(parts: seq<string>, sep: string, x: char)
    requires x in Join(parts, sep)
    ensures x in sep || exists i :: 0 <= i < |parts| && x in parts[i]
  {
    if |parts| > 1 {
      var init := parts[..|parts| - 1];
      if x in Join(init, sep) && x !in sep {
        JoinChars(init, sep, x);
        var i :| 0 <= i < |init| && x in init[i];
        assert parts[i] == init[i];
      }
    }
  }

  /** A separator splits the string into the pieces on either side. */
  lemma {:induction false} SplitAppend(a: string, b: string, c: char)
    ensures Split(a + [c] + b, c) == Split(a, c) + Split(b, c)
  {
    if a == [] {
      assert a + [c] + b == [c] + b;
      assert ([c] + b)[1..] == b;
    } else {
      assert (a + [c] + b)[1..] == a[1..] + [c] + b;
      SplitAppend(a[1..], b, c);
    }
  }

  /** A string without the separator is one piece. */
  lemma {:induction false} SplitWithoutSeparator(s: string, c: char)
    requires c !in s
    ensures Split(s, c) == [s]
  {
    if s != [] {
      assert c !in s[1..];
      SplitWithoutSeparator(s[1..], c);
      assert s == [s[0]] + s[1..];
    }
  }

  /** Splitting a join recovers the parts when no part holds the separator. */
  lemma {:induction false} SplitJoin(parts: seq<string>, c: char)
    requires parts != []
    requires forall i :: 0 <= i < |parts| ==> c !in parts[i]
    ensures Split(Join(parts, [c]), c) == parts
    decreases |parts|
  {
    var last := parts[|parts| - 1];
    SplitWithoutSeparator(last, c);
    if |parts| > 1 {
      var init := parts[..|parts| - 1];
      SplitJoin(init, c);
      SplitAppend(Join(init, [c]), last, c);
      assert parts == init + [last];
    }
  }

  /** The characters of `s` that satisfy IsDigit, in order (`s.replace(/\D/g, '')`). */
  function Digits(s: string): (r: string)
    ensures |r| <= |s|
    ensures forall i :: 0 <= i < |r| ==> IsDigit(r[i])
  {
    if s == [] then []
    else (if IsDigit(s[0]) then [s[0]] else []) + Digits(s[1..])
  }

  lemma {:induction false} DigitsAppend(a: string, b: string)
    ensures Digits(a + b) == Digits(a) + Digits(b)
  {
    if a != [] {
      assert (a + b)[1..] == a[1..] + b;
      DigitsAppend(a[1..], b);
    } else {
      assert a + b == b;
    }
  }

  lemma {:induction false} DigitsOfDigits(s: string)
    requires forall i :: 0 <= i < |s| ==> IsDigit(s[i])
    ensures Digits(s) == s
  {
    if s != [] {
      DigitsOfDigits(s[1..]);
    }
  }

  // ---------------------------------------------------------------------------
  // String(...) and JSON.stringify
  // ---------------------------------------------------------------------------

  /** `String(j)` */
  function JsString(j: Json): string
  {
    match j
    case JNull => "null"
    case JBool(b) => if b then "true" else "false"
    case JNum(n) => IntToString(n)
    case JStr(s) => s
    case JArr(xs) => Join(seq(|xs|, i requires 0 <= i < |xs| => if xs[i].JNull? then "" else JsString(xs[i])), ",")
    case JObj(_) => "[object Object]"
  }

  /** How `Array.prototype.join` renders one element: null as "". */
  function JoinElement(j: Json): string
  {
    if j.JNull? then "" else JsString(j)
  }

  /** `String(v)` for a possibly undefined value. */
  function ValString(v: Val): string
  {
    if v.None? then "undefined" else JsString(v.value)
  }

  /** `items.join(sep)` on a JavaScript array. */
  function JoinValues(xs: seq<Json>, sep: string): string
  {
    Join(seq(|xs|, i requires 0 <= i < |xs| => JoinElement(xs[i])), sep)
  }

  /** `JSON.stringify(j)` without white space. */
  function Stringify(j: Json): string
  {
    match j
    case JNull => "null"
    case JBool(b) => if b then "true" else "false"
    case JNum(n) => IntToString(n)
    case JStr(s) => Quote(s)
    case JArr(xs) => "[" + Join(seq(|xs|, i requires 0 <= i < |xs| => Stringify(xs[i])), ",") + "]"
    case JObj(fs) => "{" + Join(seq(|fs|, i requires 0 <= i < |fs| => Quote(fs[i].0) + ":" + Stringify(fs[i].1)), ",") + "}"
  }

  /** How `JSON.stringify` writes one character of a string: the quote and
      the backslash behind a backslash, the five short escapes, any other
      control character as `\u00xx` in lower-case hex. */
  function EscapeChar(c: char): (r: string)
    ensures forall i :: 0 <= i < |r| ==> r[i] >= ' '
    ensures c >= ' ' && c != '"' && c != '\\' ==> r == [c]
  {
    if c == '"' || c == '\\' then ['\\', c]
    else if c == '\U{8}' then "\\b"
    else if c == '\t' then "\\t"
    else if c == '\n' then "\\n"
    else if c == '\U{C}' then "\\f"
    else if c == '\r' then "\\r"
    else if c < ' ' then "\\u00" + [HexDigit(c as int / 16), HexDigit(c as int % 16)]
    else [c]
  }

  /** The lower-case hexadecimal digit of `d`. */
  function HexDigit(d: nat): (c: char)
    requires d < 16
    ensures c >= ' '
  {
    "0123456789abcdef"[d]
  }

  /** The characters of a string as `JSON.stringify` writes them inside the quotes. */
  function EscapeJson(s: string): string
  {
    if s == [] then [] else EscapeChar(s[0]) + EscapeJson(s[1..])
  }

  /** The text inside the quotes holds no raw control character, and printable
      text other than the quote and the backslash is written as it is. */
  lemma {:induction false} EscapeJsonPrintable(s: string)
    ensures forall i :: 0 <= i < |EscapeJson(s)| ==> EscapeJson(s)[i] >= ' '
    ensures (forall i :: 0 <= i < |s| ==> s[i] >= ' ' && s[i] != '"' && s[i] != '\\') ==> EscapeJson(s) == s
  {
    if s != [] {
      EscapeJsonPrintable(s[1..]);
      var e, rest := EscapeChar(s[0]), EscapeJson(s[1..]);
      forall i | 0 <= i < |e + rest| ensures (e + rest)[i] >= ' ' {
        if i >= |e| {
          assert (e + rest)[i] == rest[i - |e|];
        }
      }
      if forall i :: 0 <= i < |s| ==> s[i] >= ' ' && s[i] != '"' && s[i] != '\\' {
        assert s[0] >= ' ' && s[0] != '"' && s[0] != '\\';
        assert forall i :: 0 <= i < |s[1..]| ==> s[1..][i] == s[i + 1];
        assert s == [s[0]] + s[1..];
      }
    }
  }

  function Quote(s: string): string
  {
    "\"" + EscapeJson(s) + "\""
  }
}
