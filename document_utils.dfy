/** The server's document clean-up helpers: brand-block de-duplication,
    blank-line collapsing, bullet normalisation, phone formatting,
    capitalisation normalisation, the recursive document sanitizer, the
    phone-number search and the document-data validator. */
module DocumentUtils {
  import opened Js
  import DocxGenerator

  // ===========================================================================
  // removeDuplicateBrandBlocks
  // ===========================================================================

  /** `p` occurs in `s` at index `i`. */
  predicate OccursAt(s: string, p: string, i: nat)
  {
    i + |p| <= |s| && s[i..i + |p|] == p
  }

  /** `s.indexOf(p)`: the first index where `p` occurs, if any. */
  function IndexOf(s: string, p: string): (r: Option<nat>)
    ensures r.Some? ==> OccursAt(s, p, r.value) && forall j :: 0 <= j < r.value ==> !OccursAt(s, p, j)
    ensures r.None? ==> forall j :: 0 <= j <= |s| ==> !OccursAt(s, p, j)
  {
    if StartsWith(s, p) then Some(0)
    else if s == [] then None
    else
      var rest := IndexOf(s[1..], p);
      assert forall j :: 1 <= j <= |s| ==> (OccursAt(s, p, j) <==> OccursAt(s[1..], p, j - 1)) by {
        forall j | 1 <= j <= |s| ensures OccursAt(s, p, j) <==> OccursAt(s[1..], p, j - 1) {
          if j + |p| <= |s| {
            SliceOfTail(s, j, |p|);
          }
        }
      }
      if rest.None? then None else Some(rest.value + 1)
  }

  /** A slice of `s` from a positive index is the same slice of `s[1..]`, shifted. */
  lemma SliceOfTail(s: string, i: nat, n: nat)
    requires 1 <= i && i + n <= |s|
    ensures s[i..i + n] == s[1..][i - 1..i - 1 + n]
  {
    var a, b := s[i..i + n], s[1..][i - 1..i - 1 + n];
    forall k | 0 <= k < n ensures a[k] == b[k] {
      assert a[k] == s[i + k] && b[k] == s[i + k];
    }
    assert a == b;
  }

  /** `s.replace(p, '')` with a string pattern: the first occurrence is cut out. */
  function ReplaceFirst(s: string, p: string): string
  {
    if StartsWith(s, p) then s[|p|..]
    else if s == [] then s
    else [s[0]] + ReplaceFirst(s[1..], p)
  }

  /** Cutting removes exactly the first occurrence, and nothing when there is none. */
  lemma ReplaceFirstCuts(s: string, p: string)
    ensures IndexOf(s, p).Some? ==>
      (var i := IndexOf(s, p).value; ReplaceFirst(s, p) == s[..i] + s[i + |p|..])
    ensures IndexOf(s, p).None? ==> ReplaceFirst(s, p) == s
  {
    if IndexOf(s, p).Some? {
      ReplaceFirstCutsFound(s, p);
    } else {
      ReplaceFirstKeepsMissing(s, p);
    }
  }

  lemma {:induction false} ReplaceFirstCutsFound(s: string, p: string)
    requires IndexOf(s, p).Some?
    ensures var i := IndexOf(s, p).value; ReplaceFirst(s, p) == s[..i] + s[i + |p|..]
  {
    if StartsWith(s, p) {
      assert s[..0] + s[|p|..] == s[|p|..];
    } else {
      var rest := IndexOf(s[1..], p);
      assert IndexOf(s, p) == Some(rest.value + 1);
      ReplaceFirstCutsFound(s[1..], p);
      assert ReplaceFirst(s, p) == [s[0]] + ReplaceFirst(s[1..], p);
      CutShift(s, |p|, rest.value);
    }
  }

  lemma {:induction false} ReplaceFirstKeepsMissing(s: string, p: string)
    requires IndexOf(s, p).None?
    ensures ReplaceFirst(s, p) == s
  {
    if s != [] {
      assert IndexOf(s[1..], p).None?;
      ReplaceFirstKeepsMissing(s[1..], p);
      assert ReplaceFirst(s, p) == [s[0]] + s[1..];
    }
  }

  /** Cutting `n` characters at `i` in the tail is cutting them at `i + 1` in the whole. */
  lemma CutShift(s: string, n: nat, i: nat)
    requires s != [] && i + n <= |s| - 1
    ensures [s[0]] + (s[1..][..i] + s[1..][i + n..]) == s[..i + 1] + s[i + 1 + n..]
  {
    var a, b := s[1..][..i], s[1..][i + n..];
    assert s[..i + 1] == [s[0]] + a;
    assert s[i + 1 + n..] == b;
  }

  /** The loop's string after cutting each of `ps`, in order. */
  function CutEach(s: string, ps: seq<string>): string
  {
    if ps == [] then s else ReplaceFirst(CutEach(s, ps[..|ps| - 1]), ps[|ps| - 1])
  }

  /** The value `removeDuplicateBrandBlocks` returns, for the matches the
      brand pattern finds in a string (`brandMatches`; no match is []). */
  function BrandCleanedAsWritten(content: Json, brandMatches: string -> seq<string>): (r: Json)
    ensures r.JStr? <==> content.JStr?
  {
    if !content.JStr? then content
    else
      var matches := brandMatches(content.s);
      if |matches| > 1 then JStr(CutEach(content.s, matches[1..])) else content
  }

  /** `removeDuplicateBrandBlocks(content)` as written: every match after the
      first is passed to `replace`, which cuts the first occurrence of that text. */
  method RemoveDuplicateBrandBlocks(content: Json, brandMatches: string -> seq<string>) returns (r: Json)
    ensures r == BrandCleanedAsWritten(content, brandMatches)
    ensures !content.JStr? || |brandMatches(content.s)| <= 1 ==> r == content
    ensures r.JStr? <==> content.JStr?
  {
    if !content.JStr? {
      return content;
    }
    var matches := brandMatches(content.s);
    if |matches| > 1 {
      var cleaned := content.s;
      for i := 1 to |matches|
        invariant cleaned == CutEach(content.s, matches[1..i])
      {
        assert matches[1..i + 1][..i - 1] == matches[1..i];
        cleaned := ReplaceFirst(cleaned, matches[i]);
      }
      assert matches[1..|matches|] == matches[1..];
      return JStr(cleaned);
    }
    return content;
  }

  /** The brand block of the report template. */
  const BrandBlock := "Blueline | Global Technologies" + " / ITERATIVE TASKING"

  /** The brand block, some text, and the brand block again. */
  const TwoBlocks := BrandBlock + " x " + BrandBlock

  /** Cutting the one later match from the two-block text removes the first block. */
  lemma AsWrittenCutsFirstBlock()
    ensures CutEach(TwoBlocks, [BrandBlock]) == " x " + BrandBlock
  {
    var s := TwoBlocks;
    assert CutEach(s, [BrandBlock]) == ReplaceFirst(CutEach(s, []), BrandBlock);
    assert s[..|BrandBlock|] == BrandBlock;
    assert StartsWith(s, BrandBlock);
  }

  /** Past the first block, the later match is cut from the text after it. */
  lemma CorrectedCutsSecondBlock()
    ensures CutEach(" x " + BrandBlock, [BrandBlock]) == " x "
  {
    var t := " x " + BrandBlock;
    var n := |BrandBlock|;
    assert CutEach(t, [BrandBlock]) == ReplaceFirst(CutEach(t, []), BrandBlock);
    assert t[0] == ' ' && t[1] == 'x' && t[2] == ' ' && BrandBlock[0] == 'B';
    assert t[3..3 + n] == BrandBlock;
    IndexOfFirst(t, BrandBlock, 3);
    ReplaceFirstCuts(t, BrandBlock);
    assert t[..3] == " x " && t[3 + n..] == "";
  }

  /** Two identical blocks: the loop cuts the first one, so the block that
      survives is the last, where the corrected function keeps the first. */
  lemma BrandKeepsLastCopy(brandMatches: string -> seq<string>)
    requires brandMatches(BrandBlock + " x " + BrandBlock) == [BrandBlock, BrandBlock]
    ensures BrandCleanedAsWritten(JStr(BrandBlock + " x " + BrandBlock), brandMatches)
            == JStr(" x " + BrandBlock)
    ensures KeepFirstBrandBlock(JStr(BrandBlock + " x " + BrandBlock), brandMatches)
            == JStr(BrandBlock + " x ")
    ensures " x " + BrandBlock != BrandBlock + " x "
  {
    var s := TwoBlocks;
    var t := " x " + BrandBlock;
    var n := |BrandBlock|;
    assert [BrandBlock, BrandBlock][1..] == [BrandBlock];
    AsWrittenCutsFirstBlock();
    CorrectedCutsSecondBlock();
    assert s[..n] == BrandBlock;
    assert s[n..] == t;
    assert IndexOf(s, BrandBlock) == Some(0);
    assert t[0] == ' ' && BrandBlock[0] == 'B';
  }

  /** What the function means to do: keep the first match where it stands and
      cut the later matches from the text after it. */
  function KeepFirstBrandBlock(content: Json, brandMatches: string -> seq<string>): (r: Json)
    ensures r.JStr? <==> content.JStr?
  {
    if !content.JStr? then content
    else
      var matches := brandMatches(content.s);
      if |matches| <= 1 then content
      else
        match IndexOf(content.s, matches[0])
        case None => content
        case Some(i) =>
          var e := i + |matches[0]|;
          JStr(content.s[..e] + CutEach(content.s[e..], matches[1..]))
  }

  /** An occurrence with none before it is the one `indexOf` finds. */
  lemma {:induction false} IndexOfFirst(s: string, p: string, i: nat)
    requires OccursAt(s, p, i)
    requires forall j :: 0 <= j < i ==> !OccursAt(s, p, j)
    ensures IndexOf(s, p) == Some(i)
  {
    var r := IndexOf(s, p);
    assert r.Some?;
    assert r.value <= i;
    assert r.value >= i;
  }

  /** The first occurrence is found in any prefix or extension of the text
      that still holds it. */
  lemma {:induction false} IndexOfPrefix(s: string, t: string, p: string)
    requires IndexOf(s, p).Some?
    ensures IndexOf(s + t, p) == IndexOf(s, p)
  {
    var i := IndexOf(s, p).value;
    assert OccursAt(s + t, p, i) by {
      assert (s + t)[i..i + |p|] == s[i..i + |p|];
    }
    forall j | 0 <= j < i ensures !OccursAt(s + t, p, j) {
      assert j + |p| <= |s| && !OccursAt(s, p, j);
      assert (s + t)[j..j + |p|] == s[j..j + |p|];
    }
    IndexOfFirst(s + t, p, i);
  }

  /** Cutting the text right after its first occurrence keeps that occurrence first. */
  lemma {:induction false} IndexOfTruncate(s: string, p: string, e: nat)
    requires IndexOf(s, p).Some? && IndexOf(s, p).value + |p| <= e <= |s|
    ensures IndexOf(s[..e], p) == IndexOf(s, p)
  {
    var i := IndexOf(s, p).value;
    var pre := s[..e];
    assert OccursAt(pre, p, i) by { assert pre[i..i + |p|] == s[i..i + |p|]; }
    forall j | 0 <= j < i ensures !OccursAt(pre, p, j) {
      assert !OccursAt(s, p, j);
      assert pre[j..j + |p|] == s[j..j + |p|];
    }
    IndexOfFirst(pre, p, i);
  }

  /** The corrected function keeps the first brand block where it was: the
      first match is found at the same index before and after. */
  lemma {:induction false} KeepFirstKeepsFirst(content: string, brandMatches: string -> seq<string>)
    requires |brandMatches(content)| > 1
    requires IndexOf(content, brandMatches(content)[0]).Some?
    ensures var r := KeepFirstBrandBlock(JStr(content), brandMatches);
      IndexOf(r.s, brandMatches(content)[0]) == IndexOf(content, brandMatches(content)[0])
  {
    var matches := brandMatches(content);
    var m := matches[0];
    var e := IndexOf(content, m).value + |m|;
    IndexOfTruncate(content, m, e);
    IndexOfPrefix(content[..e], CutEach(content[e..], matches[1..]), m);
  }

  /** With a single copy the two agree: there is nothing to cut. */
  lemma {:induction false} BrandVersionsAgreeOnOneMatch(content: Json, brandMatches: string -> seq<string>)
    requires !content.JStr? || |brandMatches(content.s)| <= 1
    ensures KeepFirstBrandBlock(content, brandMatches) == BrandCleanedAsWritten(content, brandMatches)
    ensures KeepFirstBrandBlock(content, brandMatches) == content
  {
  }

  // ===========================================================================
  // collapseBlankLines
  // ===========================================================================

  /** The number of leading `'\n'` characters. */
  function NewlineRun(s: string): (n: nat)
    ensures n <= |s|
    ensures forall i :: 0 <= i < n ==> s[i] == '\n'
    ensures n < |s| ==> s[n] != '\n'
  {
    if s != [] && s[0] == '\n' then 1 + NewlineRun(s[1..]) else 0
  }

  /** `s.replace(/\n{3,}/g, '\n\n')`: every maximal run of three or more
      newlines becomes two; all else is copied. */
  function Collapse(s: string): string
    decreases |s|
  {
    if s == [] then []
    else if s[0] == '\n' then
      var n := NewlineRun(s);
      (if n >= 3 then "\n\n" else s[..n]) + Collapse(s[n..])
    else [s[0]] + Collapse(s[1..])
  }

  /** No three newlines in a row. */
  predicate NoTripleNewline(s: string)
  {
    forall i :: 0 <= i < |s| - 2 ==> !(s[i] == '\n' && s[i + 1] == '\n' && s[i + 2] == '\n')
  }

  /** The characters other than newlines, in order. */
  function NonNewlines(s: string): (r: string)
    ensures '\n' !in r
  {
    if s == [] then [] else (if s[0] == '\n' then [] else [s[0]]) + NonNewlines(s[1..])
  }

  lemma {:induction false} NonNewlinesAppend(a: string, b: string)
    ensures NonNewlines(a + b) == NonNewlines(a) + NonNewlines(b)
  {
    if a != [] {
      assert (a + b)[1..] == a[1..] + b;
      NonNewlinesAppend(a[1..], b);
    } else {
      assert a + b == b;
    }
  }

  lemma {:induction false} NonNewlinesOfNewlines(s: string)
    requires forall i :: 0 <= i < |s| ==> s[i] == '\n'
    ensures NonNewlines(s) == []
  {
    if s != [] {
      NonNewlinesOfNewlines(s[1..]);
    }
  }

  /** The collapsed text starts like the text and holds no run of three. */
  lemma {:induction false} CollapseShape(s: string)
    ensures NoTripleNewline(Collapse(s))
    ensures s != [] ==> Collapse(s) != [] && Collapse(s)[0] == s[0]
    decreases |s|
  {
    if s != [] {
      var r := Collapse(s);
      if s[0] == '\n' {
        var n := NewlineRun(s);
        var piece := if n >= 3 then "\n\n" else s[..n];
        var t := Collapse(s[n..]);
        CollapseShape(s[n..]);
        assert r == piece + t;
        assert |piece| <= 2 && forall i :: 0 <= i < |piece| ==> piece[i] == '\n';
        assert t == [] || t[0] != '\n';
        forall i | 0 <= i < |r| - 2
          ensures !(r[i] == '\n' && r[i + 1] == '\n' && r[i + 2] == '\n')
        {
          if i >= |piece| {
            assert r[i] == t[i - |piece|] && r[i + 1] == t[i - |piece| + 1] && r[i + 2] == t[i - |piece| + 2];
          } else if i + 1 == |piece| {
            assert r[i + 1] == t[0];
          } else {
            assert r[i + 2] == t[0];
          }
        }
      } else {
        var t := Collapse(s[1..]);
        CollapseShape(s[1..]);
        assert r == [s[0]] + t;
        forall i | 0 <= i < |r| - 2
          ensures !(r[i] == '\n' && r[i + 1] == '\n' && r[i + 2] == '\n')
        {
          if i > 0 {
            assert r[i] == t[i - 1] && r[i + 1] == t[i] && r[i + 2] == t[i + 1];
          }
        }
      }
    }
  }

  /** Dropping a prefix cannot create a run of three. */
  lemma {:induction false} NoTripleDrop(s: string, n: nat)
    requires NoTripleNewline(s) && n <= |s|
    ensures NoTripleNewline(s[n..])
  {
    var t := s[n..];
    forall i | 0 <= i < |t| - 2 ensures !(t[i] == '\n' && t[i + 1] == '\n' && t[i + 2] == '\n') {
      assert t[i] == s[n + i] && t[i + 1] == s[n + i + 1] && t[i + 2] == s[n + i + 2];
    }
  }

  /** A text without a run of three is left as it is. */
  lemma {:induction false} CollapseFixes(s: string)
    requires NoTripleNewline(s)
    ensures Collapse(s) == s
    decreases |s|
  {
    if s != [] {
      var n := if s[0] == '\n' then NewlineRun(s) else 1;
      if s[0] == '\n' && |s| >= 3 {
        assert !(s[0] == '\n' && s[1] == '\n' && s[2] == '\n');
      }
      NoTripleDrop(s, n);
      CollapseFixes(s[n..]);
      assert s == s[..n] + s[n..];
    }
  }

  /** Collapsing twice is collapsing once. */
  lemma {:induction false} CollapseIdempotent(s: string)
    ensures Collapse(Collapse(s)) == Collapse(s)
  {
    CollapseShape(s);
    CollapseFixes(Collapse(s));
  }

  /** The leading run of newlines contributes nothing. */
  lemma {:induction false} NonNewlinesSplit(s: string, n: nat)
    requires n <= |s| && forall i :: 0 <= i < n ==> s[i] == '\n'
    ensures NonNewlines(s) == NonNewlines(s[n..])
    decreases n
  {
    if n == 0 {
      assert s[0..] == s;
    } else {
      assert s[0] == '\n';
      assert NonNewlines(s) == NonNewlines(s[1..]);
      assert forall i :: 0 <= i < n - 1 ==> s[1..][i] == s[i + 1];
      NonNewlinesSplit(s[1..], n - 1);
      assert s[1..][n - 1..] == s[n..];
    }
  }

  /** Only newlines are touched: every other character survives, in order. */
  lemma {:induction false} CollapseKeepsText(s: string)
    ensures NonNewlines(Collapse(s)) == NonNewlines(s)
    decreases |s|
  {
    if s != [] {
      if s[0] == '\n' {
        var n := NewlineRun(s);
        var piece := if n >= 3 then "\n\n" else s[..n];
        assert Collapse(s) == piece + Collapse(s[n..]);
        CollapseKeepsText(s[n..]);
        NonNewlinesAppend(piece, Collapse(s[n..]));
        assert forall i :: 0 <= i < |piece| ==> piece[i] == '\n';
        NonNewlinesOfNewlines(piece);
        NonNewlinesSplit(s, n);
      } else {
        assert Collapse(s) == [s[0]] + Collapse(s[1..]);
        CollapseKeepsText(s[1..]);
        NonNewlinesAppend([s[0]], Collapse(s[1..]));
      }
    }
  }

  /** `collapseBlankLines(content)`: strings collapsed, other values as given. */
  function CollapseBlankLines(content: Json): (r: Json)
    ensures !content.JStr? ==> r == content
    ensures content.JStr? ==> r.JStr? && NoTripleNewline(r.s) && NonNewlines(r.s) == NonNewlines(content.s)
    ensures content.JStr? && NoTripleNewline(content.s) ==> r == content
  {
    if content.JStr? then
      CollapseShape(content.s);
      CollapseKeepsText(content.s);
      assert NoTripleNewline(content.s) ==> Collapse(content.s) == content.s by {
        if NoTripleNewline(content.s) { CollapseFixes(content.s); }
      }
      JStr(Collapse(content.s))
    else content
  }

  // ===========================================================================
  // normalizeBulletPoints
  // ===========================================================================

  /** The glyphs ▪ ▫ ■ □ ● ○ ◆ ◇, each replaced by the standard bullet. */
  predicate OddBullet(c: char)
  {
    c == '\U{25AA}' || c == '\U{25AB}' || c == '\U{25A0}' || c == '\U{25A1}'
    || c == '\U{25CF}' || c == '\U{25CB}' || c == '\U{25C6}' || c == '\U{25C7}'
  }

  /** `•` */
  const Bullet: char := '\U{2022}'

  /** `s.replace(/[▪▫■□●○◆◇]/g, '•')` */
  function ReplaceBullets(s: string): (r: string)
    ensures |r| == |s|
    ensures forall i :: 0 <= i < |s| ==> r[i] == (if OddBullet(s[i]) then Bullet else s[i])
  {
    if s == [] then [] else [if OddBullet(s[0]) then Bullet else s[0]] + ReplaceBullets(s[1..])
  }

  /** The number of white-space characters a line starts with. */
  function Indent(line: string): nat
  {
    |line| - |TrimStart(line)|
  }

  /** The line starts with optional white space, `-` or `*`, and a white-space character. */
  predicate DashItem(line: string)
  {
    var w := Indent(line);
    w + 1 < |line| && (line[w] == '-' || line[w] == '*') && IsSpace(line[w + 1])
  }

  /** One line of `.replace(/^[\s]*[-*]\s/gm, '• ')`: the marker and the
      white space around it give way to "• ". */
  function NormalizeLine(line: string): (r: string)
    ensures DashItem(line) ==> StartsWith(r, [Bullet, ' ']) && r[2..] == line[Indent(line) + 2..]
    ensures !DashItem(line) ==> r == line
    ensures forall c :: c in r ==> c in line || c == Bullet || c == ' '
  {
    if DashItem(line) then [Bullet, ' '] + line[Indent(line) + 2..] else line
  }

  function NormalizeLines(lines: seq<string>): (r: seq<string>)
    ensures |r| == |lines|
    ensures forall i :: 0 <= i < |lines| ==> r[i] == NormalizeLine(lines[i])
  {
    seq(|lines|, i requires 0 <= i < |lines| => NormalizeLine(lines[i]))
  }

  /** The text with the glyphs replaced, then each line normalised. */
  function NormalizeBullets(s: string): string
  {
    Join(NormalizeLines(Split(ReplaceBullets(s), '\n')), "\n")
  }

  function ReplaceBulletsLines(lines: seq<string>): (r: seq<string>)
    ensures |r| == |lines|
    ensures forall i :: 0 <= i < |lines| ==> r[i] == ReplaceBullets(lines[i])
  {
    seq(|lines|, i requires 0 <= i < |lines| => ReplaceBullets(lines[i]))
  }

  /** Replacing glyphs works line by line: it touches no newline. */
  lemma {:induction false} SplitReplaceBullets(s: string)
    ensures Split(ReplaceBullets(s), '\n') == ReplaceBulletsLines(Split(s, '\n'))
  {
    if s != [] {
      SplitReplaceBullets(s[1..]);
      var c := if OddBullet(s[0]) then Bullet else s[0];
      var t := ReplaceBullets(s);
      assert t == [c] + ReplaceBullets(s[1..]);
      assert t[1..] == ReplaceBullets(s[1..]);
      var rest := Split(s[1..], '\n');
      if s[0] != '\n' {
        assert Split(t, '\n') == [[c] + ReplaceBulletsLines(rest)[0]] + ReplaceBulletsLines(rest)[1..];
        assert ([s[0]] + rest[0])[1..] == rest[0];
        assert ReplaceBullets([s[0]] + rest[0]) == [c] + ReplaceBullets(rest[0]);
        ReplaceBulletsLinesCons([s[0]] + rest[0], rest[1..]);
        ReplaceBulletsLinesTail(rest);
      } else {
        assert Split(t, '\n') == [""] + ReplaceBulletsLines(rest);
        ReplaceBulletsLinesCons("", rest);
      }
    }
  }

  lemma ReplaceBulletsLinesCons(line: string, lines: seq<string>)
    ensures ReplaceBulletsLines([line] + lines) == [ReplaceBullets(line)] + ReplaceBulletsLines(lines)
  {
  }

  lemma ReplaceBulletsLinesTail(lines: seq<string>)
    requires lines != []
    ensures ReplaceBulletsLines(lines)[1..] == ReplaceBulletsLines(lines[1..])
  {
  }

  /** Glyphs are neither white space nor markers, so replacing them keeps a list item an item. */
  lemma {:induction false} ReplaceBulletsKeepsItems(line: string)
    ensures Indent(ReplaceBullets(line)) == Indent(line)
    ensures DashItem(ReplaceBullets(line)) <==> DashItem(line)
  {
    var r := ReplaceBullets(line);
    forall i | 0 <= i < |line| ensures IsSpace(r[i]) <==> IsSpace(line[i]) {
      GlyphAgrees(line[i]);
    }
    IndentFromSpaces(line, r);
    var w := Indent(line);
    if w + 1 < |line| {
      GlyphAgrees(line[w]);
      GlyphAgrees(line[w + 1]);
    }
  }

  /** A replaced glyph is neither white space nor a list marker, and neither was the glyph. */
  lemma GlyphAgrees(c: char)
    ensures var d := if OddBullet(c) then Bullet else c;
      (IsSpace(d) <==> IsSpace(c)) && (d == '-' <==> c == '-') && (d == '*' <==> c == '*')
  {
  }

  /** Lines whose characters agree on being white space have the same indent. */
  lemma {:induction false} IndentFromSpaces(a: string, b: string)
    requires |a| == |b|
    requires forall i :: 0 <= i < |a| ==> (IsSpace(a[i]) <==> IsSpace(b[i]))
    ensures Indent(a) == Indent(b)
  {
    if a != [] && IsSpace(a[0]) {
      IndentFromSpaces(a[1..], b[1..]);
    }
  }

  /** The lines of the output are the input's lines, glyphs replaced, each normalised. */
  lemma {:induction false} BulletLinesSplit(s: string)
    ensures Split(NormalizeBullets(s), '\n') == NormalizeLines(ReplaceBulletsLines(Split(s, '\n')))
  {
    var ls := Split(ReplaceBullets(s), '\n');
    var mapped := NormalizeLines(ls);
    forall i | 0 <= i < |mapped| ensures '\n' !in mapped[i] {
      assert '\n' !in ls[i];
    }
    SplitJoin(mapped, '\n');
    SplitReplaceBullets(s);
  }

  /** The output has as many lines as the input; a list-item line now starts
      with "• " and keeps its text after the marker; any other line only has
      its glyphs replaced. */
  lemma {:induction false} BulletLine(s: string, i: nat)
    requires i < |Split(s, '\n')|
    ensures var line := Split(s, '\n')[i];
      var outs := Split(NormalizeBullets(s), '\n');
      |outs| == |Split(s, '\n')| &&
      (DashItem(line) ==> StartsWith(outs[i], [Bullet, ' ']) && outs[i][2..] == ReplaceBullets(line)[Indent(line) + 2..]) &&
      (!DashItem(line) ==> outs[i] == ReplaceBullets(line))
  {
    var lines := Split(s, '\n');
    var r := ReplaceBullets(lines[i]);
    BulletLinesSplit(s);
    var replaced := ReplaceBulletsLines(lines);
    assert replaced[i] == r;
    assert Split(NormalizeBullets(s), '\n')[i] == NormalizeLine(r);
    ReplaceBulletsKeepsItems(lines[i]);
  }

  /** A character of the replaced text is no odd glyph. */
  lemma ReplacedNoOdd(s: string, c: char)
    requires c in ReplaceBullets(s)
    ensures !OddBullet(c)
  {
    var r := ReplaceBullets(s);
    var k :| 0 <= k < |r| && r[k] == c;
    assert r[k] == if OddBullet(s[k]) then Bullet else s[k];
  }

  /** A character of the normalised text is no odd glyph. */
  lemma NoOddBulletAt(s: string, c: char)
    requires c in NormalizeBullets(s)
    ensures !OddBullet(c)
  {
    var mapped := NormalizeLines(Split(ReplaceBullets(s), '\n'));
    JoinChars(mapped, "\n", c);
    if c !in "\n" {
      var i :| 0 <= i < |mapped| && c in mapped[i];
      NoOddInLine(s, i, c);
    }
  }

  /** A character of one normalised line is no odd glyph. */
  lemma NoOddInLine(s: string, i: int, c: char)
    requires 0 <= i < |Split(ReplaceBullets(s), '\n')|
    requires c in NormalizeLine(Split(ReplaceBullets(s), '\n')[i])
    ensures !OddBullet(c)
  {
    var r := ReplaceBullets(s);
    if c in Split(r, '\n')[i] {
      SplitChars(r, '\n', c);
      ReplacedNoOdd(s, c);
    }
  }

  /** No odd glyph is left anywhere. */
  lemma NoOddBulletLeft(s: string)
    ensures forall c :: c in NormalizeBullets(s) ==> !OddBullet(c)
  {
    forall c | c in NormalizeBullets(s) ensures !OddBullet(c) {
      NoOddBulletAt(s, c);
    }
  }

  // The pattern as written: `[\s]*` and the final `\s` also match line
  // breaks, and with the `m` flag `^` holds at the start and after any line
  // terminator. The functions below follow one match at a time over the
  // whole text; NormalizeBullets above is the line-by-line reading.

  /** A character after which `^` holds under the `m` flag. */
  predicate LineTerminator(c: char)
  {
    c == '\n' || c == '\r' || c == '\U{2028}' || c == '\U{2029}'
  }

  /** The length of the white-space run `s` starts with (what greedy `[\s]*` takes). */
  function SpaceRun(s: string): (n: nat)
    ensures n <= |s|
    ensures forall i :: 0 <= i < n ==> IsSpace(s[i])
    ensures n < |s| ==> !IsSpace(s[n])
  {
    if s != [] && IsSpace(s[0]) then 1 + SpaceRun(s[1..]) else 0
  }

  /** `[\s]*[-*]\s` matches at the start of `s`. As `-` and `*` are not
      white space, the greedy run cannot give anything back. */
  predicate ItemAt(s: string)
  {
    var w := SpaceRun(s);
    w + 1 < |s| && (s[w] == '-' || s[w] == '*') && IsSpace(s[w + 1])
  }

  /** `.replace(/^[\s]*[-*]\s/gm, '• ')` on the rest `s` of the text; `atStart`
      says whether `^` holds at its first character. A match is replaced by
      "• " and the search resumes right after it. */
  function ItemScan(s: string, atStart: bool): (r: string)
    ensures |r| <= |s|
    ensures forall c :: c in r ==> c in s || c == Bullet || c == ' '
    decreases |s|
  {
    if s == [] then []
    else if atStart && ItemAt(s) then
      var e := SpaceRun(s) + 2;
      var rest := ItemScan(s[e..], LineTerminator(s[e - 1]));
      assert forall c :: c in s[e..] ==> c in s;
      [Bullet, ' '] + rest
    else
      var rest := ItemScan(s[1..], LineTerminator(s[0]));
      assert forall c :: c in s[1..] ==> c in s;
      [s[0]] + rest
  }

  /** `^` holds at index `i` of `s` when the scan reaches it with `atStart`. */
  predicate LineStart(s: string, i: nat, atStart: bool)
    requires i < |s|
  {
    if i == 0 then atStart else LineTerminator(s[i - 1])
  }

  /** No match begins at any line start. */
  predicate NoItemStart(s: string, atStart: bool)
  {
    forall i :: 0 <= i < |s| && LineStart(s, i, atStart) ==> !ItemAt(s[i..])
  }

  /** Text in which no line start begins a match comes back unchanged. */
  lemma {:induction false} ScanKeeps(s: string, atStart: bool)
    requires NoItemStart(s, atStart)
    ensures ItemScan(s, atStart) == s
    decreases |s|
  {
    if s != [] {
      assert LineStart(s, 0, atStart) && s[0..] == s ==> !ItemAt(s);
      forall i | 0 <= i < |s| - 1 && LineStart(s[1..], i, LineTerminator(s[0]))
        ensures !ItemAt(s[1..][i..])
      {
        assert LineStart(s, i + 1, atStart);
        assert s[1..][i..] == s[i + 1..];
      }
      ScanKeeps(s[1..], LineTerminator(s[0]));
    }
  }

  /** The glyphs replaced, then the pattern applied as written. */
  function BulletsAsWritten(s: string): string
  {
    ItemScan(ReplaceBullets(s), true)
  }

  /** Where no match begins, the scan copies one character. */
  lemma ScanCopies(s: string, atStart: bool)
    requires s != [] && !(atStart && ItemAt(s))
    ensures ItemScan(s, atStart) == [s[0]] + ItemScan(s[1..], LineTerminator(s[0]))
  {
  }

  /** Where a match begins, the scan writes "• " and resumes after it. */
  lemma ScanReplaces(s: string)
    requires ItemAt(s)
    ensures ItemScan(s, true) == [Bullet, ' '] + ItemScan(s[SpaceRun(s) + 2..], LineTerminator(s[SpaceRun(s) + 1]))
  {
  }

  /** Dropping a leading white-space character shortens the run by one and
      does not change whether a match begins. */
  lemma SpaceRunTail(s: string)
    requires s != [] && IsSpace(s[0])
    ensures SpaceRun(s[1..]) == SpaceRun(s) - 1
    ensures ItemAt(s[1..]) == ItemAt(s)
  {
    var w := SpaceRun(s);
    if w + 1 < |s| {
      assert s[1..][w - 1] == s[w] && s[1..][w] == s[w + 1];
    }
  }

  /** Two texts that agree up to and including the first character after
      the white-space run of `s` have the same run. */
  lemma {:induction false} SpaceRunPrefix(s: string, t: string, k: nat)
    requires SpaceRun(s) < k <= |s| && k <= |t| && s[..k] == t[..k]
    ensures SpaceRun(t) == SpaceRun(s)
    decreases k
  {
    assert s[0] == s[..k][0] && t[0] == t[..k][0];
    if IsSpace(s[0]) {
      assert s[1..][..k - 1] == s[..k][1..];
      assert t[1..][..k - 1] == t[..k][1..];
      SpaceRunPrefix(s[1..], t[1..], k - 1);
    }
  }

  /** Whether a match begins depends only on the white-space run and the two
      characters after it. */
  lemma ItemAtPrefix(s: string, t: string)
    requires SpaceRun(s) + 2 <= |s| && SpaceRun(s) + 2 <= |t|
    requires s[..SpaceRun(s) + 2] == t[..SpaceRun(s) + 2]
    ensures ItemAt(t) == ItemAt(s)
  {
    var w := SpaceRun(s);
    SpaceRunPrefix(s, t, w + 2);
    assert s[w] == s[..w + 2][w] && t[w] == t[..w + 2][w];
    assert s[w + 1] == s[..w + 2][w + 1] && t[w + 1] == t[..w + 2][w + 1];
  }

  /** How far the scan copies where no match begins: the white-space run and
      the two characters after it, or the whole text if it is shorter. */
  function CopiedRun(s: string): nat
  {
    if SpaceRun(s) + 2 <= |s| then SpaceRun(s) + 2 else |s|
  }

  /** Where no match begins at a character that is not white space, the scan
      copies it and the character after it. */
  lemma ScanCopiesTwo(s: string, atStart: bool)
    requires |s| > 1 && !IsSpace(s[0]) && !ItemAt(s)
    ensures ItemScan(s, atStart) == s[..2] + ItemScan(s[2..], LineTerminator(s[1]))
  {
    var t := s[1..];
    assert !LineTerminator(s[0]);
    ScanCopies(s, atStart);
    assert ItemScan(s, atStart) == [s[0]] + ItemScan(t, false);
    ScanCopies(t, false);
    assert t[0] == s[1] && t[1..] == s[2..];
    assert ItemScan(t, false) == [s[1]] + ItemScan(s[2..], LineTerminator(s[1]));
    assert s[..2] == [s[0], s[1]];
  }

  /** Where no match begins at a white-space character, the scan copies it
      in front of what it makes of the rest. */
  lemma ScanCopiesSpace(s: string, atStart: bool, m: nat, x: string)
    requires |s| > 1 && IsSpace(s[0]) && !ItemAt(s) && 2 <= m <= |s|
    requires ItemScan(s[1..], LineTerminator(s[0])) == s[1..m] + x
    ensures ItemScan(s, atStart) == s[..m] + x
  {
    ScanCopies(s, atStart);
    assert s[..m] == [s[0]] + s[1..m];
  }

  /** Where no match begins, none begins inside its white-space run either:
      the scan copies the run and the two characters after it. */
  lemma {:induction false} ScanCopiesRun(s: string, atStart: bool)
    requires s != [] && !ItemAt(s)
    ensures CopiedRun(s) > 0
    ensures ItemScan(s, atStart) == s[..CopiedRun(s)] + ItemScan(s[CopiedRun(s)..], LineTerminator(s[CopiedRun(s) - 1]))
    decreases |s|
  {
    var m := CopiedRun(s);
    if |s| == 1 {
      ScanCopies(s, atStart);
    } else if !IsSpace(s[0]) {
      ScanCopiesTwo(s, atStart);
    } else {
      var t := s[1..];
      SpaceRunTail(s);
      assert CopiedRun(t) == m - 1;
      ScanCopiesRun(t, LineTerminator(s[0]));
      assert t[..m - 1] == s[1..m] && t[m - 1..] == s[m..] && t[m - 2] == s[m - 1];
      ScanCopiesSpace(s, atStart, m, ItemScan(s[m..], LineTerminator(s[m - 1])));
    }
  }

  /** Where no match begins in `s`, none begins in what the scan makes of it. */
  lemma NoItemAfterCopy(s: string, atStart: bool)
    requires s != [] && !ItemAt(s)
    ensures !ItemAt(ItemScan(s, atStart))
  {
    var w := SpaceRun(s);
    ScanCopiesRun(s, atStart);
    if w + 2 <= |s| {
      assert CopiedRun(s) == w + 2;
      var o := ItemScan(s, atStart);
      assert o[..w + 2] == s[..w + 2];
      ItemAtPrefix(s, o);
    } else {
      assert s[..|s|] == s && s[|s|..] == [];
    }
  }

  /** "• " in front of a text with no match at its line starts adds none:
      the bullet begins no match and `^` does not hold after it. */
  lemma BulletKeepsNoItem(rest: string, f: bool, atStart: bool)
    requires NoItemStart(rest, f)
    ensures NoItemStart([Bullet, ' '] + rest, atStart)
  {
    var o := [Bullet, ' '] + rest;
    forall i | 0 <= i < |o| && LineStart(o, i, atStart)
      ensures !ItemAt(o[i..])
    {
      if i == 0 {
        assert o[0..] == o && SpaceRun(o) == 0;
      } else {
        assert i > 2 && LineStart(rest, i - 2, f);
        assert o[i..] == rest[i - 2..];
      }
    }
  }

  /** A character in front of a text with no match at its line starts adds
      none, provided no match begins at the character itself. */
  lemma CharKeepsNoItem(c: char, rest: string, atStart: bool)
    requires NoItemStart(rest, LineTerminator(c))
    requires atStart ==> !ItemAt([c] + rest)
    ensures NoItemStart([c] + rest, atStart)
  {
    var o := [c] + rest;
    forall i | 0 <= i < |o| && LineStart(o, i, atStart)
      ensures !ItemAt(o[i..])
    {
      if i == 0 {
        assert o[0..] == o;
      } else {
        assert LineStart(rest, i - 1, LineTerminator(c));
        assert o[i..] == rest[i - 1..];
      }
    }
  }

  /** The scan leaves no match at any line start of its result: every
      `[\s]*[-*]\s` that began a line has become "• ". */
  lemma {:induction false} ScanLeavesNoItem(s: string, atStart: bool)
    ensures NoItemStart(ItemScan(s, atStart), atStart)
    decreases |s|
  {
    if s == [] {
    } else if atStart && ItemAt(s) {
      var e := SpaceRun(s) + 2;
      ScanReplaces(s);
      ScanLeavesNoItem(s[e..], LineTerminator(s[e - 1]));
      BulletKeepsNoItem(ItemScan(s[e..], LineTerminator(s[e - 1])), LineTerminator(s[e - 1]), atStart);
    } else {
      ScanCopies(s, atStart);
      ScanLeavesNoItem(s[1..], LineTerminator(s[0]));
      if atStart {
        NoItemAfterCopy(s, atStart);
      }
      CharKeepsNoItem(s[0], ItemScan(s[1..], LineTerminator(s[0])), atStart);
    }
  }

  /** A text without odd glyphs is left alone by the glyph replacement. */
  lemma ReplaceKeepsPlain(s: string)
    requires forall i :: 0 <= i < |s| ==> !OddBullet(s[i])
    ensures ReplaceBullets(s) == s
  {
  }

  /** A run of characters none of which is white space, a marker or an odd glyph. */
  predicate PlainWord(w: string)
  {
    forall i :: 0 <= i < |w| ==> !IsSpace(w[i]) && w[i] != '-' && w[i] != '*' && !OddBullet(w[i])
  }

  /** A plain word is copied, and `^` does not hold after it. */
  lemma {:induction false} ScanWord(w: string, t: string, atStart: bool)
    requires PlainWord(w) && w != []
    ensures ItemScan(w + t, atStart) == w + ItemScan(t, false)
    decreases |w|
  {
    var s := w + t;
    assert s[0] == w[0];
    assert SpaceRun(s) == 0;
    ScanCopies(s, atStart);
    assert s[1..] == w[1..] + t;
    if |w| > 1 {
      ScanWord(w[1..], t, false);
    }
  }

  /** The glyph replacement works piece by piece. */
  lemma ReplaceConcat(s: string, t: string)
    ensures ReplaceBullets(s + t) == ReplaceBullets(s) + ReplaceBullets(t)
  {
    assert forall i :: 0 <= i < |s| ==> (s + t)[i] == s[i];
    assert forall i :: |s| <= i < |s| + |t| ==> (s + t)[i] == t[i - |s|];
  }

  /** A plain word holds no odd glyph. */
  lemma ReplaceKeepsWord(w: string)
    requires PlainWord(w)
    ensures ReplaceBullets(w) == w
  {
    ReplaceKeepsPlain(w);
  }

  /** A line break is copied, and `^` holds after it. */
  lemma ScanBreak(t: string)
    ensures ItemScan("\n" + t, false) == "\n" + ItemScan(t, true)
  {
    var u := "\n" + t;
    assert u[0] == '\n';
    ScanCopies(u, false);
    assert u[1..] == t;
  }

  /** The line breaks, markers and spaces of the examples below are no odd glyphs. */
  lemma ReplaceKeepsMarkup()
    ensures ReplaceBullets("\n\n- ") == "\n\n- "
    ensures ReplaceBullets("-\n") == "-\n"
  {
    ReplaceKeepsPlain("\n\n- ");
    ReplaceKeepsPlain("-\n");
  }

  /** A marker after a line start, followed by a space or a line break,
      becomes "• ", whatever the line break before it. */
  lemma ScanMarker(sp: string, b: char, x: string)
    requires sp == "\n" || sp == ""
    requires b == ' ' || b == '\n'
    requires PlainWord(x) && x != []
    ensures ItemScan(sp + ['-', b] + x, true) == [Bullet, ' '] + x
  {
    var t := sp + ['-', b] + x;
    assert t[|sp|] == '-' && t[|sp| + 1] == b;
    assert SpaceRun(t[|sp|..]) == 0;
    assert SpaceRun(t) == |sp|;
    ScanReplaces(t);
    assert t[|sp| + 2..] == x + [];
    ScanWord(x, [], LineTerminator(b));
  }

  /** The text of the blank-line example is left alone by the glyph replacement. */
  lemma BlankLineTextPlain(a: string, x: string)
    requires PlainWord(a) && PlainWord(x)
    ensures ReplaceBullets(a + "\n\n- " + x) == a + ("\n" + ("\n" + ['-', ' '] + x))
  {
    ReplaceConcat(a, "\n\n- ");
    ReplaceConcat(a + "\n\n- ", x);
    ReplaceKeepsWord(a);
    ReplaceKeepsWord(x);
    ReplaceKeepsMarkup();
    SplitMarkup(a, x);
  }

  /** The blank-line example, cut where the scan moves on. */
  lemma SplitMarkup(a: string, x: string)
    ensures a + "\n\n- " + x == a + ("\n" + ("\n" + ['-', ' '] + x))
  {
    assert "\n\n- " == "\n" + "\n" + ['-', ' '];
  }

  /** As written, a blank line before a list item is swallowed with the
      marker: "a\n\n- x" loses a line break. */
  lemma BlankLineSwallowed(a: string, x: string)
    requires PlainWord(a) && PlainWord(x) && a != [] && x != []
    ensures BulletsAsWritten(a + "\n\n- " + x) == a + "\n" + [Bullet] + " " + x
  {
    var s := a + "\n\n- " + x;
    var t := "\n" + ['-', ' '] + x;
    calc {
      BulletsAsWritten(s);
      ItemScan(ReplaceBullets(s), true);
      { BlankLineTextPlain(a, x); }
      ItemScan(a + ("\n" + t), true);
      { ScanWord(a, "\n" + t, true); }
      a + ItemScan("\n" + t, false);
      { ScanBreak(t); }
      a + ("\n" + ItemScan(t, true));
      { ScanMarker("\n", ' ', x); }
      a + ("\n" + ([Bullet, ' '] + x));
      a + "\n" + [Bullet] + " " + x;
    }
  }

  /** The text of the lone-marker example is left alone by the glyph replacement. */
  lemma MarkerTextPlain(x: string)
    requires PlainWord(x)
    ensures ReplaceBullets("-\n" + x) == "" + ['-', '\n'] + x
  {
    ReplaceConcat("-\n", x);
    ReplaceKeepsWord(x);
    ReplaceKeepsMarkup();
    assert "-\n" == "" + ['-', '\n'];
  }

  /** As written, a lone marker at the end of a line joins the next line:
      "-\nfoo" becomes "• foo". */
  lemma MarkerJoinsNextLine(x: string)
    requires PlainWord(x) && x != []
    ensures BulletsAsWritten("-\n" + x) == [Bullet] + " " + x
  {
    var s := "-\n" + x;
    calc {
      BulletsAsWritten(s);
      ItemScan(ReplaceBullets(s), true);
      { MarkerTextPlain(x); }
      ItemScan("" + ['-', '\n'] + x, true);
      { ScanMarker("", '\n', x); }
      [Bullet, ' '] + x;
    }
  }

  /** Where no line start begins a match, only the glyphs are replaced. */
  lemma PlainTextKept(s: string)
    ensures NoItemStart(ReplaceBullets(s), true) ==> BulletsAsWritten(s) == ReplaceBullets(s)
  {
    if NoItemStart(ReplaceBullets(s), true) {
      ScanKeeps(ReplaceBullets(s), true);
    }
  }

  /** As written, no odd glyph is left anywhere. */
  lemma NoOddBulletAsWritten(s: string)
    ensures forall c :: c in BulletsAsWritten(s) ==> !OddBullet(c)
  {
    forall c | c in BulletsAsWritten(s) ensures !OddBullet(c) {
      if c in ReplaceBullets(s) {
        ReplacedNoOdd(s, c);
      }
    }
  }

  /** `normalizeBulletPoints(content)`: strings normalised as written, other values as given. */
  function NormalizeBulletPoints(content: Json): (r: Json)
    ensures !content.JStr? ==> r == content
    ensures content.JStr? ==> r.JStr? && forall c :: c in r.s ==> !OddBullet(c)
    ensures content.JStr? ==> NoItemStart(r.s, true)
    ensures content.JStr? && NoItemStart(ReplaceBullets(content.s), true) ==> r == JStr(ReplaceBullets(content.s))
  {
    if content.JStr? then
      NoOddBulletAsWritten(content.s);
      PlainTextKept(content.s);
      ScanLeavesNoItem(ReplaceBullets(content.s), true);
      JStr(BulletsAsWritten(content.s))
    else content
  }

  /** Normalising twice gives what normalising once does. */
  lemma NormalizeBulletPointsIdempotent(content: Json)
    ensures NormalizeBulletPoints(NormalizeBulletPoints(content)) == NormalizeBulletPoints(content)
  {
    if content.JStr? {
      var o := NormalizeBulletPoints(content).s;
      ReplaceKeepsPlain(o);
      ScanKeeps(o, true);
    }
  }

  // ===========================================================================
  // formatPhoneNumber
  // ===========================================================================

  /** `formatPhoneNumber(phone)`; it tests the digit counts in the order 12,
      10, 11 and has no separate `>= 10` guard, yet gives the report
      generator's result for every input. */
  function FormatPhoneNumber(phone: Val): (r: Json)
    ensures r == DocxGenerator.FormatPhoneNumber(phone)
  {
    if !Truthy(phone) then JStr("")
    else
      var c := Digits(JsString(phone.value));
      if |c| == 12 then JStr("+" + c[..2] + " " + c[2..5] + " " + c[5..8] + " " + c[8..])
      else if |c| == 10 then JStr(c[..3] + " " + c[3..6] + " " + c[6..])
      else if |c| == 11 then JStr("+" + c[..1] + " " + c[1..4] + " " + c[4..7] + " " + c[7..])
      else phone.value
  }

  // ===========================================================================
  // normalizeCapitalization
  // ===========================================================================

  /** The length of the leading run of non-space characters. */
  function WordLength(s: string): (n: nat)
    ensures n <= |s|
    ensures forall i :: 0 <= i < n ==> !IsSpace(s[i])
    ensures n < |s| ==> IsSpace(s[n])
  {
    if s != [] && !IsSpace(s[0]) then 1 + WordLength(s[1..]) else 0
  }

  /** The length of the leading run of white space. */
  function GapLength(s: string): (n: nat)
    ensures n <= |s|
    ensures forall i :: 0 <= i < n ==> IsSpace(s[i])
    ensures n < |s| ==> !IsSpace(s[n])
  {
    if s != [] && IsSpace(s[0]) then 1 + GapLength(s[1..]) else 0
  }

  /** A word: no white space in it. */
  predicate Solid(w: string)
  {
    forall j :: 0 <= j < |w| ==> !IsSpace(w[j])
  }

  /** `s.split(/\s+/)`: the pieces between white-space runs; a leading or
      trailing run gives an empty first or last piece. */
  function Words(s: string): (ws: seq<string>)
    ensures |ws| >= 1
    ensures forall i :: 0 <= i < |ws| ==> Solid(ws[i])
    ensures forall i :: 0 < i < |ws| - 1 ==> ws[i] != []
    ensures s != [] && !IsSpace(s[0]) ==> ws[0] != []
    decreases |s|
  {
    var w := WordLength(s);
    if w == |s| then [s]
    else
      var g := GapLength(s[w..]);
      assert g >= 1;
      var rest := Words(s[w + g..]);
      assert w + g < |s| ==> !IsSpace(s[w + g..][0]) by {
        if w + g < |s| { assert s[w..][g] == s[w + g]; }
      }
      [s[..w]] + rest
  }

  /** A word's leading run is the whole word, up to the gap after it. */
  lemma {:induction false} WordLengthOf(a: string, t: string)
    requires Solid(a) && (t == [] || IsSpace(t[0]))
    ensures WordLength(a + t) == |a|
  {
    if a != [] {
      assert (a + t)[1..] == a[1..] + t;
      WordLengthOf(a[1..], t);
    } else {
      assert a + t == t;
    }
  }

  /** A word, one space, and a text that does not start with white space:
      the word is split off. */
  lemma {:induction false} WordsStep(a: string, j: string)
    requires Solid(a) && (j == [] || !IsSpace(j[0]))
    ensures Words(a + " " + j) == [a] + Words(j)
  {
    var s := a + " " + j;
    assert s == a + (" " + j);
    WordLengthOf(a, " " + j);
    assert s[|a|..] == " " + j;
    assert GapLength(" " + j) == 1 by {
      assert (" " + j)[1..] == j;
    }
    assert s[..|a|] == a;
    assert s[|a| + 1..] == j;
  }

  /** Joining words with single spaces and splitting again gives the words
      back, as long as no inner word is empty. */
  lemma {:induction false} WordsJoin(ws: seq<string>)
    requires ws != []
    requires forall i :: 0 <= i < |ws| ==> Solid(ws[i])
    requires forall i :: 0 < i < |ws| - 1 ==> ws[i] != []
    ensures Words(Join(ws, " ")) == ws
    decreases |ws|
  {
    if |ws| == 1 {
      WordLengthOf(ws[0], "");
      assert ws[0] + "" == ws[0];
    } else {
      var a, rest := ws[0], ws[1..];
      assert ws == [a] + rest;
      JoinCons(a, rest, " ");
      var j := Join(rest, " ");
      WordsJoin(rest);
      assert j == [] || !IsSpace(j[0]) by {
        if |rest| > 1 {
          JoinCons(rest[0], rest[1..], " ");
          assert rest[0] != [] && j[0] == rest[0][0];
        }
      }
      WordsStep(a, j);
    }
  }

  /** A word of at most three characters that is already upper case is
      kept; any other word becomes first-upper, rest-lower. */
  function TitleWord(word: string): (r: string)
    ensures |r| == |word|
    ensures Solid(word) ==> Solid(r)
  {
    if |word| <= 3 && word == ToUpper(word) then word
    else if word == [] then []
    else [UpperChar(word[0])] + ToLower(word[1..])
  }

  function TitleWords(ws: seq<string>): (r: seq<string>)
    ensures |r| == |ws|
    ensures forall i :: 0 <= i < |ws| ==> r[i] == TitleWord(ws[i])
  {
    seq(|ws|, i requires 0 <= i < |ws| => TitleWord(ws[i]))
  }

  /** All-caps text longer than 20 characters becomes its title-cased words
      joined by single spaces; anything else is kept. */
  function NormalizeText(text: string): string
  {
    if text == ToUpper(text) && |text| > 20 then Join(TitleWords(Words(text)), " ") else text
  }

  /** Every character is its own upper case. */
  predicate Caps(s: string)
  {
    forall k :: 0 <= k < |s| ==> UpperChar(s[k]) == s[k]
  }

  lemma CapsIffUpper(s: string)
    ensures Caps(s) <==> s == ToUpper(s)
  {
  }

  /** Every word of an all-caps text is all caps. */
  lemma {:induction false} UpperWords(s: string)
    requires s == ToUpper(s)
    ensures forall i :: 0 <= i < |Words(s)| ==> Words(s)[i] == ToUpper(Words(s)[i])
  {
    CapsIffUpper(s);
    CapsWordsOf(s);
    forall i | 0 <= i < |Words(s)| ensures Words(s)[i] == ToUpper(Words(s)[i]) {
      CapsIffUpper(Words(s)[i]);
    }
  }

  lemma {:induction false} CapsWordsOf(s: string)
    requires Caps(s)
    ensures forall i :: 0 <= i < |Words(s)| ==> Caps(Words(s)[i])
    decreases |s|
  {
    var w := WordLength(s);
    if w < |s| {
      var g := GapLength(s[w..]);
      var t := s[w + g..];
      assert Words(s) == [s[..w]] + Words(t);
      CapsSlice(s, w + g, |s|);
      assert s[w + g..|s|] == t;
      CapsWordsOf(t);
      CapsSlice(s, 0, w);
      assert s[0..w] == s[..w];
      CapsCons(s[..w], Words(t));
    }
  }

  /** A slice of an all-caps text is all caps. */
  lemma CapsSlice(s: string, lo: nat, hi: nat)
    requires Caps(s) && lo <= hi <= |s|
    ensures Caps(s[lo..hi])
  {
    forall k | 0 <= k < hi - lo ensures UpperChar(s[lo..hi][k]) == s[lo..hi][k] {
      assert s[lo..hi][k] == s[lo + k];
    }
  }

  /** An all-caps word in front of all-caps words. */
  lemma CapsCons(x: string, ws: seq<string>)
    requires Caps(x) && forall i :: 0 <= i < |ws| ==> Caps(ws[i])
    ensures forall i :: 0 <= i < |[x] + ws| ==> Caps(([x] + ws)[i])
  {
    forall i | 0 <= i < |[x] + ws| ensures Caps(([x] + ws)[i]) {
      if i > 0 {
        assert ([x] + ws)[i] == ws[i - 1];
      }
    }
  }

  /** In the all-caps case the result, split on white space, is exactly the
      title-cased words of the text; words of up to three characters are
      unchanged and the others are first-upper, rest-lower. */
  lemma {:induction false} CapsWords(text: string)
    requires text == ToUpper(text) && |text| > 20
    ensures Words(NormalizeText(text)) == TitleWords(Words(text))
    ensures forall i :: 0 <= i < |Words(text)| && |Words(text)[i]| <= 3 ==>
      TitleWords(Words(text))[i] == Words(text)[i]
    ensures forall i :: 0 <= i < |Words(text)| && |Words(text)[i]| > 3 ==>
      var w := Words(text)[i];
      TitleWords(Words(text))[i] == [UpperChar(w[0])] + ToLower(w[1..])
  {
    TitleWordsResplit(text);
    var ws := Words(text);
    UpperWords(text);
    forall i | 0 <= i < |ws| && |ws[i]| <= 3 ensures TitleWords(ws)[i] == ws[i] {
      assert TitleWords(ws)[i] == TitleWord(ws[i]);
    }
    forall i | 0 <= i < |ws| && |ws[i]| > 3 ensures TitleWords(ws)[i] == [UpperChar(ws[i][0])] + ToLower(ws[i][1..]) {
      assert TitleWords(ws)[i] == TitleWord(ws[i]);
    }
  }

  /** The title-cased words joined by spaces split back into themselves. */
  lemma TitleWordsResplit(text: string)
    requires text == ToUpper(text) && |text| > 20
    ensures Words(NormalizeText(text)) == TitleWords(Words(text))
  {
    var ws := Words(text);
    var ts := TitleWords(ws);
    forall i | 0 <= i < |ts| ensures Solid(ts[i]) && (0 < i < |ts| - 1 ==> ts[i] != []) {
      assert ts[i] == TitleWord(ws[i]);
    }
    assert NormalizeText(text) == Join(ts, " ");
    WordsJoin(ts);
  }

  /** `normalizeCapitalization(text)`: falsy values and non-strings are
      returned as given, and so is any text that is not all caps or not
      longer than 20 characters. */
  function NormalizeCapitalization(text: Json): (r: Json)
    ensures !text.JStr? ==> r == text
    ensures text.JStr? ==> r.JStr?
    ensures text.JStr? && !(text.s == ToUpper(text.s) && |text.s| > 20) ==> r == text
  {
    if !Truthy(Some(text)) || !text.JStr? then text else JStr(NormalizeText(text.s))
  }

  // ===========================================================================
  // sanitizeForDocument
  // ===========================================================================

  /** One string through the four clean-ups, in the order the sanitizer
      applies them, brand blocks as written. */
  function CleanText(s: string, brandMatches: string -> seq<string>): (r: Json)
    ensures r.JStr?
  {
    NormalizeCapitalization(NormalizeBulletPoints(CollapseBlankLines(BrandCleanedAsWritten(JStr(s), brandMatches))))
  }

  /** The same pipeline with the corrected brand-block step (KeepFirstBrandBlock). */
  function CorrectedCleanText(s: string, brandMatches: string -> seq<string>): (r: Json)
    ensures r.JStr?
  {
    NormalizeCapitalization(NormalizeBulletPoints(CollapseBlankLines(KeepFirstBrandBlock(JStr(s), brandMatches))))
  }

  /** The two pipelines differ only on text with more than one brand block. */
  lemma CleanTextVersionsAgree(s: string, brandMatches: string -> seq<string>)
    requires |brandMatches(s)| <= 1
    ensures CorrectedCleanText(s, brandMatches) == CleanText(s, brandMatches)
  {
    BrandVersionsAgreeOnOneMatch(JStr(s), brandMatches);
  }

  /** The sanitized value: strings cleaned, arrays and objects rebuilt as
      objects over their `Object.entries` with every value sanitized, other
      values unchanged. */
  function SanitizeDoc(j: Json, brandMatches: string -> seq<string>): (r: Json)
    ensures j.JStr? ==> r.JStr?
    ensures j.JArr? || j.JObj? ==> r.JObj?
    ensures !(j.JStr? || j.JArr? || j.JObj?) ==> r == j
    decreases j, 2
  {
    match j
    case JStr(s) => CleanText(s, brandMatches)
    case JArr(xs) => JObj(SanitizeEntries(j, brandMatches, |xs|))
    case JObj(fs) => JObj(SanitizeEntries(j, brandMatches, |fs|))
    case _ => j
  }

  /** The number of `Object.entries` of an array or object. */
  function EntryCount(j: Json): nat
  {
    if j.JArr? then |j.items| else if j.JObj? then |j.fields| else 0
  }

  /** The key of entry `i` of an array or object. */
  function EntryKey(j: Json, i: nat): string
    requires (j.JArr? || j.JObj?) && i < EntryCount(j)
  {
    if j.JObj? then j.fields[i].0 else IntToString(i)
  }

  /** The value of entry `i` of an array or object. */
  function EntryValue(j: Json, i: nat): (v: Json)
    requires (j.JArr? || j.JObj?) && i < EntryCount(j)
    ensures v < j
  {
    if j.JObj? then j.fields[i].1 else j.items[i]
  }

  /** What the loop body stores for one value: strings and objects are
      sanitized recursively, everything else is copied. */
  function SanitizeValue(v: Json, brandMatches: string -> seq<string>): (r: Json)
    ensures !(v.JStr? || v.JArr? || v.JObj?) ==> r == v
    decreases v, 3
  {
    if v.JStr? || v.JArr? || v.JObj? then SanitizeDoc(v, brandMatches) else v
  }

  /** The sanitized values of the entries of `j`, in order. */
  function SanitizedValues(j: Json, brandMatches: string -> seq<string>): (vs: seq<Json>)
    requires j.JArr? || j.JObj?
    ensures |vs| == EntryCount(j)
    decreases j, 0
  {
    seq(EntryCount(j), i requires 0 <= i < EntryCount(j) => SanitizeValue(EntryValue(j, i), brandMatches))
  }

  /** An object built by putting the first `n` keys with their values, in order. */
  function Rebuild(keys: seq<string>, values: seq<Json>, n: nat): Fields
    requires |keys| == |values| && n <= |keys|
  {
    if n == 0 then [] else Put(Rebuild(keys, values, n - 1), keys[n - 1], values[n - 1])
  }

  /** The object the for-of loop has built after the first `n` entries of `j`. */
  function SanitizeEntries(j: Json, brandMatches: string -> seq<string>, n: nat): (r: Fields)
    requires (j.JArr? || j.JObj?) && n <= EntryCount(j)
    decreases j, 1, n
  {
    Rebuild(EntryKeys(j), SanitizedValues(j, brandMatches), n)
  }

  /** Entry `i` of `Object.entries(j)` is its key and value. */
  lemma EntryAt(j: Json, i: nat)
    requires (j.JArr? || j.JObj?) && i < EntryCount(j)
    ensures |Entries(j)| == EntryCount(j)
    ensures Entries(j)[i] == (EntryKey(j, i), EntryValue(j, i))
  {
  }

  /** One more entry puts its key with its sanitized value. */
  lemma SanitizeStep(j: Json, brandMatches: string -> seq<string>, i: nat)
    requires (j.JArr? || j.JObj?) && i < EntryCount(j)
    ensures SanitizeEntries(j, brandMatches, i + 1)
            == Put(SanitizeEntries(j, brandMatches, i), EntryKey(j, i), SanitizeValue(EntryValue(j, i), brandMatches))
  {
  }

  /** The string branch: the four clean-ups in turn. */
  method CleanString(content: Json, brandMatches: string -> seq<string>) returns (r: Json)
    requires content.JStr?
    ensures r == CleanText(content.s, brandMatches)
  {
    r := RemoveDuplicateBrandBlocks(content, brandMatches);
    r := CollapseBlankLines(r);
    r := NormalizeBulletPoints(r);
    r := NormalizeCapitalization(r);
  }

  /** `sanitizeForDocument(content)` */
  method SanitizeForDocument(content: Json, brandMatches: string -> seq<string>) returns (r: Json)
    ensures r == SanitizeDoc(content, brandMatches)
    decreases content, 1
  {
    r := content;
    if content.JStr? {
      r := CleanString(content, brandMatches);
    } else if content.JArr? || content.JObj? {
      var entries := Entries(content);
      var cleaned: Fields := [];
      for i := 0 to |entries|
        invariant cleaned == SanitizeEntries(content, brandMatches, i)
      {
        EntryAt(content, i);
        var (key, value) := entries[i];
        SanitizeStep(content, brandMatches, i);
        var v := SanitizeEntry(value, brandMatches);
        cleaned := Put(cleaned, key, v);
      }
      assert SanitizeDoc(content, brandMatches) == JObj(SanitizeEntries(content, brandMatches, |entries|));
      r := JObj(cleaned);
    }
  }

  /** The loop body's three branches for one value. */
  method SanitizeEntry(value: Json, brandMatches: string -> seq<string>) returns (v: Json)
    ensures v == SanitizeValue(value, brandMatches)
    decreases value, 2
  {
    if value.JStr? {
      v := SanitizeForDocument(value, brandMatches);
    } else if value.JArr? || value.JObj? {
      v := SanitizeForDocument(value, brandMatches);
    } else {
      v := value;
    }
  }

  /** The `Object.entries` keys of an array: "0", "1", ... */
  function IndexKeys(n: nat): (ks: seq<string>)
    ensures |ks| == n
    ensures forall i :: 0 <= i < n ==> ks[i] == IntToString(i)
  {
    if n == 0 then [] else IndexKeys(n - 1) + [IntToString(n - 1)]
  }

  /** Distinct positions have distinct index keys. */
  lemma {:induction false} IndexKeysDistinct(n: nat)
    ensures Distinct(IndexKeys(n))
  {
    var ks := IndexKeys(n);
    forall i, j | 0 <= i < j < n ensures ks[i] != ks[j] {
      IntToStringRoundTrip(i);
      IntToStringRoundTrip(j);
    }
  }

  /** The keys of the entries of `j`, in order. */
  function EntryKeys(j: Json): (ks: seq<string>)
    requires j.JArr? || j.JObj?
    ensures |ks| == EntryCount(j)
    ensures forall i :: 0 <= i < |ks| ==> ks[i] == EntryKey(j, i)
  {
    if j.JObj? then Keys(j.fields) else IndexKeys(EntryCount(j))
  }

  /** Putting the next key of a list of distinct keys extends the prefix. */
  lemma {:induction false} PutNextKey(fs: Fields, ks: seq<string>, n: nat, v: Json)
    requires 0 < n <= |ks| && Distinct(ks) && Keys(fs) == ks[..n - 1]
    ensures Keys(Put(fs, ks[n - 1], v)) == ks[..n]
  {
    var prefix := ks[..n - 1];
    PutKeys(fs, ks[n - 1], v);
    assert ks[n - 1] !in prefix by {
      forall i | 0 <= i < n - 1 ensures prefix[i] != ks[n - 1] {
        assert prefix[i] == ks[i];
      }
    }
    assert ks[..n] == prefix + [ks[n - 1]];
  }

  /** Putting distinct keys one after another keeps them in order. */
  lemma {:induction false} RebuildKeys(keys: seq<string>, values: seq<Json>, n: nat)
    requires |keys| == |values| && n <= |keys| && Distinct(keys)
    ensures Keys(Rebuild(keys, values, n)) == keys[..n]
  {
    if n > 0 {
      var prev := Rebuild(keys, values, n - 1);
      RebuildKeys(keys, values, n - 1);
      PutNextKey(prev, keys, n, values[n - 1]);
      assert Rebuild(keys, values, n) == Put(prev, keys[n - 1], values[n - 1]);
    }
  }

  /** The last key put reads the value put with it. */
  lemma RebuildLast(keys: seq<string>, values: seq<Json>, n: nat, i: nat)
    requires |keys| == |values| && n <= |keys| && n == i + 1
    ensures Get(Rebuild(keys, values, n), keys[i]) == Some(values[i])
  {
    assert keys[i] == keys[n - 1];
  }

  /** Putting the next key leaves every other key reading as before. */
  lemma RebuildOther(keys: seq<string>, values: seq<Json>, n: nat, x: string)
    requires |keys| == |values| && 0 < n <= |keys| && x != keys[n - 1]
    ensures Get(Rebuild(keys, values, n), x) == Get(Rebuild(keys, values, n - 1), x)
  {
    PutOther(Rebuild(keys, values, n - 1), keys[n - 1], values[n - 1], x);
  }

  /** A key not put again later holds the value it was put with. */
  lemma {:induction false} RebuildValue(keys: seq<string>, values: seq<Json>, n: nat, i: nat)
    requires |keys| == |values| && i < n <= |keys|
    requires forall m :: i < m < n ==> keys[m] != keys[i]
    ensures Get(Rebuild(keys, values, n), keys[i]) == Some(values[i])
  {
    if n == i + 1 {
      RebuildLast(keys, values, n, i);
    } else {
      RebuildValue(keys, values, n - 1, i);
      RebuildOther(keys, values, n, keys[i]);
    }
  }

  /** Each step puts a new key: the rebuilt object has the entries' keys in their order. */
  lemma SanitizeEntriesKeys(j: Json, brandMatches: string -> seq<string>, n: nat)
    requires (j.JArr? || j.JObj?) && n <= EntryCount(j)
    requires Distinct(EntryKeys(j))
    ensures Keys(SanitizeEntries(j, brandMatches, n)) == EntryKeys(j)[..n]
  {
    RebuildKeys(EntryKeys(j), SanitizedValues(j, brandMatches), n);
  }

  /** Objects keep every key, in order, and arrays come back as objects
      keyed "0", "1", ... */
  lemma {:induction false} SanitizeKeepsKeys(j: Json, brandMatches: string -> seq<string>)
    requires j.JObj? ==> DistinctKeys(j.fields)
    requires j.JArr? || j.JObj?
    ensures Keys(SanitizeDoc(j, brandMatches).fields) == EntryKeys(j)
    ensures j.JArr? ==> Keys(SanitizeDoc(j, brandMatches).fields) == IndexKeys(|j.items|)
  {
    if j.JArr? {
      IndexKeysDistinct(|j.items|);
    }
    SanitizeEntriesKeys(j, brandMatches, EntryCount(j));
    assert EntryKeys(j)[..EntryCount(j)] == EntryKeys(j);
  }

  /** Each key holds the sanitized value of the last entry with that key. */
  lemma SanitizeEntriesValue(j: Json, brandMatches: string -> seq<string>, n: nat, i: nat)
    requires (j.JArr? || j.JObj?) && i < n <= EntryCount(j)
    requires forall m :: i < m < n ==> EntryKey(j, m) != EntryKey(j, i)
    ensures Get(SanitizeEntries(j, brandMatches, n), EntryKey(j, i))
            == Some(SanitizeValue(EntryValue(j, i), brandMatches))
  {
    var keys := EntryKeys(j);
    assert forall m :: i < m < n ==> keys[m] != keys[i];
    RebuildValue(keys, SanitizedValues(j, brandMatches), n, i);
  }

  /** A text with no duplicate brand block, no run of three newlines, no
      odd glyph, no list-item line and not in all caps comes back unchanged. */
  lemma {:induction false} CleanTextKeepsCleanText(s: string, brandMatches: string -> seq<string>)
    requires |brandMatches(s)| <= 1
    requires NoTripleNewline(s)
    requires forall i :: 0 <= i < |s| ==> !OddBullet(s[i])
    requires NoItemStart(s, true)
    requires !(s == ToUpper(s) && |s| > 20)
    ensures CleanText(s, brandMatches) == JStr(s)
  {
    assert ReplaceBullets(s) == s;
    ScanKeeps(s, true);
  }

  // ===========================================================================
  // extractPhoneNumber
  // ===========================================================================

  /** The field names searched, in priority order. */
  const PhoneFields := ["phone", "telefono", "celular", "mobile", "phoneNumber", "msisdn", "number"]

  /** The position of the first field of `fields` that is truthy on `v`. */
  function FirstTruthyField(v: Val, fields: seq<string>): (r: Option<nat>)
    ensures r.Some? ==> r.value < |fields| && Truthy(Prop(v, fields[r.value]))
    ensures r.Some? ==> forall j :: 0 <= j < r.value ==> !Truthy(Prop(v, fields[j]))
    ensures r.None? <==> forall j :: 0 <= j < |fields| ==> !Truthy(Prop(v, fields[j]))
  {
    if fields == [] then None
    else if Truthy(Prop(v, fields[0])) then Some(0)
    else
      var rest := FirstTruthyField(v, fields[1..]);
      assert forall j :: 1 <= j < |fields| ==> fields[j] == fields[1..][j - 1];
      if rest.None? then None else Some(rest.value + 1)
  }

  /** The value found: the first truthy phone field at the top level
      (formatted), then on `person` (formatted), then the first entry of
      `query.phones` by `display_international`, then `display`; null
      otherwise. Reading those two fields of a missing first entry throws. */
  function ExtractPhone(data: Val): (r: Result<Json>)
  {
    if !Truthy(data) then Ok(JNull)
    else
      match FirstTruthyField(data, PhoneFields)
      case Some(i) => Ok(FormatPhoneNumber(Prop(data, PhoneFields[i])))
      case None =>
        var person := Prop(data, "person");
        if Truthy(person) && FirstTruthyField(person, PhoneFields).Some? then
          Ok(FormatPhoneNumber(Prop(person, PhoneFields[FirstTruthyField(person, PhoneFields).value])))
        else QueryPhone(data)
  }

  /** The `query.phones[0]` step of the search. */
  function QueryPhone(data: Val): (r: Result<Json>)
    ensures r.Err? ==> IsArray(Prop(Prop(data, "query"), "phones"))
  {
    var query := Prop(data, "query");
    var phones := Prop(query, "phones");
    if Truthy(query) && Truthy(phones) && IsArray(phones) then
      var phone := At(phones, 0);
      var international :- Read(phone, "display_international");
      if Truthy(international) then Ok(international.value)
      else
        var display :- Read(phone, "display");
        if Truthy(display) then Ok(display.value) else Ok(JNull)
    else Ok(JNull)
  }

  /** One `for (const field of phoneFields)` loop: the first truthy field. */
  method FindField(v: Val, fields: seq<string>) returns (r: Option<nat>)
    ensures r == FirstTruthyField(v, fields)
  {
    for i := 0 to |fields|
      invariant forall j :: 0 <= j < i ==> !Truthy(Prop(v, fields[j]))
    {
      if Truthy(Prop(v, fields[i])) {
        return Some(i);
      }
    }
    return None;
  }

  /** `extractPhoneNumber(data)`: each field loop returns at its first hit. */
  method ExtractPhoneNumber(data: Val) returns (r: Result<Json>)
    ensures r == ExtractPhone(data)
  {
    if !Truthy(data) {
      return Ok(JNull);
    }
    var top := FindField(data, PhoneFields);
    if top.Some? {
      return Ok(FormatPhoneNumber(Prop(data, PhoneFields[top.value])));
    }
    var person := Prop(data, "person");
    if Truthy(person) {
      var nested := FindField(person, PhoneFields);
      if nested.Some? {
        return Ok(FormatPhoneNumber(Prop(person, PhoneFields[nested.value])));
      }
    }
    r := QueryPhone(data);
  }

  /** A truthy top-level field wins over everything after it: the result is
      that field, formatted. */
  lemma {:induction false} ExtractTopLevelFirst(data: Val, i: nat)
    requires i < |PhoneFields| && Truthy(Prop(data, PhoneFields[i]))
    requires forall j :: 0 <= j < i ==> !Truthy(Prop(data, PhoneFields[j]))
    ensures ExtractPhone(data) == Ok(FormatPhoneNumber(Prop(data, PhoneFields[i])))
  {
    var r := FirstTruthyField(data, PhoneFields);
    assert r.Some?;
    assert r.value == i;
  }

  /** With no phone field anywhere, the first `query.phones` entry decides:
      `display_international`, else `display`, else null. */
  lemma {:induction false} ExtractFromQuery(data: Val, phones: seq<Json>)
    requires Truthy(data)
    requires FirstTruthyField(data, PhoneFields).None?
    requires FirstTruthyField(Prop(data, "person"), PhoneFields).None?
    requires Truthy(Prop(data, "query")) && Prop(Prop(data, "query"), "phones") == Some(JArr(phones))
    requires phones != [] && phones[0].JObj?
    ensures var e := Some(phones[0]);
      ExtractPhone(data) == Ok(
        if Truthy(Prop(e, "display_international")) then Prop(e, "display_international").value
        else if Truthy(Prop(e, "display")) then Prop(e, "display").value
        else JNull)
  {
    ExtractFallsToQuery(data);
    QueryPhoneEntry(data, phones);
  }

  /** The `query.phones` step reads the first entry's two display fields. */
  lemma QueryPhoneEntry(data: Val, phones: seq<Json>)
    requires Truthy(Prop(data, "query")) && Prop(Prop(data, "query"), "phones") == Some(JArr(phones))
    requires phones != [] && phones[0].JObj?
    ensures var e := Some(phones[0]);
      QueryPhone(data) == Ok(
        if Truthy(Prop(e, "display_international")) then Prop(e, "display_international").value
        else if Truthy(Prop(e, "display")) then Prop(e, "display").value
        else JNull)
  {
    var e := Some(phones[0]);
    assert At(Some(JArr(phones)), 0) == e;
    assert Read(e, "display_international") == Ok(Prop(e, "display_international"));
    assert Read(e, "display") == Ok(Prop(e, "display"));
  }

  /** An empty `query.phones` array makes the search throw. */
  lemma {:induction false} ExtractEmptyQueryThrows(data: Val)
    requires Truthy(data)
    requires FirstTruthyField(data, PhoneFields).None?
    requires FirstTruthyField(Prop(data, "person"), PhoneFields).None?
    requires Truthy(Prop(data, "query")) && Prop(Prop(data, "query"), "phones") == Some(JArr([]))
    ensures ExtractPhone(data).Err?
  {
    ExtractFallsToQuery(data);
    assert At(Prop(Prop(data, "query"), "phones"), 0) == None;
  }

  /** With no phone field at the top level or on `person`, the search is the `query.phones` step. */
  lemma ExtractFallsToQuery(data: Val)
    requires Truthy(data)
    requires FirstTruthyField(data, PhoneFields).None?
    requires FirstTruthyField(Prop(data, "person"), PhoneFields).None?
    ensures ExtractPhone(data) == QueryPhone(data)
  {
  }

  // ===========================================================================
  // validateDocumentData
  // ===========================================================================

  /** `{ isValid, errors }` */
  datatype Validation = Validation(isValid: bool, errors: seq<string>)

  /** `typeof data === 'object' && Object.keys(data).length === 0` for a truthy value. */
  predicate EmptyObject(data: Val)
  {
    IsObjectLike(data) && EntryCount(data.value) == 0
  }

  /** `validateDocumentData(data, apiName)`; calling `trim` on a truthy
      `apiName` that is not a string throws. */
  method ValidateDocumentData(data: Val, apiName: Val) returns (r: Result<Validation>)
    ensures r.Ok? ==> (r.value.isValid <==> r.value.errors == [])
    ensures !Truthy(data) ==> r == Ok(Validation(false, ["No data provided"]))
    ensures Truthy(data) ==> (r.Err? <==> Truthy(apiName) && !apiName.value.JStr?)
    ensures Truthy(data) && r.Ok? ==>
      r.value.errors == (if !Truthy(apiName) || Blank(apiName.value.s) then ["API name is required"] else [])
                        + (if EmptyObject(data) then ["Data object is empty"] else [])
  {
    var errors: seq<string> := [];
    if !Truthy(data) {
      errors := errors + ["No data provided"];
      assert errors == ["No data provided"];
      return Ok(Validation(false, errors));
    }
    if !Truthy(apiName) {
      errors := errors + ["API name is required"];
    } else if !apiName.value.JStr? {
      return Err("apiName.trim is not a function");
    } else if Trim(apiName.value.s) == "" {
      errors := errors + ["API name is required"];
    }
    if EmptyObject(data) {
      errors := errors + ["Data object is empty"];
    }
    return Ok(Validation(|errors| == 0, errors));
  }
}
