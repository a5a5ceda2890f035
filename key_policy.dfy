/** The recursive key filters shared by the CSV/JSON export sanitizer, the
    DOCX sanitizer and the display sanitizer: each walks a JSON tree, maps
    arrays element by element and rebuilds every object without the keys
    its policy drops. */
module KeyPolicy {
  import opened Js

  /** Which sanitizer is running. `debug` is the `debugMode` flag that keeps
      quota/QPS fields. */
  datatype Policy = Export(debug: bool) | Doc(debug: bool) | Display

  /** Internal identifiers both server-side and export sanitizers remove. */
  predicate InternalKey(k: string)
  {
    k == "@search_pointer" || k == "search_pointer" || EndsWith(k, "_md5")
    || k == "@inferred" || k == "@id"
  }

  /** Quota and rate-limit bookkeeping: any key containing `quota` or `qps`
      (the explicitly listed `quota_allotted`, `qps_current`, ... are among them). */
  predicate QuotaKey(k: string)
  {
    Contains(k, "quota") || Contains(k, "qps")
  }

  /** Whether the policy removes an entry with this key. */
  predicate Drops(p: Policy, k: string)
  {
    match p
    case Export(debug) => InternalKey(k) || (!debug && QuotaKey(k)) || k == "endpoint"
    case Doc(debug) => InternalKey(k) || k == "brandBlocks" || (!debug && QuotaKey(k)) || k == "endpoint"
    case Display => k == "@search_pointer" || EndsWith(k, "_md5")
  }

  // ---------------------------------------------------------------------------
  // Specification
  // ---------------------------------------------------------------------------

  /** The sanitized tree: scalars and null unchanged, arrays mapped, objects
      rebuilt from their kept entries in their original order. */
  function Prune(j: Json, p: Policy): Json
    decreases j, 2
  {
    match j
    case JArr(xs) => JArr(PruneItems(j, p, |xs|))
    case JObj(fs) => JObj(PruneFields(j, p, |fs|))
    case _ => j
  }

  /** The first `n` elements of the array `j`, each pruned. */
  function PruneItems(j: Json, p: Policy, n: nat): (r: seq<Json>)
    requires j.JArr? && n <= |j.items|
    ensures |r| == n
    ensures forall i :: 0 <= i < n ==> r[i] == Prune(j.items[i], p)
    decreases j, 1, n
  {
    if n == 0 then [] else PruneItems(j, p, n - 1) + [Prune(j.items[n - 1], p)]
  }

  /** The kept entries among the first `n` of the object `j`, values pruned. */
  function PruneFields(j: Json, p: Policy, n: nat): (r: Fields)
    requires j.JObj? && n <= |j.fields|
    ensures |r| <= n
    decreases j, 1, n
  {
    if n == 0 then []
    else if Drops(p, j.fields[n - 1].0) then PruneFields(j, p, n - 1)
    else PruneFields(j, p, n - 1) + [(j.fields[n - 1].0, Prune(j.fields[n - 1].1, p))]
  }

  /** No key the policy drops occurs anywhere in the tree. */
  predicate Clean(j: Json, p: Policy)
  {
    match j
    case JArr(xs) => forall i :: 0 <= i < |xs| ==> Clean(xs[i], p)
    case JObj(fs) => forall i :: 0 <= i < |fs| ==> !Drops(p, fs[i].0) && Clean(fs[i].1, p)
    case _ => true
  }

  /** The key `k` occurs in some object of the tree, at any depth. */
  predicate HasKey(j: Json, k: string)
  {
    match j
    case JArr(xs) => exists i :: 0 <= i < |xs| && HasKey(xs[i], k)
    case JObj(fs) => exists i :: 0 <= i < |fs| && (fs[i].0 == k || HasKey(fs[i].1, k))
    case _ => false
  }

  /** A clean tree holds no key its policy drops. */
  lemma {:induction false} CleanHasNoDroppedKey(j: Json, p: Policy, k: string)
    requires Clean(j, p) && Drops(p, k)
    ensures !HasKey(j, k)
    decreases j
  {
    match j {
      case JArr(xs) =>
        forall i | 0 <= i < |xs| ensures !HasKey(xs[i], k) {
          CleanHasNoDroppedKey(xs[i], p, k);
        }
      case JObj(fs) =>
        forall i | 0 <= i < |fs| ensures fs[i].0 != k && !HasKey(fs[i].1, k) {
          CleanHasNoDroppedKey(fs[i].1, p, k);
        }
      case _ =>
    }
  }

  /** No key the policy drops survives sanitizing, at any depth. */
  lemma {:induction false} PruneRemoves(j: Json, p: Policy, k: string)
    requires Drops(p, k)
    ensures !HasKey(Prune(j, p), k)
  {
    PruneIsClean(j, p);
    CleanHasNoDroppedKey(Prune(j, p), p, k);
  }

  /** A kept top-level entry is still present after sanitizing. */
  lemma {:induction false} PruneKeeps(fs: Fields, p: Policy, i: nat)
    requires i < |fs| && !Drops(p, fs[i].0)
    ensures (fs[i].0, Prune(fs[i].1, p)) in Prune(JObj(fs), p).fields
    ensures HasKey(Prune(JObj(fs), p), fs[i].0)
  {
    PruneFieldsKeepsEntries(JObj(fs), p, |fs|);
    var r := Prune(JObj(fs), p).fields;
    var x := (fs[i].0, Prune(fs[i].1, p));
    var m :| 0 <= m < |r| && r[m] == x;
    assert r[m].0 == fs[i].0;
  }

  /** Every entry is kept by the policy and holds a clean value. */
  predicate EntriesClean(fs: Fields, p: Policy)
  {
    forall i :: 0 <= i < |fs| ==> !Drops(p, fs[i].0) && Clean(fs[i].1, p)
  }

  /** The keys of `ks` the policy keeps, in order. */
  function KeptKeys(ks: seq<string>, p: Policy): (r: seq<string>)
    ensures forall k :: k in r <==> k in ks && !Drops(p, k)
  {
    if ks == [] then []
    else if Drops(p, ks[|ks| - 1]) then KeptKeys(ks[..|ks| - 1], p)
    else KeptKeys(ks[..|ks| - 1], p) + [ks[|ks| - 1]]
  }

  // ---------------------------------------------------------------------------
  // The sanitizing walk
  // ---------------------------------------------------------------------------

  /** The recursive walk: `obj.map(...)` over arrays, a for-of over
      `Object.entries` that skips dropped keys and assigns the rest. */
  method CleanTree(j: Json, p: Policy) returns (r: Json)
    ensures r == Prune(j, p)
    decreases j
  {
    match j {
      case JArr(xs) =>
        var out: seq<Json> := [];
        var i := 0;
        while i < |xs|
          invariant 0 <= i <= |xs|
          invariant out == PruneItems(j, p, i)
        {
          var item := CleanTree(xs[i], p);
          out := out + [item];
          i := i + 1;
        }
        r := JArr(out);
      case JObj(fs) =>
        var cleaned: Fields := [];
        var i := 0;
        while i < |fs|
          invariant 0 <= i <= |fs|
          invariant cleaned == PruneFields(j, p, i)
        {
          var (key, value) := fs[i];
          if !Drops(p, key) {
            var v := CleanTree(value, p);
            cleaned := cleaned + [(key, v)];
          }
          i := i + 1;
        }
        r := JObj(cleaned);
      case _ =>
        r := j;
    }
  }

  // ---------------------------------------------------------------------------
  // Properties
  // ---------------------------------------------------------------------------

  /** After sanitizing, no dropped key is left at any depth. */
  lemma {:induction false} PruneIsClean(j: Json, p: Policy)
    ensures Clean(Prune(j, p), p)
    decreases j, 2
  {
    match j {
      case JArr(xs) =>
        var r := PruneItems(j, p, |xs|);
        forall i | 0 <= i < |xs| ensures Clean(r[i], p) {
          PruneIsClean(xs[i], p);
        }
      case JObj(fs) =>
        PruneFieldsClean(j, p, |fs|);
        assert Prune(j, p) == JObj(PruneFields(j, p, |fs|));
      case _ =>
    }
  }

  lemma {:induction false} PruneFieldsClean(j: Json, p: Policy, n: nat)
    requires j.JObj? && n <= |j.fields|
    ensures EntriesClean(PruneFields(j, p, n), p)
    decreases j, 1, n
  {
    if n > 0 {
      PruneFieldsClean(j, p, n - 1);
      var prev := PruneFields(j, p, n - 1);
      if !Drops(p, j.fields[n - 1].0) {
        PruneIsClean(j.fields[n - 1].1, p);
        var x := (j.fields[n - 1].0, Prune(j.fields[n - 1].1, p));
        var r := prev + [x];
        assert PruneFields(j, p, n) == r;
        forall i | 0 <= i < |r| ensures !Drops(p, r[i].0) && Clean(r[i].1, p) {
          if i < |prev| {
            assert r[i] == prev[i];
          } else {
            assert r[i] == x;
          }
        }
      }
    }
  }

  /** A tree that is already clean is returned unchanged. */
  lemma {:induction false} PruneFixesClean(j: Json, p: Policy)
    requires Clean(j, p)
    ensures Prune(j, p) == j
    decreases j, 2
  {
    match j {
      case JArr(xs) =>
        var r := PruneItems(j, p, |xs|);
        forall i | 0 <= i < |xs| ensures r[i] == xs[i] {
          PruneFixesClean(xs[i], p);
        }
        assert r == xs;
      case JObj(fs) =>
        PruneFieldsFixClean(j, p, |fs|);
        assert fs[..|fs|] == fs;
      case _ =>
    }
  }

  lemma {:induction false} PruneFieldsFixClean(j: Json, p: Policy, n: nat)
    requires j.JObj? && n <= |j.fields| && Clean(j, p)
    ensures PruneFields(j, p, n) == j.fields[..n]
    decreases j, 1, n
  {
    if n > 0 {
      PruneFieldsFixClean(j, p, n - 1);
      PruneFixesClean(j.fields[n - 1].1, p);
      assert j.fields[..n] == j.fields[..n - 1] + [j.fields[n - 1]];
    }
  }

  /** Sanitizing twice is sanitizing once. */
  lemma {:induction false} PruneIdempotent(j: Json, p: Policy)
    ensures Prune(Prune(j, p), p) == Prune(j, p)
  {
    PruneIsClean(j, p);
    PruneFixesClean(Prune(j, p), p);
  }

  /** A policy that drops fewer keys leaves a tree sanitized by a stricter one unchanged. */
  lemma {:induction false} CleanMonotone(j: Json, strict: Policy, lax: Policy)
    requires forall k :: Drops(lax, k) ==> Drops(strict, k)
    requires Clean(j, strict)
    ensures Clean(j, lax)
    decreases j
  {
    match j {
      case JArr(xs) =>
        forall i | 0 <= i < |xs| ensures Clean(xs[i], lax) {
          CleanMonotone(xs[i], strict, lax);
        }
      case JObj(fs) =>
        forall i | 0 <= i < |fs| ensures !Drops(lax, fs[i].0) && Clean(fs[i].1, lax) {
          CleanMonotone(fs[i].1, strict, lax);
        }
      case _ =>
    }
  }

  /** The keys of the sanitized object are the kept keys, in their original order. */
  lemma {:induction false} PruneFieldsKeys(j: Json, p: Policy, n: nat)
    requires j.JObj? && n <= |j.fields|
    ensures Keys(PruneFields(j, p, n)) == KeptKeys(Keys(j.fields[..n]), p)
    decreases n
  {
    if n > 0 {
      PruneFieldsKeys(j, p, n - 1);
      var k := j.fields[n - 1].0;
      var ks := Keys(j.fields[..n]);
      assert ks[..|ks| - 1] == Keys(j.fields[..n - 1]) && ks[|ks| - 1] == k;
      var before := KeptKeys(Keys(j.fields[..n - 1]), p);
      assert KeptKeys(ks, p) == if Drops(p, k) then before else before + [k];
      var prev := PruneFields(j, p, n - 1);
      if !Drops(p, k) {
        var x := (k, Prune(j.fields[n - 1].1, p));
        assert PruneFields(j, p, n) == prev + [x];
        KeysAppend(prev, [x]);
      }
    }
  }

  /** Every kept entry appears in the sanitized object with its value sanitized. */
  lemma {:induction false} PruneFieldsKeepsEntries(j: Json, p: Policy, n: nat)
    requires j.JObj? && n <= |j.fields|
    ensures forall i :: 0 <= i < n && !Drops(p, j.fields[i].0) ==>
      (j.fields[i].0, Prune(j.fields[i].1, p)) in PruneFields(j, p, n)
    decreases n
  {
    if n > 0 {
      PruneFieldsKeepsEntries(j, p, n - 1);
    }
  }

  /** Every entry of the sanitized object comes from a kept entry of the original. */
  lemma {:induction false} PruneFieldsOnlyKept(j: Json, p: Policy, n: nat)
    requires j.JObj? && n <= |j.fields|
    ensures forall q :: q in PruneFields(j, p, n) ==>
      !Drops(p, q.0) && exists i :: 0 <= i < n && j.fields[i].0 == q.0 && q.1 == Prune(j.fields[i].1, p)
    decreases n
  {
    if n > 0 {
      PruneFieldsOnlyKept(j, p, n - 1);
      var prev := PruneFields(j, p, n - 1);
      if !Drops(p, j.fields[n - 1].0) {
        var x := (j.fields[n - 1].0, Prune(j.fields[n - 1].1, p));
        forall q | q in prev + [x]
          ensures !Drops(p, q.0) && exists i :: 0 <= i < n && j.fields[i].0 == q.0 && q.1 == Prune(j.fields[i].1, p)
        {
          if q == x {
            assert j.fields[n - 1].0 == q.0;
          } else {
            assert q in prev;
          }
        }
      }
    }
  }

  /** Arrays keep their length and order; each element is sanitized on its own. */
  lemma {:induction false} PruneArray(xs: seq<Json>, p: Policy)
    ensures Prune(JArr(xs), p).JArr?
    ensures |Prune(JArr(xs), p).items| == |xs|
    ensures forall i :: 0 <= i < |xs| ==> Prune(JArr(xs), p).items[i] == Prune(xs[i], p)
  {
    var r := PruneItems(JArr(xs), p, |xs|);
    assert Prune(JArr(xs), p) == JArr(r);
  }

  /** `debugMode` only changes the fate of quota/QPS keys. */
  lemma DebugKeepsOnlyQuota(k: string)
    ensures Drops(Export(false), k) <==> Drops(Export(true), k) || QuotaKey(k)
    ensures Drops(Doc(false), k) <==> Drops(Doc(true), k) || QuotaKey(k)
  {
  }

  /** The DOCX sanitizer drops exactly what the export sanitizer drops, plus `brandBlocks`. */
  lemma DocDropsBrandBlocks(k: string, debug: bool)
    ensures Drops(Doc(debug), k) <==> Drops(Export(debug), k) || k == "brandBlocks"
  {
  }

  /** The display sanitizer drops a subset of what both server-side sanitizers drop. */
  lemma DisplayIsLaxest(k: string, debug: bool)
    ensures Drops(Display, k) ==> Drops(Export(debug), k) && Drops(Doc(debug), k)
  {
  }
}
