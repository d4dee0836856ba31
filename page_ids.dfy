/**
 * Page ids: finding a Notion page id in a URL or id string and putting it in
 * canonical form, and the output file name chosen for a page.
 */
module PageIds {
  import opened Wrappers
  import opened Text

  /** [0-9a-fA-F] */
  predicate IsHexDigit(c: char) {
    '0' <= c <= '9' || 'a' <= c <= 'f' || 'A' <= c <= 'F'
  }

  /** [0-9a-f] */
  predicate IsLowerHexDigit(c: char) {
    '0' <= c <= '9' || 'a' <= c <= 'f'
  }

  /** The offsets of the four hyphens in the 8-4-4-4-12 layout. */
  predicate IsHyphenSlot(k: int) {
    k == 8 || k == 13 || k == 18 || k == 23
  }

  /** [0-9a-fA-F]{8}-[0-9a-fA-F]{4}-[0-9a-fA-F]{4}-[0-9a-fA-F]{4}-[0-9a-fA-F]{12} */
  predicate IsUuid36(w: string) {
    |w| == 36 &&
    forall k :: 0 <= k < 36 ==> if IsHyphenSlot(k) then w[k] == '-' else IsHexDigit(w[k])
  }

  /** [0-9a-fA-F]{32} */
  predicate IsHex32(w: string) {
    |w| == 32 && forall k :: 0 <= k < 32 ==> IsHexDigit(w[k])
  }

  /** The hyphenated pattern matches at s[i..i+36]. */
  predicate Uuid36At(s: string, i: nat) {
    i + 36 <= |s| && IsUuid36(s[i..i + 36])
  }

  /** Thirty-two hex digits start at s[i]. */
  predicate Hex32At(s: string, i: nat) {
    i + 32 <= |s| && IsHex32(s[i..i + 32])
  }

  /** The canonical page id: 36 characters, lower-case hex in 8-4-4-4-12 groups. */
  predicate IsCanonical(id: string) {
    |id| == 36 &&
    forall k :: 0 <= k < 36 ==> if IsHyphenSlot(k) then id[k] == '-' else IsLowerHexDigit(id[k])
  }

  /** The leftmost match of the hyphenated pattern at or after `from`. */
  function FindUuid36(s: string, from: nat): (r: Option<nat>)
    ensures r.Some? ==> from <= r.value && Uuid36At(s, r.value)
    ensures r.Some? ==> forall j :: from <= j < r.value ==> !Uuid36At(s, j)
    ensures r.None? ==> forall j: nat :: from <= j ==> !Uuid36At(s, j)
    decreases |s| - from
  {
    if from + 36 > |s| then None
    else if Uuid36At(s, from) then Some(from)
    else FindUuid36(s, from + 1)
  }

  /** The leftmost run of 32 hex digits at or after `from`. */
  function FindHex32(s: string, from: nat): (r: Option<nat>)
    ensures r.Some? ==> from <= r.value && Hex32At(s, r.value)
    ensures r.Some? ==> forall j :: from <= j < r.value ==> !Hex32At(s, j)
    ensures r.None? ==> forall j: nat :: from <= j ==> !Hex32At(s, j)
    decreases |s| - from
  {
    if from + 32 > |s| then None
    else if Hex32At(s, from) then Some(from)
    else FindHex32(s, from + 1)
  }

  /** Puts hyphens into 32 digits at the 8-4-4-4-12 group boundaries. */
  function Hyphenate(raw: string): (id: string)
    requires |raw| == 32
    ensures |id| == 36
    ensures (forall k :: 0 <= k < 32 ==> IsLowerHexDigit(raw[k])) ==> IsCanonical(id)
  {
    raw[0..8] + "-" + raw[8..12] + "-" + raw[12..16] + "-" + raw[16..20] + "-" + raw[20..32]
  }

  datatype IdError = NoPageId(input: string)

  /**
   * normalize_page_id: the first hyphenated UUID in the stripped input, lower-cased;
   * failing that, the first 32-hex run once all hyphens are removed, lower-cased
   * and hyphenated; failing both, an error.
   */
  function NormalizePageId(value: string): (r: Result<string, IdError>)
    ensures r.Ok? ==> IsCanonical(r.value)
    ensures r.Ok? <==>
      (exists i: nat :: Uuid36At(Strip(value), i)) ||
      (exists j: nat :: Hex32At(RemoveHyphens(Strip(value)), j))
    ensures FindUuid36(Strip(value), 0).Some? ==>
      var i := FindUuid36(Strip(value), 0).value;
      r == Ok(LowerStr(Strip(value)[i..i + 36]))
    ensures FindUuid36(Strip(value), 0).None? && FindHex32(RemoveHyphens(Strip(value)), 0).Some? ==>
      var h, j := RemoveHyphens(Strip(value)), FindHex32(RemoveHyphens(Strip(value)), 0).value;
      r == Ok(Hyphenate(LowerStr(h[j..j + 32])))
  {
    var v := Strip(value);
    match FindUuid36(v, 0)
    case Some(i) => Ok(LowerMatch36(v, i))
    case None =>
      match FindHex32(RemoveHyphens(v), 0)
      case None => Err(NoPageId(v))
      case Some(j) =>
        assert Hex32At(RemoveHyphens(Strip(value)), j);
        assert exists j': nat :: Hex32At(RemoveHyphens(Strip(value)), j');
        Ok(HyphenateMatch32(RemoveHyphens(v), j))
  }

  /** The 36-character match at s[i], lower-cased. */
  function LowerMatch36(s: string, i: nat): (id: string)
    requires Uuid36At(s, i)
    ensures IsCanonical(id)
  {
    LowerUuid36(s[i..i + 36]);
    LowerStr(s[i..i + 36])
  }

  /** The 32-digit match at h[j], lower-cased and hyphenated. */
  function HyphenateMatch32(h: string, j: nat): (id: string)
    requires Hex32At(h, j)
    ensures IsCanonical(id)
  {
    var raw := LowerStr(h[j..j + 32]);
    assert forall k :: 0 <= k < 32 ==> IsLowerHexDigit(raw[k]);
    Hyphenate(raw)
  }

  lemma LowerUuid36(m: string)
    requires IsUuid36(m)
    ensures IsCanonical(LowerStr(m))
  {
    forall k | 0 <= k < 36
      ensures if IsHyphenSlot(k) then LowerStr(m)[k] == '-' else IsLowerHexDigit(LowerStr(m)[k])
    {
    }
  }

  lemma {:induction false} LowerCanonical(id: string)
    requires IsCanonical(id)
    ensures LowerStr(id) == id
  {
    forall k | 0 <= k < 36 ensures LowerStr(id)[k] == id[k] {
      if !IsHyphenSlot(k) { assert IsLowerHexDigit(id[k]); }
    }
  }

  /** A canonical id is its own normal form. */
  lemma {:induction false} CanonicalIsFixedPoint(id: string)
    requires IsCanonical(id)
    ensures NormalizePageId(id) == Ok(id)
  {
    assert !IsSpace(id[0]) && !IsSpace(id[35]);
    StripNoEdgeSpace(id);
    assert Uuid36At(id, 0);
    assert FindUuid36(id, 0) == Some(0);
    assert id[0..36] == id;
    LowerCanonical(id);
  }

  /** Removing the hyphens Hyphenate put in gives the digits back. */
  lemma HyphenateRemoves(raw: string)
    requires |raw| == 32 && '-' !in raw
    ensures RemoveHyphens(Hyphenate(raw)) == raw
  {
    HyphenateNested(raw);
    RemoveHyphenGroups(raw[0..8], raw[8..12], raw[12..16], raw[16..20], raw[20..32]);
    SliceSplit(raw, 16, 20, 32);
    SliceSplit(raw, 12, 16, 32);
    SliceSplit(raw, 8, 12, 32);
    SliceSplit(raw, 0, 8, 32);
    assert raw[0..32] == raw;
  }

  lemma RemoveHyphenGroups(g1: string, g2: string, g3: string, g4: string, g5: string)
    requires '-' !in g1 && '-' !in g2 && '-' !in g3 && '-' !in g4 && '-' !in g5
    ensures RemoveHyphens(g1 + "-" + (g2 + "-" + (g3 + "-" + (g4 + "-" + g5))))
         == g1 + (g2 + (g3 + (g4 + g5)))
  {
    var t4 := g4 + "-" + g5;
    var t3 := g3 + "-" + t4;
    var t2 := g2 + "-" + t3;
    DropHyphen(g1, t2);
    DropHyphen(g2, t3);
    DropHyphen(g3, t4);
    DropHyphen(g4, g5);
    RemoveHyphensNone(g5);
  }

  lemma HyphenateNested(raw: string)
    requires |raw| == 32
    ensures Hyphenate(raw)
         == raw[0..8] + "-" + (raw[8..12] + "-" + (raw[12..16] + "-" + (raw[16..20] + "-" + raw[20..32])))
  {
  }

  lemma SliceSplit(s: string, i: nat, j: nat, k: nat)
    requires i <= j <= k <= |s|
    ensures s[i..k] == s[i..j] + s[j..k]
  {
  }

  lemma DropHyphen(a: string, rest: string)
    requires '-' !in a
    ensures RemoveHyphens(a + "-" + rest) == a + RemoveHyphens(rest)
  {
    RemoveHyphensAppend(a + "-", rest);
    RemoveHyphensAppend(a, "-");
    RemoveHyphensNone(a);
    assert RemoveHyphens("-") == [];
    assert a + [] == a;
  }

  /** A bare 32-digit id comes back lower-cased in 8-4-4-4-12 groups. */
  lemma NormalizeHex32(h: string)
    requires IsHex32(h)
    ensures NormalizePageId(h) == Ok(Hyphenate(LowerStr(h)))
  {
    assert !IsSpace(h[0]) && !IsSpace(h[31]);
    StripNoEdgeSpace(h);
    assert FindUuid36(h, 0) == None;
    assert '-' !in h by {
      forall k | 0 <= k < 32 ensures h[k] != '-' { assert IsHexDigit(h[k]); }
    }
    RemoveHyphensNone(h);
    assert Hex32At(h, 0) by { assert h[0..32] == h; }
    assert h[0..32] == h;
  }

  /** Writing a canonical id without its hyphens and normalizing gives the id back. */
  lemma DashlessRoundTrip(id: string)
    requires IsCanonical(id)
    ensures NormalizePageId(RemoveHyphens(id)) == Ok(id)
  {
    var raw := Digits(id);
    DigitsLowerHex(id);
    HyphenateDigits(id);
    assert '-' !in raw by {
      forall k | 0 <= k < 32 ensures raw[k] != '-' { assert IsLowerHexDigit(raw[k]); }
    }
    HyphenateRemoves(raw);
    assert LowerStr(raw) == raw by {
      forall k | 0 <= k < 32 ensures LowerStr(raw)[k] == raw[k] { assert IsLowerHexDigit(raw[k]); }
    }
    NormalizeHex32(raw);
  }

  /** The 32 digits of an 8-4-4-4-12 id, in order. */
  function Digits(id: string): (raw: string)
    requires |id| == 36
    ensures |raw| == 32
  {
    id[..8] + id[9..13] + id[14..18] + id[19..23] + id[24..36]
  }

  /** The 32 digits of a canonical id are lower-case hex. */
  lemma DigitsLowerHex(id: string)
    requires IsCanonical(id)
    ensures forall k :: 0 <= k < 32 ==> IsLowerHexDigit(Digits(id)[k]) && IsHexDigit(Digits(id)[k])
  {
    var raw := Digits(id);
    forall k | 0 <= k < 32 ensures IsLowerHexDigit(raw[k]) {
      var m := if k < 8 then k else if k < 12 then k + 1 else if k < 16 then k + 2 else if k < 20 then k + 3 else k + 4;
      assert raw[k] == id[m] && !IsHyphenSlot(m);
    }
  }

  /** Hyphenating the digits of a canonical id gives the id back. */
  lemma HyphenateDigits(id: string)
    requires IsCanonical(id)
    ensures Hyphenate(Digits(id)) == id
  {
    var raw, h := Digits(id), Hyphenate(Digits(id));
    forall k | 0 <= k < 36 ensures h[k] == id[k] {
      if k < 8 { assert h[k] == raw[k] == id[k]; }
      else if k < 13 { if k > 8 { assert h[k] == raw[k - 1] == id[k]; } }
      else if k < 18 { if k > 13 { assert h[k] == raw[k - 2] == id[k]; } }
      else if k < 23 { if k > 18 { assert h[k] == raw[k - 3] == id[k]; } }
      else if k > 23 { assert h[k] == raw[k - 4] == id[k]; }
    }
  }

  /** Normalizing an already normalized id returns it unchanged. */
  lemma NormalizeIdempotent(value: string)
    requires NormalizePageId(value).Ok?
    ensures NormalizePageId(NormalizePageId(value).value) == NormalizePageId(value)
  {
    CanonicalIsFixedPoint(NormalizePageId(value).value);
  }

  /** slugify(title) or "untitled"; slugify itself is a library function passed in. */
  function BaseName(slugify: string -> string, title: string): (base: string)
    ensures base != ""
    ensures slugify(title) != "" ==> base == slugify(title)
    ensures slugify(title) == "" ==> base == "untitled"
  {
    if slugify(title) == "" then "untitled" else slugify(title)
  }

  /** safe_filename: base name, "--", the first ten digits of the id, ".md". */
  function SafeFilename(slugify: string -> string, title: string, pageId: string): (r: string)
    ensures |r| >= |BaseName(slugify, title)| + 5
    ensures r[..|BaseName(slugify, title)| + 2] == BaseName(slugify, title) + "--"
    ensures r[|r| - 3..] == ".md"
    ensures slugify(title) == "" ==> r[..10] == "untitled--"
    ensures IsCanonical(pageId) ==>
      r == BaseName(slugify, title) + "--" + pageId[..8] + pageId[9..11] + ".md"
  {
    var base := BaseName(slugify, title);
    var r := base + "--" + Take(RemoveHyphens(pageId), 10) + ".md";
    assert r[..|base| + 2] == base + "--";
    if IsCanonical(pageId) then ShortCanonical(pageId); r else r
  }

  lemma {:induction false} HyphenFreeGroups(a: string, b: string, c: string)
    requires '-' !in a && '-' !in b
    ensures RemoveHyphens(a + "-" + b + c) == a + b + RemoveHyphens(c)
  {
    var a' := a + "-";
    var ab := a' + b;
    RemoveHyphensAppend(ab, c);
    RemoveHyphensAppend(a', b);
    RemoveHyphensAppend(a, "-");
    RemoveHyphensNone(a);
    RemoveHyphensNone(b);
    assert RemoveHyphens("-") == [];
    assert RemoveHyphens(a') == a;
    assert RemoveHyphens(ab) == a + b;
  }

  /** For a canonical id the ten-character fragment is its first ten hex digits. */
  lemma ShortCanonical(id: string)
    requires IsCanonical(id)
    ensures Take(RemoveHyphens(id), 10) == id[..8] + id[9..11]
  {
    var a, b, c := id[..8], id[9..13], id[13..];
    assert id == a + "-" + b + c;
    assert '-' !in a by {
      forall k | 0 <= k < 8 ensures a[k] != '-' { assert !IsHyphenSlot(k); }
    }
    assert '-' !in b by {
      forall k | 0 <= k < 4 ensures b[k] != '-' { assert !IsHyphenSlot(9 + k); }
    }
    HyphenFreeGroups(a, b, c);
    var h := a + b + RemoveHyphens(c);
    assert h[..10] == a + b[..2];
  }

  /**
   * Two pages with the same slug share a file name exactly when their ids
   * agree on the first ten hex digits: the fragment resists collisions but
   * does not exclude them.
   */
  lemma FilenamesCollide(slugify: string -> string, title: string, p: string, q: string)
    requires IsCanonical(p) && IsCanonical(q)
    ensures SafeFilename(slugify, title, p) == SafeFilename(slugify, title, q)
        <==> p[..8] == q[..8] && p[9..11] == q[9..11]
  {
    var base := BaseName(slugify, title);
    var fp, fq := p[..8] + p[9..11], q[..8] + q[9..11];
    assert SafeFilename(slugify, title, p) == base + "--" + fp + ".md";
    assert SafeFilename(slugify, title, q) == base + "--" + fq + ".md";
    if SafeFilename(slugify, title, p) == SafeFilename(slugify, title, q) {
      Infix(base + "--", fp, ".md");
      Infix(base + "--", fq, ".md");
      assert fp[..8] == p[..8] && fp[8..] == p[9..11];
      assert fq[..8] == q[..8] && fq[8..] == q[9..11];
    }
  }

  lemma Infix(pre: string, mid: string, post: string)
    ensures (pre + mid + post)[|pre|..|pre| + |mid|] == mid
  {
  }

}
