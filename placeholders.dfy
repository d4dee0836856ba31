/**
 * replace_page_placeholders: the second pass that rewrites every
 * {PAGE:<36 characters of [0-9a-f-]>} marker into a local file reference or a
 * notion.so URL.
 */
module Placeholders {
  import opened Text
  import PageIds
  import RichText

  /** [0-9a-f\-] */
  predicate IsIdChar(c: char) {
    '0' <= c <= '9' || 'a' <= c <= 'f' || c == '-'
  }

  /** [0-9a-f\-]{36} */
  predicate IsPlaceholderId(x: string) {
    |x| == 36 && forall k :: 0 <= k < 36 ==> IsIdChar(x[k])
  }

  /** \{PAGE:([0-9a-f\-]{36})\} matches at the start of s (43 characters). */
  predicate PlaceholderAtStart(s: string) {
    |s| >= 43 && s[..6] == "{PAGE:" && IsPlaceholderId(s[6..42]) && s[42] == '}'
  }

  /** The fallback: the page on notion.so, id without hyphens. */
  function NotionUrl(pid: string): string {
    "https://www.notion.so/" + RemoveHyphens(pid)
  }

  /** repl: "./" + the mapped file name when there is a non-empty one, the fallback URL otherwise. */
  function Target(x: string, linkMap: map<string, string>): string {
    var pid := LowerStr(x);
    if pid !in linkMap || linkMap[pid] == "" then NotionUrl(pid) else "./" + linkMap[pid]
  }

  /** re.sub over the pattern: a left-to-right scan that replaces non-overlapping matches. */
  function ReplacePlaceholders(md: string, linkMap: map<string, string>): (r: string)
    ensures '{' !in md ==> r == md
    ensures |md| < 43 ==> r == md
    decreases |md|
  {
    if md == [] then []
    else if PlaceholderAtStart(md) then
      assert md[0] == md[..6][0] == '{';
      Target(md[6..42], linkMap) + ReplacePlaceholders(md[43..], linkMap)
    else
      assert [md[0]] + md[1..] == md;
      [md[0]] + ReplacePlaceholders(md[1..], linkMap)
  }

  /** The ids the pattern admits are already lower-case. */
  lemma LowerPlaceholderId(x: string)
    requires IsPlaceholderId(x)
    ensures LowerStr(x) == x
  {
    assert forall k :: 0 <= k < |x| ==> LowerStr(x)[k] == x[k];
  }

  /** Every canonical page id fits the placeholder pattern. */
  lemma CanonicalFitsPattern(id: string)
    requires PageIds.IsCanonical(id)
    ensures IsPlaceholderId(id)
  {
    forall k | 0 <= k < 36 ensures IsIdChar(id[k]) {
      if !PageIds.IsHyphenSlot(k) { assert PageIds.IsLowerHexDigit(id[k]); }
    }
  }

  /** A placeholder at the front is replaced by its target and the scan continues after it. */
  lemma {:induction false} ReplaceLeadingPlaceholder(x: string, rest: string, linkMap: map<string, string>)
    requires IsPlaceholderId(x)
    ensures ReplacePlaceholders(RichText.Placeholder(x) + rest, linkMap)
         == Target(x, linkMap) + ReplacePlaceholders(rest, linkMap)
  {
    var s := RichText.Placeholder(x) + rest;
    assert s[..6] == "{PAGE:" && s[6..42] == x && s[42] == '}' && s[43..] == rest;
  }

  /**
   * No marker can start inside t, whatever text follows it: each '{' in t is
   * followed, still inside t, by five characters that do not spell "PAGE:".
   */
  predicate Inert(t: string) {
    forall i :: 0 <= i < |t| && t[i] == '{' ==> i + 6 <= |t| && t[i..i + 6] != "{PAGE:"
  }

  /** A character that does not open "{PAGE:" here is copied as it is. */
  lemma PlainStep(c: char, u: string, linkMap: map<string, string>)
    requires c != '{' || (|u| >= 5 && u[..5] != "PAGE:")
    ensures ReplacePlaceholders([c] + u, linkMap) == [c] + ReplacePlaceholders(u, linkMap)
  {
    var s := [c] + u;
    assert s[0] == c && s[1..] == u;
    assert !PlaceholderAtStart(s) by {
      if |s| >= 43 {
        assert s[..6][0] == c;
        if c == '{' { assert s[..6][1..] == u[..5]; }
      }
    }
  }

  /** Dropping the first character keeps text inert. */
  lemma InertTail(t: string)
    requires t != [] && Inert(t)
    ensures Inert(t[1..])
  {
    var t' := t[1..];
    forall i | 0 <= i < |t'| && t'[i] == '{' ensures i + 6 <= |t'| && t'[i..i + 6] != "{PAGE:" {
      assert t[i + 1] == '{';
      assert t'[i..i + 6] == t[i + 1..i + 7];
    }
  }

  /** The first character of inert text does not open a marker, whatever follows. */
  lemma InertHead(t: string, rest: string)
    requires t != [] && Inert(t)
    ensures t[0] != '{' || (|t[1..] + rest| >= 5 && (t[1..] + rest)[..5] != "PAGE:")
  {
    if t[0] == '{' {
      assert t[..6] == [t[0]] + t[1..][..5];
      assert (t[1..] + rest)[..5] == t[1..][..5];
    }
  }

  /** Text in which no marker can start passes through unchanged, whatever follows it. */
  lemma {:induction false} ReplaceSkipsPlainText(t: string, rest: string, linkMap: map<string, string>)
    requires Inert(t)
    ensures ReplacePlaceholders(t + rest, linkMap) == t + ReplacePlaceholders(rest, linkMap)
  {
    if t == [] {
      assert t + rest == rest;
    } else {
      var c, t' := t[0], t[1..];
      var r := ReplacePlaceholders(rest, linkMap);
      assert t == [c] + t';
      assert t + rest == [c] + (t' + rest);
      InertTail(t);
      InertHead(t, rest);
      ReplaceSkipsPlainText(t', rest, linkMap);
      PlainStep(c, t' + rest, linkMap);
      AppendAssoc([c], t', r);
    }
  }

  /** Markdown in which no marker can start is returned as it is. */
  lemma InertUnchanged(md: string, linkMap: map<string, string>)
    requires Inert(md)
    ensures ReplacePlaceholders(md, linkMap) == md
  {
    ReplaceSkipsPlainText(md, [], linkMap);
    assert md + [] == md;
  }

  /** Braces of ordinary code are left alone. */
  lemma CodeBracesUnchanged(linkMap: map<string, string>)
    ensures ReplacePlaceholders("f() { return 1; } ", linkMap) == "f() { return 1; } "
  {
    var t := "f() { return 1; } ";
    assert Inert(t) by {
      forall i | 0 <= i < |t| && t[i] == '{' ensures i + 6 <= |t| && t[i..i + 6] != "{PAGE:" {
        assert i == 4;
        assert t[4..10][1] == ' ';
      }
    }
    InertUnchanged(t, linkMap);
  }

  /** A link to a page rendered for a canonical id resolves to the page's file when it was exported. */
  lemma ResolvesToFile(id: string, linkMap: map<string, string>)
    requires PageIds.IsCanonical(id) && id in linkMap && linkMap[id] != ""
    ensures ReplacePlaceholders(RichText.Placeholder(id), linkMap) == "./" + linkMap[id]
  {
    CanonicalFitsPattern(id);
    LowerPlaceholderId(id);
    ReplaceLeadingPlaceholder(id, [], linkMap);
    assert RichText.Placeholder(id) + [] == RichText.Placeholder(id);
  }

  /** ... and to notion.so when it was not, which is always the case with an empty map. */
  lemma ResolvesToNotion(id: string, linkMap: map<string, string>)
    requires PageIds.IsCanonical(id) && (id !in linkMap || linkMap[id] == "")
    ensures ReplacePlaceholders(RichText.Placeholder(id), linkMap) == NotionUrl(id)
  {
    CanonicalFitsPattern(id);
    LowerPlaceholderId(id);
    ReplaceLeadingPlaceholder(id, [], linkMap);
    assert RichText.Placeholder(id) + [] == RichText.Placeholder(id);
  }

  /**
   * Rendered Markdown seen as a sequence of literal text and page references,
   * as a structured alternative to embedded markers would keep it.
   */
  datatype Segment = Literal(text: string) | PageRef(id: string)

  predicate WellFormed(segs: seq<Segment>) {
    forall i :: 0 <= i < |segs| ==>
      match segs[i]
      case Literal(t) => Inert(t)
      case PageRef(id) => IsPlaceholderId(id)
  }

  /** The text with markers embedded, as the renderer produces it. */
  function Embed(segs: seq<Segment>): string {
    if segs == [] then ""
    else
      (match segs[0] case Literal(t) => t case PageRef(id) => RichText.Placeholder(id))
      + Embed(segs[1..])
  }

  /** The text with every reference resolved directly through the link map. */
  function Resolve(segs: seq<Segment>, linkMap: map<string, string>): string {
    if segs == [] then ""
    else
      (match segs[0] case Literal(t) => t case PageRef(id) => Target(id, linkMap))
      + Resolve(segs[1..], linkMap)
  }

  /**
   * Replacing embedded markers gives the same text as resolving the references
   * directly: text outside markers is untouched and each marker becomes its target.
   */
  lemma {:induction false} ReplaceEmbedded(segs: seq<Segment>, linkMap: map<string, string>)
    requires WellFormed(segs)
    ensures ReplacePlaceholders(Embed(segs), linkMap) == Resolve(segs, linkMap)
  {
    if segs != [] {
      assert WellFormed(segs[1..]) by {
        forall i | 0 <= i < |segs| - 1 ensures segs[1..][i] == segs[i + 1] { }
      }
      ReplaceEmbedded(segs[1..], linkMap);
      match segs[0]
      case Literal(t) =>
        ReplaceSkipsPlainText(t, Embed(segs[1..]), linkMap);
      case PageRef(id) =>
        ReplaceLeadingPlaceholder(id, Embed(segs[1..]), linkMap);
    }
  }
}
