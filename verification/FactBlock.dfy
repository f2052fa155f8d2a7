/** Entity escaping, the recalled-facts block the context engine renders, and the parser that
    recovers the fact texts from a system prompt. */
module FactBlock {
  import opened Strings

  // ---------------------------------------------------------------- global replacement

  /** `s.replace(/p/g, r)` for a literal, non-empty pattern. */
  function Replace(s: string, p: string, r: string): string
    requires p != ""
    decreases |s|
  {
    if s == "" then ""
    else if StartsWith(s, p) then r + Replace(s[|p|..], p, r)
    else [s[0]] + Replace(s[1..], p, r)
  }

  /** The three ordered replacements of the reader. */
  function Decode(s: string): string {
    Replace(Replace(Replace(s, "&lt;", "<"), "&gt;", ">"), "&amp;", "&")
  }

  /** One left-to-right pass over the three entities. */
  function DecodeOnce(s: string): string
    decreases |s|
  {
    if s == "" then ""
    else if StartsWith(s, "&lt;") then "<" + DecodeOnce(s[4..])
    else if StartsWith(s, "&gt;") then ">" + DecodeOnce(s[4..])
    else if StartsWith(s, "&amp;") then "&" + DecodeOnce(s[5..])
    else [s[0]] + DecodeOnce(s[1..])
  }

  /** A pattern that cannot start inside `w`, nor be produced there, passes over `w`. */
  lemma {:induction false} PassOver(w: string, s: string, p: string, r: string)
    requires p != "" && p[0] !in w
    ensures Replace(w + s, p, r) == w + Replace(s, p, r)
  {
    if w == "" {
      assert w + s == s;
    } else {
      PassOver(w[1..], s, p, r);
      assert (w + s)[1..] == w[1..] + s;
      assert w[0] in w;
      assert !StartsWith(w + s, p);
    }
  }

  /** Replacing neither creates nor destroys a prefix free of the pattern's first and the new characters. */
  lemma {:induction false} PrefixThrough(w: string, s: string, p: string, r: char)
    requires p != "" && p[0] !in w && r !in w
    ensures StartsWith(Replace(s, p, [r]), w) <==> StartsWith(s, w)
    decreases |w|
  {
    var t := Replace(s, p, [r]);
    if w != "" && s != "" {
      assert w[0] in w;
      HeadTail(s, w);
      if StartsWith(s, p) {
        HeadTail(s, p);
        HeadTail(t, w);
      } else {
        PrefixThrough(w[1..], s[1..], p, r);
        assert t[0] == s[0] && t[1..] == Replace(s[1..], p, [r]);
        HeadTail(t, w);
      }
    }
  }

  lemma HeadTail(s: string, w: string)
    requires s != "" && w != ""
    ensures StartsWith(s, w) <==> s[0] == w[0] && StartsWith(s[1..], w[1..])
  {
    if StartsWith(s, w) {
      assert s[..|w|][0] == w[0] && s[1..][..|w| - 1] == s[..|w|][1..];
    }
    if s[0] == w[0] && StartsWith(s[1..], w[1..]) {
      assert s[..|w|] == [s[0]] + s[1..][..|w| - 1];
    }
  }

  lemma Split(s: string, p: string)
    requires StartsWith(s, p)
    ensures s == p + s[|p|..]
  {
    assert s == s[..|p|] + s[|p|..];
  }

  /** How one replacement treats an entity of the other two: it goes through whole. */
  lemma EntityThrough(e: string, s: string, p: string, r: string)
    requires |e| >= 1 && |p| >= 2 && e[0] == p[0] && p[0] !in e[1..] && !StartsWith(e + s, p)
    ensures Replace(e + s, p, r) == e + Replace(s, p, r)
  {
    assert (e + s)[1..] == e[1..] + s;
    PassOver(e[1..], s, p, r);
  }

  lemma AmpersandThrough(s: string, w: string, p: string, r: char)
    requires p != "" && p[0] == '&' && '&' !in w && r !in w && !StartsWith("&" + s, p)
    ensures Replace("&" + s, p, [r]) == "&" + Replace(s, p, [r])
    ensures StartsWith("&" + Replace(s, p, [r]), "&" + w) <==> StartsWith("&" + s, "&" + w)
  {
    assert ("&" + s)[1..] == s;
    PrefixThrough(w, s, p, r);
    HeadTail("&" + s, "&" + w);
    HeadTail("&" + Replace(s, p, [r]), "&" + w);
    assert ("&" + w)[1..] == w && ("&" + Replace(s, p, [r]))[1..] == Replace(s, p, [r]);
  }

  const LT := "&lt;"
  const GT := "&gt;"
  const AMP := "&amp;"

  lemma DecodeLt(s: string)
    ensures Decode(LT + s) == "<" + Decode(s)
  {
    assert StartsWith(LT + s, LT) && (LT + s)[4..] == s;
    PassOver("<", Replace(s, LT, "<"), GT, ">");
    PassOver("<", Replace(Replace(s, LT, "<"), GT, ">"), AMP, "&");
  }

  lemma DecodeGt(s: string)
    ensures Decode(GT + s) == ">" + Decode(s)
  {
    assert (GT + s)[1] == 'g' && LT[1] == 'l';
    EntityThrough(GT, s, LT, "<");
    var a := Replace(s, LT, "<");
    assert StartsWith(GT + a, GT) && (GT + a)[4..] == a;
    PassOver(">", Replace(a, GT, ">"), AMP, "&");
  }

  lemma DecodeAmp(s: string)
    ensures Decode(AMP + s) == "&" + Decode(s)
  {
    assert (AMP + s)[1] == 'a' && LT[1] == 'l' && GT[1] == 'g';
    EntityThrough(AMP, s, LT, "<");
    var a := Replace(s, LT, "<");
    assert (AMP + a)[1] == 'a';
    EntityThrough(AMP, a, GT, ">");
    var b := Replace(a, GT, ">");
    assert StartsWith(AMP + b, AMP) && (AMP + b)[5..] == b;
  }

  lemma DecodePlain(c: char, s: string)
    requires !StartsWith([c] + s, LT) && !StartsWith([c] + s, GT) && !StartsWith([c] + s, AMP)
    ensures Decode([c] + s) == [c] + Decode(s)
  {
    var a := Replace(s, LT, "<");
    var b := Replace(a, GT, ">");
    if c == '&' {
      AmpersandThrough(s, "gt;", LT, '<');
      AmpersandThrough(s, "amp;", LT, '<');
      assert "&" + "gt;" == GT && "&" + "amp;" == AMP;
      AmpersandThrough(a, "amp;", GT, '>');
      assert ("&" + b)[1..] == b;
    } else {
      PassOver([c], s, LT, "<");
      PassOver([c], a, GT, ">");
      PassOver([c], b, AMP, "&");
    }
  }

  /** The three ordered global replacements are one left-to-right decoder. */
  lemma {:induction false} DecodeIsOnePass(s: string)
    ensures Decode(s) == DecodeOnce(s)
    decreases |s|
  {
    if s == "" {
    } else if StartsWith(s, LT) {
      Split(s, LT);
      DecodeLt(s[4..]);
      DecodeIsOnePass(s[4..]);
    } else if StartsWith(s, GT) {
      Split(s, GT);
      DecodeGt(s[4..]);
      DecodeIsOnePass(s[4..]);
    } else if StartsWith(s, AMP) {
      Split(s, AMP);
      DecodeAmp(s[5..]);
      DecodeIsOnePass(s[5..]);
    } else {
      assert s == [s[0]] + s[1..];
      DecodePlain(s[0], s[1..]);
      DecodeIsOnePass(s[1..]);
    }
  }

  // ---------------------------------------------------------------- escaping

  function EscapeText(v: string): string {
    Replace(Replace(Replace(v, "&", AMP), "<", LT), ">", GT)
  }

  function EscapeAttr(v: string): string {
    Replace(EscapeText(v), "\"", "&quot;")
  }

  function EscapeChar(c: char): string {
    if c == '&' then AMP else if c == '<' then LT else if c == '>' then GT else [c]
  }

  lemma {:induction false} ReplaceCharConcat(a: string, b: string, c: char, r: string)
    ensures Replace(a + b, [c], r) == Replace(a, [c], r) + Replace(b, [c], r)
    decreases |a|
  {
    if a == "" {
      assert a + b == b;
    } else {
      assert (a + b)[1..] == a[1..] + b;
      ReplaceCharConcat(a[1..], b, c, r);
    }
  }

  lemma NoSuchChar(a: string, c: char, r: string)
    requires c !in a
    ensures Replace(a, [c], r) == a
  {
    PassOver(a, "", [c], r);
    assert a + "" == a;
  }

  lemma ReplaceOne(c: char, d: char, r: string)
    ensures Replace([d], [c], r) == if c == d then r else [d]
  {
    assert [d][1..] == "" && r + "" == r;
  }

  lemma EscapeCons(c: char, v: string)
    ensures EscapeText([c] + v) == EscapeChar(c) + EscapeText(v)
  {
    ReplaceCharConcat([c], v, '&', AMP);
    ReplaceOne('&', c, AMP);
    var a := Replace([c], "&", AMP);
    ReplaceCharConcat(a, Replace(v, "&", AMP), '<', LT);
    if c == '&' { NoSuchChar(AMP, '<', LT); } else { ReplaceOne('<', c, LT); }
    var b := Replace(a, "<", LT);
    ReplaceCharConcat(b, Replace(Replace(v, "&", AMP), "<", LT), '>', GT);
    if c == '&' {
      NoSuchChar(AMP, '>', GT);
    } else if c == '<' {
      NoSuchChar(LT, '>', GT);
    } else {
      ReplaceOne('>', c, GT);
    }
  }

  /** Decoding undoes escaping, for every text. */
  lemma {:induction false} DecodeUndoesEscape(v: string)
    ensures Decode(EscapeText(v)) == v
  {
    if v != "" {
      var c, w := v[0], v[1..];
      assert v == [c] + w;
      EscapeCons(c, w);
      DecodeUndoesEscape(w);
      if c == '&' {
        DecodeAmp(EscapeText(w));
      } else if c == '<' {
        DecodeLt(EscapeText(w));
      } else if c == '>' {
        DecodeGt(EscapeText(w));
      } else {
        HeadTail([c] + EscapeText(w), LT);
        HeadTail([c] + EscapeText(w), GT);
        HeadTail([c] + EscapeText(w), AMP);
        DecodePlain(c, EscapeText(w));
      }
    }
  }

  lemma {:induction false} ReplaceCharAbsent(s: string, c: char, r: string, d: char)
    requires d !in r && (d == c || d !in s)
    ensures d !in Replace(s, [c], r)
    decreases |s|
  {
    if s != "" {
      ReplaceCharAbsent(s[1..], c, r, d);
    }
  }

  /** Escaped text and attributes hold no angle bracket. */
  lemma EscapedHasNoBrackets(v: string)
    ensures '<' !in EscapeText(v) && '>' !in EscapeText(v) && '<' !in EscapeAttr(v) && '>' !in EscapeAttr(v)
  {
    var a := Replace(v, "&", AMP);
    var b := Replace(a, "<", LT);
    ReplaceCharAbsent(a, '<', LT, '<');
    ReplaceCharAbsent(b, '>', GT, '<');
    ReplaceCharAbsent(b, '>', GT, '>');
    ReplaceCharAbsent(EscapeText(v), '"', "&quot;", '<');
    ReplaceCharAbsent(EscapeText(v), '"', "&quot;", '>');
  }
}
