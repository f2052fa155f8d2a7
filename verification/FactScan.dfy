/** The tag scan `<fact\b[^>]*>([\s\S]*?)</fact>` and the parse/print round trip. */
module FactScan {
  import opened Options
  import opened Strings
  import opened FactBlock

  const OPEN := "<fact"
  const CLOSE := "</fact>"

  /** The text before and after the first occurrence of `p`. */
  function Cut(s: string, p: string): (r: Option<(string, string)>)
    requires p != ""
    ensures r.Some? ==> |r.value.1| < |s|
    decreases |s|
  {
    if s == "" then None
    else if StartsWith(s, p) then Some(("", s[|p|..]))
    else match Cut(s[1..], p)
         case None => None
         case Some((a, b)) => Some(([s[0]] + a, b))
  }

  predicate IsWordChar(c: char) {
    'a' <= c <= 'z' || 'A' <= c <= 'Z' || '0' <= c <= '9' || c == '_'
  }

  /** An opening tag starts here: the name ends at a word boundary. */
  predicate OpensHere(s: string) {
    StartsWith(s, OPEN) && (|s| == |OPEN| || !IsWordChar(s[|OPEN|]))
  }

  /** The match starting at the first character, as captured body and remaining text. */
  function MatchHere(s: string): Option<(string, string)> {
    if !OpensHere(s) then None
    else match Cut(s[|OPEN|..], ">")
         case None => None
         case Some((attrs, inner)) => Cut(inner, CLOSE)
  }

  /** The leftmost match. */
  function Exec(s: string): (r: Option<(string, string)>)
    ensures r.Some? ==> |r.value.1| < |s|
    decreases |s|
  {
    if s == "" then None
    else match MatchHere(s)
         case Some(m) => Some(m)
         case None => Exec(s[1..])
  }

  function Extract(s: string): seq<string>
    decreases |s|
  {
    match Exec(s)
    case None => []
    case Some((body, rest)) => [Trim(Decode(body))] + Extract(rest)
  }

  method ExtractRecalledFacts(systemText: string) returns (out: seq<string>)
    ensures out == Extract(systemText)
  {
    out := [];
    var rest := systemText;
    var found := Exec(rest);
    while found.Some?
      invariant found == Exec(rest)
      invariant out + Extract(rest) == Extract(systemText)
      decreases |rest|
    {
      out := out + [Trim(Decode(found.value.0))];
      rest := found.value.1;
      found := Exec(rest);
    }
  }

  // ---------------------------------------------------------------- trimming

  predicate IsSpace(c: char) {
    var n := c as int;
    || 9 <= n <= 13 || n == 32 || n == 0xA0 || n == 0x1680 || 0x2000 <= n <= 0x200A
    || n == 0x2028 || n == 0x2029 || n == 0x202F || n == 0x205F || n == 0x3000 || n == 0xFEFF
  }

  function Trim(s: string): string
    decreases |s|
  {
    if s == "" then ""
    else if IsSpace(s[0]) then Trim(s[1..])
    else if IsSpace(s[|s| - 1]) then Trim(s[..|s| - 1])
    else s
  }

  ghost predicate AllSpace(s: string) {
    forall i | 0 <= i < |s| :: IsSpace(s[i])
  }

  ghost predicate Tight(s: string) {
    s != "" ==> !IsSpace(s[0]) && !IsSpace(s[|s| - 1])
  }

  ghost predicate Surrounds(s: string, a: string, b: string) {
    s == a + Trim(s) + b && AllSpace(a) && AllSpace(b)
  }

  lemma SpaceInFront(s: string, a: string, b: string)
    requires s != "" && IsSpace(s[0]) && Surrounds(s[1..], a, b)
    ensures Surrounds(s, [s[0]] + a, b)
  {
    assert s == [s[0]] + s[1..];
    assert [s[0]] + (a + Trim(s[1..]) + b) == ([s[0]] + a) + Trim(s[1..]) + b;
  }

  lemma SpaceBehind(s: string, a: string, b: string)
    requires s != "" && !IsSpace(s[0]) && IsSpace(s[|s| - 1]) && Surrounds(s[..|s| - 1], a, b)
    ensures Surrounds(s, a, b + [s[|s| - 1]])
  {
    var n := |s| - 1;
    assert s == s[..n] + [s[n]];
    assert (a + Trim(s[..n]) + b) + [s[n]] == a + Trim(s[..n]) + (b + [s[n]]);
  }

  lemma NoSpace(s: string)
    requires Trim(s) == s
    ensures Surrounds(s, "", "")
  {
    assert "" + s + "" == s;
  }

  /** Trimming removes white space at both ends and nothing else. */
  lemma {:induction false} TrimMeaning(s: string)
    ensures Tight(Trim(s)) && exists a, b :: Surrounds(s, a, b)
    decreases |s|
  {
    if s != "" && IsSpace(s[0]) {
      TrimMeaning(s[1..]);
      var a, b :| Surrounds(s[1..], a, b);
      SpaceInFront(s, a, b);
    } else if s != "" && IsSpace(s[|s| - 1]) {
      TrimMeaning(s[..|s| - 1]);
      var a, b :| Surrounds(s[..|s| - 1], a, b);
      SpaceBehind(s, a, b);
    } else {
      NoSpace(s);
    }
  }

  // ---------------------------------------------------------------- what a match is

  ghost predicate FirstCut(s: string, p: string, a: string, b: string) {
    s == a + (p + b) && forall i | 0 <= i < |a| :: !StartsWith(s[i..], p)
  }

  lemma FirstCutTail(s: string, p: string, a: string, b: string)
    requires s != "" && p != "" && !StartsWith(s, p)
    ensures FirstCut(s, p, a, b) <==> a != "" && a[0] == s[0] && FirstCut(s[1..], p, a[1..], b)
  {
    assert forall i | 1 <= i <= |s| :: s[1..][i - 1..] == s[i..];
    assert s[0..] == s;
    if FirstCut(s, p, a, b) {
      assert s[1..] == a[1..] + (p + b);
      forall i | 0 <= i < |a[1..]|
        ensures !StartsWith(s[1..][i..], p)
      {
        assert s[1..][i..] == s[i + 1..];
      }
    }
    if a != "" && a[0] == s[0] && FirstCut(s[1..], p, a[1..], b) {
      assert s == [s[0]] + s[1..] && a == [a[0]] + a[1..];
      assert s == a + (p + b);
      forall i | 0 <= i < |a|
        ensures !StartsWith(s[i..], p)
      {
        if i > 0 { assert s[1..][i - 1..] == s[i..]; }
      }
    }
  }

  /** Cutting finds the first occurrence, and only that. */
  lemma {:induction false} CutExactly(s: string, p: string, a: string, b: string)
    requires p != ""
    ensures Cut(s, p) == Some((a, b)) <==> FirstCut(s, p, a, b)
    decreases |s|
  {
    if s == "" {
    } else if StartsWith(s, p) {
      Split(s, p);
      assert s[0..] == s;
      assert FirstCut(s, p, "", s[|p|..]);
      if FirstCut(s, p, a, b) {
        assert a == "";
        assert b == s[|p|..];
      }
    } else {
      FirstCutTail(s, p, a, b);
      if a != "" {
        CutExactly(s[1..], p, a[1..], b);
        assert a == [a[0]] + a[1..];
        if Cut(s, p) == Some((a, b)) { assert Cut(s[1..], p).value.0 == a[1..]; }
      }
    }
  }

  lemma CutChar(s: string, c: char, a: string, b: string)
    ensures FirstCut(s, [c], a, b) <==> s == a + ([c] + b) && c !in a
  {
    if s == a + ([c] + b) {
      forall i | 0 <= i < |a|
        ensures StartsWith(s[i..], [c]) <==> a[i] == c
      {
        assert s[i..][0] == a[i];
        HeadTail(s[i..], [c]);
      }
    }
  }

  /** The text splits as the expression reads: attributes without `>` after a word boundary, the
      shortest body, a closing tag. */
  ghost predicate Reads(s: string, attrs: string, body: string, rest: string) {
    var inner := body + (CLOSE + rest);
    && s == OPEN + (attrs + (">" + inner))
    && '>' !in attrs && (attrs == "" || !IsWordChar(attrs[0]))
    && FirstCut(inner, CLOSE, body, rest)
  }

  /** The scan at a position finds exactly what the expression describes there. */
  lemma MatchExactly(s: string, body: string, rest: string)
    ensures MatchHere(s) == Some((body, rest)) <==> exists attrs :: Reads(s, attrs, body, rest)
  {
    if MatchHere(s) == Some((body, rest)) {
      var tail := s[|OPEN|..];
      Split(s, OPEN);
      var attrs, inner := Cut(tail, ">").value.0, Cut(tail, ">").value.1;
      CutExactly(tail, ">", attrs, inner);
      CutChar(tail, '>', attrs, inner);
      CutExactly(inner, CLOSE, body, rest);
      assert attrs != "" ==> attrs[0] == tail[0] == s[|OPEN|];
      assert Reads(s, attrs, body, rest);
    }
    if attrs :| Reads(s, attrs, body, rest) {
      ReadsMatches(s, attrs, body, rest);
    }
  }

  lemma ReadsMatches(s: string, attrs: string, body: string, rest: string)
    requires Reads(s, attrs, body, rest)
    ensures MatchHere(s) == Some((body, rest))
  {
    var inner := body + (CLOSE + rest);
    var tail := attrs + (">" + inner);
    assert s[..|OPEN|] == OPEN && s[|OPEN|..] == tail && s[|OPEN|] == tail[0];
    CutChar(tail, '>', attrs, inner);
    CutExactly(tail, ">", attrs, inner);
    CutExactly(inner, CLOSE, body, rest);
  }

  // ---------------------------------------------------------------- the rendered block

  datatype Fact = Fact(id: string, tags: Option<seq<string>>, text: string)

  function Join(parts: seq<string>, sep: string): string {
    if parts == [] then "" else if |parts| == 1 then parts[0] else parts[0] + sep + Join(parts[1..], sep)
  }

  function Attributes(f: Fact): string {
    " id=\"" + EscapeAttr(f.id) + "\"" +
    if f.tags.Some? then " tags=\"" + EscapeAttr(Join(f.tags.value, ",")) + "\"" else ""
  }

  function Element(f: Fact): string {
    OPEN + Attributes(f) + ">" + EscapeText(f.text) + CLOSE
  }

  function Lines(facts: seq<Fact>): seq<string> {
    if facts == [] then [] else ["  " + Element(facts[0])] + Lines(facts[1..])
  }

  const HEAD := "<" + "auto_recalled_facts>"
  const FOOT := "<" + "/auto_recalled_facts>"

  function Render(facts: seq<Fact>): string {
    if facts == [] then "" else Join([HEAD] + Lines(facts) + [FOOT], "\n")
  }

  function Texts(facts: seq<Fact>): seq<string> {
    if facts == [] then [] else [Trim(facts[0].text)] + Texts(facts[1..])
  }

  // ---------------------------------------------------------------- round trip

  /** No opening tag starts in `p`, whatever follows that is not a word character. */
  ghost predicate NoOpening(p: string) {
    forall i | 0 <= i < |p| :: StartsWith(p[i..], OPEN) ==> i + |OPEN| < |p| && IsWordChar(p[i + |OPEN|])
  }

  /** Positions where no opening tag starts are passed by. */
  lemma {:induction false} Skip(p: string, s: string)
    requires forall i | 0 <= i < |p| :: !OpensHere((p + s)[i..])
    ensures Exec(p + s) == Exec(s) && Extract(p + s) == Extract(s)
    decreases |p|
  {
    if p == "" {
      assert p + s == s;
    } else {
      var q := p[1..];
      assert (p + s)[1..] == q + s && (p + s)[0..] == p + s;
      forall i | 0 <= i < |q|
        ensures !OpensHere((q + s)[i..])
      {
        assert (q + s)[i..] == (p + s)[i + 1..];
      }
      Skip(q, s);
      assert Exec(p + s) == Exec(q + s);
    }
  }

  lemma SkipPlain(p: string, s: string)
    requires '<' !in p
    ensures Extract(p + s) == Extract(s)
  {
    forall i | 0 <= i < |p|
      ensures !OpensHere((p + s)[i..])
    {
      assert (p + s)[i..][0] == p[i] && p[i] in p;
    }
    Skip(p, s);
  }

  /** A tag of another name is passed by. */
  lemma SkipTag(name: string, s: string)
    requires name != "" && name[0] != 'f' && '<' !in name
    ensures Extract("<" + name + s) == Extract(s)
  {
    var w := "<" + (name + s);
    assert "<" + name + s == w;
    SkipPlain(name, s);
    assert w[0..] == w;
    if OpensHere(w) {
      HeadTail(w, OPEN);
      HeadTail(w[1..], OPEN[1..]);
    }
    Skip("<", name + s);
  }

  /** An opening cannot straddle into a `<`. */
  lemma Straddle(p: string, s: string, i: nat)
    requires NoOpening(p) && i < |p| && (s == "" || s[0] == '<')
    ensures !OpensHere((p + s)[i..])
  {
    var w := (p + s)[i..];
    var q := p[i..];
    assert w == q + s;
    if StartsWith(w, OPEN) {
      assert forall k | 1 <= k < |OPEN| :: w[k] == w[..|OPEN|][k] && w[k] != '<';
      assert s != "" ==> w[|q|] == s[0];
      assert |q| >= |OPEN|;
      assert q[..|OPEN|] == w[..|OPEN|];
      assert w[|OPEN|] == p[i + |OPEN|];
    }
  }

  lemma SkipPrefix(p: string, s: string)
    requires NoOpening(p) && (s == "" || s[0] == '<')
    ensures Extract(p + s) == Extract(s)
  {
    forall i | 0 <= i < |p|
      ensures !OpensHere((p + s)[i..])
    {
      Straddle(p, s, i);
    }
    Skip(p, s);
  }

  /** The rendered lines after the head, with their separators. */
  function Tail(facts: seq<Fact>): string {
    if facts == [] then FOOT else "  " + (Element(facts[0]) + ("\n" + Tail(facts[1..])))
  }

  lemma JoinCons(x: string, parts: seq<string>, sep: string)
    requires parts != []
    ensures Join([x] + parts, sep) == x + (sep + Join(parts, sep))
  {
    assert ([x] + parts)[1..] == parts;
    assert x + sep + Join(parts, sep) == x + (sep + Join(parts, sep));
  }

  lemma {:induction false} JoinTail(facts: seq<Fact>)
    ensures Join(Lines(facts) + [FOOT], "\n") == Tail(facts)
  {
    if facts == [] {
      assert Lines(facts) + [FOOT] == [FOOT];
    } else {
      var x, rest := "  " + Element(facts[0]), Lines(facts[1..]) + [FOOT];
      JoinTail(facts[1..]);
      assert Lines(facts) + [FOOT] == [x] + rest;
      JoinCons(x, rest, "\n");
      Regroup("  ", Element(facts[0]), "\n" + Tail(facts[1..]));
    }
  }

  lemma Regroup(a: string, b: string, c: string)
    ensures (a + b) + c == a + (b + c)
  {
  }

  lemma RenderSplit(facts: seq<Fact>)
    requires facts != []
    ensures Render(facts) == HEAD + ("\n" + Tail(facts))
  {
    JoinTail(facts);
    assert [HEAD] + Lines(facts) + [FOOT] == [HEAD] + (Lines(facts) + [FOOT]);
    JoinCons(HEAD, Lines(facts) + [FOOT], "\n");
  }

  lemma NoGreater(f: Fact)
    ensures '>' !in Attributes(f) && Attributes(f)[0] == ' '
  {
    EscapedHasNoBrackets(f.id);
    if f.tags.Some? {
      EscapedHasNoBrackets(Join(f.tags.value, ","));
    }
  }

  /** One rendered element, whatever follows it, is matched whole and yields its text. */
  lemma ElementRead(f: Fact, s: string)
    ensures Extract(Element(f) + s) == [Trim(f.text)] + Extract(s)
  {
    var body := EscapeText(f.text);
    var inner := body + (CLOSE + s);
    NoGreater(f);
    EscapedHasNoBrackets(f.text);
    forall i | 0 <= i < |body|
      ensures !StartsWith(inner[i..], CLOSE)
    {
      assert inner[i..][0] == body[i] && body[i] in body;
      HeadTail(inner[i..], CLOSE);
    }
    assert Element(f) + s == OPEN + (Attributes(f) + (">" + inner));
    assert Reads(Element(f) + s, Attributes(f), body, s);
    ReadsMatches(Element(f) + s, Attributes(f), body, s);
    DecodeUndoesEscape(f.text);
  }

  lemma Reassociate(a: string, b: string, c: string, d: string, e: string)
    ensures (a + (b + (c + d))) + e == a + (b + (c + (d + e)))
  {
  }

  lemma {:induction false} TailRead(facts: seq<Fact>, suffix: string)
    ensures Extract(Tail(facts) + suffix) == Texts(facts) + Extract(suffix)
  {
    if facts == [] {
      SkipTag("/auto_recalled_facts>", suffix);
    } else {
      var more := Tail(facts[1..]) + suffix;
      TailRead(facts[1..], suffix);
      Reassociate("  ", Element(facts[0]), "\n", Tail(facts[1..]), suffix);
      SkipPlain("  ", Element(facts[0]) + ("\n" + more));
      ElementRead(facts[0], "\n" + more);
      SkipPlain("\n", more);
    }
  }

  /** Round trip: from a block rendered anywhere in a prompt whose earlier text opens no fact tag,
      extraction returns exactly the trimmed fact texts in order, then whatever later text yields. */
  lemma RenderedFactsRecovered(prefix: string, facts: seq<Fact>, suffix: string)
    requires NoOpening(prefix) && facts != []
    ensures Extract(prefix + Render(facts) + suffix) == Texts(facts) + Extract(suffix)
  {
    RenderSplit(facts);
    var block := HEAD + ("\n" + (Tail(facts) + suffix));
    assert prefix + Render(facts) + suffix == prefix + block;
    SkipPrefix(prefix, block);
    SkipTag("auto_recalled_facts>", "\n" + (Tail(facts) + suffix));
    SkipPlain("\n", Tail(facts) + suffix);
    TailRead(facts, suffix);
  }

  /** With nothing injected, a prompt that opens no fact tag yields nothing. */
  lemma NothingInjected(prefix: string)
    requires NoOpening(prefix)
    ensures Extract(prefix + Render([])) == []
  {
    SkipPrefix(prefix, "");
  }
}
