/**
 Bot HTML: escaping of runtime values, validation of trusted catalog templates and
 placeholder substitution (birr-track-backend/src/telegram/telegram-html.ts).
 */
module TrustedHtml {
  import opened Common
  import opened Strings

  // ---------------------------------------------------------------- escaping

  /** The five whole-string replacements, in the source's order. */
  function EscapeBotHtml(value: string): string {
    var amp := ReplaceAll(value, '&', "&amp;");
    var lt := ReplaceAll(amp, '<', "&lt;");
    var gt := ReplaceAll(lt, '>', "&gt;");
    var quot := ReplaceAll(gt, '"', "&quot;");
    ReplaceAll(quot, '\'', "&#39;")
  }

  /** The entity that stands for one character. */
  function EscapeChar(c: char): string {
    match c
    case '&' => "&amp;"
    case '<' => "&lt;"
    case '>' => "&gt;"
    case '"' => "&quot;"
    case '\'' => "&#39;"
    case _ => [c]
  }

  /** The single-pass reading of the chain. */
  function EscapeEach(s: string): string {
    if s == "" then "" else EscapeChar(s[0]) + EscapeEach(s[1..])
  }

  /** Reads the five entities back, left to right. */
  function Unescape(s: string): string {
    if s == "" then ""
    else if "&amp;" <= s then "&" + Unescape(s[5..])
    else if "&lt;" <= s then "<" + Unescape(s[4..])
    else if "&gt;" <= s then ">" + Unescape(s[4..])
    else if "&quot;" <= s then "\"" + Unescape(s[6..])
    else if "&#39;" <= s then "'" + Unescape(s[5..])
    else [s[0]] + Unescape(s[1..])
  }

  lemma EscapeConcat(a: string, b: string)
    ensures EscapeBotHtml(a + b) == EscapeBotHtml(a) + EscapeBotHtml(b)
  {
    ReplaceAllConcat(a, b, '&', "&amp;");
    var a1, b1 := ReplaceAll(a, '&', "&amp;"), ReplaceAll(b, '&', "&amp;");
    ReplaceAllConcat(a1, b1, '<', "&lt;");
    var a2, b2 := ReplaceAll(a1, '<', "&lt;"), ReplaceAll(b1, '<', "&lt;");
    ReplaceAllConcat(a2, b2, '>', "&gt;");
    var a3, b3 := ReplaceAll(a2, '>', "&gt;"), ReplaceAll(b2, '>', "&gt;");
    ReplaceAllConcat(a3, b3, '"', "&quot;");
    var a4, b4 := ReplaceAll(a3, '"', "&quot;"), ReplaceAll(b3, '"', "&quot;");
    ReplaceAllConcat(a4, b4, '\'', "&#39;");
  }

  lemma ReplaceOne(x: char, c: char, entity: string)
    ensures ReplaceAll([x], c, entity) == if x == c then entity else [x]
  {
    assert [x][1..] == "";
  }

  /** No entity contains a character that a later pass looks for. */
  lemma EntityPassesOver(e: string, c: char, entity: string)
    requires e == "&amp;" || e == "&lt;" || e == "&gt;" || e == "&quot;"
    requires c == '<' || c == '>' || c == '"' || c == '\''
    ensures ReplaceAll(e, c, entity) == e
  {
    ReplaceAllAbsent(e, c, entity);
  }

  lemma EscapeEntity(x: char)
    requires x == '&' || x == '<' || x == '>' || x == '"' || x == '\''
    ensures EscapeBotHtml([x]) == EscapeChar(x)
  {
    ReplaceOne(x, '&', "&amp;");
    ReplaceOne(x, '<', "&lt;");
    ReplaceOne(x, '>', "&gt;");
    ReplaceOne(x, '"', "&quot;");
    ReplaceOne(x, '\'', "&#39;");
    EntityPassesOver(if x == '\'' then "&amp;" else EscapeChar(x), '<', "&lt;");
    EntityPassesOver(if x == '\'' then "&amp;" else EscapeChar(x), '>', "&gt;");
    EntityPassesOver(if x == '\'' then "&amp;" else EscapeChar(x), '"', "&quot;");
    EntityPassesOver(if x == '\'' then "&amp;" else EscapeChar(x), '\'', "&#39;");
  }

  /** Later replacements leave the entities written by earlier ones alone. */
  lemma EscapeSingle(x: char)
    ensures EscapeBotHtml([x]) == EscapeChar(x)
  {
    if x == '&' || x == '<' || x == '>' || x == '"' || x == '\'' {
      EscapeEntity(x);
    } else {
      ReplaceOne(x, '&', "&amp;");
      ReplaceOne(x, '<', "&lt;");
      ReplaceOne(x, '>', "&gt;");
      ReplaceOne(x, '"', "&quot;");
      ReplaceOne(x, '\'', "&#39;");
    }
  }

  /** The chain of five passes is one pass. */
  lemma {:induction false} EscapeIsPerCharacter(s: string)
    ensures EscapeBotHtml(s) == EscapeEach(s)
  {
    if s != "" {
      assert s == [s[0]] + s[1..];
      EscapeConcat([s[0]], s[1..]);
      EscapeSingle(s[0]);
      EscapeIsPerCharacter(s[1..]);
    }
  }

  predicate IsMarkup(c: char) { c == '<' || c == '>' || c == '"' || c == '\'' }

  lemma {:induction false} EachHasNoMarkup(s: string)
    ensures forall c :: c in EscapeEach(s) ==> !IsMarkup(c)
  {
    if s != "" {
      assert forall c :: c in EscapeChar(s[0]) ==> !IsMarkup(c);
      EachHasNoMarkup(s[1..]);
    }
  }

  /** No character that is markup to Telegram survives. */
  lemma EscapedHasNoMarkup(s: string)
    ensures forall c :: c in EscapeBotHtml(s) ==> !IsMarkup(c)
  {
    EscapeIsPerCharacter(s);
    EachHasNoMarkup(s);
  }

  lemma UnescapeHead(c: char, rest: string)
    ensures Unescape(EscapeChar(c) + rest) == [c] + Unescape(rest)
  {
    var e := EscapeChar(c);
    assert (e + rest)[|e|..] == rest;
    assert (e + rest)[0] == e[0];
    if |e| > 1 {
      assert e <= e + rest;
      assert (e + rest)[1] == e[1] && (e + rest)[2] == e[2];
    }
  }

  lemma {:induction false} UnescapeEach(s: string)
    ensures Unescape(EscapeEach(s)) == s
  {
    if s != "" {
      UnescapeHead(s[0], EscapeEach(s[1..]));
      UnescapeEach(s[1..]);
    }
  }

  /** Escaping loses nothing: every value can be read back, so distinct values stay distinct. */
  lemma EscapeRoundTrip(s: string)
    ensures Unescape(EscapeBotHtml(s)) == s
  {
    EscapeIsPerCharacter(s);
    UnescapeEach(s);
  }

  lemma EscapeInjective(a: string, b: string)
    requires EscapeBotHtml(a) == EscapeBotHtml(b)
    ensures a == b
  {
    EscapeRoundTrip(a);
    EscapeRoundTrip(b);
  }

  // ------------------------------------------------------------ the two regexes

  /** One `<name>` or `</name>`. */
  datatype Markup = Markup(closing: bool, name: string) {
    function Source(): (s: string)
      ensures |s| == |name| + (if closing then 3 else 2)
    {
      (if closing then "</" else "<") + name + ">"
    }
  }

  predicate AllowedName(name: string) {
    name == "b" || name == "i" || name == "code"
  }

  /** A match of `<\/?(?:b|i|code)>` at the head of `s`. */
  function AllowedTagAt(s: string): (m: Option<Markup>)
    ensures m.Some? ==> AllowedName(m.value.name) && m.value.Source() <= s
  {
    if "<b>" <= s then Some(Markup(false, "b"))
    else if "</b>" <= s then Some(Markup(true, "b"))
    else if "<i>" <= s then Some(Markup(false, "i"))
    else if "</i>" <= s then Some(Markup(true, "i"))
    else if "<code>" <= s then Some(Markup(false, "code"))
    else if "</code>" <= s then Some(Markup(true, "code"))
    else None
  }

  /** `template.replace(ALLOWED_TAG_PATTERN, '')`. */
  function WithoutAllowedTags(s: string): string {
    if s == "" then ""
    else match AllowedTagAt(s)
      case Some(m) => WithoutAllowedTags(s[|m.Source()|..])
      case None => [s[0]] + WithoutAllowedTags(s[1..])
  }

  /** The allowed tags of `s`, in order. */
  function Tags(s: string): seq<Markup> {
    if s == "" then []
    else match AllowedTagAt(s)
      case Some(m) => [m] + Tags(s[|m.Source()|..])
      case None => Tags(s[1..])
  }

  /** How many leading characters are in `a-z`. */
  function LowerRun(s: string): (n: nat)
    ensures n <= |s|
  {
    if s != "" && 'a' <= s[0] <= 'z' then 1 + LowerRun(s[1..]) else 0
  }

  /** A match of `<\/?([a-z]+)>` at the head of `s`. */
  function TokenAt(s: string): (m: Option<Markup>)
    ensures m.Some? ==> m.value.Source() <= s
  {
    if s == "" || s[0] != '<' then None
    else
      var closing := |s| > 1 && s[1] == '/';
      var start := if closing then 2 else 1;
      var n := LowerRun(s[start..]);
      if n > 0 && start + n < |s| && s[start + n] == '>'
      then Some(Markup(closing, s[start..start + n]))
      else None
  }

  /** `template.matchAll(HTML_TOKEN_PATTERN)`. */
  function Tokens(s: string): seq<Markup> {
    if s == "" then []
    else match TokenAt(s)
      case Some(m) => [m] + Tokens(s[|m.Source()|..])
      case None => Tokens(s[1..])
  }

  /** The first check of the validator: nothing angular is left once allowed tags are gone. */
  predicate Clean(s: string) {
    '<' !in WithoutAllowedTags(s) && '>' !in WithoutAllowedTags(s)
  }

  lemma {:induction false} LowerRunStops(name: string, rest: string)
    requires forall i :: 0 <= i < |name| ==> 'a' <= name[i] <= 'z'
    requires rest != "" && !('a' <= rest[0] <= 'z')
    ensures LowerRun(name + rest) == |name|
  {
    if name == "" {
      assert name + rest == rest;
    } else {
      assert (name + rest)[1..] == name[1..] + rest;
      assert (name + rest)[0] == name[0];
      LowerRunStops(name[1..], rest);
    }
  }

  lemma SliceBehind(prefix: string, name: string, rest: string)
    ensures var s := prefix + (name + rest);
            s[|prefix|..] == name + rest && s[|prefix|..|prefix| + |name|] == name
    ensures var s := prefix + (name + rest);
            rest != "" ==> s[|prefix| + |name|] == rest[0]
  {
  }

  lemma TokenAtSource(m: Markup, rest: string)
    requires AllowedName(m.name)
    ensures TokenAt(m.Source() + rest) == Some(m)
  {
    var prefix := if m.closing then "</" else "<";
    var s := prefix + (m.name + (">" + rest));
    assert m.Source() + rest == s;
    SliceBehind(prefix, m.name, ">" + rest);
    assert s[0] == '<' && (m.closing <==> s[1] == '/');
    LowerRunStops(m.name, ">" + rest);
  }

  /** The token pattern sees every tag that the allowed pattern sees. */
  lemma AllowedIsToken(s: string)
    requires AllowedTagAt(s).Some?
    ensures TokenAt(s) == AllowedTagAt(s)
  {
    var m := AllowedTagAt(s).value;
    assert s == m.Source() + s[|m.Source()|..];
    TokenAtSource(m, s[|m.Source()|..]);
  }

  /** On clean text the two patterns see the same tags, although they are scanned separately. */
  lemma {:induction false} CleanTokensAreTags(s: string)
    requires Clean(s)
    ensures Tokens(s) == Tags(s)
  {
    if s != "" {
      match AllowedTagAt(s)
      case Some(m) =>
        AllowedIsToken(s);
        CleanTokensAreTags(s[|m.Source()|..]);
      case None =>
        assert s[0] == WithoutAllowedTags(s)[0];
        CleanTokensAreTags(s[1..]);
    }
  }

  // ---------------------------------------------------------------- validation

  datatype Verdict = Valid | Disallowed | UnmatchedClosing(name: string) | Unclosed(name: string)

  /** The `openTags` loop, with the top of the stack last. */
  function Balance(open: seq<string>, tokens: seq<Markup>): Verdict
    decreases |tokens|
  {
    if tokens == [] then
      (if open == [] then Valid else Unclosed(open[|open| - 1]))
    else if !tokens[0].closing then
      Balance(open + [tokens[0].name], tokens[1..])
    else if open == [] || open[|open| - 1] != tokens[0].name then
      UnmatchedClosing(tokens[0].name)
    else
      Balance(open[..|open| - 1], tokens[1..])
  }

  function Validate(template: string): Verdict {
    if Clean(template) then Balance([], Tokens(template)) else Disallowed
  }

  /** The tags left open by a series of tags, or None once a closing one does not match. */
  function StillOpen(tokens: seq<Markup>): Option<seq<string>>
    decreases |tokens|
  {
    if tokens == [] then Some([])
    else
      var last := tokens[|tokens| - 1];
      match StillOpen(tokens[..|tokens| - 1])
      case None => None
      case Some(open) =>
        if !last.closing then Some(open + [last.name])
        else if Fits(open, last) then Some(open[..|open| - 1])
        else None
  }

  predicate Fits(open: seq<string>, tag: Markup) { open != [] && open[|open| - 1] == tag.name }

  /** The first tag that closes what is not open. */
  predicate Mismatch(tokens: seq<Markup>, i: nat) {
    && i < |tokens| && StillOpen(tokens[..i]).Some?
    && tokens[i].closing && !Fits(StillOpen(tokens[..i]).value, tokens[i])
  }

  /** The verdict on a series of tags: the first mismatched one, or else the last left open. */
  ghost predicate Rightly(tokens: seq<Markup>, verdict: Verdict) {
    match verdict
    case Disallowed => false
    case Valid => StillOpen(tokens) == Some([])
    case Unclosed(name) => exists outer :: StillOpen(tokens) == Some(outer + [name])
    case UnmatchedClosing(name) => exists k: nat :: Mismatch(tokens, k) && tokens[k].name == name
  }

  lemma {:induction false} BalanceFrom(tokens: seq<Markup>, i: nat)
    requires i <= |tokens| && StillOpen(tokens[..i]).Some?
    ensures Rightly(tokens, Balance(StillOpen(tokens[..i]).value, tokens[i..]))
    decreases |tokens| - i
  {
    if i == |tokens| {
      assert tokens[..i] == tokens;
      var open := StillOpen(tokens).value;
      if open != [] {
        assert open == open[..|open| - 1] + [open[|open| - 1]];
      }
    } else {
      assert tokens[..i + 1][..i] == tokens[..i] && tokens[..i + 1][i] == tokens[i];
      assert tokens[i..][1..] == tokens[i + 1..];
      if StillOpen(tokens[..i + 1]).Some? {
        BalanceFrom(tokens, i + 1);
      } else {
        assert Mismatch(tokens, i);
      }
    }
  }

  /** Which tag a refused text is refused for: the first mismatched one, or else the last left open. */
  lemma VerdictNamesTheTag(template: string)
    ensures Validate(template) == Disallowed <==> !Clean(template)
    ensures Clean(template) ==> Rightly(Tokens(template), Validate(template))
  {
    var tokens := Tokens(template);
    assert tokens[..0] == [] && tokens[0..] == tokens;
    BalanceFrom(tokens, 0);
  }

  /** Text whose only angular characters are properly nested b, i and code tags. */
  datatype Forest =
    | End
    | Text(c: char, rest: Forest)
    | Element(name: string, inner: Forest, rest: Forest)
  {
    predicate WellFormed() {
      match this
      case End => true
      case Text(c, rest) => c != '<' && c != '>' && rest.WellFormed()
      case Element(name, inner, rest) => AllowedName(name) && inner.WellFormed() && rest.WellFormed()
    }

    function Print(): string {
      match this
      case End => ""
      case Text(c, rest) => [c] + rest.Print()
      case Element(name, inner, rest) =>
        Markup(false, name).Source() + (inner.Print() + (Markup(true, name).Source() + rest.Print()))
    }

    /** The tags of the printed text, in order. */
    function Brackets(): seq<Markup> {
      match this
      case End => []
      case Text(_, rest) => rest.Brackets()
      case Element(name, inner, rest) =>
        [Markup(false, name)] + (inner.Brackets() + ([Markup(true, name)] + rest.Brackets()))
    }
  }

  /** The balanced-bracket grammar of accepted templates. */
  ghost predicate InGrammar(template: string) {
    exists f: Forest :: f.WellFormed() && f.Print() == template
  }

  lemma SourceAtHead(m: Markup, rest: string)
    requires AllowedName(m.name)
    ensures AllowedTagAt(m.Source() + rest) == Some(m)
    ensures (m.Source() + rest)[|m.Source()|..] == rest
  {
    var s := m.Source() + rest;
    assert m.Source() <= s;
    assert s[1] == m.Source()[1] && s[2] == m.Source()[2];
    assert m.closing && m.name != "code" ==> m.Source()[2] == m.name[0];
  }

  lemma PlainAtHead(c: char, rest: string)
    requires c != '<'
    ensures AllowedTagAt([c] + rest) == None
    ensures ([c] + rest)[1..] == rest
  {
    assert ([c] + rest)[0] == c;
  }

  /** One step of both scans over an allowed tag. */
  lemma TagStep(m: Markup, rest: string)
    requires AllowedName(m.name)
    ensures Tags(m.Source() + rest) == [m] + Tags(rest)
    ensures Clean(m.Source() + rest) == Clean(rest)
  {
    SourceAtHead(m, rest);
  }

  /** One step of both scans over a character that starts no tag. */
  lemma CharStep(c: char, rest: string)
    requires c != '<'
    ensures Tags([c] + rest) == Tags(rest)
    ensures Clean([c] + rest) == (c != '>' && Clean(rest))
  {
    PlainAtHead(c, rest);
    var s := [c] + rest;
    assert WithoutAllowedTags(s) == [c] + WithoutAllowedTags(rest);
  }

  /** The head of clean text is an allowed tag or an ordinary character. */
  lemma {:induction false} CleanHead(s: string) returns (tag: Option<Markup>, rest: string)
    requires Clean(s) && s != ""
    ensures Clean(rest)
    ensures match tag
            case Some(m) => AllowedName(m.name) && s == m.Source() + rest && Tags(s) == [m] + Tags(rest)
            case None => s == [s[0]] + rest && s[0] != '<' && s[0] != '>' && Tags(s) == Tags(rest)
  {
    tag := AllowedTagAt(s);
    match tag
    case Some(m) => rest := s[|m.Source()|..];
    case None =>
      rest := s[1..];
      assert WithoutAllowedTags(s) == [s[0]] + WithoutAllowedTags(rest);
      assert s[0] in WithoutAllowedTags(s);
  }

  /** The scans read an element's two tags around what is inside and before what is behind. */
  lemma {:induction false} ElementReads(name: string, inner: Forest, more: Forest, rest: string)
    returns (s: string, x: string, y: string, z: string)
    requires AllowedName(name)
    ensures s == Element(name, inner, more).Print() + rest && x == inner.Print() + y && z == more.Print() + rest
    ensures Tags(s) == [Markup(false, name)] + Tags(x) && Clean(s) == Clean(x)
    ensures Tags(y) == [Markup(true, name)] + Tags(z) && Clean(y) == Clean(z)
  {
    PrintElementThen(name, inner, more, rest);
    z := more.Print() + rest;
    y := Markup(true, name).Source() + z;
    x := inner.Print() + y;
    s := Markup(false, name).Source() + x;
    TagStep(Markup(true, name), z);
    TagStep(Markup(false, name), x);
  }

  lemma BracketsRegroup(open: Markup, inner: seq<Markup>, close: Markup, more: seq<Markup>, rest: seq<Markup>)
    ensures [open] + (inner + ([close] + (more + rest))) == ([open] + (inner + ([close] + more))) + rest
  {
  }

  /** Scanning printed text finds exactly the brackets that were printed. */
  lemma {:induction false} PrintScans(f: Forest, rest: string)
    requires f.WellFormed()
    ensures Tags(f.Print() + rest) == f.Brackets() + Tags(rest)
    ensures Clean(f.Print() + rest) == Clean(rest)
  {
    match f
    case End =>
      assert f.Print() + rest == rest;
    case Text(c, more) =>
      PrintTextThen(c, more, rest);
      CharStep(c, more.Print() + rest);
      PrintScans(more, rest);
    case Element(name, inner, more) =>
      var s, x, y, z := ElementReads(name, inner, more, rest);
      PrintScans(inner, y);
      PrintScans(more, rest);
      BracketsRegroup(Markup(false, name), inner.Brackets(), Markup(true, name), more.Brackets(), Tags(rest));
  }

  /** The brackets of a forest leave the stack as they found it. */
  lemma {:induction false} BracketsBalance(f: Forest, open: seq<string>, more: seq<Markup>)
    ensures Balance(open, f.Brackets() + more) == Balance(open, more)
    decreases f
  {
    match f
    case End =>
      assert f.Brackets() + more == more;
    case Text(_, rest) =>
      BracketsBalance(rest, open, more);
    case Element(name, inner, rest) =>
      var after := [Markup(true, name)] + (rest.Brackets() + more);
      assert f.Brackets() + more == [Markup(false, name)] + (inner.Brackets() + after);
      BracketsBalance(inner, open + [name], after);
      assert (open + [name])[..|open|] == open;
      BracketsBalance(rest, open, more);
  }

  lemma PrintTextThen(c: char, rest: Forest, x: string)
    ensures Text(c, rest).Print() + x == [c] + (rest.Print() + x)
  {
  }

  lemma PrintElementThen(name: string, inner: Forest, rest: Forest, x: string)
    ensures Element(name, inner, rest).Print() + x
         == Markup(false, name).Source() + (inner.Print() + (Markup(true, name).Source() + (rest.Print() + x)))
  {
    var o, i, c, r := Markup(false, name).Source(), inner.Print(), Markup(true, name).Source(), rest.Print();
    assert (c + r) + x == c + (r + x);
    assert (i + (c + r)) + x == i + ((c + r) + x);
    assert (o + (i + (c + r))) + x == o + ((i + (c + r)) + x);
  }

  /** What is left of `s` behind the level that `open` puts the reader in. */
  function Behind(open: seq<string>, after: string): string {
    if open == [] then "" else Markup(true, open[|open| - 1]).Source() + after
  }

  /**
   Reads back the forest up to the closing tag of the innermost open element, or up to the
   end of the text when nothing is open.
   */
  lemma {:induction false} ParseLevel(s: string, open: seq<string>) returns (f: Forest, after: string)
    requires Clean(s)
    requires Balance(open, Tags(s)) == Valid
    ensures f.WellFormed() && Clean(after) && |after| <= |s|
    ensures s == f.Print() + Behind(open, after)
    ensures open != [] ==> Balance(open[..|open| - 1], Tags(after)) == Valid
    decreases |s|
  {
    if s == "" {
      return End, "";
    }
    var tag, rest := CleanHead(s);
    match tag
    case None =>
      var g, tail := ParseLevel(rest, open);
      PrintTextThen(s[0], g, Behind(open, tail));
      return Text(s[0], g), tail;
    case Some(m) =>
      if m.closing {
        return End, rest;
      }
      var inner, middle := ParseLevel(rest, open + [m.name]);
      assert (open + [m.name])[..|open|] == open;
      var g, tail := ParseLevel(middle, open);
      PrintElementThen(m.name, inner, g, Behind(open, tail));
      return Element(m.name, inner, g), tail;
  }

  /** The validator accepts exactly the balanced-bracket grammar. */
  lemma ValidatorAcceptsGrammar(template: string)
    ensures Validate(template) == Valid <==> InGrammar(template)
  {
    if Validate(template) == Valid {
      CleanTokensAreTags(template);
      var f, _ := ParseLevel(template, []);
      assert f.WellFormed() && f.Print() == template;
    }
    if InGrammar(template) {
      var f: Forest :| f.WellFormed() && f.Print() == template;
      assert f.Print() + "" == template;
      PrintScans(f, "");
      CleanTokensAreTags(template);
      assert f.Brackets() + [] == f.Brackets();
      BracketsBalance(f, [], []);
    }
  }

  /** `validateTrustedTemplate`: the stack loop, returning the error it would throw. */
  method ValidateTrustedTemplate(template: string) returns (verdict: Verdict)
    ensures verdict == Validate(template)
    ensures verdict == Valid <==> InGrammar(template)
  {
    ValidatorAcceptsGrammar(template);
    var withoutAllowedTags := WithoutAllowedTags(template);
    if '<' in withoutAllowedTags || '>' in withoutAllowedTags {
      return Disallowed;
    }
    var openTags: seq<string> := [];
    var tokens := Tokens(template);
    var i := 0;
    while i < |tokens|
      invariant 0 <= i <= |tokens|
      invariant Balance([], tokens) == Balance(openTags, tokens[i..])
    {
      var token := tokens[i];
      if token.closing {
        if openTags == [] || openTags[|openTags| - 1] != token.name {
          return UnmatchedClosing(token.name);
        }
        openTags := openTags[..|openTags| - 1];
      } else {
        openTags := openTags + [token.name];
      }
      i := i + 1;
    }
    if openTags != [] {
      return Unclosed(openTags[|openTags| - 1]);
    }
    return Valid;
  }

  // ----------------------------------------------------------------- rendering

  predicate WordChar(c: char) {
    'a' <= c <= 'z' || 'A' <= c <= 'Z' || '0' <= c <= '9' || c == '_'
  }

  function WordRun(s: string): (n: nat)
    ensures n <= |s|
    ensures forall i :: 0 <= i < n ==> WordChar(s[i])
    ensures n < |s| ==> !WordChar(s[n])
  {
    if s != "" && WordChar(s[0]) then 1 + WordRun(s[1..]) else 0
  }

  /** A match of `\{(\w+)\}` at the head of `s`: its key. */
  function HoleAt(s: string): (key: Option<string>)
    ensures key.Some? ==> "{" + key.value + "}" <= s && forall c :: c in key.value ==> WordChar(c)
  {
    if s == "" || s[0] != '{' then None
    else
      var n := WordRun(s[1..]);
      if n > 0 && 1 + n < |s| && s[1 + n] == '}' then
        assert s[1..1 + n] == s[1..][..n];
        Some(s[1..1 + n])
      else None
  }

  /** Letters, digits and underscores, as `\w` reads them. */
  predicate Word(key: string) {
    forall c :: c in key ==> 'a' <= c <= 'z' || 'A' <= c <= 'Z' || '0' <= c <= '9' || c == '_'
  }

  /** Exactly which texts begin with a placeholder, and which. */
  lemma HoleAtExactlyIf(t: string, key: string)
    ensures HoleAt(t) == Some(key) <==> key != "" && Word(key) && "{" + key + "}" <= t
  {
    if key != "" && Word(key) && "{" + key + "}" <= t {
      var rest := t[|key| + 2..];
      assert t == "{" + key + "}" + rest;
      HoleAtHead(key, rest);
    }
  }

  datatype RenderError = Rejected(verdict: Verdict) | MissingValue(key: string)

  type Rendered = Result<string, RenderError>

  function Prepend(prefix: string, r: Rendered): Rendered {
    match r
    case Ok(text) => Ok(prefix + text)
    case Err(_) => r
  }

  /** `template.replace(PLACEHOLDER_PATTERN, ...)`: one left-to-right pass. */
  function Fill(t: string, values: map<string, string>): Rendered {
    if t == "" then Ok("")
    else match HoleAt(t)
      case Some(key) =>
        if key !in values then Err(MissingValue(key))
        else Prepend(EscapeBotHtml(values[key]), Fill(t[|key| + 2..], values))
      case None => Prepend([t[0]], Fill(t[1..], values))
  }

  function RenderBotHtml(template: string, values: map<string, string>): Rendered {
    var verdict := Validate(template);
    if verdict != Valid then Err(Rejected(verdict)) else Fill(template, values)
  }

  /** Text without '<' in front of a scan adds no tags and no angular characters but its own. */
  lemma {:induction false} PlainPrefixScans(a: string, rest: string)
    requires '<' !in a && '>' !in a
    ensures Tags(a + rest) == Tags(rest)
    ensures Clean(a + rest) == Clean(rest)
  {
    if a == "" {
      assert a + rest == rest;
    } else {
      assert a + rest == [a[0]] + (a[1..] + rest);
      PlainAtHead(a[0], a[1..] + rest);
      PlainPrefixScans(a[1..], rest);
    }
  }

  lemma PrependTwice(a: string, b: string, r: Rendered)
    ensures Prepend(a, Prepend(b, r)) == Prepend(a + b, r)
  {
    match r
    case Ok(text) => assert a + (b + text) == (a + b) + text;
    case Err(_) =>
  }

  lemma PrependNothing(r: Rendered)
    ensures Prepend("", r) == r
  {
    match r
    case Ok(text) => assert "" + text == text;
    case Err(_) =>
  }

  /** What one step of the pass reads, and what it writes. */
  function ReadBy(hole: Option<string>, c: char): string {
    match hole
    case Some(key) => "{" + key + "}"
    case None => [c]
  }

  function WrittenFor(hole: Option<string>, c: char, values: map<string, string>): string
    requires hole.Some? ==> hole.value in values
  {
    match hole
    case Some(key) => EscapeBotHtml(values[key])
    case None => [c]
  }

  /** One step of the substitution pass. */
  lemma {:induction false} FillHead(t: string, values: map<string, string>) returns (hole: Option<string>, rest: string)
    requires t != "" && Fill(t, values).Ok?
    ensures Fill(rest, values).Ok? && |rest| < |t|
    ensures hole == HoleAt(t)
    ensures hole.Some? ==> hole.value in values && forall c :: c in hole.value ==> WordChar(c)
    ensures t == ReadBy(hole, t[0]) + rest
    ensures Fill(t, values) == Prepend(WrittenFor(hole, t[0], values), Fill(rest, values))
  {
    hole := HoleAt(t);
    rest := t[|ReadBy(hole, t[0])|..];
    assert t == t[..|ReadBy(hole, t[0])|] + rest;
  }

  /** Text without '{' is copied. */
  lemma {:induction false} PlainPrefixFills(a: string, rest: string, values: map<string, string>)
    requires '{' !in a
    ensures Fill(a + rest, values) == Prepend(a, Fill(rest, values))
  {
    if a == "" {
      assert a + rest == rest;
      PrependNothing(Fill(rest, values));
    } else {
      assert (a + rest)[1..] == a[1..] + rest;
      assert (a + rest)[0] == a[0];
      PlainPrefixFills(a[1..], rest, values);
      PrependTwice([a[0]], a[1..], Fill(rest, values));
      assert [a[0]] + a[1..] == a;
    }
  }

  /** A value or character without '<' and '>' put in front of text changes no tag. */
  lemma {:induction false} FillKeepsTags(t: string, values: map<string, string>)
    requires Clean(t) && Fill(t, values).Ok?
    ensures Tags(Fill(t, values).value) == Tags(t)
    ensures Clean(Fill(t, values).value)
    decreases |t|
  {
    if t == "" {
      return;
    }
    var tag, afterTag := CleanHead(t);
    match tag
    case Some(m) =>
      FillTagHead(m, afterTag, values);
      FillKeepsTags(afterTag, values);
    case None =>
      var hole, rest := FillPlainHead(t, values);
      FillKeepsTags(rest, values);
      PlainPrefixScans(WrittenFor(hole, t[0], values), Fill(rest, values).value);
  }

  /** A tag is copied, and the scans read it in front of whatever follows. */
  lemma FillTagHead(m: Markup, rest: string, values: map<string, string>)
    requires AllowedName(m.name) && Fill(m.Source() + rest, values).Ok?
    ensures Fill(rest, values).Ok?
    ensures var filled := Fill(m.Source() + rest, values).value;
            Tags(filled) == [m] + Tags(Fill(rest, values).value) && Clean(filled) == Clean(Fill(rest, values).value)
  {
    assert '{' !in m.Source();
    PlainPrefixFills(m.Source(), rest, values);
    TagStep(m, Fill(rest, values).value);
  }

  /** A step that reads no tag reads and writes nothing that the scans would see. */
  lemma {:induction false} FillPlainHead(t: string, values: map<string, string>)
    returns (hole: Option<string>, rest: string)
    requires t != "" && t[0] != '<' && t[0] != '>' && Fill(t, values).Ok?
    ensures |rest| < |t| && Fill(rest, values).Ok? && (hole.Some? ==> hole.value in values)
    ensures Fill(t, values) == Prepend(WrittenFor(hole, t[0], values), Fill(rest, values))
    ensures '<' !in WrittenFor(hole, t[0], values) && '>' !in WrittenFor(hole, t[0], values)
    ensures Tags(t) == Tags(rest) && Clean(t) == Clean(rest)
  {
    hole, rest := FillHead(t, values);
    PlainHole(hole, t[0], values);
    PlainPrefixScans(ReadBy(hole, t[0]), rest);
  }

  lemma PlainHole(hole: Option<string>, c: char, values: map<string, string>)
    requires match hole
             case Some(key) => key in values && forall c :: c in key ==> WordChar(c)
             case None => c != '<' && c != '>'
    ensures '<' !in ReadBy(hole, c) && '>' !in ReadBy(hole, c)
    ensures '<' !in WrittenFor(hole, c, values) && '>' !in WrittenFor(hole, c, values)
  {
    if hole.Some? {
      EscapedHasNoMarkup(values[hole.value]);
    }
  }

  /**
   Values cannot add, drop or reorder markup: whatever they are, the rendered text is itself
   in the grammar and has exactly the template's tags.
   */
  lemma RenderPreservesStructure(template: string, values: map<string, string>)
    requires RenderBotHtml(template, values).Ok?
    ensures var out := RenderBotHtml(template, values).value;
            Validate(out) == Valid && InGrammar(out) && Tags(out) == Tags(template)
  {
    var out := RenderBotHtml(template, values).value;
    CleanTokensAreTags(template);
    FillKeepsTags(template, values);
    CleanTokensAreTags(out);
    ValidatorAcceptsGrammar(out);
  }

  /** The placeholder keys of a template, in order. */
  function Holes(t: string): seq<string> {
    if t == "" then []
    else match HoleAt(t)
      case Some(key) => [key] + Holes(t[|key| + 2..])
      case None => Holes(t[1..])
  }

  /** Everything before position `i` has a value, and the key there has none. */
  predicate FirstMissing(keys: seq<string>, values: map<string, string>, i: int) {
    0 <= i < |keys| && keys[i] !in values && forall j :: 0 <= j < i ==> keys[j] in values
  }

  /** Success means that no key lacks a value, failure names the first that does. */
  ghost predicate Explains(r: Rendered, keys: seq<string>, values: map<string, string>) {
    match r
    case Ok(_) => forall k :: k in keys ==> k in values
    case Err(e) => exists i :: FirstMissing(keys, values, i) && e == MissingValue(keys[i])
  }

  lemma HoleExplains(written: string, r: Rendered, key: string, keys: seq<string>, values: map<string, string>)
    requires key in values && Explains(r, keys, values)
    ensures Explains(Prepend(written, r), [key] + keys, values)
  {
    if r.Err? {
      var i :| FirstMissing(keys, values, i) && r.error == MissingValue(keys[i]);
      assert ([key] + keys)[i + 1] == keys[i];
      assert FirstMissing([key] + keys, values, i + 1);
    }
  }

  /** Substitution fails exactly on the first placeholder that has no value. */
  lemma {:induction false} FillFailsOnFirstMissing(t: string, values: map<string, string>)
    ensures Explains(Fill(t, values), Holes(t), values)
    decreases |t|
  {
    if t != "" {
      match HoleAt(t)
      case None => FillFailsOnFirstMissing(t[1..], values);
      case Some(key) =>
        var more := t[|key| + 2..];
        assert Holes(t) == [key] + Holes(more);
        if key in values {
          FillFailsOnFirstMissing(more, values);
          HoleExplains(EscapeBotHtml(values[key]), Fill(more, values), key, Holes(more), values);
        } else {
          assert FirstMissing(Holes(t), values, 0);
        }
    }
  }

  /** Rendering succeeds exactly when the template is in the grammar and every placeholder has a value. */
  lemma RenderSucceedsExactly(template: string, values: map<string, string>)
    ensures RenderBotHtml(template, values).Ok? <==>
            InGrammar(template) && forall k :: k in Holes(template) ==> k in values
  {
    ValidatorAcceptsGrammar(template);
    FillFailsOnFirstMissing(template, values);
  }

  /** A hole starts with the only '{' it contains, so no earlier text can capture part of one. */
  lemma HoleAtSplit(a: string, rest: string)
    requires a != "" && rest != "" && rest[0] == '{'
    ensures HoleAt(a + rest) == HoleAt(a)
  {
    var s := a + rest;
    assert s[0] == a[0];
    if a[0] == '{' {
      WordRunSplit(a[1..], rest);
      assert s[1..] == a[1..] + rest;
      var n := WordRun(a[1..]);
      if 1 + n < |a| {
        assert s[1 + n] == a[1 + n];
        assert s[1..1 + n] == a[1..1 + n];
      } else {
        assert s[1 + n] == rest[0];
      }
    }
  }

  lemma {:induction false} WordRunSplit(a: string, rest: string)
    requires rest != "" && !WordChar(rest[0])
    ensures WordRun(a + rest) == WordRun(a)
  {
    if a == "" {
      assert a + rest == rest;
    } else {
      assert (a + rest)[0] == a[0];
      assert (a + rest)[1..] == a[1..] + rest;
      WordRunSplit(a[1..], rest);
    }
  }

  lemma HoleAtHead(key: string, b: string)
    requires key != "" && forall c :: c in key ==> WordChar(c)
    ensures HoleAt("{" + key + "}" + b) == Some(key)
    ensures ("{" + key + "}" + b)[|key| + 2..] == b
  {
    var s := "{" + key + "}" + b;
    assert s[1..] == key + ("}" + b);
    WordRunSplit(key, "}" + b);
    assert s[1..1 + |key|] == key;
  }

  lemma TextBehind(a: string, read: string, rest: string, hole: string)
    requires a == read + rest && a != ""
    ensures (a + hole)[|read|..] == rest + hole && (a + hole)[0] == a[0]
  {
  }

  /** The first step over `a` is the same when a placeholder follows. */
  lemma {:induction false} FillHeadBefore(a: string, hole: string, values: map<string, string>)
    returns (head: Option<string>, rest: string)
    requires a != "" && Fill(a, values).Ok? && hole != "" && hole[0] == '{'
    ensures |rest| < |a| && Fill(rest, values).Ok? && (head.Some? ==> head.value in values)
    ensures Fill(a, values) == Prepend(WrittenFor(head, a[0], values), Fill(rest, values))
    ensures Fill(a + hole, values) == Prepend(WrittenFor(head, a[0], values), Fill(rest + hole, values))
  {
    head, rest := FillHead(a, values);
    HoleAtSplit(a, hole);
    TextBehind(a, ReadBy(head, a[0]), rest, hole);
  }

  /**
   Substitution works hole by hole: in any surroundings a placeholder becomes its escaped
   value, and the value's own text, braces included, is never read again.
   */
  lemma {:induction false} HoleFillsInPlace(a: string, key: string, b: string, values: map<string, string>)
    requires key != "" && Word(key)
    requires key in values
    requires Fill(a, values).Ok?
    ensures Fill(a + ("{" + key + "}" + b), values)
         == Prepend(Fill(a, values).value, Prepend(EscapeBotHtml(values[key]), Fill(b, values)))
    decreases |a|
  {
    var hole := "{" + key + "}" + b;
    var tail := Prepend(EscapeBotHtml(values[key]), Fill(b, values));
    if a == "" {
      assert a + hole == hole;
      HoleAtHead(key, b);
      PrependNothing(tail);
    } else {
      var head, rest := FillHeadBefore(a, hole, values);
      HoleFillsInPlace(rest, key, b, values);
      PrependTwice(WrittenFor(head, a[0], values), Fill(rest, values).value, tail);
    }
  }

}
