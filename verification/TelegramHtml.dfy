/** The printer that turns the assistant's text into Telegram HTML, and the splitting of long texts
    into messages (telegramHTML and send in internal/secretary/telegram.go). */
module TelegramHtml {

  const MAX_MESSAGE_RUNES := 3500

  // ----- library functions -----

  predicate StarsAt(s: string, i: nat) {
    i + 2 <= |s| && s[i] == '*' && s[i + 1] == '*'
  }

  /** Where the first "**" at or after `from` is, or -1. */
  function IndexStarsFrom(s: string, from: nat): (i: int)
    ensures i == -1 || (from <= i && StarsAt(s, i))
    decreases |s| - from
  {
    if from + 2 > |s| then -1 else if StarsAt(s, from) then from else IndexStarsFrom(s, from + 1)
  }

  function IndexStars(s: string): (i: int)
    ensures i == -1 || (0 <= i && StarsAt(s, i))
  {
    IndexStarsFrom(s, 0)
  }

  lemma {:induction false} IndexFromIsFirst(s: string, from: nat, j: nat)
    requires from <= j && StarsAt(s, j)
    ensures 0 <= IndexStarsFrom(s, from) <= j
    decreases j - from
  {
    if !StarsAt(s, from) {
      IndexFromIsFirst(s, from + 1, j);
    }
  }

  /** Nothing before the index is a "**". */
  lemma IndexIsFirst(s: string, j: nat)
    requires StarsAt(s, j)
    ensures 0 <= IndexStars(s) <= j
  {
    IndexFromIsFirst(s, 0, j);
  }

  function EscapeChar(c: char): string {
    if c == '&' then "&amp;"
    else if c == '\'' then "&#39;"
    else if c == '<' then "&lt;"
    else if c == '>' then "&gt;"
    else if c == '\"' then "&#34;"
    else [c]
  }

  function Escape(s: string): string {
    if s == "" then "" else EscapeChar(s[0]) + Escape(s[1..])
  }

  // ----- Telegram HTML as tokens -----

  /** What Telegram reads: bold tags, characters (some written as entities), and anything else. */
  datatype Token = Open | Close | Char(c: char) | Bad

  function Code(token: Token): string {
    match token
    case Open => "<b>"
    case Close => "</b>"
    case Char(c) => EscapeChar(c)
    case Bad => "<"
  }

  function Print(tokens: seq<Token>): string {
    if tokens == [] then "" else Code(tokens[0]) + Print(tokens[1..])
  }

  function Entity(html: string): (Token, nat) {
    if "&amp;" <= html then (Char('&'), 5)
    else if "&#39;" <= html then (Char('\''), 5)
    else if "&lt;" <= html then (Char('<'), 4)
    else if "&gt;" <= html then (Char('>'), 4)
    else if "&#34;" <= html then (Char('\"'), 5)
    else (Bad, 1)
  }

  /** The first token of a piece of HTML, and how long it is. */
  function Head(html: string): (r: (Token, nat))
    requires html != ""
    ensures 0 < r.1 <= |html|
  {
    if html[0] == '<' then
      if "<b>" <= html then (Open, 3) else if "</b>" <= html then (Close, 4) else (Bad, 1)
    else if html[0] == '&' then Entity(html)
    else if html[0] in ">'\"" then (Bad, 1)
    else (Char(html[0]), 1)
  }

  function Lex(html: string): seq<Token>
    decreases |html|
  {
    if html == "" then [] else [Head(html).0] + Lex(html[Head(html).1..])
  }

  /** The text that tokens stand for; a bold tag stands for the "**" it came from. */
  function Meaning(tokens: seq<Token>): string {
    if tokens == [] then ""
    else
      var rest := Meaning(tokens[1..]);
      match tokens[0]
      case Open => "**" + rest
      case Close => "**" + rest
      case Char(c) => [c] + rest
      case Bad => rest
  }

  /** Bold tags open and close in turn, none is left open, and nothing else looks like markup.
      `open` says whether a bold tag is open at the start. */
  predicate Balanced(tokens: seq<Token>, open: bool) {
    if tokens == [] then !open
    else
      match tokens[0]
      case Open => !open && Balanced(tokens[1..], true)
      case Close => open && Balanced(tokens[1..], false)
      case Char(_) => Balanced(tokens[1..], open)
      case Bad => false
  }

  /** What the reader of a message sees as text, and what Telegram accepts. */
  function Decode(html: string): string {
    Meaning(Lex(html))
  }

  predicate WellFormed(html: string) {
    Balanced(Lex(html), false)
  }

  function Chars(s: string): seq<Token> {
    if s == "" then [] else [Char(s[0])] + Chars(s[1..])
  }

  // ----- the printer -----

  function LiteralStars(plain: string, rest: seq<Token>): seq<Token> {
    Chars(plain) + ([Char('*')] + ([Char('*')] + rest))
  }

  function BoldText(plain: string, bold: string, rest: seq<Token>): seq<Token> {
    Chars(plain) + ([Open] + (Chars(bold) + ([Close] + rest)))
  }

  /** A text as the printer takes it apart: plain text up to a "**" that stays as it is, plain text
      and a bold span, or a last piece of plain text. */
  datatype Doc = End(plain: string) | Literal(plain: string, rest: Doc) | Bold(plain: string, bold: string, rest: Doc)
  {
    function Source(): string {
      match this
      case End(plain) => plain
      case Literal(plain, rest) => plain + ("**" + rest.Source())
      case Bold(plain, bold, rest) => plain + ("**" + (bold + ("**" + rest.Source())))
    }

    function Tokens(): seq<Token> {
      match this
      case End(plain) => Chars(plain)
      case Literal(plain, rest) => LiteralStars(plain, rest.Tokens())
      case Bold(plain, bold, rest) => BoldText(plain, bold, rest.Tokens())
    }

    predicate ShowsBold() {
      Bold? || (Literal? && rest.ShowsBold())
    }
  }

  /** A "**" with another one after it, and at least one character between, starts a bold span. */
  function Parse(text: string): Doc
    decreases |text|
  {
    var start := IndexStars(text);
    if start < 0 then End(text)
    else
      var afterStart := text[start + 2..];
      var end := IndexStars(afterStart);
      if end <= 0 then Literal(text[..start], Parse(afterStart))
      else Bold(text[..start], afterStart[..end], Parse(afterStart[end + 2..]))
  }

  function Render(text: string): string {
    Print(Parse(text).Tokens())
  }

  method TelegramHtml(input: string) returns (out: string)
    ensures out == Render(input)
  {
    hide Escape, Render;
    var text := input;
    out := "";
    while |text| > 0
      invariant out + Render(text) == Render(input)
      decreases |text|
    {
      var start := IndexStars(text);
      if start < 0 {
        RenderPlain(text);
        out := out + Escape(text);
        return;
      }
      ghost var before := out;
      RenderStep(text, start);
      var plain := Escape(text[..start]);
      out := out + plain;
      var afterStart := text[start + 2..];
      var end := IndexStars(afterStart);
      if end <= 0 {
        Appended(before, plain, "**", Render(afterStart));
        out := out + "**";
        text := afterStart;
        continue;
      }
      var bold := Escape(afterStart[..end]);
      ghost var rest := Render(afterStart[end + 2..]);
      Appended(before, plain, "<b>", bold + ("</b>" + rest));
      Appended(before + plain + "<b>", bold, "</b>", rest);
      out := out + "<b>";
      out := out + bold;
      out := out + "</b>";
      text := afterStart[end + 2..];
    }
    RenderPlain("");
    assert out + "" == out;
  }

  lemma RenderPlain(text: string)
    requires IndexStars(text) < 0
    ensures Render(text) == Escape(text) && (text == "" ==> Render(text) == "")
  {
    PrintChars(text);
  }

  lemma RenderStep(text: string, start: nat)
    requires IndexStars(text) == start
    ensures var plain, afterStart := Escape(text[..start]), text[start + 2..];
      var end := IndexStars(afterStart);
      Render(text) ==
        if end <= 0 then plain + ("**" + Render(afterStart))
        else plain + ("<b>" + (Escape(afterStart[..end]) + ("</b>" + Render(afterStart[end + 2..]))))
  {
    var afterStart := text[start + 2..];
    var end := IndexStars(afterStart);
    if end <= 0 {
      PrintLiteral(text[..start], Parse(afterStart).Tokens());
    } else {
      PrintBold(text[..start], afterStart[..end], Parse(afterStart[end + 2..]).Tokens());
    }
  }

  lemma Appended(before: string, a: string, b: string, rest: string)
    ensures before + (a + (b + rest)) == before + a + b + rest
  {
  }

  lemma {:induction false} PrintConcat(a: seq<Token>, b: seq<Token>)
    ensures Print(a + b) == Print(a) + Print(b)
  {
    if a == [] {
      assert a + b == b;
    } else {
      assert (a + b)[1..] == a[1..] + b;
      PrintConcat(a[1..], b);
    }
  }

  lemma {:induction false} PrintChars(s: string)
    ensures Print(Chars(s)) == Escape(s)
  {
    if s != "" {
      assert Chars(s)[1..] == Chars(s[1..]);
      PrintChars(s[1..]);
    }
  }

  lemma PrintOne(token: Token, rest: seq<Token>)
    ensures Print([token] + rest) == Code(token) + Print(rest)
  {
    assert ([token] + rest)[1..] == rest;
  }

  lemma PrintLiteral(plain: string, rest: seq<Token>)
    ensures Print(LiteralStars(plain, rest)) == Escape(plain) + ("**" + Print(rest))
  {
    var tail := [Char('*')] + rest;
    PrintOne(Char('*'), rest);
    PrintOne(Char('*'), tail);
    PrintConcat(Chars(plain), [Char('*')] + tail);
    PrintChars(plain);
    TwoStars(Print(rest));
  }

  lemma TwoStars(rest: string)
    ensures "*" + ("*" + rest) == "**" + rest
  {
  }

  lemma PrintBold(plain: string, bold: string, rest: seq<Token>)
    ensures Print(BoldText(plain, bold, rest)) == Escape(plain) + ("<b>" + (Escape(bold) + ("</b>" + Print(rest))))
  {
    var tail := [Close] + rest;
    PrintOne(Close, rest);
    PrintConcat(Chars(bold), tail);
    PrintChars(bold);
    PrintOne(Open, Chars(bold) + tail);
    PrintConcat(Chars(plain), [Open] + (Chars(bold) + tail));
    PrintChars(plain);
  }

  // ----- the output reads back -----

  lemma LexOne(token: Token, rest: string)
    requires token != Bad
    ensures Lex(Code(token) + rest) == [token] + Lex(rest)
  {
    var code := Code(token);
    var html := code + rest;
    assert html[..|code|] == code && html[|code|..] == rest;
    assert code[0] == html[0];
    HeadOfCode(token, rest);
  }

  lemma HeadOfCode(token: Token, rest: string)
    requires token != Bad
    ensures Head(Code(token) + rest) == (token, |Code(token)|)
  {
    var html := Code(token) + rest;
    if token == Char('&') || token == Char('\'') || token == Char('<') || token == Char('>') || token == Char('\"') {
      assert html[0] == '&' && html[1] == Code(token)[1] && html[2] == Code(token)[2] && html[3] == Code(token)[3];
    } else if token.Char? {
      assert html[0] == token.c;
    } else {
      assert html[1] == Code(token)[1];
    }
  }

  lemma {:induction false} LexOfPrint(tokens: seq<Token>)
    requires Bad !in tokens
    ensures Lex(Print(tokens)) == tokens
  {
    if tokens != [] {
      LexOne(tokens[0], Print(tokens[1..]));
      LexOfPrint(tokens[1..]);
    }
  }

  /** Characters say what they are, and neither open nor close anything. */
  lemma {:induction false} CharsMean(s: string, rest: seq<Token>, open: bool)
    ensures Meaning(Chars(s) + rest) == s + Meaning(rest)
    ensures Balanced(Chars(s) + rest, open) == Balanced(rest, open)
  {
    if s == "" {
      assert Chars(s) + rest == rest;
      assert s + Meaning(rest) == Meaning(rest);
    } else {
      CharsMean(s[1..], rest, open);
      var tail := Chars(s[1..]) + rest;
      assert Chars(s) + rest == [Char(s[0])] + tail;
      OneMeans(Char(s[0]), tail, open);
      assert [s[0]] + (s[1..] + Meaning(rest)) == s + Meaning(rest) by { assert s == [s[0]] + s[1..]; }
    }
  }

  lemma OneMeans(token: Token, rest: seq<Token>, open: bool)
    requires token != Bad
    ensures Meaning([token] + rest) == (if token.Char? then [token.c] else "**") + Meaning(rest)
    ensures Balanced([token] + rest, open) ==
              match token
              case Open => !open && Balanced(rest, true)
              case Close => open && Balanced(rest, false)
              case Char(_) => Balanced(rest, open)
  {
    assert ([token] + rest)[1..] == rest;
  }

  lemma {:induction false} NoBadChars(s: string)
    ensures Bad !in Chars(s)
  {
    if s != "" {
      NoBadChars(s[1..]);
    }
  }

  lemma SplitAtStars(text: string, i: nat)
    requires StarsAt(text, i)
    ensures text == text[..i] + ("**" + text[i + 2..])
  {
  }

  lemma LiteralMeans(plain: string, rest: seq<Token>)
    ensures Meaning(LiteralStars(plain, rest)) == plain + ("**" + Meaning(rest))
    ensures Balanced(LiteralStars(plain, rest), false) == Balanced(rest, false)
    ensures Bad in LiteralStars(plain, rest) ==> Bad in rest
  {
    var tail := [Char('*')] + rest;
    OneMeans(Char('*'), rest, false);
    OneMeans(Char('*'), tail, false);
    CharsMean(plain, [Char('*')] + tail, false);
    NoBadChars(plain);
  }

  lemma BoldMeans(plain: string, bold: string, rest: seq<Token>)
    ensures Meaning(BoldText(plain, bold, rest)) == plain + ("**" + (bold + ("**" + Meaning(rest))))
    ensures Balanced(BoldText(plain, bold, rest), false) == Balanced(rest, false)
    ensures Bad in BoldText(plain, bold, rest) ==> Bad in rest
  {
    var tail := [Close] + rest;
    OneMeans(Close, rest, true);
    CharsMean(bold, tail, true);
    OneMeans(Open, Chars(bold) + tail, false);
    CharsMean(plain, [Open] + (Chars(bold) + tail), false);
    NoBadChars(plain);
    NoBadChars(bold);
  }

  lemma {:induction false} DocMeans(doc: Doc)
    ensures Meaning(doc.Tokens()) == doc.Source()
    ensures Balanced(doc.Tokens(), false) && Bad !in doc.Tokens()
  {
    match doc
    case End(plain) =>
      CharsMean(plain, [], false);
      NoBadChars(plain);
      assert Chars(plain) + [] == Chars(plain);
      assert plain + "" == plain;
    case Literal(plain, rest) =>
      DocMeans(rest);
      LiteralMeans(plain, rest.Tokens());
    case Bold(plain, bold, rest) =>
      DocMeans(rest);
      BoldMeans(plain, bold, rest.Tokens());
  }

  lemma LiteralSource(text: string, start: nat, rest: Doc)
    requires StarsAt(text, start) && rest.Source() == text[start + 2..]
    ensures Literal(text[..start], rest).Source() == text
  {
    SplitAtStars(text, start);
  }

  lemma BoldSource(text: string, start: nat, end: nat, rest: Doc)
    requires StarsAt(text, start) && StarsAt(text[start + 2..], end) && rest.Source() == text[start + 2..][end + 2..]
    ensures Bold(text[..start], text[start + 2..][..end], rest).Source() == text
  {
    SplitAtStars(text, start);
    SplitAtStars(text[start + 2..], end);
  }

  lemma {:induction false} ParseKeepsText(text: string)
    ensures Parse(text).Source() == text
    decreases |text|
  {
    var start := IndexStars(text);
    if start >= 0 {
      var afterStart := text[start + 2..];
      var end := IndexStars(afterStart);
      if end <= 0 {
        ParseKeepsText(afterStart);
        LiteralSource(text, start, Parse(afterStart));
        assert Parse(text) == Literal(text[..start], Parse(afterStart));
      } else {
        var rest := afterStart[end + 2..];
        ParseKeepsText(rest);
        BoldSource(text, start, end, Parse(rest));
        assert Parse(text) == Bold(text[..start], afterStart[..end], Parse(rest));
      }
    }
  }

  lemma LexOfRender(text: string)
    ensures Lex(Render(text)) == Parse(text).Tokens()
  {
    DocMeans(Parse(text));
    LexOfPrint(Parse(text).Tokens());
  }

  /** The output loses nothing of the text, and is markup that Telegram accepts: whatever the text,
      the only tags in it are bold tags that are balanced and not nested. */
  lemma RoundTrip(text: string)
    ensures Decode(Render(text)) == text && WellFormed(Render(text))
  {
    LexOfRender(text);
    DocMeans(Parse(text));
    ParseKeepsText(text);
  }

  // ----- which texts show bold -----

  /** A "**", some character that is no star, and a "**" again. */
  ghost predicate BoldSpan(text: string, i: nat, k: nat, j: nat) {
    StarsAt(text, i) && i + 2 <= k < j && StarsAt(text, j) && text[k] != '*'
  }

  ghost predicate HasBoldSpan(text: string) {
    exists i: nat, k: nat, j: nat :: BoldSpan(text, i, k, j)
  }

  lemma {:induction false} CharsHaveNoTag(s: string)
    ensures Open !in Chars(s)
  {
    if s != "" {
      CharsHaveNoTag(s[1..]);
    }
  }

  lemma ShiftedStars(text: string, shift: nat, i: nat)
    requires shift <= |text|
    ensures StarsAt(text[shift..], i) <==> StarsAt(text, i + shift)
  {
  }

  /** When the first "**" is not followed by bold text, any span lies after it. */
  lemma SpanMovesOn(text: string, start: nat, i: nat, k: nat, j: nat)
    requires IndexStars(text) == start && BoldSpan(text, i, k, j) && IndexStars(text[start + 2..]) <= 0
    ensures HasBoldSpan(text[start + 2..])
  {
    var rest := text[start + 2..];
    IndexIsFirst(text, i);
    ShiftedStars(text, start + 2, j - start - 2);
    IndexIsFirst(rest, j - start - 2);
    ShiftedStars(text, start + 2, 0);
    assert BoldSpan(rest, 0, k - start - 2, j - start - 2);
  }

  lemma SpanAtFront(text: string, start: nat, end: nat)
    requires IndexStars(text) == start && IndexStars(text[start + 2..]) == end > 0
    ensures HasBoldSpan(text)
  {
    var rest := text[start + 2..];
    if StarsAt(rest, 0) {
      IndexIsFirst(rest, 0);
    }
    ShiftedStars(text, start + 2, end);
    if rest[0] != '*' {
      assert BoldSpan(text, start, start + 2, start + 2 + end);
    } else {
      assert BoldSpan(text, start, start + 3, start + 2 + end);
    }
  }

  lemma {:induction false} OpenIffShowsBold(doc: Doc)
    ensures Open in doc.Tokens() <==> doc.ShowsBold()
  {
    CharsHaveNoTag(doc.plain);
    match doc
    case End(_) =>
    case Literal(_, rest) =>
      OpenIffShowsBold(rest);
    case Bold(plain, bold, rest) =>
      assert doc.Tokens()[|Chars(plain)|] == Open;
  }

  lemma SpansAfterLiteral(text: string, start: nat)
    requires IndexStars(text) == start && IndexStars(text[start + 2..]) <= 0
    ensures HasBoldSpan(text) <==> HasBoldSpan(text[start + 2..])
  {
    var after := text[start + 2..];
    if i: nat, k: nat, j: nat :| BoldSpan(after, i, k, j) {
      ShiftedStars(text, start + 2, i);
      ShiftedStars(text, start + 2, j);
      assert BoldSpan(text, i + start + 2, k + start + 2, j + start + 2);
    }
    if i: nat, k: nat, j: nat :| BoldSpan(text, i, k, j) {
      SpanMovesOn(text, start, i, k, j);
    }
  }

  lemma NoStarsNoSpan(text: string)
    requires IndexStars(text) < 0
    ensures !HasBoldSpan(text)
  {
    if i: nat, k: nat, j: nat :| BoldSpan(text, i, k, j) {
      IndexIsFirst(text, i);
    }
  }

  lemma {:induction false} ShowsBoldIffSpan(text: string)
    ensures Parse(text).ShowsBold() <==> HasBoldSpan(text)
    decreases |text|
  {
    var start := IndexStars(text);
    if start < 0 {
      NoStarsNoSpan(text);
    } else {
      var afterStart := text[start + 2..];
      var end := IndexStars(afterStart);
      if end > 0 {
        SpanAtFront(text, start, end);
      } else {
        SpansAfterLiteral(text, start);
        ShowsBoldIffSpan(afterStart);
        assert Parse(text) == Literal(text[..start], Parse(afterStart));
      }
    }
  }

  /** The output has bold in it just when the text has a pair of "**" with more than stars between. */
  lemma BoldIffSpan(text: string)
    ensures Open in Lex(Render(text)) <==> HasBoldSpan(text)
  {
    LexOfRender(text);
    OpenIffShowsBold(Parse(text));
    ShowsBoldIffSpan(text);
  }

  // ----- how far a bold span reaches -----

  /** Where a reader is: outside bold, just after an opening tag, or in bold after `last`. */
  datatype Mode = Outside | Opened | After(last: char)

  /** No bold span is empty, and none runs over a "**": each ends at the first one after it. */
  predicate Tight(tokens: seq<Token>, mode: Mode) {
    if tokens == [] then true
    else
      match tokens[0]
      case Open => Tight(tokens[1..], Opened)
      case Close => mode != Opened && Tight(tokens[1..], Outside)
      case Char(c) =>
        !(c == '*' && mode == After('*')) && Tight(tokens[1..], if mode == Outside then Outside else After(c))
      case Bad => false
  }

  lemma {:induction false} PlainIsTight(s: string, rest: seq<Token>)
    ensures Tight(Chars(s) + rest, Outside) == Tight(rest, Outside)
  {
    if s == "" {
      assert Chars(s) + rest == rest;
    } else {
      PlainIsTight(s[1..], rest);
      var tail := Chars(s[1..]) + rest;
      assert Chars(s) + rest == [Char(s[0])] + tail && ([Char(s[0])] + tail)[1..] == tail;
    }
  }

  lemma CharsStep(s: string, more: seq<Token>, mode: Mode)
    requires s != "" && mode != Outside && !(s[0] == '*' && mode == After('*'))
    ensures Tight(Chars(s) + more, mode) == Tight(Chars(s[1..]) + more, After(s[0]))
  {
    assert (Chars(s) + more)[1..] == Chars(s[1..]) + more;
  }

  lemma TailHasNoStars(s: string)
    requires IndexStars(s) < 0 && s != ""
    ensures IndexStars(s[1..]) < 0 && (|s| > 1 ==> !(s[0] == '*' && s[1] == '*'))
  {
    var i := IndexStars(s[1..]);
    if i >= 0 {
      ShiftedStars(s, 1, i);
      IndexIsFirst(s, i + 1);
    }
    if StarsAt(s, 0) {
      IndexIsFirst(s, 0);
    }
  }

  lemma {:induction false} BoldIsTight(s: string, rest: seq<Token>, mode: Mode)
    requires IndexStars(s) < 0 && mode != Outside && (mode == Opened ==> s != "")
    requires mode == After('*') && s != "" ==> s[0] != '*'
    ensures Tight(Chars(s) + ([Close] + rest), mode) == Tight(rest, Outside)
  {
    if s == "" {
      assert Chars(s) + ([Close] + rest) == [Close] + rest && ([Close] + rest)[1..] == rest;
    } else {
      hide Chars, Tight, IndexStars;
      TailHasNoStars(s);
      BoldIsTight(s[1..], rest, After(s[0]));
      CharsStep(s, [Close] + rest, mode);
    }
  }

  lemma NoStarsBeforeFirst(s: string, end: nat)
    requires IndexStars(s) == end
    ensures end <= |s| && IndexStars(s[..end]) < 0
  {
    var i := IndexStars(s[..end]);
    if i >= 0 {
      assert StarsAt(s, i);
      IndexIsFirst(s, i);
    }
  }

  lemma LiteralIsTight(plain: string, rest: seq<Token>)
    ensures Tight(LiteralStars(plain, rest), Outside) == Tight(rest, Outside)
  {
    var tail := [Char('*')] + rest;
    assert tail[1..] == rest && ([Char('*')] + tail)[1..] == tail;
    PlainIsTight(plain, [Char('*')] + tail);
  }

  lemma BoldTextIsTight(plain: string, bold: string, rest: seq<Token>)
    requires IndexStars(bold) < 0 && bold != ""
    ensures Tight(BoldText(plain, bold, rest), Outside) == Tight(rest, Outside)
  {
    var tail := Chars(bold) + ([Close] + rest);
    assert ([Open] + tail)[1..] == tail;
    BoldIsTight(bold, rest, Opened);
    PlainIsTight(plain, [Open] + tail);
  }

  ghost predicate TightDoc(doc: Doc) {
    match doc
    case End(_) => true
    case Literal(_, rest) => TightDoc(rest)
    case Bold(_, bold, rest) => bold != "" && IndexStars(bold) < 0 && TightDoc(rest)
  }

  lemma {:induction false} TightTokens(doc: Doc)
    requires TightDoc(doc)
    ensures Tight(doc.Tokens(), Outside)
  {
    match doc
    case End(plain) =>
      PlainIsTight(plain, []);
      assert Chars(plain) + [] == Chars(plain);
    case Literal(plain, rest) =>
      TightTokens(rest);
      LiteralIsTight(plain, rest.Tokens());
    case Bold(plain, bold, rest) =>
      TightTokens(rest);
      BoldTextIsTight(plain, bold, rest.Tokens());
  }

  lemma {:induction false} ParseIsTight(text: string)
    ensures TightDoc(Parse(text))
    decreases |text|
  {
    var start := IndexStars(text);
    if start >= 0 {
      var afterStart := text[start + 2..];
      var end := IndexStars(afterStart);
      if end <= 0 {
        ParseIsTight(afterStart);
      } else {
        NoStarsBeforeFirst(afterStart, end);
        ParseIsTight(afterStart[end + 2..]);
      }
    }
  }

  /** In the output every bold span holds some text, and ends at the first "**" after its start. */
  lemma BoldSpansAreTight(text: string)
    ensures Tight(Lex(Render(text)), Outside)
  {
    LexOfRender(text);
    ParseIsTight(text);
    TightTokens(Parse(text));
  }

  // ----- long texts -----

  function Concat(parts: seq<string>): string {
    if parts == [] then "" else parts[0] + Concat(parts[1..])
  }

  function Pieces(runes: string): seq<string>
    decreases |runes|
  {
    if runes == "" then []
    else
      var n := if |runes| > MAX_MESSAGE_RUNES then MAX_MESSAGE_RUNES else |runes|;
      [runes[..n]] + Pieces(runes[n..])
  }

  function RenderAll(pieces: seq<string>): (messages: seq<string>)
    ensures |messages| == |pieces|
  {
    if pieces == [] then [] else [Render(pieces[0])] + RenderAll(pieces[1..])
  }

  function DecodeAll(messages: seq<string>): seq<string> {
    if messages == [] then [] else [Decode(messages[0])] + DecodeAll(messages[1..])
  }

  /** Every message fits Telegram's limit, every one but the last is full, and together they are the text. */
  lemma {:induction false} PiecesArePartition(runes: string)
    ensures Concat(Pieces(runes)) == runes
    ensures forall i :: 0 <= i < |Pieces(runes)| ==>
              0 < |Pieces(runes)[i]| <= 3500
              && (i < |Pieces(runes)| - 1 ==> |Pieces(runes)[i]| == 3500)
    decreases |runes|
  {
    if runes != "" {
      var n := if |runes| > MAX_MESSAGE_RUNES then MAX_MESSAGE_RUNES else |runes|;
      PiecesArePartition(runes[n..]);
      assert runes == runes[..n] + runes[n..];
      assert forall i :: 0 < i < |Pieces(runes)| ==> Pieces(runes)[i] == Pieces(runes[n..])[i - 1];
      assert Pieces(runes)[1..] == Pieces(runes[n..]);
    }
  }

  /** The text can be read back from the messages one by one, although a bold span may be split. */
  lemma {:induction false} MessagesReadBack(pieces: seq<string>)
    ensures Concat(DecodeAll(RenderAll(pieces))) == Concat(pieces)
    ensures forall m :: m in RenderAll(pieces) ==> WellFormed(m)
  {
    if pieces != [] {
      assert RenderAll(pieces)[1..] == RenderAll(pieces[1..]);
      assert DecodeAll(RenderAll(pieces))[1..] == DecodeAll(RenderAll(pieces[1..]));
      MessagesReadBack(pieces[1..]);
      RoundTrip(pieces[0]);
    }
  }

  lemma RenderFirst(piece: string, rest: seq<string>)
    ensures RenderAll([piece] + rest) == [Render(piece)] + RenderAll(rest)
  {
    assert ([piece] + rest)[1..] == rest;
  }

  /** Sends `text`; the first `budget` calls of the Telegram API succeed, and the next one fails. */
  method Send(text: string, budget: nat) returns (sent: seq<string>, ok: bool)
    ensures ok <==> |Pieces(text)| <= budget
    ensures sent == RenderAll(Pieces(text))[..if ok then |Pieces(text)| else budget]
  {
    hide Render;
    var runes := text;
    sent := [];
    while |runes| > 0
      invariant sent + RenderAll(Pieces(runes)) == RenderAll(Pieces(text))
      invariant |sent| <= budget
      decreases |runes|
    {
      var n := |runes|;
      if n > MAX_MESSAGE_RUNES {
        n := MAX_MESSAGE_RUNES;
      }
      assert Pieces(runes) == [runes[..n]] + Pieces(runes[n..]);
      RenderFirst(runes[..n], Pieces(runes[n..]));
      if |sent| == budget {
        return sent, false;
      }
      var html := TelegramHtml(runes[..n]);
      sent := sent + [html];
      runes := runes[n..];
    }
    return sent, true;
  }
}
