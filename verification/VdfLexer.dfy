/** Tokens of a compatibility-tool VDF, their spelling, and the tokenizer. */
module VdfLexer {
  import opened Outcomes

  datatype Kind = Open | Close | Str(value: string)

  /** A token and the part text[start..end] that it was read from. */
  datatype Token = Token(kind: Kind, start: nat, end: nat)

  datatype VdfError = Invalid | DuplicateKey(key: string) | IdentityInvalid

  type Tokens = Result<seq<Token>, VdfError>

  /** The characters that Python's str.isspace accepts. */
  predicate IsSpace(c: char) {
    || '\t' <= c <= '\r' || '\U{1C}' <= c <= ' '
    || c in {'\U{85}', '\U{A0}', '\U{1680}', '\U{2028}', '\U{2029}', '\U{202F}', '\U{205F}', '\U{3000}'}
    || '\U{2000}' <= c <= '\U{200A}'
  }

  // The grammar of a text ---------------------------------------------------------

  function Escape(value: string): string {
    if value == "" then ""
    else (if value[0] in {'"', '\\'} then ['\\', value[0]] else [value[0]]) + Escape(value[1..])
  }

  function Spell(kind: Kind): (s: string)
    ensures s != ""
  {
    match kind
    case Open => "{"
    case Close => "}"
    case Str(value) => "\"" + Escape(value) + "\""
  }

  predicate StartsComment(text: string, i: nat) {
    i + 1 < |text| && text[i] == '/' && text[i + 1] == '/'
  }

  /** Where a line that was entered at i ends, the newline included. */
  function LineEnd(text: string, i: nat): (end: nat)
    requires i <= |text|
    ensures i <= end <= |text|
    decreases |text| - i
  {
    if i == |text| then i else if text[i] == '\n' then i + 1 else LineEnd(text, i + 1)
  }

  /** What may stand before a token: white space and complete line comments. */
  datatype Gap = NoGap | Space(c: char, rest: Gap) | Comment(line: string, rest: Gap)

  predicate SoundGap(gap: Gap) {
    match gap
    case NoGap => true
    case Space(c, rest) => IsSpace(c) && SoundGap(rest)
    case Comment(line, rest) => '\n' !in line && SoundGap(rest)
  }

  function GapText(gap: Gap): string {
    match gap
    case NoGap => ""
    case Space(c, rest) => [c] + GapText(rest)
    case Comment(line, rest) => ("//" + line + "\n") + GapText(rest)
  }

  /** A text as its tokens with what stands before, between and after them; the
      last comment needs no newline. */
  datatype Layout =
    | Rest(gap: Gap, last: Option<string>)
    | Piece(gap: Gap, kind: Kind, rest: Layout)

  predicate Valid(layout: Layout) {
    && SoundGap(layout.gap)
    && match layout
       case Rest(_, last) => last.Some? ==> '\n' !in last.value
       case Piece(_, _, rest) => Valid(rest)
  }

  function LastText(last: Option<string>): string {
    match last case None => "" case Some(line) => "//" + line
  }

  function Render(layout: Layout): string {
    match layout
    case Rest(gap, last) => GapText(gap) + LastText(last)
    case Piece(gap, kind, rest) => GapText(gap) + (Spell(kind) + Render(rest))
  }

  function Kinds(layout: Layout): seq<Kind> {
    match layout
    case Rest(_, _) => []
    case Piece(_, kind, rest) => [kind] + Kinds(rest)
  }

  /** The tokens of a layout that is rendered from position i on. */
  function Place(layout: Layout, i: nat): seq<Token> {
    match layout
    case Rest(_, _) => []
    case Piece(gap, kind, rest) =>
      var start := i + |GapText(gap)|;
      var end := start + |Spell(kind)|;
      [Token(kind, start, end)] + Place(rest, end)
  }

  // The tokenizer as a function -----------------------------------------------------

  /** The characters that are white space, by their code points. */
  lemma SpaceCodes(c: char)
    ensures IsSpace(c) <==>
      var n := c as int;
      || 9 <= n <= 13 || 28 <= n <= 32 || 0x2000 <= n <= 0x200A
      || n in {0x85, 0xA0, 0x1680, 0x2028, 0x2029, 0x202F, 0x205F, 0x3000}
  {
  }

  datatype Reading = Reading(value: string, end: nat)

  /** The string whose opening quote stands just before i. */
  function Quoted(text: string, i: nat): (r: Option<Reading>)
    requires i <= |text|
    ensures r.Some? ==> i < r.value.end <= |text|
    decreases |text| - i
  {
    if i == |text| then None
    else if text[i] == '"' then Some(Reading("", i + 1))
    else if text[i] == '\\' then
      if i + 1 < |text| && text[i + 1] in {'"', '\\'} then Preceded(text[i + 1], Quoted(text, i + 2)) else None
    else
      Preceded(text[i], Quoted(text, i + 1))
  }

  function Preceded(c: char, r: Option<Reading>): Option<Reading> {
    match r
    case None => None
    case Some(reading) => Some(reading.(value := [c] + reading.value))
  }

  function Lex(text: string, i: nat): Tokens
    requires i <= |text|
    decreases |text| - i
  {
    if i == |text| then Ok([])
    else if IsSpace(text[i]) then Lex(text, i + 1)
    else if StartsComment(text, i) then Lex(text, LineEnd(text, i + 2))
    else if text[i] == '{' then Following(Token(Open, i, i + 1), Lex(text, i + 1))
    else if text[i] == '}' then Following(Token(Close, i, i + 1), Lex(text, i + 1))
    else if text[i] != '"' then Err(Invalid)
    else match Quoted(text, i + 1)
      case None => Err(Invalid)
      case Some(reading) => Following(Token(Str(reading.value), i, reading.end), Lex(text, reading.end))
  }

  function Following(token: Token, rest: Tokens): Tokens {
    match rest
    case Err(error) => Err(error)
    case Ok(tokens) => Ok([token] + tokens)
  }

  /** The string s stands at position i. */
  predicate At(text: string, i: nat, s: string) {
    i + |s| <= |text| && text[i..i + |s|] == s
  }

  lemma AtSplit(text: string, i: nat, a: string, b: string)
    ensures At(text, i, a + b) <==> At(text, i, a) && At(text, i + |a|, b)
  {
    if i + |a| + |b| <= |text| {
      var both := text[i..i + |a| + |b|];
      assert both == text[i..i + |a|] + text[i + |a|..i + |a| + |b|];
      assert both[..|a|] == text[i..i + |a|] && both[|a|..] == text[i + |a|..i + |a| + |b|];
      assert (a + b)[..|a|] == a && (a + b)[|a|..] == b;
    }
  }

  lemma AtIndex(text: string, i: nat, s: string, k: nat)
    requires At(text, i, s) && k < |s|
    ensures i + |s| <= |text| && text[i + k] == s[k]
  {
    assert text[i..i + |s|][k] == s[k];
  }

  lemma AtHere(text: string, i: nat, j: nat)
    requires i <= j <= |text|
    ensures At(text, i, text[i..j])
  {
  }

  lemma Regroup<T>(a: seq<T>, b: seq<T>, c: seq<T>)
    ensures (a + b) + c == a + (b + c)
  {
  }

  // What stands between tokens is skipped ----------------------------------------------

  lemma {:induction false} LineEndAt(text: string, i: nat, line: string)
    requires At(text, i, line) && '\n' !in line
    requires i + |line| < |text| ==> text[i + |line|] == '\n'
    ensures LineEnd(text, i) == if i + |line| < |text| then i + |line| + 1 else |text|
    decreases |line|
  {
    if line != "" {
      AtIndex(text, i, line, 0);
      AtSplit(text, i, [line[0]], line[1..]);
      assert [line[0]] + line[1..] == line;
      LineEndAt(text, i + 1, line[1..]);
    }
  }

  lemma CommentAt(text: string, i: nat, line: string, end: string)
    requires At(text, i, "//" + line + end) && '\n' !in line
    requires end == "\n" || (end == "" && i + 2 + |line| == |text|)
    ensures StartsComment(text, i) && LineEnd(text, i + 2) == i + 2 + |line| + |end|
    ensures !IsSpace(text[i])
  {
    hide LineEnd;
    AtSplit(text, i, "//" + line, end);
    AtSplit(text, i, "//", line);
    AtIndex(text, i, "//", 0);
    AtIndex(text, i, "//", 1);
    if end == "\n" {
      AtIndex(text, i + 2 + |line|, end, 0);
    }
    LineEndAt(text, i + 2, line);
  }

  lemma {:induction false} LexGap(text: string, i: nat, gap: Gap)
    requires At(text, i, GapText(gap)) && SoundGap(gap)
    ensures Lex(text, i) == Lex(text, i + |GapText(gap)|)
    decreases gap
  {
    hide At, LineEnd, StartsComment;
    match gap
    case NoGap =>
    case Space(c, rest) =>
      AtSplit(text, i, [c], GapText(rest));
      AtIndex(text, i, [c], 0);
      LexGap(text, i + 1, rest);
    case Comment(line, rest) =>
      var comment := "//" + line + "\n";
      AtSplit(text, i, comment, GapText(rest));
      CommentAt(text, i, line, "\n");
      LexGap(text, i + |comment|, rest);
  }

  lemma LexRest(text: string, i: nat, gap: Gap, last: Option<string>)
    requires Valid(Rest(gap, last)) && At(text, i, Render(Rest(gap, last)))
    requires i + |Render(Rest(gap, last))| == |text|
    ensures Lex(text, i) == Ok([])
  {
    hide At, GapText, SoundGap;
    AtSplit(text, i, GapText(gap), LastText(last));
    LexGap(text, i, gap);
    if last.Some? {
      assert "//" + last.value + "" == LastText(last);
      CommentAt(text, i + |GapText(gap)|, last.value, "");
    }
  }

  // A spelled token is read back ---------------------------------------------------------

  lemma {:induction false} QuotedReadsEscape(text: string, i: nat, value: string)
    requires At(text, i, Escape(value)) && i + |Escape(value)| < |text|
    requires text[i + |Escape(value)|] == '"'
    ensures Quoted(text, i) == Some(Reading(value, i + |Escape(value)| + 1))
    decreases |value|
  {
    hide At;
    if value != "" {
      var rest := Escape(value[1..]);
      var first := if value[0] in {'"', '\\'} then ['\\', value[0]] else [value[0]];
      AtSplit(text, i, first, rest);
      AtIndex(text, i, first, 0);
      AtIndex(text, i, first, |first| - 1);
      QuotedReadsEscape(text, i + |first|, value[1..]);
      assert [value[0]] + value[1..] == value;
    }
  }

  lemma LexSpelled(text: string, i: nat, kind: Kind)
    requires At(text, i, Spell(kind))
    ensures Lex(text, i) == Following(Token(kind, i, i + |Spell(kind)|), Lex(text, i + |Spell(kind)|))
  {
    hide At, Lex;
    AtFits(text, i, Spell(kind));
    if kind.Str? {
      var e := Escape(kind.value);
      Regroup("\"", e, "\"");
      AtSplit(text, i, "\"", e + "\"");
      AtSplit(text, i + 1, e, "\"");
      AtFits(text, i + 1 + |e|, "\"");
      AtIndex(text, i, "\"", 0);
      AtIndex(text, i + 1 + |e|, "\"", 0);
      QuotedReadsEscape(text, i + 1, kind.value);
      LexQuoted(text, i);
    } else {
      AtIndex(text, i, Spell(kind), 0);
      LexBrace(text, i);
    }
  }

  lemma AtFits(text: string, i: nat, s: string)
    requires At(text, i, s)
    ensures i + |s| <= |text|
  {
  }

  lemma LexQuoted(text: string, i: nat)
    requires i < |text| && text[i] == '"' && Quoted(text, i + 1).Some?
    ensures var reading := Quoted(text, i + 1).value;
      Lex(text, i) == Following(Token(Str(reading.value), i, reading.end), Lex(text, reading.end))
  {
    hide Quoted, LineEnd;
  }

  lemma LexBrace(text: string, i: nat)
    requires i < |text| && text[i] in {'{', '}'}
    ensures Lex(text, i) == Following(Token(if text[i] == '{' then Open else Close, i, i + 1), Lex(text, i + 1))
  {
    hide Quoted, LineEnd;
  }

  /** Whatever stands around them, tokens are read back as they were spelled. */
  lemma {:induction false} LexRendered(text: string, i: nat, layout: Layout)
    requires At(text, i, Render(layout)) && i + |Render(layout)| == |text| && Valid(layout)
    ensures Lex(text, i) == Ok(Place(layout, i))
    decreases layout
  {
    hide At, Lex, GapText, Spell, SoundGap;
    match layout
    case Rest(gap, last) =>
      LexRest(text, i, gap, last);
    case Piece(gap, kind, rest) =>
      var start := i + |GapText(gap)|;
      AtSplit(text, i, GapText(gap), Spell(kind) + Render(rest));
      AtSplit(text, start, Spell(kind), Render(rest));
      LexGap(text, i, gap);
      LexSpelled(text, start, kind);
      LexRendered(text, start + |Spell(kind)|, rest);
  }

  lemma LexWhole(layout: Layout)
    requires Valid(layout)
    ensures Lex(Render(layout), 0) == Ok(Place(layout, 0))
  {
    var text := Render(layout);
    assert text[0..0 + |text|] == text;
    LexRendered(text, 0, layout);
  }

  // An accepted text is a rendered layout ----------------------------------------------------

  lemma QuotedStep(text: string, i: nat) returns (first: string, rest: Reading)
    requires i <= |text| && Quoted(text, i).Some? && text[i] != '"'
    ensures first != "" && At(text, i, first)
    ensures i + |first| <= |text| && Quoted(text, i + |first|) == Some(rest)
    ensures var r := Quoted(text, i).value;
      r.end == rest.end && Escape(r.value) == first + Escape(rest.value)
  {
    first := if text[i] == '\\' then text[i..i + 2] else text[i..i + 1];
    rest := Quoted(text, i + |first|).value;
    assert Quoted(text, i).value.value[1..] == rest.value;
  }

  lemma {:induction false} QuotedIsEscape(text: string, i: nat)
    requires i <= |text| && Quoted(text, i).Some?
    ensures var r := Quoted(text, i).value;
      At(text, i, Escape(r.value) + "\"") && r.end == i + |Escape(r.value)| + 1
    decreases |text| - i
  {
    if text[i] == '"' {
      assert "" + "\"" == "\"";
      assert At(text, i, "\"");
    } else {
      hide At, Quoted, Escape;
      var first, rest := QuotedStep(text, i);
      QuotedIsEscape(text, i + |first|);
      Regroup(first, Escape(rest.value), "\"");
      AtSplit(text, i, first, Escape(rest.value) + "\"");
    }
  }

  lemma {:induction false} LineEndStops(text: string, i: nat)
    requires i <= |text|
    ensures var end := LineEnd(text, i);
      if i < end && text[end - 1] == '\n' then '\n' !in text[i..end - 1]
      else end == |text| && '\n' !in text[i..end]
    decreases |text| - i
  {
    if i < |text| && text[i] != '\n' {
      LineEndStops(text, i + 1);
      var end := LineEnd(text, i);
      assert text[i..end] == [text[i]] + text[i + 1..end];
      assert i + 1 < end ==> text[i..end - 1] == [text[i]] + text[i + 1..end - 1];
    }
  }

  /** The layout from i on, to the end of the text. */
  ghost predicate Lays(text: string, i: nat, layout: Layout) {
    Valid(layout) && At(text, i, Render(layout)) && i + |Render(layout)| == |text|
  }

  lemma WidenGap(text: string, i: nat, more: string, gap: Gap, layout: Layout)
    requires At(text, i, more) && Lays(text, i + |more|, layout)
    requires GapText(gap) == more + GapText(layout.gap) && SoundGap(gap)
    ensures Lays(text, i, layout.(gap := gap))
  {
    hide At;
    var wider := layout.(gap := gap);
    match layout {
      case Rest(g, last) =>
        Regroup(more, GapText(g), LastText(last));
      case Piece(g, kind, rest) =>
        Regroup(more, GapText(g), Spell(kind) + Render(rest));
    }
    assert Render(wider) == more + Render(layout);
    AtSplit(text, i, more, Render(layout));
  }

  lemma LayComment(text: string, i: nat) returns (line: string, end: nat)
    requires i <= |text| && StartsComment(text, i)
    ensures end == LineEnd(text, i + 2) && '\n' !in line
    ensures (At(text, i, "//" + line + "\n") && end == i + 3 + |line|)
            || (end == |text| && Lays(text, i, Rest(NoGap, Some(line))))
  {
    hide LineEnd;
    end := LineEnd(text, i + 2);
    LineEndStops(text, i + 2);
    assert text[i..i + 2] == "//";
    if i + 2 < end && text[end - 1] == '\n' {
      line := text[i + 2..end - 1];
      AtSplit(text, i, "//", line);
      AtSplit(text, i, "//" + line, "\n");
    } else {
      line := text[i + 2..end];
      AtSplit(text, i, "//", line);
      assert "" + ("//" + line) == "//" + line;
    }
  }

  lemma LaySpace(text: string, i: nat, rest: Layout) returns (layout: Layout)
    requires i < |text| && IsSpace(text[i]) && Lays(text, i + 1, rest)
    ensures Lays(text, i, layout)
  {
    hide At, Lays;
    layout := rest.(gap := Space(text[i], rest.gap));
    AtHere(text, i, i + 1);
    assert text[i..i + 1] == [text[i]];
    LaysGap(text, i + 1, rest);
    WidenGap(text, i, [text[i]], layout.gap, rest);
  }

  lemma LayLine(text: string, i: nat, line: string, rest: Layout) returns (layout: Layout)
    requires At(text, i, "//" + line + "\n") && '\n' !in line && Lays(text, i + 3 + |line|, rest)
    ensures Lays(text, i, layout)
  {
    hide At, Lays;
    layout := rest.(gap := Comment(line, rest.gap));
    LaysGap(text, i + 3 + |line|, rest);
    WidenGap(text, i, "//" + line + "\n", layout.gap, rest);
  }

  lemma LaysGap(text: string, i: nat, layout: Layout)
    requires Lays(text, i, layout)
    ensures SoundGap(layout.gap)
  {
  }

  lemma {:induction false} LexIsRendered(text: string, i: nat) returns (layout: Layout)
    requires i <= |text| && Lex(text, i).Ok?
    ensures Lays(text, i, layout)
    decreases |text| - i
  {
    hide Lays, At, LineEnd, Quoted, Spell, Lex, IsSpace, StartsComment;
    if i == |text| {
      layout := LayEnd(text);
      return;
    }
    LexSkips(text, i);
    if IsSpace(text[i]) {
      var rest := LexIsRendered(text, i + 1);
      layout := LaySpace(text, i, rest);
    } else if StartsComment(text, i) {
      var line, end := LayComment(text, i);
      if At(text, i, "//" + line + "\n") && end == i + 3 + |line| {
        var rest := LexIsRendered(text, end);
        layout := LayLine(text, i, line, rest);
      } else {
        layout := Rest(NoGap, Some(line));
      }
    } else {
      var token := SpelledToken(text, i);
      var rest := LexIsRendered(text, token.end);
      layout := LayPiece(text, i, token.kind, rest);
    }
  }

  lemma LayEnd(text: string) returns (layout: Layout)
    ensures Lays(text, |text|, layout)
  {
    layout := Rest(NoGap, None);
  }

  lemma LexSkips(text: string, i: nat)
    requires i < |text|
    ensures IsSpace(text[i]) ==> Lex(text, i) == Lex(text, i + 1)
    ensures !IsSpace(text[i]) && StartsComment(text, i) ==> Lex(text, i) == Lex(text, LineEnd(text, i + 2))
  {
    hide Quoted, LineEnd, IsSpace;
  }

  lemma LayPiece(text: string, i: nat, kind: Kind, rest: Layout) returns (layout: Layout)
    requires At(text, i, Spell(kind)) && Lays(text, i + |Spell(kind)|, rest)
    ensures Lays(text, i, layout)
  {
    hide At;
    layout := Piece(NoGap, kind, rest);
    AtSplit(text, i, Spell(kind), Render(rest));
    assert "" + (Spell(kind) + Render(rest)) == Spell(kind) + Render(rest);
  }

  lemma SpelledToken(text: string, i: nat) returns (token: Token)
    requires i < |text| && Lex(text, i).Ok? && !IsSpace(text[i]) && !StartsComment(text, i)
    ensures i < token.end <= |text| && At(text, i, Spell(token.kind)) && token.end == i + |Spell(token.kind)|
    ensures Lex(text, token.end).Ok?
  {
    token := Lex(text, i).value[0];
    if text[i] == '"' {
      var e := Escape(Quoted(text, i + 1).value.value);
      QuotedIsEscape(text, i + 1);
      AtSplit(text, i, "\"", e + "\"");
      Regroup("\"", e, "\"");
    }
  }

  lemma LayWhole(text: string) returns (layout: Layout)
    requires Lex(text, 0).Ok?
    ensures Valid(layout) && text == Render(layout)
  {
    layout := LexIsRendered(text, 0);
    assert text[0..0 + |text|] == text;
  }

  /** A text is accepted exactly when it is made of spelled tokens with gaps,
      and then its tokens are those. */
  lemma LexAccepts(text: string)
    ensures Lex(text, 0).Ok? <==> exists layout :: Valid(layout) && text == Render(layout)
    ensures forall layout | Valid(layout) && text == Render(layout) :: Lex(text, 0) == Ok(Place(layout, 0))
  {
    if Lex(text, 0).Ok? {
      var layout := LayWhole(text);
    }
    forall layout | Valid(layout) && text == Render(layout)
      ensures Lex(text, 0) == Ok(Place(layout, 0))
    {
      LexWhole(layout);
    }
  }

  // The tokenizer as the program runs it ------------------------------------------------------

  ghost function After(tokens: seq<Token>, rest: Tokens): Tokens {
    match rest
    case Err(error) => Err(error)
    case Ok(more) => Ok(tokens + more)
  }

  ghost function AfterText(value: string, rest: Option<Reading>): Option<Reading> {
    match rest
    case None => None
    case Some(reading) => Some(reading.(value := value + reading.value))
  }

  method TokenizeVdf(text: string) returns (r: Tokens)
    ensures r == Lex(text, 0)
  {
    var tokens: seq<Token> := [];
    var index := 0;
    assert Lex(text, 0).Ok? ==> tokens + Lex(text, 0).value == Lex(text, 0).value;
    while index < |text|
      invariant index <= |text|
      invariant Lex(text, 0) == After(tokens, Lex(text, index))
    {
      var character := text[index];
      if IsSpace(character) {
        index := index + 1;
      } else if StartsComment(text, index) {
        index := FindLineEnd(text, index + 2);
      } else if character in {'{', '}'} {
        var kind := if character == '{' then Open else Close;
        ghost var rest := Lex(text, index + 1);
        tokens := tokens + [Token(kind, index, index + 1)];
        index := index + 1;
        assert rest.Ok? ==> tokens + rest.value == tokens[..|tokens| - 1] + ([tokens[|tokens| - 1]] + rest.value);
      } else if character != '"' {
        return Err(Invalid);
      } else {
        var quoted := ReadString(text, index + 1);
        if quoted.None? {
          return Err(Invalid);
        }
        ghost var rest := Lex(text, quoted.value.end);
        tokens := tokens + [Token(Str(quoted.value.value), index, quoted.value.end)];
        index := quoted.value.end;
        assert rest.Ok? ==> tokens + rest.value == tokens[..|tokens| - 1] + ([tokens[|tokens| - 1]] + rest.value);
      }
    }
    assert tokens + [] == tokens;
    r := Ok(tokens);
  }

  method FindLineEnd(text: string, from: nat) returns (index: nat)
    requires from <= |text|
    ensures index == LineEnd(text, from)
  {
    index := from;
    while index < |text| && text[index] != '\n'
      invariant from <= index <= |text|
      invariant LineEnd(text, from) == LineEnd(text, index)
    {
      index := index + 1;
    }
    index := if index == |text| then index else index + 1;
  }

  method ReadString(text: string, from: nat) returns (r: Option<Reading>)
    requires from <= |text|
    ensures r == Quoted(text, from)
  {
    var index := from;
    var value := "";
    AfterNothing(Quoted(text, from));
    while index < |text| && text[index] != '"'
      invariant from <= index <= |text|
      invariant Quoted(text, from) == AfterText(value, Quoted(text, index))
    {
      if text[index] == '\\' {
        index := index + 1;
        if index >= |text| || text[index] !in {'"', '\\'} {
          return None;
        }
      }
      AfterOneMore(value, text[index], Quoted(text, index + 1));
      value := value + [text[index]];
      index := index + 1;
    }
    if index >= |text| {
      return None;
    }
    assert value + "" == value;
    r := Some(Reading(value, index + 1));
  }

  lemma AfterNothing(r: Option<Reading>)
    ensures AfterText("", r) == r
  {
    assert r.Some? ==> "" + r.value.value == r.value.value;
  }

  lemma AfterOneMore(value: string, c: char, r: Option<Reading>)
    ensures AfterText(value, Preceded(c, r)) == AfterText(value + [c], r)
  {
    if r.Some? {
      Regroup(value, [c], r.value.value);
    }
  }
}
