/** Renaming a tool by splicing two tokens of its VDF. */
module VdfRewrite {
  import opened Outcomes
  import opened VdfLexer
  import opened VdfParser
  import opened Vdf

  // Splicing one token ---------------------------------------------------------------------

  predicate Within(text: string, token: Token) {
    token.start <= token.end <= |text|
  }

  function Splice(text: string, token: Token, value: string): string
    requires Within(text, token)
  {
    Cut(text, token.start, token.end, "\"" + value + "\"")
  }

  function Replace(layout: Layout, n: nat, kind: Kind): Layout {
    match layout
    case Rest(_, _) => layout
    case Piece(gap, k, rest) =>
      if n == 0 then Piece(gap, kind, rest) else Piece(gap, k, Replace(rest, n - 1, kind))
  }

  lemma {:induction false} ReplaceKinds(layout: Layout, n: nat, kind: Kind)
    requires n < |Kinds(layout)|
    ensures Kinds(Replace(layout, n, kind)) == Kinds(layout)[n := kind]
    ensures Valid(layout) ==> Valid(Replace(layout, n, kind))
    decreases layout
  {
    if n > 0 {
      ReplaceKinds(layout.rest, n - 1, kind);
    }
  }

  /** Where the tokens behind the first one begin. */
  function Behind(layout: Layout, i: nat): nat
    requires layout.Piece?
  {
    i + |GapText(layout.gap)| + |Spell(layout.kind)|
  }

  lemma {:induction false} PlaceCount(layout: Layout, i: nat)
    ensures |Place(layout, i)| == |Kinds(layout)|
    decreases layout
  {
    if layout.Piece? {
      PlaceCount(layout.rest, Behind(layout, i));
    }
  }

  lemma {:induction false} PlaceBounds(layout: Layout, i: nat, n: nat)
    requires n < |Place(layout, i)|
    ensures var token := Place(layout, i)[n]; i <= token.start < token.end <= i + |Render(layout)|
    ensures layout.Piece? && (n > 0 ==> Behind(layout, i) <= Place(layout, i)[n].start)
    decreases layout
  {
    if n > 0 {
      PlaceBounds(layout.rest, Behind(layout, i), n - 1);
    }
  }

  /** Tokens lie in the text one behind the other. */
  lemma {:induction false} PlaceOrder(layout: Layout, i: nat, m: nat, n: nat)
    requires m < n < |Place(layout, i)|
    ensures Place(layout, i)[m].end <= Place(layout, i)[n].start
    decreases layout
  {
    if m > 0 {
      PlaceOrder(layout.rest, Behind(layout, i), m - 1, n - 1);
    } else {
      PlaceBounds(layout, i, n);
    }
  }

  /** A change of one token leaves the tokens before it where they are. */
  lemma {:induction false} PlaceBefore(layout: Layout, i: nat, m: nat, n: nat, kind: Kind)
    requires m < n < |Place(layout, i)|
    ensures m < |Place(Replace(layout, n, kind), i)|
    ensures Place(Replace(layout, n, kind), i)[m] == Place(layout, i)[m]
    decreases layout
  {
    hide Place, Replace, GapText, Spell;
    PlaceStep(layout, i);
    PlaceStep(Replace(layout, n, kind), i);
    ReplaceRest(layout, n, kind);
    if m > 0 {
      PlaceBefore(layout.rest, Behind(layout, i), m - 1, n - 1, kind);
    }
  }

  lemma PlaceStep(layout: Layout, i: nat)
    ensures layout.Piece? <==> Place(layout, i) != []
    ensures layout.Piece? ==>
      && Behind(layout, i) >= i
      && Place(layout, i) ==
           [Token(layout.kind, i + |GapText(layout.gap)|, Behind(layout, i))] + Place(layout.rest, Behind(layout, i))
  {
  }

  /** The text with a part of it exchanged. */
  function Cut(text: string, start: nat, end: nat, value: string): string
    requires start <= end <= |text|
  {
    text[..start] + value + text[end..]
  }

  lemma CutKeepsBefore(text: string, start: nat, end: nat, value: string, i: nat, s: string)
    requires start <= end <= |text| && At(text, i, s) && i + |s| <= start
    ensures At(Cut(text, start, end, value), i, s)
  {
    var cut := Cut(text, start, end, value);
    assert cut[i..i + |s|] == text[i..i + |s|];
  }

  lemma CutHere(text: string, start: nat, end: nat, value: string)
    requires start <= end <= |text|
    ensures At(Cut(text, start, end, value), start, value)
  {
  }

  lemma CutMovesAfter(text: string, start: nat, end: nat, value: string, s: string)
    requires start <= end <= |text| && At(text, end, s) && end + |s| == |text|
    ensures At(Cut(text, start, end, value), start + |value|, s)
    ensures start + |value| + |s| == |Cut(text, start, end, value)|
  {
  }

  /** Splicing a token of a rendered layout renders the changed layout. */
  lemma {:induction false} SpliceRender(text: string, i: nat, layout: Layout, n: nat, value: string)
    requires At(text, i, Render(layout)) && i + |Render(layout)| == |text| && n < |Place(layout, i)|
    requires Escape(value) == value
    ensures var token := Place(layout, i)[n]; var changed := Render(Replace(layout, n, Str(value)));
      && i <= token.start && Within(text, token)
      && At(Splice(text, token, value), i, changed) && i + |changed| == |Splice(text, token, value)|
    decreases layout
  {
    hide *;
    var token := Place(layout, i)[n];
    PlaceBounds(layout, i, n);
    if n == 0 {
      SpliceFirst(text, i, layout, value);
    } else {
      SpliceParts(text, i, layout);
      PlaceRest(layout, i, n);
      SpliceRender(text, Behind(layout, i), layout.rest, n - 1, value);
      SpliceLater(text, i, layout, token, value, Replace(layout.rest, n - 1, Str(value)));
      ReplaceRest(layout, n, Str(value));
    }
  }

  lemma PlaceRest(layout: Layout, i: nat, n: nat)
    requires 0 < n < |Place(layout, i)|
    ensures n - 1 < |Place(layout.rest, Behind(layout, i))|
    ensures Place(layout, i)[n] == Place(layout.rest, Behind(layout, i))[n - 1]
  {
  }

  lemma ReplaceRest(layout: Layout, n: nat, kind: Kind)
    requires n > 0 && layout.Piece?
    ensures Replace(layout, n, kind) == layout.(rest := Replace(layout.rest, n - 1, kind))
  {
  }

  lemma SpliceParts(text: string, i: nat, layout: Layout)
    requires At(text, i, Render(layout)) && i + |Render(layout)| == |text| && layout.Piece?
    ensures var start := i + |GapText(layout.gap)|; var end := Behind(layout, i);
      && At(text, i, GapText(layout.gap)) && At(text, start, Spell(layout.kind))
      && At(text, end, Render(layout.rest)) && end + |Render(layout.rest)| == |text|
  {
    hide At, Spell, GapText;
    AtSplit(text, i, GapText(layout.gap), Spell(layout.kind) + Render(layout.rest));
    AtSplit(text, i + |GapText(layout.gap)|, Spell(layout.kind), Render(layout.rest));
  }

  lemma SpliceFirst(text: string, i: nat, layout: Layout, value: string)
    requires At(text, i, Render(layout)) && i + |Render(layout)| == |text| && layout.Piece?
    requires Escape(value) == value
    ensures var token := Place(layout, i)[0]; var changed := Render(Replace(layout, 0, Str(value)));
      && i <= token.start && Within(text, token)
      && At(Splice(text, token, value), i, changed) && i + |changed| == |Splice(text, token, value)|
  {
    hide At, Cut, GapText, Escape;
    SpliceParts(text, i, layout);
    var Piece(gap, kind, rest) := layout;
    var start, end := i + |GapText(gap)|, Behind(layout, i);
    var spelled := "\"" + value + "\"";
    var cut := Cut(text, start, end, spelled);
    CutKeepsBefore(text, start, end, spelled, i, GapText(gap));
    CutHere(text, start, end, spelled);
    CutMovesAfter(text, start, end, spelled, Render(rest));
    AtSplit(cut, start, spelled, Render(rest));
    AtSplit(cut, i, GapText(gap), spelled + Render(rest));
  }

  lemma SpliceLater(text: string, i: nat, layout: Layout, token: Token, value: string, rest: Layout)
    requires At(text, i, Render(layout)) && i + |Render(layout)| == |text| && layout.Piece?
    requires Behind(layout, i) <= token.start && Within(text, token)
    requires var cut := Splice(text, token, value);
      At(cut, Behind(layout, i), Render(rest)) && Behind(layout, i) + |Render(rest)| == |cut|
    ensures var changed := Render(layout.(rest := rest));
      At(Splice(text, token, value), i, changed) && i + |changed| == |Splice(text, token, value)|
  {
    hide At, Cut, GapText, Spell;
    SpliceParts(text, i, layout);
    var Piece(gap, kind, _) := layout;
    var start := i + |GapText(gap)|;
    var spelled := "\"" + value + "\"";
    var cut := Cut(text, token.start, token.end, spelled);
    CutKeepsBefore(text, token.start, token.end, spelled, i, GapText(gap));
    CutKeepsBefore(text, token.start, token.end, spelled, start, Spell(kind));
    AtSplit(cut, start, Spell(kind), Render(rest));
    AtSplit(cut, i, GapText(gap), Spell(kind) + Render(rest));
  }

  lemma {:induction false} EscapePlain(value: string)
    requires '"' !in value && '\\' !in value
    ensures Escape(value) == value
    decreases |value|
  {
    if value != "" {
      var rest := value[1..];
      assert value == [value[0]] + rest;
      EscapePlain(rest);
    }
  }

  // Splicing both tokens ---------------------------------------------------------------------

  function SpliceTwice(text: string, names: ToolNames, value: string): string
    requires Within(text, names.display) && Within(Splice(text, names.display, value), names.tool)
  {
    Splice(Splice(text, names.display, value), names.tool, value)
  }

  /** Both splices together render the layout with both tokens changed. */
  lemma SpliceBoth(text: string, layout: Layout, a: nat, b: nat, value: string)
    requires text == Render(layout) && a < b < |Place(layout, 0)| && Escape(value) == value
    ensures var tokens := Place(layout, 0);
      && tokens[a].end <= tokens[b].start && Within(text, tokens[b])
      && Within(Splice(text, tokens[b], value), tokens[a])
      && SpliceTwice(text, ToolNames(tokens[a], tokens[b]), value)
         == Render(Replace(Replace(layout, b, Str(value)), a, Str(value)))
  {
    var tokens := Place(layout, 0);
    assert text[0..] == text;
    PlaceOrder(layout, 0, a, b);
    SpliceRender(text, 0, layout, b, value);
    var once := Splice(text, tokens[b], value);
    var later := Replace(layout, b, Str(value));
    assert once[0..] == once;
    PlaceBefore(layout, 0, a, b, Str(value));
    SpliceRender(once, 0, later, a, value);
    var result := Splice(once, tokens[a], value);
    assert result[0..] == result;
  }

  lemma ReplaceBoth(layout: Layout, a: nat, b: nat, kind: Kind) returns (changed: seq<Token>)
    requires Valid(layout) && a < b < |Kinds(layout)|
    ensures var both := Replace(Replace(layout, b, kind), a, kind);
      Lex(Render(both), 0) == Ok(changed)
    ensures KindsOf(changed) == Kinds(layout)[a := kind][b := kind]
  {
    var later := Replace(layout, b, kind);
    var both := Replace(later, a, kind);
    ReplaceKinds(layout, b, kind);
    ReplaceKinds(later, a, kind);
    assert Render(both)[0..] == Render(both);
    LexRendered(Render(both), 0, both);
    changed := Place(both, 0);
    PlaceKinds(both, 0);
    assert Kinds(layout)[b := kind][a := kind] == Kinds(layout)[a := kind][b := kind];
  }

  // What the changed tokens say ------------------------------------------------------------------

  /** The entries on the way to the tool's fields. */
  datatype Route = Route(all: Entries, root: Entries, tools: Entries, fields: Entries)

  ghost predicate Leads(route: Route) {
    && ObjectAt(route.all, TOOLS) == Ok(route.root)
    && ObjectAt(route.root, COMPAT) == Ok(route.tools)
    && route.tools.Entry? && route.tools.rest.End? && route.tools.value == Object(route.fields)
    && Find(route.fields, DISPLAY).Some? && Find(route.fields, DISPLAY).value.value.Text?
  }

  ghost function RouteOf(text: string, expected: string): (route: Route)
    requires VdfIdentity(text, expected).Ok?
    ensures Leads(route) && ParseVdf(text) == Ok(route.all)
    ensures VdfIdentity(text, expected).value
            == ToolNames(route.tools.key, Find(route.fields, DISPLAY).value.value.token)
    ensures Identifies(Meaning(route.all), expected)
  {
    IdentityMeaning(text, expected);
    var all := ParseVdf(text).value;
    var root := ObjectAt(all, TOOLS).value;
    var tools := ObjectAt(root, COMPAT).value;
    Route(all, root, tools, tools.value.entries)
  }

  ghost function RootIndex(route: Route): nat {
    Offset(route.all, TOOLS) + 2
  }

  /** Which token is the tool's key. */
  ghost function ToolIndex(route: Route): nat {
    RootIndex(route) + Offset(route.root, COMPAT) + 2
  }

  /** Which token is the display name. */
  ghost function DisplayIndex(route: Route): nat {
    ToolIndex(route) + 2 + Offset(route.fields, DISPLAY) + 1
  }

  lemma Descend(tokens: seq<Token>, i: nat, es: Entries, key: string)
    requires Spells(tokens, i, es) && ObjectAt(es, key).Ok?
    ensures var inner := ObjectAt(es, key).value; var at := i + Offset(es, key) + 2;
      Spells(tokens, at, inner) && at + Size(inner) < i + Size(es)
  {
    FindSpells(tokens, i, es, key);
  }

  lemma SpellsFits(tokens: seq<Token>, i: nat, es: Entries)
    requires Spells(tokens, i, es)
    ensures i + Size(es) <= |tokens|
  {
  }

  lemma OneTool(tokens: seq<Token>, j: nat, tools: Entries)
    requires Spells(tokens, j, tools) && tools.Entry? && tools.value.Object? && tools.rest.End?
    ensures j + Size(tools) <= |tokens| && Size(tools) == 3 + Size(tools.value.entries)
    ensures tokens[j] == tools.key && Spells(tokens, j + 2, tools.value.entries)
  {
  }

  lemma RouteSpells(route: Route, tokens: seq<Token>)
    requires Leads(route) && Spells(tokens, 0, route.all)
    ensures var i := RootIndex(route); var j := ToolIndex(route); var k := DisplayIndex(route);
      && Size(route.all) <= |tokens|
      && Spells(tokens, i, route.root) && i + Size(route.root) < Size(route.all)
      && Spells(tokens, j, route.tools) && j + Size(route.tools) < i + Size(route.root)
      && Spells(tokens, j + 2, route.fields) && j + 3 + Size(route.fields) == j + Size(route.tools)
      && k < j + 2 + Size(route.fields)
      && tokens[j] == route.tools.key && tokens[k] == Find(route.fields, DISPLAY).value.value.token
  {
    hide Find, Offset, Spells, Size;
    Descend(tokens, 0, route.all, TOOLS);
    Descend(tokens, RootIndex(route), route.root, COMPAT);
    OneTool(tokens, ToolIndex(route), route.tools);
    SpellsFits(tokens, 0, route.all);
    FindSpells(tokens, ToolIndex(route) + 2, route.fields, DISPLAY);
  }

  /** Only the two names have changed. */
  ghost predicate NamesChanged(route: Route, name: string, tokens: seq<Token>, changed: seq<Token>) {
    var a, b := ToolIndex(route), DisplayIndex(route);
    && a < b < |tokens| == |changed|
    && changed[a].kind == changed[b].kind == Str(name)
    && SameKinds(tokens, changed, 0, a) && SameKinds(tokens, changed, a + 1, b)
    && SameKinds(tokens, changed, b + 1, |tokens|)
  }

  lemma ToolRenamed(route: Route, name: string, tokens: seq<Token>, changed: seq<Token>)
    requires Leads(route) && Spells(tokens, 0, route.all) && NamesChanged(route, name, tokens, changed)
    ensures ToolIndex(route) + Size(route.tools) <= |changed|
    ensures Meaning(Rebuild(route.tools, changed, ToolIndex(route)))
            == Field(name, Tree(Update(Meaning(route.fields), DISPLAY, Leaf(name))), NoMore)
  {
    hide Spells, Find, Offset, ObjectAt, Lookup, Update;
    RouteSpells(route, tokens);
    RebuildAt(tokens, changed, ToolIndex(route) + 2, route.fields, DISPLAY);
  }

  lemma RouteMeaning(route: Route)
    requires Leads(route)
    ensures HasTree(Meaning(route.all), TOOLS) && TreeAt(Meaning(route.all), TOOLS) == Meaning(route.root)
    ensures HasTree(Meaning(route.root), COMPAT) && TreeAt(Meaning(route.root), COMPAT) == Meaning(route.tools)
    ensures Meaning(route.tools) == Field(Name(route.tools.key), Tree(Meaning(route.fields)), NoMore)
  {
    FindMeaning(route.all, TOOLS);
    FindMeaning(route.root, COMPAT);
  }

  lemma AllRenamed(route: Route, expected: string, name: string, tokens: seq<Token>, changed: seq<Token>)
    requires Leads(route) && Spells(tokens, 0, route.all) && NamesChanged(route, name, tokens, changed)
    requires Identifies(Meaning(route.all), expected) && |tokens| == Size(route.all)
    ensures Meaning(Rebuild(route.all, changed, 0)) == Renamed(Meaning(route.all), expected, name)
  {
    hide Meaning, Rebuild, Spells, Size, Find, Lookup, Update, Offset;
    RouteSpells(route, tokens);
    ToolRenamed(route, name, tokens, changed);
    RouteMeaning(route);
    RebuildBelow(tokens, changed, RootIndex(route), route.root, COMPAT, route.tools);
    RebuildBelow(tokens, changed, 0, route.all, TOOLS, route.root);
  }

  /** Tokens with both names changed parse to the renamed entries. */
  lemma RenamedParses(route: Route, expected: string, name: string, tokens: seq<Token>, changed: seq<Token>)
    requires Leads(route) && NamesChanged(route, name, tokens, changed)
    requires Identifies(Meaning(route.all), expected)
    requires ParseEntries(tokens, 0, {}, false) == Ok(Parsed(route.all, |tokens|))
    ensures var parse := ParseEntries(changed, 0, {}, false);
      parse.Ok? && Meaning(parse.value.entries) == Renamed(Meaning(route.all), expected, name)
  {
    ParseSound(tokens, 0, {}, false);
    AllRenamed(route, expected, name, tokens, changed);
    RenamedIdentifies(Meaning(route.all), expected, name);
    RouteSpells(route, tokens);
    StrTokens(route, name, tokens, changed);
    RebuildSpells(tokens, changed, 0, route.all);
    ParseComplete(changed, 0, {}, false, Parsed(Rebuild(route.all, changed, 0), |changed|));
  }

  lemma StrTokens(route: Route, name: string, tokens: seq<Token>, changed: seq<Token>)
    requires Leads(route) && Spells(tokens, 0, route.all) && NamesChanged(route, name, tokens, changed)
    ensures SameShape(tokens, changed)
  {
    hide Find, Offset, ObjectAt, Size;
    var a, b := ToolIndex(route), DisplayIndex(route);
    RouteSpells(route, tokens);
    assert tokens[a].kind.Str?;
    SpellsFound(tokens, a + 2, route.fields, DISPLAY);
  }

  /** The token of a string value is a string. */
  lemma {:induction false} SpellsFound(tokens: seq<Token>, i: nat, es: Entries, key: string)
    requires Spells(tokens, i, es) && Find(es, key).Some? && Find(es, key).value.value.Text?
    ensures Offset(es, key) + 2 <= Size(es) && tokens[i + Offset(es, key) + 1].kind.Str?
    decreases es
  {
    if Name(es.key) != key {
      SpellsFound(tokens, i + Width(es.value), es.rest, key);
    }
  }

  // The rewrite ------------------------------------------------------------------------------

  /** What renaming the tool expected to name promises. */
  ghost predicate Rewritten(text: string, expected: string, name: string, result: string) {
    && VdfIdentity(text, expected).Ok? && VdfIdentity(result, name).Ok?
    && ParseVdf(text).Ok? && ParseVdf(result).Ok?
    && Identifies(Meaning(ParseVdf(text).value), expected)
    && Meaning(ParseVdf(result).value) == Renamed(Meaning(ParseVdf(text).value), expected, name)
    && OnlyNamesDiffer(text, expected, name, result)
  }

  /** The results have the same tokens, but for the two names. */
  ghost predicate OnlyNamesDiffer(text: string, expected: string, name: string, result: string)
    requires VdfIdentity(text, expected).Ok?
  {
    && Lex(text, 0).Ok? && Lex(result, 0).Ok?
    && var tokens := Lex(text, 0).value;
       var names := VdfIdentity(text, expected).value;
       exists a: nat, b: nat ::
         && a < b < |tokens| && tokens[a] == names.tool && tokens[b] == names.display
         && KindsOf(Lex(result, 0).value) == KindsOf(tokens)[a := Str(name)][b := Str(name)]
  }

  lemma ChangedNames(route: Route, name: string, tokens: seq<Token>, changed: seq<Token>)
    requires var a, b := ToolIndex(route), DisplayIndex(route);
      a < b < |tokens| && KindsOf(changed) == KindsOf(tokens)[a := Str(name)][b := Str(name)]
    ensures NamesChanged(route, name, tokens, changed)
  {
    assert |changed| == |KindsOf(changed)|;
    forall k | 0 <= k < |tokens|
      ensures changed[k].kind == KindsOf(changed)[k] && tokens[k].kind == KindsOf(tokens)[k]
    {
    }
  }

  lemma Locate(text: string, expected: string, layout: Layout, route: Route)
    requires VdfIdentity(text, expected).Ok? && route == RouteOf(text, expected)
    requires Valid(layout) && text[0..] == Render(layout)
    ensures var tokens := Place(layout, 0); var a, b := ToolIndex(route), DisplayIndex(route);
      && Lex(text, 0) == Ok(tokens) && KindsOf(tokens) == Kinds(layout)
      && a < b < |tokens| == |Kinds(layout)|
      && VdfIdentity(text, expected).value == ToolNames(tokens[a], tokens[b])
  {
    LexRendered(text, 0, layout);
    var tokens := Place(layout, 0);
    PlaceKinds(layout, 0);
    PlaceCount(layout, 0);
    ParseSound(tokens, 0, {}, false);
    RouteSpells(route, tokens);
  }

  lemma RewriteChecked(text: string, expected: string, name: string, result: string,
                       route: Route, tokens: seq<Token>, changed: seq<Token>)
    requires VdfIdentity(text, expected).Ok? && route == RouteOf(text, expected)
    requires Lex(text, 0) == Ok(tokens) && Lex(result, 0) == Ok(changed)
    requires var a, b := ToolIndex(route), DisplayIndex(route);
      && a < b < |tokens| && VdfIdentity(text, expected).value == ToolNames(tokens[a], tokens[b])
      && KindsOf(changed) == KindsOf(tokens)[a := Str(name)][b := Str(name)]
    ensures Rewritten(text, expected, name, result)
  {
    ParseSound(tokens, 0, {}, false);
    ChangedNames(route, name, tokens, changed);
    RenamedParses(route, expected, name, tokens, changed);
    RenamedIdentifies(Meaning(route.all), expected, name);
    IdentityMeaning(result, name);
  }

  /** The two names of the identity can be spliced, the later one first, and the
      result says the same as before except for them; so the check that the
      program makes of its result can never fail. */
  lemma RewriteMeaning(text: string, expected: string, name: string)
    requires VdfIdentity(text, expected).Ok? && Escape(name) == name
    ensures var names := VdfIdentity(text, expected).value;
      && names.tool.start < names.display.start && Within(text, names.display)
      && Within(Splice(text, names.display, name), names.tool)
      && Rewritten(text, expected, name, SpliceTwice(text, names, name))
  {
    var layout := LexIsRendered(text, 0);
    var route := RouteOf(text, expected);
    var tokens := Place(layout, 0);
    Locate(text, expected, layout, route);
    var a, b := ToolIndex(route), DisplayIndex(route);
    PlaceBounds(layout, 0, a);
    assert text[0..] == text;
    SpliceBoth(text, layout, a, b, name);
    var changed := ReplaceBoth(layout, a, b, Str(name));
    RewriteChecked(text, expected, name, SpliceTwice(text, ToolNames(tokens[a], tokens[b]), name),
                   route, tokens, changed);
  }

  method RewrittenVdf(text: string) returns (r: Result<string, VdfError>)
    ensures match VdfIdentity(text, BASE_RELEASE)
      case Err(error) => r == Err(error)
      case Ok(_) => r.Ok? && Rewritten(text, BASE_RELEASE, FM_NAME, r.value)
  {
    EscapePlain(FM_NAME);
    r := RenamedVdf(text, BASE_RELEASE, FM_NAME);
  }

  method RenamedVdf(text: string, expected: string, name: string) returns (r: Result<string, VdfError>)
    requires Escape(name) == name
    ensures match VdfIdentity(text, expected)
      case Err(error) => r == Err(error)
      case Ok(_) => r.Ok? && Rewritten(text, expected, name, r.value)
  {
    var names :- VdfIdentity(text, expected);
    RewriteMeaning(text, expected, name);
    var result := SpliceNames(text, names, name);
    r := match VdfIdentity(result, name) case Ok(_) => Ok(result) case Err(error) => Err(error);
  }

  /** Splice the tokens from the end of the text to its start. */
  method SpliceNames(text: string, names: ToolNames, name: string) returns (result: string)
    requires names.tool.start < names.display.start && Within(text, names.display)
    requires Within(Splice(text, names.display, name), names.tool)
    ensures result == SpliceTwice(text, names, name)
  {
    var order := if names.tool.start < names.display.start
                 then [names.display, names.tool] else [names.tool, names.display];
    result := text;
    for i := 0 to 2
      invariant result == (if i == 0 then text
                           else if i == 1 then Splice(text, names.display, name)
                           else SpliceTwice(text, names, name))
    {
      result := Splice(result, order[i], name);
    }
  }
}
