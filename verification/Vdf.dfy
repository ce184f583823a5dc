/** The identity of a compatibility tool in its VDF, and its renaming in place. */
module Vdf {
  import opened Outcomes
  import opened VdfLexer
  import opened VdfParser

  const BASE_RELEASE := "GE-Proton11-3"
  const FM_NAME := "GE-Proton11-3-FM"
  const TOOLS := "compatibilitytools"
  const COMPAT := "compat_tools"
  const DISPLAY := "display_name"

  // Parsing a whole text ----------------------------------------------------------------

  function ParseVdf(text: string): Result<Entries, VdfError> {
    var tokens :- Lex(text, 0);
    var parsed :- ParseEntries(tokens, 0, {}, false);
    Ok(parsed.entries)
  }

  method ParseText(text: string) returns (r: Result<Entries, VdfError>)
    ensures r == ParseVdf(text)
  {
    var tokens :- TokenizeVdf(text);
    var parser := new Parser(tokens);
    r := parser.ReadEntries(false);
  }

  /** Parsing succeeds exactly on a well-formed writing of entries whose keys are
      distinct, and then says what was written. */
  lemma ParseAccepts(text: string, fields: Fields)
    ensures (ParseVdf(text).Ok? && Meaning(ParseVdf(text).value) == fields) <==>
      (Distinct(fields, {}) && exists layout :: Writes(layout, fields) && text == Render(layout))
  {
    if ParseVdf(text).Ok? && Meaning(ParseVdf(text).value) == fields {
      ParseMeans(text, fields);
    }
    if Distinct(fields, {}) {
      forall layout | Writes(layout, fields) && text == Render(layout)
        ensures ParseVdf(text).Ok? && Meaning(ParseVdf(text).value) == fields
      {
        RoundTrip(layout, fields);
      }
    }
  }

  /** The layout is one of the ways to write fields down. */
  predicate Writes(layout: Layout, fields: Fields) {
    Valid(layout) && Kinds(layout) == Written(fields)
  }

  lemma ParseMeans(text: string, fields: Fields)
    requires ParseVdf(text).Ok? && Meaning(ParseVdf(text).value) == fields
    ensures Distinct(fields, {}) && exists layout :: Writes(layout, fields) && text == Render(layout)
  {
    hide Valid, Lex, ParseEntries, Meaning, Written, Distinct, Kinds, Place, Render;
    var layout := LayWhole(text);
    LexWhole(layout);
    var tokens := Place(layout, 0);
    ParseSound(tokens, 0, {}, false);
    PlaceKinds(layout, 0);
    SpellsWritten(tokens, 0, ParseVdf(text).value);
    WritesWhole(tokens, 0, Written(fields));
    assert KindsOf(tokens)[0..] == KindsOf(tokens);
    assert Writes(layout, fields);
  }

  /** Fields that are written with any white space and comments between the tokens
      are read back as they were. */
  lemma RoundTrip(layout: Layout, fields: Fields)
    requires Writes(layout, fields) && Distinct(fields, {})
    ensures ParseVdf(Render(layout)).Ok? && Meaning(ParseVdf(Render(layout)).value) == fields
  {
    hide Valid, Lex, ParseEntries, Meaning, Written, Distinct, Kinds, Place, Render;
    var tokens := Place(layout, 0);
    LexWhole(layout);
    PlaceKinds(layout, 0);
    assert KindsOf(tokens)[0..] == KindsOf(tokens);
    WritesWhole(tokens, 0, Written(fields));
    var es := WrittenSpells(tokens, 0, fields);
    ParseComplete(tokens, 0, {}, false, Parsed(es, |tokens|));
  }

  function KindsOf(tokens: seq<Token>): (kinds: seq<Kind>)
    ensures |kinds| == |tokens|
  {
    seq(|tokens|, k requires 0 <= k < |tokens| => tokens[k].kind)
  }

  lemma KindsOfMore(token: Token, tokens: seq<Token>)
    ensures KindsOf([token] + tokens) == [token.kind] + KindsOf(tokens)
  {
  }

  lemma {:induction false} PlaceKinds(layout: Layout, i: nat)
    ensures KindsOf(Place(layout, i)) == Kinds(layout)
    decreases layout
  {
    hide KindsOf, Spell, GapText;
    match layout
    case Rest(_, _) =>
      NoKinds();
    case Piece(gap, kind, rest) =>
      var start := i + |GapText(gap)|;
      var end := start + |Spell(kind)|;
      PlaceKinds(rest, end);
      KindsOfMore(Token(kind, start, end), Place(rest, end));
  }

  lemma NoKinds()
    ensures KindsOf([]) == []
  {
  }

  /** The tokens from i on have these kinds. */
  ghost predicate WritesAt(tokens: seq<Token>, i: nat, kinds: seq<Kind>)
    decreases |kinds|
  {
    if kinds == [] then i <= |tokens|
    else i < |tokens| && tokens[i].kind == kinds[0] && WritesAt(tokens, i + 1, kinds[1..])
  }

  lemma {:induction false} WritesBoth(tokens: seq<Token>, i: nat, a: seq<Kind>, b: seq<Kind>)
    ensures WritesAt(tokens, i, a + b) <==> WritesAt(tokens, i, a) && WritesAt(tokens, i + |a|, b)
    decreases |a|
  {
    if a == [] {
      assert a + b == b;
      WritesInside(tokens, i, b);
    } else {
      assert (a + b)[1..] == a[1..] + b;
      WritesBoth(tokens, i + 1, a[1..], b);
    }
  }

  lemma {:induction false} WritesInside(tokens: seq<Token>, i: nat, kinds: seq<Kind>)
    ensures WritesAt(tokens, i, kinds) ==> i + |kinds| <= |tokens|
    decreases |kinds|
  {
    if kinds != [] {
      WritesInside(tokens, i + 1, kinds[1..]);
    }
  }

  lemma {:induction false} WritesWhole(tokens: seq<Token>, i: nat, kinds: seq<Kind>)
    requires i + |kinds| == |tokens|
    ensures WritesAt(tokens, i, kinds) <==> KindsOf(tokens)[i..] == kinds
    decreases |kinds|
  {
    if kinds != [] {
      WritesWhole(tokens, i + 1, kinds[1..]);
      assert KindsOf(tokens)[i..] == [tokens[i].kind] + KindsOf(tokens)[i + 1..];
      assert kinds == [kinds[0]] + kinds[1..];
    }
  }

  /** As WritesBoth, with two tokens in front. */
  lemma WritesPair(tokens: seq<Token>, i: nat, first: Kind, second: Kind, more: seq<Kind>)
    ensures WritesAt(tokens, i, [first, second] + more) <==>
      i + 2 <= |tokens| && tokens[i].kind == first && tokens[i + 1].kind == second && WritesAt(tokens, i + 2, more)
  {
    assert ([first, second] + more)[1..] == [second] + more;
    assert ([second] + more)[1..] == more;
    WritesInside(tokens, i + 2, more);
  }

  /** As WritesBoth, for an object that a brace closes. */
  lemma WritesClosed(tokens: seq<Token>, i: nat, inner: seq<Kind>, more: seq<Kind>)
    ensures WritesAt(tokens, i, inner + ([Close] + more)) <==>
      var end := i + |inner|;
      WritesAt(tokens, i, inner) && end < |tokens| && tokens[end].kind.Close? && WritesAt(tokens, end + 1, more)
  {
    var end := i + |inner|;
    WritesBoth(tokens, i, inner, [Close] + more);
    assert ([Close] + more)[1..] == more;
  }

  lemma {:induction false} SpellsWritten(tokens: seq<Token>, i: nat, es: Entries)
    requires Spells(tokens, i, es)
    ensures WritesAt(tokens, i, Written(Meaning(es))) && |Written(Meaning(es))| == Size(es)
    decreases es
  {
    match es
    case End =>
    case Entry(key, Text(token), rest) =>
      SpellsWritten(tokens, i + 2, rest);
      WritesPair(tokens, i, key.kind, token.kind, Written(Meaning(rest)));
    case Entry(key, Object(inner), rest) =>
      SpellsWritten(tokens, i + 2, inner);
      SpellsWritten(tokens, i + 3 + Size(inner), rest);
      var closed := Written(Meaning(inner)) + ([Close] + Written(Meaning(rest)));
      WritesClosed(tokens, i + 2, Written(Meaning(inner)), Written(Meaning(rest)));
      WritesPair(tokens, i, key.kind, Open, closed);
  }

  lemma WrittenTree(tokens: seq<Token>, i: nat, fields: Fields)
    requires fields.Field? && fields.value.Tree? && WritesAt(tokens, i, Written(fields))
    ensures var end := i + 2 + |Written(fields.value.fields)|;
      && end < |tokens| && |Written(fields)| == end + 1 - i + |Written(fields.rest)|
      && tokens[i].kind == Str(fields.key) && tokens[i + 1].kind.Open? && tokens[end].kind.Close?
      && WritesAt(tokens, i + 2, Written(fields.value.fields)) && WritesAt(tokens, end + 1, Written(fields.rest))
  {
    var inner, rest := Written(fields.value.fields), Written(fields.rest);
    WritesPair(tokens, i, Str(fields.key), Open, inner + ([Close] + rest));
    WritesClosed(tokens, i + 2, inner, rest);
  }

  lemma {:induction false} WrittenSpells(tokens: seq<Token>, i: nat, fields: Fields)
    returns (es: Entries)
    requires WritesAt(tokens, i, Written(fields))
    ensures Spells(tokens, i, es) && Meaning(es) == fields && Size(es) == |Written(fields)|
    decreases fields
  {
    match fields
    case NoMore =>
      es := End;
    case Field(key, Leaf(text), rest) =>
      WritesPair(tokens, i, Str(key), Str(text), Written(rest));
      var tail := WrittenSpells(tokens, i + 2, rest);
      es := TextEntry(tokens, i, key, text, tail);
    case Field(key, Tree(inner), rest) =>
      WrittenTree(tokens, i, fields);
      var below := WrittenSpells(tokens, i + 2, inner);
      var tail := WrittenSpells(tokens, i + 3 + |Written(inner)|, rest);
      es := ObjectEntry(tokens, i, key, below, tail);
  }

  lemma TextEntry(tokens: seq<Token>, i: nat, key: string, text: string, rest: Entries) returns (es: Entries)
    requires i + 2 <= |tokens| && tokens[i].kind == Str(key) && tokens[i + 1].kind == Str(text)
    requires Spells(tokens, i + 2, rest)
    ensures Spells(tokens, i, es) && Meaning(es) == Field(key, Leaf(text), Meaning(rest))
    ensures Size(es) == 2 + Size(rest)
  {
    es := Entry(tokens[i], Text(tokens[i + 1]), rest);
  }

  lemma ObjectSpells(tokens: seq<Token>, i: nat, key: Token, inner: Entries, rest: Entries)
    requires i + 3 + Size(inner) <= |tokens| && tokens[i] == key && key.kind.Str?
    requires tokens[i + 1].kind.Open? && tokens[i + 2 + Size(inner)].kind.Close?
    requires Spells(tokens, i + 2, inner) && Spells(tokens, i + 3 + Size(inner), rest)
    ensures Spells(tokens, i, Entry(key, Object(inner), rest))
  {
    hide Size;
    SpellsFits(tokens, i + 3 + Size(inner), rest);
    SizeObject(key, inner, rest);
  }

  lemma SpellsFits(tokens: seq<Token>, i: nat, es: Entries)
    requires Spells(tokens, i, es)
    ensures i + Size(es) <= |tokens|
  {
    hide Size;
  }

  lemma SizeObject(key: Token, inner: Entries, rest: Entries)
    ensures Size(Entry(key, Object(inner), rest)) == 3 + Size(inner) + Size(rest)
  {
  }

  lemma ObjectEntry(tokens: seq<Token>, i: nat, key: string, inner: Entries, rest: Entries) returns (es: Entries)
    requires i + 3 + Size(inner) <= |tokens|
    requires tokens[i].kind == Str(key) && tokens[i + 1].kind.Open? && tokens[i + 2 + Size(inner)].kind.Close?
    requires Spells(tokens, i + 2, inner) && Spells(tokens, i + 3 + Size(inner), rest)
    ensures Spells(tokens, i, es) && Meaning(es) == Field(key, Tree(Meaning(inner)), Meaning(rest))
    ensures Size(es) == 3 + Size(inner) + Size(rest)
  {
    hide Spells;
    ObjectSpells(tokens, i, tokens[i], inner, rest);
    es := Entry(tokens[i], Object(inner), rest);
  }

  // The identity of a tool ------------------------------------------------------------------

  datatype Found = Found(key: Token, value: Value)

  function Find(es: Entries, key: string): Option<Found> {
    match es
    case End => None
    case Entry(k, value, rest) => if Name(k) == key then Some(Found(k, value)) else Find(rest, key)
  }

  function ObjectAt(es: Entries, key: string): Result<Entries, VdfError> {
    match Find(es, key)
    case Some(Found(_, Object(inner))) => Ok(inner)
    case _ => Err(IdentityInvalid)
  }

  datatype ToolNames = ToolNames(tool: Token, display: Token)

  /** The tokens of the one tool's key and display name, if both are expected. */
  function VdfIdentity(text: string, expected: string): Result<ToolNames, VdfError> {
    var parsed :- ParseVdf(text);
    var root :- ObjectAt(parsed, TOOLS);
    var tools :- ObjectAt(root, COMPAT);
    match tools
    case Entry(tool, Object(fields), End) =>
      if Name(tool) != expected then Err(IdentityInvalid)
      else (match Find(fields, DISPLAY)
            case Some(Found(_, Text(display))) =>
              if Name(display) == expected then Ok(ToolNames(tool, display)) else Err(IdentityInvalid)
            case _ => Err(IdentityInvalid))
    case _ => Err(IdentityInvalid)
  }

  // The same on what the entries say

  function Lookup(fields: Fields, key: string): Option<Plain> {
    match fields
    case NoMore => None
    case Field(k, value, rest) => if k == key then Some(value) else Lookup(rest, key)
  }

  function Update(fields: Fields, key: string, value: Plain): Fields {
    match fields
    case NoMore => NoMore
    case Field(k, present, rest) =>
      if k == key then Field(k, value, rest) else Field(k, present, Update(rest, key, value))
  }

  ghost predicate HasTree(fields: Fields, key: string) {
    Lookup(fields, key).Some? && Lookup(fields, key).value.Tree?
  }

  ghost function TreeAt(fields: Fields, key: string): Fields
    requires HasTree(fields, key)
  {
    Lookup(fields, key).value.fields
  }

  /** There is one tool, and expected is both its key and its display name. */
  ghost predicate Identifies(fields: Fields, expected: string) {
    && HasTree(fields, TOOLS)
    && HasTree(TreeAt(fields, TOOLS), COMPAT)
    && var tools := TreeAt(TreeAt(fields, TOOLS), COMPAT);
       && tools.Field? && tools.rest.NoMore? && tools.value.Tree?
       && tools.key == expected
       && Lookup(tools.value.fields, DISPLAY) == Some(Leaf(expected))
  }

  /** Only the tool's key and its display name are different. */
  ghost function Renamed(fields: Fields, expected: string, name: string): Fields
    requires Identifies(fields, expected)
  {
    var root := TreeAt(fields, TOOLS);
    var tools := TreeAt(root, COMPAT);
    var tool := Tree(Update(tools.value.fields, DISPLAY, Leaf(name)));
    Update(fields, TOOLS, Tree(Update(root, COMPAT, Tree(Field(name, tool, NoMore)))))
  }

  lemma FindMeaning(es: Entries, key: string)
    ensures Find(es, key).None? ==> Lookup(Meaning(es), key).None?
    ensures Find(es, key).Some? ==> Lookup(Meaning(es), key) == Some(
      match Find(es, key).value.value
      case Text(token) => Leaf(Name(token))
      case Object(inner) => Tree(Meaning(inner)))
  {
  }

  /** The identity depends only on what the entries say. */
  lemma IdentityMeaning(text: string, expected: string)
    ensures VdfIdentity(text, expected).Ok? <==>
      ParseVdf(text).Ok? && Identifies(Meaning(ParseVdf(text).value), expected)
  {
    if ParseVdf(text).Ok? {
      var es := ParseVdf(text).value;
      FindMeaning(es, TOOLS);
      if ObjectAt(es, TOOLS).Ok? {
        var root := ObjectAt(es, TOOLS).value;
        FindMeaning(root, COMPAT);
        if ObjectAt(root, COMPAT).Ok? {
          var tools := ObjectAt(root, COMPAT).value;
          if tools.Entry? && tools.value.Object? {
            FindMeaning(tools.value.entries, DISPLAY);
          }
        }
      }
    }
  }

  lemma UpdateLookup(fields: Fields, key: string, value: Plain)
    requires Lookup(fields, key).Some?
    ensures Lookup(Update(fields, key, value), key) == Some(value)
  {
  }

  lemma UpdateDistinct(fields: Fields, key: string, value: Plain, seen: set<string>)
    requires Distinct(fields, seen) && (value.Tree? ==> Distinct(value.fields, {}))
    ensures Distinct(Update(fields, key, value), seen)
  {
  }

  lemma LookupDistinct(fields: Fields, key: string, seen: set<string>)
    requires Distinct(fields, seen) && HasTree(fields, key)
    ensures Distinct(TreeAt(fields, key), {})
  {
  }

  /** A renamed tool has its new identity, and its keys are still distinct. */
  lemma RenamedIdentifies(fields: Fields, expected: string, name: string)
    requires Identifies(fields, expected) && Distinct(fields, {})
    ensures Identifies(Renamed(fields, expected, name), name)
    ensures Distinct(Renamed(fields, expected, name), {})
  {
    var root := TreeAt(fields, TOOLS);
    var tools := TreeAt(root, COMPAT);
    var inner := tools.value.fields;
    LookupDistinct(fields, TOOLS, {});
    LookupDistinct(root, COMPAT, {});
    UpdateLookup(inner, DISPLAY, Leaf(name));
    UpdateDistinct(inner, DISPLAY, Leaf(name), {});
    var tools' := Tree(Field(name, Tree(Update(inner, DISPLAY, Leaf(name))), NoMore));
    UpdateLookup(root, COMPAT, tools');
    UpdateDistinct(root, COMPAT, tools', {});
    UpdateLookup(fields, TOOLS, Tree(Update(root, COMPAT, tools')));
    UpdateDistinct(fields, TOOLS, Tree(Update(root, COMPAT, tools')), {});
  }

  // Entries after some tokens changed their values ----------------------------------------------

  /** The entries that the changed tokens spell in the same places. */
  function Rebuild(es: Entries, tokens: seq<Token>, i: nat): Entries
    requires i + Size(es) <= |tokens|
  {
    match es
    case End => End
    case Entry(_, Text(_), rest) => Entry(tokens[i], Text(tokens[i + 1]), Rebuild(rest, tokens, i + 2))
    case Entry(_, Object(inner), rest) =>
      Entry(tokens[i], Object(Rebuild(inner, tokens, i + 2)), Rebuild(rest, tokens, i + 3 + Size(inner)))
  }

  ghost predicate SameShape(a: seq<Token>, b: seq<Token>) {
    && |a| == |b|
    && forall k | 0 <= k < |a| :: (a[k].kind.Str? <==> b[k].kind.Str?) && (a[k].kind.Open? <==> b[k].kind.Open?)
  }

  ghost predicate SameKinds(a: seq<Token>, b: seq<Token>, from: nat, to: nat)
    requires to <= |a| == |b|
  {
    forall k | from <= k < to :: a[k].kind == b[k].kind
  }

  lemma {:induction false} RebuildSpells(tokens: seq<Token>, changed: seq<Token>, i: nat, es: Entries)
    requires Spells(tokens, i, es) && SameShape(tokens, changed)
    ensures Size(Rebuild(es, changed, i)) == Size(es) && Spells(changed, i, Rebuild(es, changed, i))
    decreases es
  {
    match es
    case End =>
    case Entry(_, Text(_), rest) =>
      RebuildSpells(tokens, changed, i + 2, rest);
    case Entry(_, Object(inner), rest) =>
      RebuildSpells(tokens, changed, i + 2, inner);
      RebuildSpells(tokens, changed, i + 3 + Size(inner), rest);
  }

  lemma {:induction false} RebuildSame(tokens: seq<Token>, changed: seq<Token>, i: nat, es: Entries)
    requires Spells(tokens, i, es) && |changed| == |tokens|
    requires SameKinds(tokens, changed, i, i + Size(es))
    ensures Meaning(Rebuild(es, changed, i)) == Meaning(es)
    decreases es
  {
    match es
    case End =>
    case Entry(_, Text(_), rest) =>
      RebuildSame(tokens, changed, i + 2, rest);
    case Entry(_, Object(inner), rest) =>
      RebuildSame(tokens, changed, i + 2, inner);
      RebuildSame(tokens, changed, i + 3 + Size(inner), rest);
  }

  /** The number of tokens before the entry of a key. */
  function Offset(es: Entries, key: string): nat {
    match es
    case End => 0
    case Entry(k, value, rest) => if Name(k) == key then 0 else Width(value) + Offset(rest, key)
  }

  lemma {:induction false} FindSpells(tokens: seq<Token>, i: nat, es: Entries, key: string)
    requires Spells(tokens, i, es) && Find(es, key).Some?
    ensures var at := Offset(es, key); var found := Find(es, key).value;
      && at + Width(found.value) <= Size(es) && tokens[i + at] == found.key
      && match found.value
         case Text(token) => tokens[i + at + 1] == token
         case Object(inner) => Spells(tokens, i + at + 2, inner)
    decreases es
  {
    if Name(es.key) != key {
      FindSpells(tokens, i + Width(es.value), es.rest, key);
    }
  }

  /** The first entry, and those behind it. */
  lemma SpellsParts(tokens: seq<Token>, i: nat, es: Entries)
    requires Spells(tokens, i, es) && es.Entry?
    ensures Size(es) == Width(es.value) + Size(es.rest) && i + Size(es) <= |tokens| && 2 <= Width(es.value)
    ensures Spells(tokens, i + Width(es.value), es.rest)
    ensures Meaning(es).Field? && Meaning(es).key == Name(es.key) && Meaning(es).rest == Meaning(es.rest)
    ensures es.value.Object? ==> Meaning(es).value == Tree(Meaning(es.value.entries))
  {
  }

  /** Changes behind the first entry leave it as it is. */
  lemma RebuildFirst(tokens: seq<Token>, changed: seq<Token>, i: nat, es: Entries)
    requires Spells(tokens, i, es) && |changed| == |tokens| && es.Entry?
    requires SameKinds(tokens, changed, i, i + Width(es.value))
    ensures Meaning(es).Field?
    ensures Meaning(Rebuild(es, changed, i))
            == Meaning(es).(rest := Meaning(Rebuild(es.rest, changed, i + Width(es.value))))
  {
    if es.value.Object? {
      RebuildSame(tokens, changed, i + 2, es.value.entries);
    }
  }

  /** Changes within the object of the first entry. */
  lemma RebuildHere(tokens: seq<Token>, changed: seq<Token>, i: nat, es: Entries, inner: Entries)
    requires Spells(tokens, i, es) && |changed| == |tokens|
    requires es.Entry? && es.value == Object(inner) && SameKinds(tokens, changed, i, i + 2)
    requires SameKinds(tokens, changed, i + 2 + Size(inner), i + Size(es))
    ensures Meaning(Rebuild(es, changed, i))
            == Field(Name(es.key), Tree(Meaning(Rebuild(inner, changed, i + 2))), Meaning(es.rest))
  {
    RebuildSame(tokens, changed, i + 3 + Size(inner), es.rest);
  }

  /** Changes within one object change what is said only there. */
  lemma {:induction false} RebuildBelow(
    tokens: seq<Token>, changed: seq<Token>, i: nat, es: Entries, key: string, inner: Entries)
    requires Spells(tokens, i, es) && |changed| == |tokens|
    requires ObjectAt(es, key) == Ok(inner)
    requires var v := i + Offset(es, key) + 2;
      && v + Size(inner) <= i + Size(es)
      && SameKinds(tokens, changed, i, v) && SameKinds(tokens, changed, v + Size(inner), i + Size(es))
    ensures Meaning(Rebuild(es, changed, i))
            == Update(Meaning(es), key, Tree(Meaning(Rebuild(inner, changed, i + Offset(es, key) + 2))))
    decreases es
  {
    hide Spells, Size, Rebuild, Meaning, SameKinds, Width;
    SpellsParts(tokens, i, es);
    if Name(es.key) != key {
      var v := i + Offset(es, key) + 2;
      SameWithin(tokens, changed, i, v, i, i + Width(es.value));
      SameWithin(tokens, changed, i, v, i + Width(es.value), v);
      RebuildFirst(tokens, changed, i, es);
      RebuildBelow(tokens, changed, i + Width(es.value), es.rest, key, inner);
    } else {
      RebuildHere(tokens, changed, i, es, inner);
    }
  }

  /** A change of one string value changes what is said only there. */
  lemma {:induction false} RebuildAt(
    tokens: seq<Token>, changed: seq<Token>, i: nat, es: Entries, key: string)
    requires Spells(tokens, i, es) && |changed| == |tokens|
    requires Find(es, key).Some? && Find(es, key).value.value.Text?
    requires var v := i + Offset(es, key) + 1;
      && v < i + Size(es) && changed[v].kind.Str?
      && SameKinds(tokens, changed, i, v) && SameKinds(tokens, changed, v + 1, i + Size(es))
    ensures Meaning(Rebuild(es, changed, i))
            == Update(Meaning(es), key, Leaf(Name(changed[i + Offset(es, key) + 1])))
    decreases es
  {
    hide Spells, Size, Rebuild, Meaning, SameKinds, Width;
    SpellsParts(tokens, i, es);
    if Name(es.key) != key {
      var v := i + Offset(es, key) + 1;
      SameWithin(tokens, changed, i, v, i, i + Width(es.value));
      SameWithin(tokens, changed, i, v, i + Width(es.value), v);
      RebuildFirst(tokens, changed, i, es);
      RebuildAt(tokens, changed, i + Width(es.value), es.rest, key);
    } else {
      RebuildText(tokens, changed, i, es);
    }
  }

  /** A change of the string value of the first entry. */
  lemma RebuildText(tokens: seq<Token>, changed: seq<Token>, i: nat, es: Entries)
    requires Spells(tokens, i, es) && |changed| == |tokens| && es.Entry? && es.value.Text?
    requires changed[i + 1].kind.Str? && SameKinds(tokens, changed, i, i + 1)
    requires SameKinds(tokens, changed, i + 2, i + Size(es))
    ensures Meaning(Rebuild(es, changed, i)) == Field(Name(es.key), Leaf(Name(changed[i + 1])), Meaning(es.rest))
  {
    RebuildSame(tokens, changed, i + 2, es.rest);
  }

  lemma SameWithin(tokens: seq<Token>, changed: seq<Token>, a: nat, b: nat, c: nat, d: nat)
    requires b <= |tokens| == |changed| && SameKinds(tokens, changed, a, b)
    ensures a <= c <= d <= b ==> SameKinds(tokens, changed, c, d)
  {
  }
}
