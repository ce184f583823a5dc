/** Entries of a VDF: the parser, and what it accepts. */
module VdfParser {
  import opened Outcomes
  import opened VdfLexer

  /** The entries of an object, in the order of the text. */
  datatype Entries = End | Entry(key: Token, value: Value, rest: Entries)

  datatype Value = Text(token: Token) | Object(entries: Entries)

  datatype Parsed = Parsed(entries: Entries, next: nat)

  type Parse = Result<Parsed, VdfError>

  // What entries say ------------------------------------------------------------------

  datatype Fields = NoMore | Field(key: string, value: Plain, rest: Fields)

  datatype Plain = Leaf(text: string) | Tree(fields: Fields)

  function Name(token: Token): string {
    if token.kind.Str? then token.kind.value else ""
  }

  /** The entries without the positions they were read from. */
  function Meaning(es: Entries): Fields {
    match es
    case End => NoMore
    case Entry(key, Text(token), rest) => Field(Name(key), Leaf(Name(token)), Meaning(rest))
    case Entry(key, Object(inner), rest) => Field(Name(key), Tree(Meaning(inner)), Meaning(rest))
  }

  /** No key repeats within one object. */
  ghost predicate Distinct(fields: Fields, seen: set<string>) {
    match fields
    case NoMore => true
    case Field(key, value, rest) =>
      && key !in seen
      && (value.Tree? ==> Distinct(value.fields, {}))
      && Distinct(rest, seen + {key})
  }

  /** The kinds of the tokens that write fields down. */
  function Written(fields: Fields): seq<Kind> {
    match fields
    case NoMore => []
    case Field(key, Leaf(text), rest) => [Str(key), Str(text)] + Written(rest)
    case Field(key, Tree(inner), rest) =>
      [Str(key), Open] + (Written(inner) + ([Close] + Written(rest)))
  }

  // Entries and the tokens they were read from ----------------------------------------------

  /** The number of tokens that entries take. */
  function Size(es: Entries): nat {
    match es
    case End => 0
    case Entry(_, Text(_), rest) => 2 + Size(rest)
    case Entry(_, Object(inner), rest) => 3 + Size(inner) + Size(rest)
  }

  /** The number of tokens of a key and its value. */
  function Width(value: Value): nat {
    match value case Text(_) => 2 case Object(inner) => 3 + Size(inner)
  }

  /** The tokens from i on are exactly those of the entries. */
  ghost predicate Spells(tokens: seq<Token>, i: nat, es: Entries)
    decreases es
  {
    && i + Size(es) <= |tokens|
    && match es
       case End => true
       case Entry(key, Text(token), rest) =>
         && tokens[i] == key && key.kind.Str?
         && tokens[i + 1] == token && token.kind.Str?
         && Spells(tokens, i + 2, rest)
       case Entry(key, Object(inner), rest) =>
         && tokens[i] == key && key.kind.Str?
         && tokens[i + 1].kind.Open?
         && Spells(tokens, i + 2, inner)
         && tokens[i + 2 + Size(inner)].kind.Close?
         && Spells(tokens, i + 3 + Size(inner), rest)
  }

  // The parser as a function ------------------------------------------------------------------

  function ParseEntries(tokens: seq<Token>, i: nat, seen: set<string>, closing: bool): (r: Parse)
    requires i <= |tokens|
    ensures r.Ok? ==> i <= r.value.next <= |tokens|
    decreases |tokens| - i
  {
    if i == |tokens| then
      if closing then Err(Invalid) else Ok(Parsed(End, i))
    else if tokens[i].kind.Close? then
      if closing then Ok(Parsed(End, i + 1)) else Err(Invalid)
    else if !tokens[i].kind.Str? || i + 1 == |tokens| then
      Err(Invalid)
    else if tokens[i].kind.value in seen then
      Err(DuplicateKey(tokens[i].kind.value))
    else
      var more := seen + {tokens[i].kind.value};
      match tokens[i + 1].kind
      case Close => Err(Invalid)
      case Str(_) =>
        Joined(tokens[i], Text(tokens[i + 1]), ParseEntries(tokens, i + 2, more, closing))
      case Open =>
        match ParseEntries(tokens, i + 2, {}, true)
        case Err(error) => Err(error)
        case Ok(inner) =>
          Joined(tokens[i], Object(inner.entries), ParseEntries(tokens, inner.next, more, closing))
  }

  function Joined(key: Token, value: Value, rest: Parse): (r: Parse)
    ensures r.Ok? <==> rest.Ok?
    ensures r.Ok? ==> r.value.next == rest.value.next
  {
    match rest
    case Err(error) => Err(error)
    case Ok(parsed) => Ok(parsed.(entries := Entry(key, value, parsed.entries)))
  }

  /** What a successful parse has read. */
  ghost predicate Reads(tokens: seq<Token>, i: nat, closing: bool, parsed: Parsed) {
    && Spells(tokens, i, parsed.entries)
    && var end := i + Size(parsed.entries);
       if closing then
         end < |tokens| && tokens[end].kind.Close? && parsed.next == end + 1
       else
         end == |tokens| && parsed.next == end
  }

  lemma ReadsText(tokens: seq<Token>, i: nat, closing: bool, rest: Parsed)
    requires i + 1 < |tokens| && tokens[i].kind.Str? && tokens[i + 1].kind.Str?
    requires Reads(tokens, i + 2, closing, rest)
    ensures Reads(tokens, i, closing, rest.(entries := Entry(tokens[i], Text(tokens[i + 1]), rest.entries)))
  {
  }

  lemma ReadsObject(tokens: seq<Token>, i: nat, closing: bool, inner: Parsed, rest: Parsed)
    requires i + 1 < |tokens| && tokens[i].kind.Str? && tokens[i + 1].kind.Open?
    requires Reads(tokens, i + 2, true, inner) && Reads(tokens, inner.next, closing, rest)
    ensures Reads(tokens, i, closing, rest.(entries := Entry(tokens[i], Object(inner.entries), rest.entries)))
  {
  }

  lemma {:induction false} ParseReads(tokens: seq<Token>, i: nat, seen: set<string>, closing: bool)
    requires i <= |tokens| && ParseEntries(tokens, i, seen, closing).Ok?
    ensures Reads(tokens, i, closing, ParseEntries(tokens, i, seen, closing).value)
    decreases |tokens| - i
  {
    if i < |tokens| && !tokens[i].kind.Close? {
      hide Reads;
      var more := seen + {tokens[i].kind.value};
      if tokens[i + 1].kind.Str? {
        ParseReads(tokens, i + 2, more, closing);
        ReadsText(tokens, i, closing, ParseEntries(tokens, i + 2, more, closing).value);
      } else {
        var inner := ParseEntries(tokens, i + 2, {}, true).value;
        ParseReads(tokens, i + 2, {}, true);
        ParseReads(tokens, inner.next, more, closing);
        ReadsObject(tokens, i, closing, inner, ParseEntries(tokens, inner.next, more, closing).value);
      }
    }
  }

  lemma {:induction false} ParseDistinct(tokens: seq<Token>, i: nat, seen: set<string>, closing: bool)
    requires i <= |tokens| && ParseEntries(tokens, i, seen, closing).Ok?
    ensures Distinct(Meaning(ParseEntries(tokens, i, seen, closing).value.entries), seen)
    decreases |tokens| - i
  {
    if i < |tokens| && !tokens[i].kind.Close? {
      var more := seen + {tokens[i].kind.value};
      if tokens[i + 1].kind.Str? {
        ParseDistinct(tokens, i + 2, more, closing);
      } else {
        ParseDistinct(tokens, i + 2, {}, true);
        ParseDistinct(tokens, ParseEntries(tokens, i + 2, {}, true).value.next, more, closing);
      }
    }
  }

  /** What is parsed stands in the tokens, and no key repeats. */
  lemma ParseSound(tokens: seq<Token>, i: nat, seen: set<string>, closing: bool)
    requires i <= |tokens| && ParseEntries(tokens, i, seen, closing).Ok?
    ensures Reads(tokens, i, closing, ParseEntries(tokens, i, seen, closing).value)
    ensures Distinct(Meaning(ParseEntries(tokens, i, seen, closing).value.entries), seen)
  {
    hide *;
    ParseReads(tokens, i, seen, closing);
    ParseDistinct(tokens, i, seen, closing);
  }

  lemma {:induction false} ParseComplete(
    tokens: seq<Token>, i: nat, seen: set<string>, closing: bool, parsed: Parsed)
    requires Reads(tokens, i, closing, parsed) && Distinct(Meaning(parsed.entries), seen)
    ensures ParseEntries(tokens, i, seen, closing) == Ok(parsed)
    decreases parsed.entries
  {
    match parsed.entries
    case End =>
    case Entry(key, Text(_), rest) =>
      ParseComplete(tokens, i + 2, seen + {key.kind.value}, closing, Parsed(rest, parsed.next));
    case Entry(key, Object(inner), rest) =>
      var next := i + 3 + Size(inner);
      ParseComplete(tokens, i + 2, {}, true, Parsed(inner, next));
      ParseComplete(tokens, next, seen + {key.kind.value}, closing, Parsed(rest, parsed.next));
  }

  // The parser as the program runs it ------------------------------------------------------------

  function Append(es: Entries, more: Entries): Entries {
    match es
    case End => more
    case Entry(key, value, rest) => Entry(key, value, Append(rest, more))
  }

  lemma AppendOneMore(es: Entries, key: Token, value: Value, more: Entries)
    ensures Append(es, Entry(key, value, more)) == Append(Append(es, Entry(key, value, End)), more)
  {
  }

  lemma AppendNothing(es: Entries)
    ensures Append(es, End) == es
  {
  }

  ghost function Behind(es: Entries, rest: Parse): Parse {
    match rest
    case Err(error) => Err(error)
    case Ok(parsed) => Ok(parsed.(entries := Append(es, parsed.entries)))
  }

  lemma BehindOneMore(es: Entries, key: Token, value: Value, rest: Parse)
    ensures Behind(es, Joined(key, value, rest)) == Behind(Append(es, Entry(key, value, End)), rest)
  {
    if rest.Ok? {
      AppendOneMore(es, key, value, rest.value.entries);
    }
  }

  /** Reads entries from a position that all calls share and move forward. */
  class Parser {
    const tokens: seq<Token>
    var position: nat

    constructor (tokens: seq<Token>)
      ensures this.tokens == tokens && position == 0
    {
      this.tokens := tokens;
      position := 0;
    }

    method ReadEntries(closing: bool) returns (r: Result<Entries, VdfError>)
      requires position <= |tokens|
      modifies this
      ensures old(position) <= position <= |tokens|
      ensures ParseEntries(tokens, old(position), {}, closing) == (
        match r
        case Err(error) => Err(error)
        case Ok(entries) => Ok(Parsed(entries, position)))
      decreases |tokens| - position
    {
      var result := End;
      var keys: set<string> := {};
      while position < |tokens|
        invariant old(position) <= position <= |tokens|
        invariant ParseEntries(tokens, old(position), {}, closing)
                  == Behind(result, ParseEntries(tokens, position, keys, closing))
      {
        AppendNothing(result);
        if tokens[position].kind.Close? {
          if !closing {
            return Err(Invalid);
          }
          position := position + 1;
          return Ok(result);
        }
        var key := tokens[position];
        position := position + 1;
        if !key.kind.Str? || position >= |tokens| {
          return Err(Invalid);
        }
        if key.kind.value in keys {
          return Err(DuplicateKey(key.kind.value));
        }
        var valueToken := tokens[position];
        position := position + 1;
        var value;
        match valueToken.kind {
          case Open =>
            var inner :- ReadEntries(true);
            value := Object(inner);
          case Str(_) =>
            value := Text(valueToken);
          case Close =>
            return Err(Invalid);
        }
        keys := keys + {key.kind.value};
        BehindOneMore(result, key, value, ParseEntries(tokens, position, keys, closing));
        result := Append(result, Entry(key, value, End));
      }
      AppendNothing(result);
      r := if closing then Err(Invalid) else Ok(result);
    }
  }
}
