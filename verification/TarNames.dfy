/** Names in a tar header: what is read of them, and which of them are safe. */
module TarNames {
  import opened Outcomes
  import opened ByteStrings
  import opened TarFormat

  // Parts of a name --------------------------------------------------------------------------------

  function Join(parts: seq<Bytes>): Bytes
    requires parts != []
  {
    if |parts| == 1 then parts[0] else parts[0] + [SLASH] + Join(parts[1..])
  }

  ghost predicate Slashless(parts: seq<Bytes>) {
    forall i | 0 <= i < |parts| :: SLASH !in parts[i]
  }

  /** The parts of a name have no slash, and joined by slashes they are the name. */
  lemma {:induction false} PartsJoin(raw: Bytes)
    ensures Slashless(Parts(raw)) && Join(Parts(raw)) == raw
    decreases |raw|
  {
    if raw != [] {
      PartsJoin(raw[1..]);
      var rest := Parts(raw[1..]);
      if raw[0] == SLASH {
        assert ([[]] + rest)[1..] == rest;
        assert [] + [SLASH] + Join(rest) == raw;
      } else {
        var parts := [[raw[0]] + rest[0]] + rest[1..];
        assert parts[1..] == rest[1..];
        assert |rest| > 1 ==> ([raw[0]] + rest[0]) + [SLASH] + Join(rest[1..]) == [raw[0]] + (rest[0] + [SLASH] + Join(rest[1..]));
      }
    }
  }

  lemma {:induction false} PartsPlain(part: Bytes)
    requires SLASH !in part
    ensures Parts(part) == [part]
    decreases |part|
  {
    if part != [] {
      assert part[0] in part && SLASH !in part[1..];
      PartsPlain(part[1..]);
      assert [part[0]] + part[1..] == part && [part[1..]][1..] == [];
    }
  }

  lemma {:induction false} PartsFirst(part: Bytes, rest: Bytes)
    requires SLASH !in part
    ensures Parts(part + [SLASH] + rest) == [part] + Parts(rest)
    decreases |part|
  {
    var whole := part + [SLASH] + rest;
    if part == [] {
      assert whole[1..] == rest;
    } else {
      assert whole[1..] == part[1..] + [SLASH] + rest;
      assert whole[0] == part[0] && part[0] in part && SLASH !in part[1..];
      PartsFirst(part[1..], rest);
      assert ([part[1..]] + Parts(rest))[1..] == Parts(rest);
      assert [part[0]] + part[1..] == part;
    }
  }

  /** Whatever is joined by slashes is taken apart again. */
  lemma {:induction false} JoinParts(parts: seq<Bytes>)
    requires parts != [] && Slashless(parts)
    ensures Parts(Join(parts)) == parts
    decreases |parts|
  {
    if |parts| == 1 {
      PartsPlain(parts[0]);
    } else {
      PartsFirst(parts[0], Join(parts[1..]));
      JoinParts(parts[1..]);
      assert [parts[0]] + parts[1..] == parts;
    }
  }

  /** A part that names something: no slash, no control character, and no way around. */
  ghost predicate PlainPart(part: Bytes) {
    && part != [] && part != [0x2E] && part != [0x2E, 0x2E]
    && forall b | b in part :: b != 0x2F && 0x20 <= b && b != 0x7F
  }

  ghost predicate PlainParts(parts: seq<Bytes>) {
    parts != [] && forall i | 0 <= i < |parts| :: PlainPart(parts[i])
  }

  lemma {:induction false} JoinHas(parts: seq<Bytes>, b: Byte)
    requires parts != []
    ensures b in Join(parts) <==> (b == SLASH && |parts| > 1) || exists i :: 0 <= i < |parts| && b in parts[i]
    decreases |parts|
  {
    if |parts| > 1 {
      JoinHas(parts[1..], b);
      assert forall i | 0 <= i < |parts| - 1 :: parts[1..][i] == parts[i + 1];
      if i :| 0 <= i < |parts| && b in parts[i] {
        assert i > 0 ==> b in parts[1..][i - 1];
      }
    }
  }

  /** A name is safe exactly if it joins plain parts by single slashes. */
  lemma SafeNameMeans(raw: Bytes)
    ensures SafeName(raw) <==> exists parts :: PlainParts(parts) && raw == Join(parts)
  {
    if SafeName(raw) {
      SafeParts(raw);
      assert PlainParts(Parts(raw)) && raw == Join(Parts(raw));
    }
    if parts :| PlainParts(parts) && raw == Join(parts) {
      SafeJoin(parts);
    }
  }

  lemma SafeParts(raw: Bytes)
    requires SafeName(raw)
    ensures PlainParts(Parts(raw)) && raw == Join(Parts(raw))
  {
    hide Parts, Join;
    PartsJoin(raw);
    var parts := Parts(raw);
    forall i | 0 <= i < |parts| ensures PlainPart(parts[i]) {
      assert parts[i] in parts;
      forall b | b in parts[i] ensures b in raw {
        JoinHas(parts, b);
      }
    }
  }

  lemma SafeJoin(parts: seq<Bytes>)
    requires PlainParts(parts)
    ensures SafeName(Join(parts))
  {
    hide Parts;
    JoinParts(parts);
    var raw := Join(parts);
    assert raw[0] == parts[0][0] && parts[0][0] in parts[0];
    forall b | b in raw ensures 0x20 <= b && b != 0x7F {
      JoinHas(parts, b);
    }
  }

  // Fields of a header ----------------------------------------------------------------------------

  /** A text in a field of its own: it ends at a zero byte, or with the field. */
  ghost predicate Field(field: Bytes, text: Bytes) {
    0 !in text && text <= field && (|text| < |field| ==> field[|text|] == 0)
  }

  lemma {:induction false} FieldRead(field: Bytes, text: Bytes)
    ensures Field(field, text) <==> UpToZero(field) == text
    decreases |field|
  {
    if field != [] && field[0] != 0 {
      if text != [] && text[0] == field[0] {
        FieldRead(field[1..], text[1..]);
        assert text == [text[0]] + text[1..];
        assert Field(field, text) <==> Field(field[1..], text[1..]);
      } else if text == [] {
        assert !Field(field, text);
      } else {
        assert UpToZero(field)[0] == field[0];
      }
    }
  }

  /** The name of a member: a long one that came before it, or its prefix and its name; a
      directory may end in a slash that does not count. */
  lemma RawNameMeans(header: Bytes, typeflag: Byte, longName: Option<Bytes>, name: Bytes, prefix: Bytes)
    requires |header| == BLOCK && Field(header[0..100], name) && Field(header[345..500], prefix)
    ensures var whole := if longName.Some? then longName.value
                         else if prefix == [] then name
                         else Join([prefix, name]);
      RawName(header, typeflag, longName) ==
        if typeflag as char == '5' && whole != [] && whole[|whole| - 1] == 0x2F then whole[..|whole| - 1] else whole
  {
    FieldRead(header[0..100], name);
    FieldRead(header[345..500], prefix);
    assert [prefix, name][1..] == [name];
  }

  // Letters and marks --------------------------------------------------------------------------------

  /** The letters of the record types that the guard tells apart. */
  lemma TypeLetters(typeflag: Byte)
    ensures IsExtension(typeflag) <==> typeflag as char in {'x', 'g', 'X', 'L', 'K'}
    ensures IsPax(typeflag) <==> typeflag as char in {'x', 'g', 'X'}
    ensures TYPE_LONG_NAME as char == 'L' && TYPE_SPARSE as char == 'S'
    ensures TYPE_DIRECTORY as char == '5' && SLASH as char == '/' && DOT as char == '.'
  {
  }

  lemma {:induction false} AsciiAt(s: string, i: nat)
    requires i < |s|
    ensures |Ascii(s)| == |s| && Ascii(s)[i] == s[i] as int % 256
    decreases |s|
  {
    if i > 0 {
      AsciiAt(s[1..], i - 1);
    } else if |s| > 1 {
      AsciiAt(s[1..], 0);
    }
  }

  ghost predicate Surrounded(payload: Bytes, needle: Bytes) {
    exists before, after :: payload == before + needle + after
  }

  /** A payload contains what it surrounds. */
  lemma ContainsMeans(payload: Bytes, needle: Bytes)
    ensures Contains(payload, needle) <==> Surrounded(payload, needle)
  {
    if Contains(payload, needle) {
      var i :| 0 <= i <= |payload| && StartsAt(payload, i, needle);
      assert payload == payload[..i] + needle + payload[i + |needle|..];
    }
    if before, after :| payload == before + needle + after {
      assert payload[|before|..|before| + |needle|] == needle;
      assert StartsAt(payload, |before|, needle);
    }
  }

  /** Metadata of sparse files is found by its two keys. */
  lemma SparseMeans(payload: Bytes)
    ensures SparseMetadata(payload) <==>
      Surrounded(payload, Ascii("GNU.sparse.")) || Surrounded(payload, Ascii("SCHILY.realsize"))
  {
    hide Contains, Ascii, Surrounded;
    ContainsMeans(payload, Ascii("GNU.sparse."));
    ContainsMeans(payload, Ascii("SCHILY.realsize"));
  }

  /** The fields of a header block that the guard reads, in their places. */
  datatype Fields = Fields(name: Bytes, modes: Bytes, size: Bytes, time: Bytes, checksum: Bytes, typeflag: Byte,
                           link: Bytes, prefix: Bytes, rest: Bytes)

  function HeaderOf(f: Fields): Bytes {
    f.name + f.modes + f.size + f.time + f.checksum + [f.typeflag] + f.link + f.prefix + f.rest
  }

  ghost predicate Wide(f: Fields) {
    && |f.name| == 100 && |f.modes| == 24 && |f.size| == 12 && |f.time| == 12 && |f.checksum| == 8
    && |f.link| == 188 && |f.prefix| == 155 && |f.rest| == 12
  }

  lemma FieldsRead(f: Fields)
    requires Wide(f)
    ensures var header := HeaderOf(f);
      && |header| == 512 && TypeFlag(header) == f.typeflag && Size(header) == TarNumber(f.size)
      && header[0..100] == f.name && header[345..500] == f.prefix && header[148..156] == f.checksum
      && header[..148] + header[156..] == f.name + f.modes + f.size + f.time + ([f.typeflag] + f.link + f.prefix + f.rest)
  {
    hide TarNumber;
    var header := HeaderOf(f);
    assert header[124..136] == f.size;
  }

  /** An extension is admitted up to 64 KiB, 16 MiB and eight in a row. */
  lemma ExtensionAdmitted(context: Context, limits: Limits, r: Record)
    requires Framed(r) && ValidChecksum(r.header) && IsExtension(TypeFlag(r.header))
    ensures Admitted(context, limits, r) <==>
      var size := Size(r.header).value;
      && size <= 0x1_0000 && context.total + size <= 0x100_0000
      && context.count < limits.extensions && context.depth < 8
      && (TypeFlag(r.header) in {0x78, 0x67, 0x58} ==> !SparseMetadata(Payload(r)))
  {
    hide Framed, ValidChecksum, SparseMetadata, Size;
  }
}
