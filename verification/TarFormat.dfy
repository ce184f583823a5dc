/** Blocks of a tar archive as the guard reads them: numbers, checksums, names.
    The layout is that of the ustar interchange format (IEEE Std 1003.1-2017,
    utility pax), with GNU long names and base-256 numbers. */
module TarFormat {
  import opened Outcomes
  import opened ByteStrings

  const BLOCK: nat := 512
  const MAX_EXTENSION: nat := 64 * 1024
  const MAX_EXTENSION_TOTAL: nat := 16 * 1024 * 1024
  const MAX_EXTENSION_DEPTH: nat := 8

  const TYPE_DIRECTORY: Byte := 0x35
  const TYPE_SPARSE: Byte := 0x53
  const TYPE_LONG_NAME: Byte := 0x4C
  const TYPE_LONG_LINK: Byte := 0x4B
  const TYPE_PAX: Byte := 0x78
  const TYPE_PAX_GLOBAL: Byte := 0x67
  const TYPE_PAX_SOLARIS: Byte := 0x58
  const SLASH: Byte := 0x2F
  const DOT: Byte := 0x2E

  datatype TarError = StreamInvalid | TooLarge | SparseForbidden | UnsafeName | MetadataLimit | DepthLimit

  /** What the guard may let through. */
  datatype Limits = Limits(bytes: nat, extensions: nat)

  function Ascii(s: string): Bytes {
    if s == "" then [] else [s[0] as int % 256] + Ascii(s[1..])
  }

  predicate IsExtension(typeflag: Byte) {
    typeflag in {TYPE_PAX, TYPE_PAX_GLOBAL, TYPE_PAX_SOLARIS, TYPE_LONG_NAME, TYPE_LONG_LINK}
  }

  predicate IsPax(typeflag: Byte) {
    typeflag in {TYPE_PAX, TYPE_PAX_GLOBAL, TYPE_PAX_SOLARIS}
  }

  // Numbers -----------------------------------------------------------------------------

  function BigEndian(digits: Bytes, base: nat): nat {
    if digits == [] then 0
    else BigEndian(digits[..|digits| - 1], base) * base + digits[|digits| - 1]
  }

  predicate IsBlank(b: Byte) {
    b == 0x20 || b == 0
  }

  function Strip(field: Bytes): Bytes {
    if field == [] then []
    else if IsBlank(field[0]) then Strip(field[1..])
    else if IsBlank(field[|field| - 1]) then Strip(field[..|field| - 1])
    else field
  }

  function OctalDigits(field: Bytes): Bytes
    requires forall b | b in field :: 0x30 <= b <= 0x37
  {
    seq(|field|, i requires 0 <= i < |field| => assert field[i] in field; field[i] - 0x30)
  }

  function TarNumber(field: Bytes): Result<nat, TarError> {
    if field == [] then Err(StreamInvalid)
    else if field[0] >= 0xC0 then Err(StreamInvalid)
    else if field[0] >= 0x80 then Ok(BigEndian([field[0] - 0x80] + field[1..], 256))
    else
      var stripped := Strip(field);
      if exists b | b in stripped :: !(0x30 <= b <= 0x37) then Err(StreamInvalid)
      else Ok(BigEndian(OctalDigits(stripped), 8))
  }

  function Sum(bytes: Bytes): nat {
    if bytes == [] then 0 else bytes[0] + Sum(bytes[1..])
  }

  function SignedSum(bytes: Bytes): int {
    if bytes == [] then 0 else (if bytes[0] < 128 then bytes[0] else bytes[0] - 256) + SignedSum(bytes[1..])
  }

  predicate ValidChecksum(header: Bytes)
    requires |header| == BLOCK
  {
    match TarNumber(header[148..156])
    case Err(_) => false
    case Ok(expected) =>
      || expected == Sum(header[..148]) + 8 * 0x20 + Sum(header[156..])
      || expected == SignedSum(header[..148]) + 8 * 0x20 + SignedSum(header[156..])
  }

  function Padded(size: nat): (padded: nat)
    ensures size <= padded < size + BLOCK && padded % BLOCK == 0
  {
    (size + BLOCK - 1) / BLOCK * BLOCK
  }

  // Names -----------------------------------------------------------------------------------

  /** The bytes before the first zero byte. */
  function UpToZero(bytes: Bytes): Bytes {
    if bytes == [] || bytes[0] == 0 then [] else [bytes[0]] + UpToZero(bytes[1..])
  }

  /** The pieces between slashes. */
  function Parts(raw: Bytes): (parts: seq<Bytes>)
    ensures parts != []
  {
    if raw == [] then [[]]
    else
      var rest := Parts(raw[1..]);
      if raw[0] == SLASH then [[]] + rest else [[raw[0]] + rest[0]] + rest[1..]
  }

  function RawName(header: Bytes, typeflag: Byte, longName: Option<Bytes>): Bytes
    requires |header| == BLOCK
  {
    var raw :=
      match longName
      case Some(name) => name
      case None =>
        var name, prefix := UpToZero(header[0..100]), UpToZero(header[345..500]);
        if prefix != [] then prefix + [SLASH] + name else name;
    if typeflag == TYPE_DIRECTORY && raw != [] && raw[|raw| - 1] == SLASH then raw[..|raw| - 1] else raw
  }

  predicate SafeName(raw: Bytes) {
    && raw != []
    && raw[0] != SLASH
    && (forall part | part in Parts(raw) :: part != [] && part != [DOT] && part != [DOT, DOT])
    && (forall b | b in raw :: 0x20 <= b && b != 0x7F)
  }

  predicate StartsAt(payload: Bytes, i: nat, needle: Bytes) {
    i + |needle| <= |payload| && payload[i..i + |needle|] == needle
  }

  predicate Contains(payload: Bytes, needle: Bytes) {
    exists i | 0 <= i <= |payload| :: StartsAt(payload, i, needle)
  }

  predicate SparseMetadata(payload: Bytes) {
    Contains(payload, Ascii("GNU.sparse.")) || Contains(payload, Ascii("SCHILY.realsize"))
  }

  // The grammar ---------------------------------------------------------------------------------

  /** A header block and the data blocks behind it. */
  datatype Record = Record(header: Bytes, body: Bytes)

  /** What the records read so far mean for those that follow. */
  datatype Context = Context(longName: Option<Bytes>, total: nat, count: nat, depth: nat)

  const FIRST := Context(None, 0, 0, 0)

  function TypeFlag(header: Bytes): Byte
    requires |header| == BLOCK
  {
    header[156]
  }

  function Size(header: Bytes): Result<nat, TarError>
    requires |header| == BLOCK
  {
    TarNumber(header[124..136])
  }

  /** A block that is not all zero, with as much data behind it as it says. */
  ghost predicate Framed(r: Record) {
    && |r.header| == BLOCK && r.header != Zeros(BLOCK)
    && Size(r.header).Ok? && |r.body| == Padded(Size(r.header).value)
  }

  ghost function Payload(r: Record): Bytes
    requires Framed(r)
  {
    r.body[..Size(r.header).value]
  }

  /** The record is allowed after what was read before it. */
  ghost predicate Admitted(context: Context, limits: Limits, r: Record) {
    && Framed(r)
    && ValidChecksum(r.header)
    && var typeflag := TypeFlag(r.header);
       && typeflag != TYPE_SPARSE
       && if IsExtension(typeflag) then
            && Size(r.header).value <= MAX_EXTENSION
            && context.total + Size(r.header).value <= MAX_EXTENSION_TOTAL
            && context.count + 1 <= limits.extensions
            && context.depth + 1 <= MAX_EXTENSION_DEPTH
            && (IsPax(typeflag) ==> !SparseMetadata(Payload(r)))
          else
            SafeName(RawName(r.header, typeflag, context.longName))
  }

  ghost function Next(context: Context, r: Record): Context
    requires Framed(r)
  {
    var typeflag := TypeFlag(r.header);
    if IsExtension(typeflag) then
      Context(if typeflag == TYPE_LONG_NAME then Some(UpToZero(Payload(r))) else context.longName,
              context.total + Size(r.header).value, context.count + 1, context.depth + 1)
    else
      context.(longName := None, depth := 0)
  }

  /** A whole archive: records, and the zero blocks at its end. */
  datatype Tape = Trailer(zeros: nat) | Entry(record: Record, rest: Tape)

  function Zeros(n: nat): (bytes: Bytes)
    ensures |bytes| == n && forall i | 0 <= i < n :: bytes[i] == 0
  {
    seq(n, _ => 0)
  }

  function Written(tape: Tape): Bytes {
    match tape
    case Trailer(zeros) => Zeros(zeros * BLOCK)
    case Entry(record, rest) => (record.header + record.body) + Written(rest)
  }

  /** Admitted records, then two or more zero blocks, and nothing else. */
  ghost predicate Sound(context: Context, limits: Limits, tape: Tape)
    decreases tape
  {
    match tape
    case Trailer(zeros) => 2 <= zeros
    case Entry(record, rest) => Admitted(context, limits, record) && Sound(Next(context, record), limits, rest)
  }

  /** The archives that the guard is there to let through. */
  ghost predicate Acceptable(limits: Limits, bytes: Bytes) {
    |bytes| <= limits.bytes && exists tape :: Sound(FIRST, limits, tape) && bytes == Written(tape)
  }
}
