/** The guard as a function of the bytes that it was fed, one at a time, and the
    archives that this function accepts. */
module TarStates {
  import opened Outcomes
  import opened ByteStrings
  import opened TarFormat

  /** All that the guard remembers between two reads, but the count of bytes. */
  datatype Guard = Guard(
    header: Bytes,
    dataRemaining: nat,
    extensionRemaining: nat,
    extensionKind: Option<Byte>,
    payload: Bytes,
    longName: Option<Bytes>,
    extensionTotal: nat,
    extensionCount: nat,
    extensionDepth: nat,
    zeroBlocks: nat,
    terminated: bool)

  type Fed = Result<Guard, TarError>

  const START := Guard([], 0, 0, None, [], None, 0, 0, 0, 0, false)

  function FinishExtension(g: Guard): Fed {
    if g.extensionKind.Some? && IsPax(g.extensionKind.value) && SparseMetadata(g.payload) then
      Err(SparseForbidden)
    else
      Ok(g.(longName := if g.extensionKind == Some(TYPE_LONG_NAME) then Some(UpToZero(g.payload)) else g.longName,
            extensionKind := None, extensionRemaining := 0, payload := []))
  }

  function Settled(g: Guard): Fed {
    if g.dataRemaining == 0 then FinishExtension(g) else Ok(g)
  }

  function ConsumeHeader(limits: Limits, g: Guard, header: Bytes): Fed
    requires |header| == BLOCK
  {
    if header == Zeros(BLOCK) then
      Ok(g.(zeroBlocks := g.zeroBlocks + 1, terminated := g.terminated || g.zeroBlocks + 1 >= 2))
    else if g.zeroBlocks > 0 || g.terminated || !ValidChecksum(header) then Err(StreamInvalid)
    else
      var typeflag := TypeFlag(header);
      if typeflag == TYPE_SPARSE then Err(SparseForbidden)
      else if !IsExtension(typeflag) && !SafeName(RawName(header, typeflag, g.longName)) then Err(UnsafeName)
      else
        var size :- Size(header);
        if IsExtension(typeflag) then
          if size > MAX_EXTENSION || g.extensionTotal + size > MAX_EXTENSION_TOTAL
             || g.extensionCount + 1 > limits.extensions then
            Err(MetadataLimit)
          else if g.extensionDepth + 1 > MAX_EXTENSION_DEPTH then Err(DepthLimit)
          else
            Settled(g.(extensionCount := g.extensionCount + 1, extensionDepth := g.extensionDepth + 1,
                       extensionTotal := g.extensionTotal + size, extensionKind := Some(typeflag),
                       extensionRemaining := size, payload := [], dataRemaining := Padded(size)))
        else
          Settled(g.(longName := None, extensionDepth := 0, dataRemaining := Padded(size)))
  }

  function Step(limits: Limits, g: Guard, b: Byte): Fed
    requires |g.header| < BLOCK
  {
    if g.dataRemaining > 0 then
      var kept := g.extensionKind.Some? && g.extensionRemaining > 0;
      Settled(g.(dataRemaining := g.dataRemaining - 1,
                 extensionRemaining := if kept then g.extensionRemaining - 1 else g.extensionRemaining,
                 payload := if kept then g.payload + [b] else g.payload))
    else if |g.header| + 1 < BLOCK then
      Ok(g.(header := g.header + [b]))
    else
      ConsumeHeader(limits, g.(header := []), g.header + [b])
  }

  lemma StepKeepsHeader(limits: Limits, g: Guard, b: Byte)
    requires |g.header| < BLOCK
    ensures Step(limits, g, b).Ok? ==> |Step(limits, g, b).value.header| < BLOCK
  {
  }

  function Feed(limits: Limits, g: Guard, bytes: Bytes): (r: Fed)
    requires |g.header| < BLOCK
    ensures r.Ok? ==> |r.value.header| < BLOCK
    decreases |bytes|
  {
    if bytes == [] then Ok(g)
    else
      StepKeepsHeader(limits, g, bytes[0]);
      var next :- Step(limits, g, bytes[0]);
      Feed(limits, next, bytes[1..])
  }

  /** The guard may stop here. */
  predicate Finished(g: Guard) {
    && g.header == [] && g.dataRemaining == 0 && g.extensionKind.None?
    && g.terminated && 2 <= g.zeroBlocks
  }

  // Feeding in parts is feeding the whole ------------------------------------------------------

  lemma {:induction false} FeedBoth(limits: Limits, g: Guard, a: Bytes, b: Bytes)
    requires |g.header| < BLOCK
    ensures Feed(limits, g, a + b) ==
      match Feed(limits, g, a) case Err(error) => Err(error) case Ok(next) => Feed(limits, next, b)
    decreases |a|
  {
    hide Step;
    if a == [] {
      assert a + b == b;
    } else {
      assert (a + b)[1..] == a[1..] + b;
      StepKeepsHeader(limits, g, a[0]);
      if Step(limits, g, a[0]).Ok? {
        FeedBoth(limits, Step(limits, g, a[0]).value, a[1..], b);
      }
    }
  }

  function Concat(chunks: seq<Bytes>): Bytes {
    if chunks == [] then [] else chunks[0] + Concat(chunks[1..])
  }

  /** As the guard works: the size limit is checked once for every chunk. */
  function FeedChunks(limits: Limits, g: Guard, consumed: nat, chunks: seq<Bytes>): (r: Fed)
    requires |g.header| < BLOCK
    decreases |chunks|
  {
    if chunks == [] then Ok(g)
    else if consumed + |chunks[0]| > limits.bytes then Err(TooLarge)
    else
      var next :- Feed(limits, g, chunks[0]);
      FeedChunks(limits, next, consumed + |chunks[0]|, chunks[1..])
  }

  /** Every way to cut a stream into chunks is accepted alike, with the same end. */
  lemma {:induction false} ChunksDoNotMatter(limits: Limits, g: Guard, consumed: nat, chunks: seq<Bytes>)
    requires |g.header| < BLOCK && consumed <= limits.bytes
    ensures FeedChunks(limits, g, consumed, chunks).Ok? <==>
      consumed + |Concat(chunks)| <= limits.bytes && Feed(limits, g, Concat(chunks)).Ok?
    ensures FeedChunks(limits, g, consumed, chunks).Ok? ==>
      FeedChunks(limits, g, consumed, chunks) == Feed(limits, g, Concat(chunks))
    decreases |chunks|
  {
    hide Step;
    if chunks != [] {
      FeedBoth(limits, g, chunks[0], Concat(chunks[1..]));
      if consumed + |chunks[0]| <= limits.bytes && Feed(limits, g, chunks[0]).Ok? {
        ChunksDoNotMatter(limits, Feed(limits, g, chunks[0]).value, consumed + |chunks[0]|, chunks[1..]);
      }
    }
  }

  // The invariant of the guard --------------------------------------------------------------------

  /** fed is the number of bytes that led to this state. */
  ghost predicate Invariant(g: Guard, fed: nat) {
    && |g.header| < BLOCK
    && (g.dataRemaining > 0 ==> g.header == [])
    && (fed + g.dataRemaining) % BLOCK == |g.header|
    && (g.extensionKind.None? ==> g.extensionRemaining == 0 && g.payload == [])
    && (g.extensionKind.Some? ==>
          && 0 < g.dataRemaining && g.extensionRemaining <= g.dataRemaining
          && |g.payload| + g.extensionRemaining <= MAX_EXTENSION)
    && g.extensionTotal <= MAX_EXTENSION_TOTAL && g.extensionDepth <= MAX_EXTENSION_DEPTH
    && (g.terminated <==> 2 <= g.zeroBlocks)
    && (0 < g.zeroBlocks ==> g.dataRemaining == 0)
  }

  lemma StepInvariant(limits: Limits, g: Guard, b: Byte, fed: nat)
    requires Invariant(g, fed) && Step(limits, g, b).Ok?
    ensures Invariant(Step(limits, g, b).value, fed + 1)
  {
    hide ValidChecksum, SafeName, RawName, Size, SparseMetadata, Zeros, UpToZero;
  }

  lemma {:induction false} FeedInvariant(limits: Limits, g: Guard, bytes: Bytes, fed: nat)
    requires Invariant(g, fed) && Feed(limits, g, bytes).Ok?
    ensures Invariant(Feed(limits, g, bytes).value, fed + |bytes|)
    decreases |bytes|
  {
    hide Step;
    if bytes != [] {
      StepKeepsHeader(limits, g, bytes[0]);
      StepInvariant(limits, g, bytes[0], fed);
      FeedInvariant(limits, Step(limits, g, bytes[0]).value, bytes[1..], fed + 1);
    }
  }

  // Feeding a part of a block, and a whole one ---------------------------------------------------------

  /** How many of n data bytes belong to an extension's payload. */
  function Kept(g: Guard, n: nat): nat {
    if g.extensionKind.None? then 0 else if g.extensionRemaining < n then g.extensionRemaining else n
  }

  /** What the guard is after some bytes of the data that it waits for. */
  function Taken(g: Guard, bytes: Bytes): Guard
    requires |bytes| <= g.dataRemaining
  {
    var kept := Kept(g, |bytes|);
    g.(dataRemaining := g.dataRemaining - |bytes|, extensionRemaining := g.extensionRemaining - kept,
       payload := g.payload + bytes[..kept])
  }

  lemma TakenOne(limits: Limits, g: Guard, b: Byte)
    requires |g.header| < BLOCK && 0 < g.dataRemaining
    ensures Step(limits, g, b) == Settled(Taken(g, [b]))
  {
    hide FinishExtension, ConsumeHeader;
    assert [b][..1] == [b] && [b][..0] == [];
    assert g.payload + [] == g.payload;
  }

  lemma TakenMore(g: Guard, first: Bytes, rest: Bytes)
    requires |first| + |rest| <= g.dataRemaining
    ensures Taken(g, first + rest) == Taken(Taken(g, first), rest)
  {
    var k1, k2 := Kept(g, |first|), Kept(Taken(g, first), |rest|);
    assert Kept(g, |first + rest|) == k1 + k2;
    assert (first + rest)[..k1 + k2] == first[..k1] + rest[..k2];
    assert (g.payload + first[..k1]) + rest[..k2] == g.payload + (first[..k1] + rest[..k2]);
  }

  lemma {:induction false} FeedData(limits: Limits, g: Guard, bytes: Bytes)
    requires |g.header| < BLOCK && 0 < |bytes| <= g.dataRemaining
    ensures Feed(limits, g, bytes) == Settled(Taken(g, bytes))
    decreases |bytes|
  {
    hide FinishExtension, Step, Kept;
    var first, rest := bytes[..1], bytes[1..];
    assert first == [bytes[0]] && first + rest == bytes;
    TakenOne(limits, g, bytes[0]);
    TakenMore(g, first, rest);
    if rest != [] {
      FeedData(limits, Taken(g, first), rest);
    } else {
      assert bytes == first;
      StepKeepsHeader(limits, g, bytes[0]);
    }
  }

  lemma {:induction false} FeedHeaderPart(limits: Limits, g: Guard, bytes: Bytes)
    requires |g.header| + |bytes| < BLOCK && g.dataRemaining == 0
    ensures Feed(limits, g, bytes) == Ok(g.(header := g.header + bytes))
    decreases |bytes|
  {
    hide ConsumeHeader;
    if bytes == [] {
      assert g.header + [] == g.header;
    } else {
      FeedHeaderPart(limits, g.(header := g.header + [bytes[0]]), bytes[1..]);
      assert (g.header + [bytes[0]]) + bytes[1..] == g.header + bytes;
    }
  }

  lemma FeedHeaderRest(limits: Limits, g: Guard, bytes: Bytes)
    requires |g.header| < BLOCK && |g.header| + |bytes| == BLOCK && g.dataRemaining == 0
    ensures Feed(limits, g, bytes) == ConsumeHeader(limits, g.(header := []), g.header + bytes)
    ensures var r := ConsumeHeader(limits, g.(header := []), g.header + bytes);
      r.Ok? ==> r.value.header == []
  {
    var n := |bytes| - 1;
    FeedBoth(limits, g, bytes[..n], bytes[n..]);
    assert bytes[..n] + bytes[n..] == bytes;
    FeedHeaderPart(limits, g, bytes[..n]);
    assert (g.header + bytes[..n]) + [bytes[n]] == g.header + bytes;
    assert bytes[n..] == [bytes[n]] && bytes[n..][1..] == [];
  }
}
