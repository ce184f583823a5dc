/** The guard accepts exactly the archives of the grammar. */
module TarGrammar {
  import opened Outcomes
  import opened ByteStrings
  import opened TarFormat
  import opened TarStates

  /** The guard between two records. */
  function Between(c: Context): Guard {
    Guard([], 0, 0, None, [], c.longName, c.total, c.count, c.depth, 0, false)
  }

  /** Fed from there with all of the bytes, it may stop. */
  predicate Accepted(limits: Limits, g: Guard, bytes: Bytes)
    requires |g.header| < BLOCK
  {
    Feed(limits, g, bytes).Ok? && Finished(Feed(limits, g, bytes).value)
  }

  // Blocks -------------------------------------------------------------------------------------

  lemma FeedBlock(limits: Limits, g: Guard, header: Bytes, rest: Bytes)
    requires g.header == [] && g.dataRemaining == 0 && |header| == BLOCK
    ensures var r := ConsumeHeader(limits, g, header);
      && (r.Ok? ==> r.value.header == [])
      && Feed(limits, g, header + rest) == (if r.Ok? then Feed(limits, r.value, rest) else r)
  {
    hide ConsumeHeader, Feed;
    FeedBoth(limits, g, header, rest);
    FeedHeaderRest(limits, g, header);
    assert g.(header := []) == g && g.header + header == header;
  }

  /** A record is let through exactly when it is admitted. */
  lemma FeedRecord(limits: Limits, c: Context, r: Record, rest: Bytes)
    requires Framed(r)
    ensures var fed := Feed(limits, Between(c), (r.header + r.body) + rest);
      if Admitted(c, limits, r) then fed == Feed(limits, Between(Next(c, r)), rest) else fed.Err?
  {
    hide ValidChecksum, SafeName, RawName, Size, SparseMetadata, Zeros, UpToZero, Feed, Padded;
    assert (r.header + r.body) + rest == r.header + (r.body + rest);
    FeedBlock(limits, Between(c), r.header, r.body + rest);
    var consumed := ConsumeHeader(limits, Between(c), r.header);
    if consumed.Ok? {
      FeedBoth(limits, consumed.value, r.body, rest);
      FeedBody(limits, c, r);
    } else {
      HeaderRefused(limits, c, r);
    }
  }

  lemma HeaderRefused(limits: Limits, c: Context, r: Record)
    requires Framed(r) && ConsumeHeader(limits, Between(c), r.header).Err?
    ensures !Admitted(c, limits, r)
  {
    hide ValidChecksum, SafeName, RawName, SparseMetadata, Zeros, UpToZero;
    if r.body == [] && IsPax(TypeFlag(r.header)) {
      assert Payload(r) == [];
    }
  }

  lemma FeedBody(limits: Limits, c: Context, r: Record)
    requires Framed(r) && ConsumeHeader(limits, Between(c), r.header).Ok?
    ensures var g := ConsumeHeader(limits, Between(c), r.header).value;
      && g.header == []
      && var fed := Feed(limits, g, r.body);
         if Admitted(c, limits, r) then fed == Ok(Between(Next(c, r))) else fed.Err?
  {
    hide ValidChecksum, SafeName, RawName, SparseMetadata, Zeros, UpToZero, Feed;
    var g := ConsumeHeader(limits, Between(c), r.header).value;
    var size := Size(r.header).value;
    if r.body == [] {
      assert Payload(r) == [] && size == 0;
      FeedNothing(limits, g);
    } else {
      FeedData(limits, g, r.body);
      assert IsExtension(TypeFlag(r.header)) ==> [] + r.body[..size] == Payload(r);
      assert [] + r.body[..0] == [];
    }
  }

  lemma FeedNothing(limits: Limits, g: Guard)
    requires |g.header| < BLOCK
    ensures Feed(limits, g, []) == Ok(g)
  {
  }

  // The trailer ----------------------------------------------------------------------------------

  /** The guard after some zero blocks. */
  function AfterZeros(c: Context, n: nat): Guard {
    Between(c).(zeroBlocks := n, terminated := n >= 2)
  }

  lemma {:induction false} FeedZeros(limits: Limits, c: Context, n: nat, m: nat)
    ensures Feed(limits, AfterZeros(c, n), Zeros(m * BLOCK)) == Ok(AfterZeros(c, n + m))
    decreases m
  {
    hide Feed;
    if m == 0 {
      FeedNothing(limits, AfterZeros(c, n));
    } else {
      assert Zeros(m * BLOCK) == Zeros(BLOCK) + Zeros((m - 1) * BLOCK);
      FeedBlock(limits, AfterZeros(c, n), Zeros(BLOCK), Zeros((m - 1) * BLOCK));
      FeedZeros(limits, c, n + 1, m - 1);
    }
  }

  lemma {:induction false} OnlyZeros(limits: Limits, c: Context, n: nat, bytes: Bytes) returns (m: nat)
    requires 0 < n && Accepted(limits, AfterZeros(c, n), bytes)
    ensures bytes == Zeros(m * BLOCK) && n + m >= 2
    decreases |bytes|
  {
    hide Feed;
    var g := AfterZeros(c, n);
    if |bytes| < BLOCK {
      FeedHeaderPart(limits, g, bytes);
      assert g.header + bytes == bytes;
      m := 0;
    } else {
      var header, rest := bytes[..BLOCK], bytes[BLOCK..];
      assert header + rest == bytes;
      FeedBlock(limits, g, header, rest);
      m := OnlyZeros(limits, c, n + 1, rest);
      m := m + 1;
      assert bytes == Zeros(BLOCK) + Zeros((m - 1) * BLOCK) == Zeros(m * BLOCK);
    }
  }

  // Both directions ----------------------------------------------------------------------------------

  lemma {:induction false} SoundAccepted(limits: Limits, c: Context, tape: Tape)
    requires Sound(c, limits, tape)
    ensures Accepted(limits, Between(c), Written(tape))
    decreases tape
  {
    hide Feed, Admitted, Framed;
    match tape
    case Trailer(zeros) =>
      assert Between(c) == AfterZeros(c, 0);
      FeedZeros(limits, c, 0, zeros);
    case Entry(record, rest) =>
      FramedIfAdmitted(c, limits, record);
      FeedRecord(limits, c, record, Written(rest));
      SoundAccepted(limits, Next(c, record), rest);
  }

  lemma FramedIfAdmitted(c: Context, limits: Limits, r: Record)
    requires Admitted(c, limits, r)
    ensures Framed(r)
  {
  }

  lemma ShortIsRefused(limits: Limits, c: Context, bytes: Bytes)
    requires |bytes| < BLOCK
    ensures !Accepted(limits, Between(c), bytes)
  {
    FeedHeaderPart(limits, Between(c), bytes);
  }

  lemma {:induction false} AcceptedSound(limits: Limits, c: Context, bytes: Bytes) returns (tape: Tape)
    requires Accepted(limits, Between(c), bytes)
    ensures Sound(c, limits, tape) && bytes == Written(tape)
    decreases |bytes|
  {
    hide Feed, Admitted, Next;
    var g := Between(c);
    if |bytes| < BLOCK {
      ShortIsRefused(limits, c, bytes);
      assert false;
    }
    var header, rest := bytes[..BLOCK], bytes[BLOCK..];
    assert header + rest == bytes;
    if header == Zeros(BLOCK) {
      FeedBlock(limits, g, header, rest);
      var m := OnlyZeros(limits, c, 1, rest);
      tape := Trailer(m + 1);
      assert Zeros(BLOCK) + Zeros(m * BLOCK) == Zeros((m + 1) * BLOCK);
    } else {
      var record := FirstRecord(limits, c, header, rest);
      var more := rest[|record.body|..];
      assert (record.header + record.body) + more == bytes;
      FeedRecord(limits, c, record, more);
      var following := AcceptedSound(limits, Next(c, record), more);
      tape := Entry(record, following);
    }
  }

  lemma FirstRecord(limits: Limits, c: Context, header: Bytes, rest: Bytes) returns (record: Record)
    requires |header| == BLOCK && header != Zeros(BLOCK)
    requires Accepted(limits, Between(c), header + rest)
    ensures Framed(record) && record.header == header
    ensures |record.body| <= |rest| && record.body == rest[..|record.body|]
  {
    hide Feed;
    FeedBlock(limits, Between(c), header, rest);
    var g := ConsumeHeader(limits, Between(c), header).value;
    var padded := HeaderSize(limits, c, header);
    if |rest| < padded {
      if rest == [] {
        FeedNothing(limits, g);
      } else {
        FeedData(limits, g, rest);
      }
      assert false;
    }
    record := Record(header, rest[..padded]);
  }

  lemma HeaderSize(limits: Limits, c: Context, header: Bytes) returns (padded: nat)
    requires |header| == BLOCK && header != Zeros(BLOCK)
    requires ConsumeHeader(limits, Between(c), header).Ok?
    ensures Size(header).Ok? && padded == Padded(Size(header).value)
    ensures ConsumeHeader(limits, Between(c), header).value.dataRemaining == padded
  {
    hide ValidChecksum, SafeName, RawName, SparseMetadata, Zeros, UpToZero;
    padded := Padded(Size(header).value);
  }

  /** What the guard lets through, in terms of the archive alone. */
  lemma GuardAcceptsGrammar(limits: Limits, bytes: Bytes)
    ensures (|bytes| <= limits.bytes && Accepted(limits, START, bytes)) <==> Acceptable(limits, bytes)
  {
    assert START == Between(FIRST);
    if Accepted(limits, START, bytes) {
      var tape := AcceptedSound(limits, FIRST, bytes);
    }
    forall tape | Sound(FIRST, limits, tape) && bytes == Written(tape)
      ensures Accepted(limits, START, bytes)
    {
      SoundAccepted(limits, FIRST, tape);
    }
  }
}
