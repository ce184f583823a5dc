/** The guard that a tar reader pulls its bytes through. */
module TarGuard {
  import opened Outcomes
  import opened ByteStrings
  import opened TarFormat
  import opened TarStates
  import opened TarGrammar

  const READ_SIZE: nat := 1024 * 1024

  /** What an archive policy grants. */
  datatype Policy = Policy(maxMembers: nat, maxTotalSize: nat)

  function LimitsOf(policy: Policy): Limits {
    Limits(policy.maxTotalSize + 2 * policy.maxMembers * 1024 + MAX_EXTENSION_TOTAL + 1024, policy.maxMembers)
  }

  class TarGuard {
    const source: Bytes
    const limits: Limits
    var taken: nat // how much of the source was read
    var consumed: nat
    var position: nat
    var header: Bytes
    var dataRemaining: nat
    var extensionRemaining: nat
    var extensionKind: Option<Byte>
    var extensionPayload: Bytes
    var longName: Option<Bytes>
    var extensionTotal: nat
    var extensionCount: nat
    var extensionDepth: nat
    var zeroBlocks: nat
    var terminated: bool

    constructor (source: Bytes, policy: Policy)
      ensures this.source == source && limits == LimitsOf(policy) && taken == 0
      ensures Valid()
    {
      this.source, limits := source, LimitsOf(policy);
      taken, consumed, position := 0, 0, 0;
      header, dataRemaining := [], 0;
      extensionRemaining, extensionKind, extensionPayload, longName := 0, None, [], None;
      extensionTotal, extensionCount, extensionDepth := 0, 0, 0;
      zeroBlocks, terminated := 0, false;
      new;
      assert source[..0] == [];
    }

    function State(): Guard
      reads this
    {
      Guard(header, dataRemaining, extensionRemaining, extensionKind, extensionPayload, longName,
            extensionTotal, extensionCount, extensionDepth, zeroBlocks, terminated)
    }

    /** However it was read, the guard is where the bytes read so far lead. */
    ghost predicate Valid()
      reads this
    {
      && taken <= |source| && consumed == position == taken && consumed <= limits.bytes
      && Feed(limits, START, source[..taken]) == Ok(State())
      && Invariant(State(), taken)
    }

    /** Read at most size bytes, all of READ_SIZE if no size is given. */
    method Read(size: Option<nat>) returns (r: Result<Bytes, TarError>)
      requires Valid()
      modifies this
      ensures r.Ok? ==>
        && Valid() && old(taken) <= taken && r.value == source[old(taken)..taken]
        && (size.Some? ==> |r.value| <= size.value) && |r.value| <= READ_SIZE
        && (r.value == [] ==> taken == |source| || size == Some(0))
      ensures r.Err? ==> !Acceptable(limits, source) && (|source| > limits.bytes || Feed(limits, START, source).Err?)
    {
      var request := if size.Some? && size.value < READ_SIZE then size.value else READ_SIZE;
      var from := taken;
      var data := Pull(request);
      var done := Consume(data);
      if done.Err? {
        RefusedPrefix(limits, source, from, data);
        return Err(done.error);
      }
      position := position + |data|;
      ExtendFed(limits, source, from, data);
      r := Ok(data);
    }

    /** The next bytes of the source: some, unless there are none. */
    method Pull(request: nat) returns (data: Bytes)
      requires taken <= |source|
      modifies `taken
      ensures old(taken) <= taken <= |source| && data == source[old(taken)..taken]
      ensures |data| <= request && (data == [] ==> request == 0 || taken == |source|)
    {
      var left := |source| - taken;
      var most := if left < request then left else request;
      var count: nat :| count <= most && (count == 0 ==> most == 0);
      data := source[taken..taken + count];
      taken := taken + count;
    }

    /** Read what is left, and say whether the archive ends as it should. */
    method Finish() returns (r: Result<(), TarError>)
      requires Valid()
      modifies this
      ensures r.Ok? <==> Acceptable(limits, source)
      ensures r.Ok? ==> Valid() && taken == |source|
      ensures |source| <= limits.bytes && Feed(limits, START, source).Ok? && r.Err? ==> r.error == StreamInvalid
    {
      while true
        invariant Valid()
        decreases |source| - taken
      {
        var data := Read(None);
        if data.Err? {
          return Err(data.error);
        }
        if data.value == [] {
          break;
        }
      }
      assert source[..taken] == source;
      GuardAcceptsGrammar(limits, source);
      if header != [] || dataRemaining > 0 || extensionKind.Some? || !terminated || zeroBlocks < 2 {
        return Err(StreamInvalid);
      }
      r := Ok(());
    }

    method Consume(data: Bytes) returns (r: Result<(), TarError>)
      requires |header| < BLOCK && (dataRemaining > 0 ==> header == [])
      modifies this
      ensures taken == old(taken) && position == old(position)
      ensures consumed == old(consumed) + |data|
      ensures r.Ok? ==> |header| < BLOCK && (dataRemaining > 0 ==> header == [])
      ensures match r
        case Ok(_) => consumed <= limits.bytes && Feed(limits, old(State()), data) == Ok(State())
        case Err(_) => consumed > limits.bytes || Feed(limits, old(State()), data).Err?
    {
      hide Feed;
      consumed := consumed + |data|;
      if consumed > limits.bytes {
        return Err(TooLarge);
      }
      ghost var start := State();
      var offset := 0;
      assert data[0..] == data;
      while offset < |data|
        invariant offset <= |data| && |header| < BLOCK && (dataRemaining > 0 ==> header == [])
        invariant taken == old(taken) && position == old(position) && consumed == old(consumed) + |data|
        invariant Feed(limits, start, data) == Feed(limits, State(), data[offset..])
      {
        var amount := |data| - offset;
        var wanted := if dataRemaining > 0 then dataRemaining else BLOCK - |header|;
        amount := if wanted < amount then wanted else amount;
        ghost var part, rest := data[offset..offset + amount], data[offset + amount..];
        FeedBoth(limits, State(), part, rest);
        assert part + rest == data[offset..];
        if dataRemaining > 0 {
          var _ :- TakeData(data[offset..offset + amount]);
        } else {
          var _ :- TakeHeader(data[offset..offset + amount]);
        }
        offset := offset + amount;
      }
      FeedNothing(limits, State());
      assert data[offset..] == [];
      r := Ok(());
    }

    /** Take data bytes, and keep those of an extension's payload. */
    method TakeData(part: Bytes) returns (r: Result<(), TarError>)
      requires |header| < BLOCK && 0 < |part| <= dataRemaining && header == []
      modifies this
      ensures taken == old(taken) && position == old(position) && consumed == old(consumed)
      ensures match r
        case Ok(_) => header == [] && Feed(limits, old(State()), part) == Ok(State())
        case Err(_) => Feed(limits, old(State()), part).Err?
    {
      hide Feed, FinishExtension;
      ghost var g := State();
      FeedData(limits, g, part);
      if extensionKind.Some? {
        var payloadAmount := if extensionRemaining < |part| then extensionRemaining else |part|;
        extensionPayload := extensionPayload + part[..payloadAmount];
        extensionRemaining := extensionRemaining - payloadAmount;
      }
      assert extensionKind.None? ==> extensionPayload + part[..0] == extensionPayload;
      dataRemaining := dataRemaining - |part|;
      assert State() == Taken(g, part);
      if dataRemaining == 0 {
        var _ :- EndExtension();
      }
      r := Ok(());
    }

    /** Take bytes of a header, and read it when it is complete. */
    method TakeHeader(part: Bytes) returns (r: Result<(), TarError>)
      requires dataRemaining == 0 && |header| < BLOCK && |header| + |part| <= BLOCK
      modifies this
      ensures taken == old(taken) && position == old(position) && consumed == old(consumed)
      ensures match r
        case Ok(_) =>
          && |header| < BLOCK && (dataRemaining > 0 ==> header == [])
          && Feed(limits, old(State()), part) == Ok(State())
        case Err(_) => Feed(limits, old(State()), part).Err?
    {
      hide Feed, ConsumeHeader;
      ghost var g := State();
      header := header + part;
      if |header| == BLOCK {
        FeedHeaderRest(limits, g, part);
        var block := header;
        header := [];
        var _ :- EndHeader(block);
      } else {
        FeedHeaderPart(limits, g, part);
      }
      r := Ok(());
    }

    method EndHeader(block: Bytes) returns (r: Result<(), TarError>)
      requires |block| == BLOCK && header == [] && dataRemaining == 0
      modifies this
      ensures taken == old(taken) && position == old(position) && consumed == old(consumed)
      ensures match r
        case Ok(_) => header == [] && ConsumeHeader(limits, old(State()), block) == Ok(State())
        case Err(error) => ConsumeHeader(limits, old(State()), block) == Err(error)
    {
      hide FinishExtension, ValidChecksum, SafeName, RawName, Size, SparseMetadata, Zeros;
      if block == Zeros(BLOCK) {
        zeroBlocks := zeroBlocks + 1;
        if zeroBlocks >= 2 {
          terminated := true;
        }
        return Ok(());
      }
      if zeroBlocks > 0 || terminated || !ValidChecksum(block) {
        return Err(StreamInvalid);
      }
      var typeflag := TypeFlag(block);
      if typeflag == TYPE_SPARSE {
        return Err(SparseForbidden);
      }
      if !IsExtension(typeflag) {
        if !SafeName(RawName(block, typeflag, longName)) {
          return Err(UnsafeName);
        }
        longName := None;
      }
      var size :- Size(block);
      if IsExtension(typeflag) {
        extensionCount := extensionCount + 1;
        extensionDepth := extensionDepth + 1;
        extensionTotal := extensionTotal + size;
        if size > MAX_EXTENSION || extensionTotal > MAX_EXTENSION_TOTAL || extensionCount > limits.extensions {
          return Err(MetadataLimit);
        }
        if extensionDepth > MAX_EXTENSION_DEPTH {
          return Err(DepthLimit);
        }
        extensionKind := Some(typeflag);
        extensionRemaining := size;
        extensionPayload := [];
      } else {
        extensionDepth := 0;
      }
      dataRemaining := Padded(size);
      if dataRemaining == 0 {
        var _ :- EndExtension();
      }
      r := Ok(());
    }

    method EndExtension() returns (r: Result<(), TarError>)
      modifies this
      ensures taken == old(taken) && position == old(position) && consumed == old(consumed)
      ensures header == old(header)
      ensures match r
        case Ok(_) => FinishExtension(old(State())) == Ok(State())
        case Err(error) => FinishExtension(old(State())) == Err(error)
    {
      hide SparseMetadata, UpToZero;
      if extensionKind.Some? && IsPax(extensionKind.value) {
        if SparseMetadata(extensionPayload) {
          return Err(SparseForbidden);
        }
      } else if extensionKind == Some(TYPE_LONG_NAME) {
        longName := Some(UpToZero(extensionPayload));
      }
      extensionKind := None;
      extensionRemaining := 0;
      extensionPayload := [];
      r := Ok(());
    }
  }

  /** A source with a refused beginning is not acceptable. */
  lemma RefusedPrefix(limits: Limits, source: Bytes, from: nat, data: Bytes)
    requires from + |data| <= |source| && data == source[from..from + |data|]
    requires Feed(limits, START, source[..from]).Ok?
    requires from + |data| > limits.bytes || Feed(limits, Feed(limits, START, source[..from]).value, data).Err?
    ensures !Acceptable(limits, source)
    ensures |source| > limits.bytes || Feed(limits, START, source).Err?
  {
    hide Feed, Acceptable;
    var to := from + |data|;
    FeedBoth(limits, START, source[..from], data);
    FeedBoth(limits, START, source[..to], source[to..]);
    assert source[..from] + data == source[..to] && source[..to] + source[to..] == source;
    GuardAcceptsGrammar(limits, source);
  }

  lemma JoinsPrefix(source: Bytes, from: nat, data: Bytes)
    requires from + |data| <= |source| && data == source[from..from + |data|]
    ensures source[..from] + data == source[..from + |data|]
  {
  }

  lemma ExtendFed(limits: Limits, source: Bytes, from: nat, data: Bytes)
    requires from + |data| <= |source| && data == source[from..from + |data|]
    requires Feed(limits, START, source[..from]).Ok?
    requires Invariant(Feed(limits, START, source[..from]).value, from)
    requires Feed(limits, Feed(limits, START, source[..from]).value, data).Ok?
    ensures var g := Feed(limits, Feed(limits, START, source[..from]).value, data).value;
      Feed(limits, START, source[..from + |data|]) == Ok(g) && Invariant(g, from + |data|)
  {
    hide Feed, Invariant;
    FeedBoth(limits, START, source[..from], data);
    JoinsPrefix(source, from, data);
    FeedInvariant(limits, Feed(limits, START, source[..from]).value, data, from);
  }
}
