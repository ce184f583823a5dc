/** What the limits of a policy leave room for. */
module TarRoom {
  import opened Outcomes
  import opened ByteStrings
  import opened TarFormat
  import opened TarGuard

  /** How many records of a tape are extensions, or are not, and the bytes that they say
      they have. */
  datatype Usage = Usage(members: nat, data: nat, extensions: nat, metadata: nat)

  ghost predicate AllFramed(tape: Tape) {
    match tape
    case Trailer(_) => true
    case Entry(record, rest) => Framed(record) && AllFramed(rest)
  }

  ghost function UsageOf(tape: Tape): Usage
    requires AllFramed(tape)
  {
    match tape
    case Trailer(_) => Usage(0, 0, 0, 0)
    case Entry(record, rest) =>
      var u := UsageOf(rest);
      var size := Size(record.header).value;
      if IsExtension(TypeFlag(record.header)) then u.(extensions := u.extensions + 1, metadata := u.metadata + size)
      else u.(members := u.members + 1, data := u.data + size)
  }

  ghost function Zeroed(tape: Tape): nat {
    match tape
    case Trailer(zeros) => zeros
    case Entry(_, rest) => Zeroed(rest)
  }

  /** The policy grants all that the tape uses. */
  ghost predicate Granted(policy: Policy, tape: Tape) {
    && AllFramed(tape) && Zeroed(tape) == 2
    && var u := UsageOf(tape);
       && u.members <= policy.maxMembers && u.data <= policy.maxTotalSize
       && u.extensions <= policy.maxMembers && u.metadata <= MAX_EXTENSION_TOTAL
  }

  /** A record takes less than two blocks more than its data. */
  lemma {:induction false} TapeLength(tape: Tape)
    requires AllFramed(tape)
    ensures var u := UsageOf(tape);
      |Written(tape)| <= u.data + u.metadata + (u.members + u.extensions) * (2 * BLOCK - 1) + Zeroed(tape) * BLOCK
    decreases tape
  {
    hide Framed, IsExtension;
    match tape
    case Trailer(_) =>
    case Entry(record, rest) =>
      TapeLength(rest);
      RecordLength(record);
  }

  lemma RecordLength(record: Record)
    requires Framed(record)
    ensures Size(record.header).Ok? && |record.header| == BLOCK
    ensures |record.header + record.body| <= Size(record.header).value + 2 * BLOCK - 1
  {
    hide Size, Zeros;
  }

  /** An archive that some limits let through, and that uses no more than the policy grants, is
      let through by the limits of the policy. */
  lemma PolicyHasRoom(policy: Policy, other: Limits, tape: Tape)
    requires Granted(policy, tape) && Sound(FIRST, other, tape)
    ensures Acceptable(LimitsOf(policy), Written(tape))
  {
    hide Sound, AllFramed, UsageOf, Zeroed, Written, Framed;
    TapeLength(tape);
    MoreRoom(FIRST, other, LimitsOf(policy), tape);
    var u := UsageOf(tape);
    assert (u.members + u.extensions) * (2 * BLOCK - 1) <= 2 * policy.maxMembers * 1024;
  }

  lemma {:induction false} MoreRoom(context: Context, a: Limits, b: Limits, tape: Tape)
    requires AllFramed(tape) && Sound(context, a, tape)
    requires context.count + UsageOf(tape).extensions <= b.extensions
    ensures Sound(context, b, tape)
    decreases tape
  {
    hide Framed, ValidChecksum, SafeName, RawName, SparseMetadata;
    match tape
    case Trailer(_) =>
    case Entry(record, rest) =>
      MoreRoom(Next(context, record), a, b, rest);
  }

  /** An archive that is let through has no more extensions than members are granted, and
      is bounded by what is granted. */
  lemma PolicyBounds(policy: Policy, tape: Tape)
    requires AllFramed(tape) && Sound(FIRST, LimitsOf(policy), tape) && |Written(tape)| <= LimitsOf(policy).bytes
    ensures UsageOf(tape).extensions <= policy.maxMembers
    ensures |Written(tape)| <= policy.maxTotalSize + MAX_EXTENSION_TOTAL + (4 * policy.maxMembers + 2) * BLOCK
  {
    hide Sound, UsageOf, Written;
    CountBound(FIRST, LimitsOf(policy), tape);
  }

  lemma {:induction false} CountBound(context: Context, limits: Limits, tape: Tape)
    requires AllFramed(tape) && Sound(context, limits, tape)
    ensures UsageOf(tape).extensions > 0 ==> context.count + UsageOf(tape).extensions <= limits.extensions
    decreases tape
  {
    hide Framed, ValidChecksum, SafeName, RawName, SparseMetadata;
    match tape
    case Trailer(_) =>
    case Entry(record, rest) =>
      CountBound(Next(context, record), limits, rest);
  }
}
