/** Number fields and checksums as they are written, and what reading makes of them. */
module TarNumbers {
  import opened Outcomes
  import opened ByteStrings
  import opened TarFormat

  function Power(base: nat, n: nat): nat {
    if n == 0 then 1 else base * Power(base, n - 1)
  }

  /** The digits of n, as many as width, the most significant first. */
  function Digits(n: nat, base: nat, width: nat): (digits: Bytes)
    requires 0 < base <= 256
    ensures |digits| == width && forall i | 0 <= i < width :: digits[i] < base
    decreases width
  {
    if width == 0 then [] else
      assert 0 <= n % base < base;
      Digits(n / base, base, width - 1) + [n % base]
  }

  lemma {:induction false} DigitsRead(n: nat, base: nat, width: nat)
    requires 0 < base <= 256 && n < Power(base, width)
    ensures BigEndian(Digits(n, base, width), base) == n
    decreases width
  {
    if width > 0 {
      QuotientFits(n, base, Power(base, width - 1));
      DigitsRead(n / base, base, width - 1);
      var digits := Digits(n, base, width);
      assert digits[..width - 1] == Digits(n / base, base, width - 1);
      DivMod(n, base);
    }
  }

  lemma QuotientFits(n: nat, base: nat, rest: nat)
    requires 0 < base && n < base * rest
    ensures n / base < rest
  {
    if n / base >= rest {
      DivMod(n, base);
    }
  }

  lemma DivMod(n: nat, base: nat)
    requires 0 < base
    ensures n == n / base * base + n % base
  {
  }

  // Octal fields ---------------------------------------------------------------------------------

  /** A number as octal digits, with what ends the field: blanks or zero bytes. */
  function OctalField(n: nat, width: nat, tail: Bytes): (field: Bytes)
    ensures |field| == width + |tail|
  {
    Numerals(Digits(n, 8, width)) + tail
  }

  function Numerals(digits: Bytes): (numerals: Bytes)
    requires forall i | 0 <= i < |digits| :: digits[i] < 8
    ensures |numerals| == |digits| && forall i | 0 <= i < |digits| :: (numerals[i] as int) == (digits[i] as int) + 0x30
  {
    seq(|digits|, i requires 0 <= i < |digits| => digits[i] + 0x30)
  }

  lemma {:induction false} StripBlanks(head: Bytes, field: Bytes, tail: Bytes)
    requires field != [] && !IsBlank(field[0]) && !IsBlank(field[|field| - 1])
    requires (forall b | b in head :: IsBlank(b)) && (forall b | b in tail :: IsBlank(b))
    ensures Strip(head + field + tail) == field
    decreases |head| + |tail|
  {
    var whole := head + field + tail;
    if head != [] {
      assert whole[0] == head[0] && IsBlank(head[0]) && whole[1..] == head[1..] + field + tail;
      StripBlanks(head[1..], field, tail);
    } else if tail != [] {
      assert whole[0] == field[0] && whole[|whole| - 1] == tail[|tail| - 1];
      assert IsBlank(tail[|tail| - 1]);
      assert whole[..|whole| - 1] == head + field + tail[..|tail| - 1];
      StripBlanks(head, field, tail[..|tail| - 1]);
    } else {
      assert whole == field;
    }
  }

  lemma {:induction false} StripAll(blanks: Bytes)
    requires forall b | b in blanks :: IsBlank(b)
    ensures Strip(blanks) == []
    decreases |blanks|
  {
    if blanks != [] {
      assert blanks[0] in blanks;
      StripAll(blanks[1..]);
    }
  }

  /** What is written in octal is read back, whatever blanks surround it. */
  lemma OctalRoundTrip(n: nat, width: nat, head: Bytes, tail: Bytes)
    requires 0 < width && n < Power(8, width)
    requires (forall b | b in head :: IsBlank(b)) && (forall b | b in tail :: IsBlank(b))
    ensures TarNumber(head + OctalField(n, width, tail)) == Ok(n)
  {
    hide Strip, Power, BigEndian;
    var digits := Digits(n, 8, width);
    var numerals := Numerals(digits);
    var field := head + OctalField(n, width, tail);
    assert field == head + numerals + tail;
    assert forall b | b in numerals :: 0x30 <= b <= 0x37;
    assert head != [] ==> field[0] == head[0] && head[0] in head && IsBlank(head[0]);
    assert head == [] ==> field[0] == numerals[0];
    StripBlanks(head, numerals, tail);
    DigitsRead(n, 8, width);
    assert OctalDigits(numerals) == digits;
  }

  /** The blanks of a field are spaces and zero bytes. */
  lemma Blanks(b: Byte)
    ensures IsBlank(b) <==> b as char == ' ' || b == 0
  {
  }

  /** A field of blanks is zero; no number is empty, negative, or written with other digits. */
  lemma NumbersRefused(field: Bytes)
    ensures field != [] && (forall b | b in field :: IsBlank(b)) ==> TarNumber(field) == Ok(0)
    ensures field == [] || 0xC0 <= field[0] ==> TarNumber(field).Err?
    ensures field != [] && field[0] < 0x80 && (exists b | b in field :: !IsBlank(b) && !(0x30 <= b <= 0x37)) ==>
      TarNumber(field).Err?
    ensures TarNumber(field).Ok? || TarNumber(field) == Err(StreamInvalid)
  {
    if field != [] && forall b | b in field :: IsBlank(b) {
      assert field[0] in field;
      StripAll(field);
    }
    if b :| b in field && !IsBlank(b) && !(0x30 <= b <= 0x37) {
      StripKeeps(field, b);
    }
  }

  lemma {:induction false} StripKeeps(field: Bytes, b: Byte)
    requires b in field && !IsBlank(b)
    ensures b in Strip(field)
    decreases |field|
  {
    if IsBlank(field[0]) {
      assert field == [field[0]] + field[1..];
      StripKeeps(field[1..], b);
    } else if IsBlank(field[|field| - 1]) {
      assert field == field[..|field| - 1] + [field[|field| - 1]];
      StripKeeps(field[..|field| - 1], b);
    }
  }

  // Base-256 fields -----------------------------------------------------------------------------

  function BinaryField(n: nat, width: nat): (field: Bytes)
    requires 0 < width && n < 0x40 * Power(256, width - 1)
    ensures |field| == width
  {
    var digits := Digits(n, 256, width);
    if digits[0] < 0x40 then [digits[0] + 0x80] + digits[1..] else digits
  }

  /** The first digit of a number that leaves its two highest bits free. */
  lemma {:induction false} FirstDigit(n: nat, width: nat)
    requires 0 < width && n < 0x40 * Power(256, width - 1)
    ensures Digits(n, 256, width)[0] < 0x40
    decreases width
  {
    if width > 1 {
      assert Power(256, width - 1) == 256 * Power(256, width - 2);
      QuotientFits(n, 256, 0x40 * Power(256, width - 2));
      FirstDigit(n / 256, width - 1);
      assert Digits(n, 256, width)[0] == Digits(n / 256, 256, width - 1)[0];
    }
  }

  lemma {:induction false} PowerGrows(base: nat, n: nat)
    requires 0 < base
    ensures 0 < Power(base, n)
  {
    if n > 0 {
      PowerGrows(base, n - 1);
      assert 0 < base * Power(base, n - 1);
    }
  }

  /** What is written in base 256 is read back. */
  lemma BinaryRoundTrip(n: nat, width: nat)
    requires 0 < width && n < 0x40 * Power(256, width - 1)
    ensures TarNumber(BinaryField(n, width)) == Ok(n)
  {
    FirstDigit(n, width);
    PowerGrows(256, width - 1);
    DigitsRead(n, 256, width);
    hide Power, BigEndian, Strip, Digits;
    var digits := Digits(n, 256, width);
    var field := BinaryField(n, width);
    assert [field[0] - 0x80] + field[1..] == digits;
  }

  // Checksums --------------------------------------------------------------------------------------

  lemma {:induction false} SumChanged(bytes: Bytes, i: nat, b: Byte)
    requires i < |bytes|
    ensures Sum(bytes[i := b]) == Sum(bytes) - bytes[i] + b
    decreases |bytes|
  {
    if i == 0 {
      assert bytes[0 := b][1..] == bytes[1..];
    } else {
      assert bytes[i := b][1..] == bytes[1..][i - 1 := b];
      SumChanged(bytes[1..], i - 1, b);
    }
  }

  lemma {:induction false} SumsAgree(bytes: Bytes) returns (k: nat)
    ensures SignedSum(bytes) == Sum(bytes) - 256 * k
    decreases |bytes|
  {
    if bytes == [] {
      k := 0;
    } else {
      var rest := SumsAgree(bytes[1..]);
      k := if bytes[0] < 128 then rest else rest + 1;
    }
  }

  /** The two sums of a header, its checksum field read as blanks. */
  function Unsigned(header: Bytes): nat
    requires |header| == BLOCK
  {
    Sum(header[..148]) + 8 * 0x20 + Sum(header[156..])
  }

  /** A valid checksum is the sum of the header, but for a multiple of 256. */
  lemma ValidModulo(header: Bytes) returns (k: nat)
    requires |header| == BLOCK && ValidChecksum(header)
    ensures TarNumber(header[148..156]) == Ok(Unsigned(header) - 256 * k)
  {
    hide TarNumber, Sum, SignedSum;
    var a := SumsAgree(header[..148]);
    var b := SumsAgree(header[156..]);
    k := if TarNumber(header[148..156]).value == Unsigned(header) then 0 else a + b;
  }

  /** Any one byte that is changed outside the checksum field is noticed. */
  lemma ChecksumNoticesChange(header: Bytes, i: nat, b: Byte)
    requires |header| == BLOCK && ValidChecksum(header)
    requires i < 148 || 156 <= i < BLOCK
    requires b != header[i]
    ensures !ValidChecksum(header[i := b])
  {
    hide TarNumber, ValidChecksum, Sum;
    var changed := header[i := b];
    assert changed[148..156] == header[148..156];
    if i < 148 {
      assert changed[..148] == header[..148][i := b] && changed[156..] == header[156..];
      SumChanged(header[..148], i, b);
    } else {
      assert changed[..148] == header[..148] && changed[156..] == header[156..][i - 156 := b];
      SumChanged(header[156..], i - 156, b);
    }
    assert Unsigned(changed) == Unsigned(header) - header[i] + b;
    if ValidChecksum(changed) {
      var k := ValidModulo(header);
      var l := ValidModulo(changed);
      assert false;
    }
  }

  /** A checksum of either kind is valid, and no other. */
  lemma ValidMeans(header: Bytes, n: nat, tail: Bytes)
    requires |header| == BLOCK && |tail| == 2 && forall b | b in tail :: IsBlank(b)
    requires n < Power(8, 6) && header[148..156] == OctalField(n, 6, tail)
    ensures ValidChecksum(header) <==>
      || n == Sum(header[..148]) + 256 + Sum(header[156..])
      || n == SignedSum(header[..148]) + 256 + SignedSum(header[156..])
  {
    hide TarNumber, Sum, SignedSum, OctalField, Power;
    OctalRoundTrip(n, 6, [], tail);
    assert [] + OctalField(n, 6, tail) == OctalField(n, 6, tail);
  }

  /** A header with its own sum in the checksum field is valid. */
  lemma WrittenChecksumIsValid(header: Bytes, tail: Bytes)
    requires |header| == BLOCK && |tail| == 2 && forall b | b in tail :: IsBlank(b)
    requires Unsigned(header) < Power(8, 6)
    requires header[148..156] == OctalField(Unsigned(header), 6, tail)
    ensures ValidChecksum(header)
  {
    hide TarNumber, Sum, SignedSum, OctalField, Power;
    OctalRoundTrip(Unsigned(header), 6, [], tail);
    assert [] + OctalField(Unsigned(header), 6, tail) == OctalField(Unsigned(header), 6, tail);
  }
}
