/**
 Integer formatting and the fixed buffer of the log stream
 (myTinymuduo/base/LogStream.cpp, LogStream.h).
 */
module LogStream {
  import opened Prelude

  /** Room that formatInteger asks for (kMaxNumbersize). */
  const NUMBER_ROOM := 48

  const MIN_INT64 := -0x8000_0000_0000_0000
  const MAX_INT := 0x7fff_ffff
  const MAX_UINT64 := 0xffff_ffff_ffff_ffff

  /** The table digits; zero points at its middle. */
  const DIGITS: string := "9876543210123456789"
  const ZERO := 9

  /** C++ division truncates toward zero, and the remainder has the sign of the dividend. */
  function TruncDiv(a: int, b: int): int
    requires b > 0
  {
    if a < 0 then -((-a) / b) else a / b
  }

  function TruncMod(a: int, b: int): int
    requires b > 0
  {
    a - TruncDiv(a, b) * b
  }

  // ---- decimal text ----

  function DigitChar(d: int): char
    requires 0 <= d < 10
  {
    ('0' as int + d) as char
  }

  function Decimal(n: nat): (s: string)
    ensures s != []
  {
    if n < 10 then [DigitChar(n)] else Decimal(n / 10) + [DigitChar(n % 10)]
  }

  function Text(v: int): string {
    if v < 0 then "-" + Decimal(-v) else Decimal(v)
  }

  /** Reading decimal text, as an independent definition: Horner's rule from the left. */
  function DigitValue(c: char): int {
    c as int - '0' as int
  }

  function ParseDigits(s: string): int {
    if s == [] then 0 else 10 * ParseDigits(s[..|s| - 1]) + DigitValue(s[|s| - 1])
  }

  function Parse(s: string): int {
    if s != [] && s[0] == '-' then -ParseDigits(s[1..]) else ParseDigits(s)
  }

  predicate IsDigit(c: char) {
    '0' <= c <= '9'
  }

  lemma DigitCharValue(d: int)
    requires 0 <= d < 10
    ensures IsDigit(DigitChar(d)) && DigitValue(DigitChar(d)) == d
  {
  }

  /** The table has the digit of d at distance d from its middle, on either side. */
  lemma TableIsSymmetric(d: int)
    requires 0 <= d < 10
    ensures DIGITS[ZERO + d] == DigitChar(d) && DIGITS[ZERO - d] == DigitChar(d)
  {
    assert DIGITS == ['9', '8', '7', '6', '5', '4', '3', '2', '1', '0', '1', '2', '3', '4', '5', '6', '7', '8', '9'];
  }

  lemma {:induction false} DecimalReads(n: nat)
    ensures ParseDigits(Decimal(n)) == n
    ensures forall c :: c in Decimal(n) ==> IsDigit(c)
    ensures Decimal(n)[0] == '0' <==> n == 0
  {
    if n < 10 {
      DigitCharValue(n);
      assert ParseDigits([DigitChar(n)][..0]) == 0;
    } else {
      DecimalReads(n / 10);
      DigitCharValue(n % 10);
      assert Decimal(n)[..|Decimal(n)| - 1] == Decimal(n / 10);
    }
  }

  /** The text of every integer reads back as that integer, in digits, with no leading zero. */
  lemma TextReadsBack(v: int)
    ensures Parse(Text(v)) == v
    ensures var body := if v < 0 then Text(v)[1..] else Text(v);
            (forall c :: c in body ==> IsDigit(c)) && (v != 0 ==> body[0] != '0') && (v == 0 ==> body == "0")
  {
    if v < 0 {
      DecimalReads(-v);
      assert Text(v)[1..] == Decimal(-v);
    } else {
      DecimalReads(v);
      DigitCharValue(0);
      assert Decimal(v)[0] in Decimal(v);
    }
  }

  function Pow10(k: nat): (p: nat)
    ensures p >= 1
  {
    if k == 0 then 1 else 10 * Pow10(k - 1)
  }

  lemma {:induction false} DecimalLength(n: nat, k: nat)
    requires 0 < k && n < Pow10(k)
    ensures |Decimal(n)| <= k
  {
    assert Pow10(1) == 10;
    if n >= 10 {
      DecimalLength(n / 10, k - 1);
    }
  }

  lemma Pow10Steps(k: nat)
    ensures Pow10(k + 4) == 10000 * Pow10(k)
  {
    assert Pow10(k + 4) == 10 * Pow10(k + 3);
    assert Pow10(k + 3) == 10 * Pow10(k + 2);
    assert Pow10(k + 2) == 10 * Pow10(k + 1);
  }

  /** The text of any 32 or 64 bit value, signed or not, with its terminator fits the room asked for. */
  lemma TextFits(v: int)
    requires MIN_INT64 <= v <= MAX_UINT64
    ensures |Text(v)| <= 20 && |Text(v)| + 1 <= NUMBER_ROOM
  {
    Pow10Steps(0);
    Pow10Steps(4);
    Pow10Steps(8);
    Pow10Steps(12);
    Pow10Steps(16);
    assert Pow10(20) == 100_000_000_000_000_000_000;
    assert Pow10(20) == 10 * Pow10(19);
    if v < 0 {
      DecimalLength(-v, 19);
    } else {
      DecimalLength(v, 20);
    }
  }

  // ---- convert ----

  function Reversed(s: string): (r: string)
    ensures |r| == |s|
    ensures forall k :: 0 <= k < |s| ==> r[k] == s[|s| - 1 - k]
  {
    if s == [] then [] else Reversed(s[1..]) + [s[0]]
  }

  lemma ReversedSnoc(s: string, c: char)
    ensures Reversed(s + [c]) == [c] + Reversed(s)
  {
  }

  /** s is was with the first and the last places of [lo, hi), up to i, exchanged. */
  ghost predicate Mirrored(s: string, was: string, lo: nat, hi: nat, i: nat)
    requires lo <= i && i - lo <= hi - i && hi <= |was|
  {
    && |s| == |was|
    && forall k :: 0 <= k < |s| ==> s[k] == was[if lo <= k < i || lo + hi - i <= k < hi then lo + hi - 1 - k else k]
  }

  lemma MirrorStep(s: string, was: string, lo: nat, hi: nat, i: nat)
    requires lo <= i && i + 1 < lo + hi - i && hi <= |was| && Mirrored(s, was, lo, hi, i)
    ensures var j := lo + hi - 1 - i; Mirrored(s[i := s[j]][j := s[i]], was, lo, hi, i + 1)
  {
  }

  lemma MirrorEnd(s: string, was: string, lo: nat, hi: nat, i: nat)
    requires lo <= i <= lo + hi - i <= i + 1 && hi <= |was| && Mirrored(s, was, lo, hi, i)
    ensures s[lo..hi] == Reversed(was[lo..hi]) && s[..lo] == was[..lo] && s[hi..] == was[hi..]
  {
    var r := Reversed(was[lo..hi]);
    forall k | 0 <= k < hi - lo ensures s[lo..hi][k] == r[k] {
      assert r[k] == was[lo..hi][hi - lo - 1 - k] == was[hi - 1 - k];
    }
  }

  method Swap(buf: array<char>, i: nat, j: nat)
    requires i < buf.Length && j < buf.Length
    modifies buf
    ensures buf[..] == old(buf[..][i := buf[j]][j := buf[i]])
  {
    buf[i], buf[j] := buf[j], buf[i];
  }

  /** std::reverse on [lo, hi). */
  method ReverseInPlace(buf: array<char>, lo: nat, hi: nat)
    requires lo <= hi <= buf.Length
    modifies buf
    ensures buf[lo..hi] == Reversed(old(buf[lo..hi]))
    ensures buf[..lo] == old(buf[..lo]) && buf[hi..] == old(buf[hi..])
  {
    ghost var was := buf[..];
    var i, j := lo, hi;
    while i + 1 < j
      invariant lo <= i <= j && j == lo + hi - i && Mirrored(buf[..], was, lo, hi, i)
    {
      MirrorStep(buf[..], was, lo, hi, i);
      j := j - 1;
      Swap(buf, i, j);
      i := i + 1;
    }
    MirrorEnd(buf[..], was, lo, hi, i);
    assert buf[lo..hi] == buf[..][lo..hi] && was[lo..hi] == old(buf[lo..hi]);
  }

  /** One digit: the table gives the right character for either sign of the remainder. */
  lemma DigitStep(i: int)
    ensures var m: nat := if i < 0 then -i else i;
            var d := TruncDiv(i, 10);
            && -ZERO <= TruncMod(i, 10) <= ZERO && DIGITS[ZERO + TruncMod(i, 10)] == DigitChar(m % 10)
            && (if d < 0 then -d else d) == m / 10 && (d != 0 ==> (d < 0 <==> i < 0))
            && Decimal(m) == (if d != 0 then Decimal(m / 10) else []) + [DigitChar(m % 10)]
  {
    var m: nat := if i < 0 then -i else i;
    DigitCharValue(m % 10);
    TableIsSymmetric(m % 10);
    assert TruncMod(i, 10) == if i < 0 then -(m % 10) else m % 10;
  }

  function Magnitude(i: int): nat {
    if i < 0 then -i else i
  }

  /** One turn of the loop: the last digit moves from what is left to what is done. */
  lemma DigitMoves(all: string, i: int, done: string)
    requires all == Decimal(Magnitude(i)) + Reversed(done)
    ensures var c, d := DigitChar(Magnitude(i) % 10), TruncDiv(i, 10);
            && -ZERO <= TruncMod(i, 10) <= ZERO && DIGITS[ZERO + TruncMod(i, 10)] == c
            && Magnitude(d) == Magnitude(i) / 10
            && all == (if d != 0 then Decimal(Magnitude(d)) else []) + Reversed(done + [c])
  {
    DigitStep(i);
    var c := DigitChar(Magnitude(i) % 10);
    ReversedSnoc(done, c);
    var rest: string := if TruncDiv(i, 10) != 0 then Decimal(Magnitude(i) / 10) else [];
    assert (rest + [c]) + Reversed(done) == rest + ([c] + Reversed(done));
  }

  /** The do-while loop of convert: the digits of the value, least significant first. */
  method PutDigits(buf: array<char>, at: nat, value: int) returns (p: nat)
    requires at + |Decimal(Magnitude(value))| <= buf.Length
    modifies buf
    ensures p == at + |Decimal(Magnitude(value))| && Reversed(buf[at..p]) == Decimal(Magnitude(value))
    ensures buf[..at] == old(buf[..at])
  {
    ghost var all := Decimal(Magnitude(value));
    var i, more := value, true;
    p := at;
    while more
      invariant at <= p <= buf.Length && buf[..at] == old(buf[..at])
      invariant all == (if more then Decimal(Magnitude(i)) else []) + Reversed(buf[at..p])
      decreases more, Magnitude(i)
    {
      ghost var done := buf[at..p];
      DigitMoves(all, i, done);
      var lsd := TruncMod(i, 10);
      i := TruncDiv(i, 10);
      buf[p] := DIGITS[ZERO + lsd];
      p := p + 1;
      assert buf[at..p] == done + [DIGITS[ZERO + lsd]];
      more := i != 0;
    }
  }

  method PutSign(buf: array<char>, at: nat, p: nat, value: int) returns (q: nat)
    requires at <= p && at + |Text(value)| <= buf.Length && p == at + |Decimal(Magnitude(value))|
    requires Reversed(buf[at..p]) == Decimal(Magnitude(value))
    modifies buf
    ensures q == at + |Text(value)| && Reversed(buf[at..q]) == Text(value)
    ensures buf[..at] == old(buf[..at])
  {
    q := p;
    if value < 0 {
      ghost var done := buf[at..p];
      buf[p] := '-';
      q := p + 1;
      assert buf[at..q] == done + ['-'];
      ReversedSnoc(done, '-');
    }
  }

  /** The digits and the sign, still reversed. */
  method PutText(buf: array<char>, at: nat, value: int) returns (p: nat)
    requires at + |Text(value)| <= buf.Length
    modifies buf
    ensures p == at + |Text(value)| && Reversed(buf[at..p]) == Text(value)
    ensures buf[..at] == old(buf[..at])
  {
    p := PutDigits(buf, at, value);
    p := PutSign(buf, at, p, value);
  }

  /** The end of convert, for any text: terminator, reversal and length. */
  method FinishText(buf: array<char>, at: nat, p: nat, ghost text: string) returns (len: nat)
    requires at <= p < buf.Length && Reversed(buf[at..p]) == text
    modifies buf
    ensures len == |text| && at + len < buf.Length
    ensures buf[at..at + len] == text && buf[at + len] == '\0' && buf[..at] == old(buf[..at])
  {
    buf[p] := '\0';
    ghost var was := buf[..];
    ReverseInPlace(buf, at, p);
    assert buf[p..][0] == was[p];
    len := p - at;
    assert at + len == p;
  }

  /** convert: digits from the right, sign, terminator, then one reversal. */
  method Convert(buf: array<char>, at: nat, value: int) returns (len: nat)
    requires at + |Text(value)| < buf.Length
    modifies buf
    ensures len == |Text(value)| && at + len < buf.Length
    ensures buf[at..at + len] == Text(value) && buf[at + len] == '\0' && buf[..at] == old(buf[..at])
  {
    var p := PutText(buf, at, value);
    len := FinishText(buf, at, p, Text(value));
  }

  // ---- the fixed buffer ----

  /** static_cast<int> of a size_t: the low 32 bits, as a signed number. */
  function AsInt(len: nat): int {
    var low := len % 0x1_0000_0000;
    if low < 0x8000_0000 then low else low - 0x1_0000_0000
  }

  /**
   With the cast length the test lets nothing through that has no room exactly when the text is
   shorter than 2^31 bytes or its cast length is not below what is available; and then it is
   the test without the cast.
   */
  lemma CastLetsThroughIff(avail: nat, len: nat)
    requires avail <= MAX_INT
    ensures (avail > AsInt(len) ==> len <= avail) <==> len <= MAX_INT || avail <= AsInt(len)
    ensures (avail > AsInt(len) ==> len <= avail) ==> (avail > AsInt(len) <==> avail > len)
  {
    assert len <= MAX_INT ==> AsInt(len) == len;
  }

  /** A length of 2^31 is cast to the least int and let through, whatever room there is. */
  lemma CastExample(avail: nat)
    requires avail <= MAX_INT
    ensures avail > AsInt(MAX_INT + 1) && MAX_INT + 1 > avail
  {
  }

  /** What FixedBuffer::append leaves in a buffer of the given size. */
  function Appended(size: nat, contents: string, text: string): string {
    if size - |contents| > |text| then contents + text else contents
  }

  /** What formatInteger leaves there. */
  function Formatted(size: nat, contents: string, v: int): string {
    if size - |contents| >= NUMBER_ROOM then contents + Text(v) else contents
  }

  function FormattedAll(size: nat, contents: string, vs: seq<int>): string
    decreases |vs|
  {
    if vs == [] then contents else FormattedAll(size, Formatted(size, contents, vs[0]), vs[1..])
  }

  /** A text is kept, whole and at the end, exactly when it leaves a byte free; a number, when 48 bytes are free. */
  lemma KeptIff(size: nat, contents: string, text: string, v: int)
    requires |contents| <= size && MIN_INT64 <= v <= MAX_UINT64
    ensures text != "" ==> (Appended(size, contents, text) == contents + text <==> |contents| + |text| < size)
    ensures Appended(size, contents, text) in [contents, contents + text] && |Appended(size, contents, text)| <= size
    ensures Formatted(size, contents, v) == contents + Text(v) <==> |contents| + NUMBER_ROOM <= size
    ensures Formatted(size, contents, v) in [contents, contents + Text(v)] && |Formatted(size, contents, v)| <= size
  {
    TextFits(v);
    assert text != "" ==> |contents + text| != |contents|;
    assert Text(v) != "" && |contents + Text(v)| != |contents|;
  }

  function Texts(vs: seq<int>): seq<string> {
    seq(|vs|, i requires 0 <= i < |vs| => Text(vs[i]))
  }

  /** A run of numbers only adds, and never beyond the buffer; with 48 bytes for each, all are there, in order. */
  lemma {:induction false} RunOfNumbers(size: nat, contents: string, vs: seq<int>)
    requires |contents| <= size && forall v :: v in vs ==> MIN_INT64 <= v <= MAX_UINT64
    ensures var r := FormattedAll(size, contents, vs);
            && contents <= r && |r| <= size
            && (|contents| + NUMBER_ROOM * |vs| <= size ==> r == contents + Concat(Texts(vs)))
    decreases |vs|
  {
    if vs == [] {
      assert contents + Concat(Texts(vs)) == contents;
    } else {
      assert vs[0] in vs && forall v :: v in vs[1..] ==> v in vs;
      NumberStep(size, contents, vs[0]);
      RunOfNumbers(size, Formatted(size, contents, vs[0]), vs[1..]);
      TextsJoin(contents, vs);
    }
  }

  lemma NumberStep(size: nat, contents: string, v: int)
    requires |contents| <= size && MIN_INT64 <= v <= MAX_UINT64
    ensures var r := Formatted(size, contents, v);
            && contents <= r && |r| <= size
            && (|contents| + NUMBER_ROOM <= size ==> r == contents + Text(v) && |r| <= |contents| + NUMBER_ROOM)
  {
    KeptIff(size, contents, "", v);
    TextFits(v);
  }

  lemma TextsJoin(contents: string, vs: seq<int>)
    requires vs != []
    ensures contents + Text(vs[0]) + Concat(Texts(vs[1..])) == contents + Concat(Texts(vs))
  {
    assert Texts(vs)[0] == Text(vs[0]) && Texts(vs)[1..] == Texts(vs[1..]);
  }

  lemma Extend(a: array<char>, start: nat, len: nat, text: string)
    requires start + len <= a.Length && a[start..start + len] == text
    ensures a[..start + len] == a[..start] + text
  {
  }

  class FixedBuffer {
    const data: array<char>
    var cur: nat

    ghost predicate Valid()
      reads this
    {
      cur <= data.Length <= MAX_INT
    }

    ghost function Contents(): string
      reads this, data
      requires Valid()
    {
      data[..cur]
    }

    /** The size is an int. */
    constructor (size: nat)
      requires size <= MAX_INT
      ensures Valid() && Contents() == "" && data.Length == size && fresh(data)
    {
      data, cur := new char[size](_ => '\0'), 0;
    }

    function Avail(): int
      reads this
    {
      data.Length - cur
    }

    /** The caller must not pass a text so long that the cast of its length lets it through. */
    method Append(text: string)
      requires Valid() && (Avail() > AsInt(|text|) ==> |text| <= Avail())
      modifies this, data
      ensures Valid() && Contents() == Appended(data.Length, old(Contents()), text)
    {
      CastLetsThroughIff(Avail(), |text|);
      if Avail() > AsInt(|text|) {
        var start := cur;
        for k := 0 to |text|
          invariant cur == start && data[..start] == old(data[..cur]) && data[start..start + k] == text[..k]
        {
          data[start + k] := text[k];
        }
        cur := start + |text|;
        assert data[..cur] == data[..start] + data[start..cur];
      }
    }

    method FormatInteger(v: int)
      requires Valid() && MIN_INT64 <= v <= MAX_UINT64
      modifies this, data
      ensures Valid() && Contents() == Formatted(data.Length, old(Contents()), v)
    {
      TextFits(v);
      if Avail() >= NUMBER_ROOM {
        var len := ConvertHere(v);
        Add(len, Text(v));
      }
    }

    /** Convert at the current position. */
    method ConvertHere(v: int) returns (len: nat)
      requires Valid() && Avail() >= |Text(v)| + 1
      modifies data
      ensures len == |Text(v)| && cur + len < data.Length
      ensures data[cur..cur + len] == Text(v) && data[..cur] == old(data[..cur])
    {
      len := Convert(data, cur, v);
    }

    /** add: the text written after the contents becomes part of them. */
    method Add(len: nat, ghost text: string)
      requires Valid() && cur + len <= data.Length && data[cur..cur + len] == text
      modifies this`cur
      ensures Valid() && Contents() == old(Contents()) + text
    {
      Extend(data, cur, len, text);
      cur := cur + len;
    }

    /** Any run of formatInteger stays inside the buffer and loses only whole numbers. */
    method FormatIntegers(vs: seq<int>)
      requires Valid() && forall v :: v in vs ==> MIN_INT64 <= v <= MAX_UINT64
      modifies this, data
      ensures Valid() && Contents() == FormattedAll(data.Length, old(Contents()), vs)
    {
      for k := 0 to |vs|
        invariant Valid()
        invariant FormattedAll(data.Length, Contents(), vs[k..]) == FormattedAll(data.Length, old(Contents()), vs)
      {
        assert vs[k] in vs && vs[k..][1..] == vs[k + 1..];
        FormatInteger(vs[k]);
      }
    }
  }
}
