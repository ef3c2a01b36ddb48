// The decimal parser and the line printer, byte by byte.
module Printing {
  import opened Decimal
  import opened Options

  // ------------------------------------------------------------------------ parser

  datatype IntResult = IntResult(ok: bool, value: nat)

  /** Reads an unsigned decimal; `text` is None for a null pointer. */
  method ParseUint(text: Option<string>, isU32: bool) returns (res: IntResult)
    ensures res.ok <==> text.Some? && Accepted(text.value, isU32)
    ensures res.ok ==> res.value == Value(text.value)
    ensures res.value <= UINT64_MAX
  {
    res := IntResult(false, 0);
    if text == None || text.value == [] { return; }
    var s := text.value;
    var i := 0;
    while i < |s|
      invariant 0 <= i <= |s| && AllDigits(s[..i])
      invariant !res.ok && res.value == Value(s[..i]) <= UINT64_MAX
    {
      if !IsDigit(s[i]) { return; }
      var d := Digit(s[i]);
      assert s[..i + 1][..i] == s[..i];
      if res.value > (UINT64_MAX - d) / 10 {
        if AllDigits(s) { PrefixIsSmaller(s, i + 1); }
        return;
      }
      res := res.(value := res.value * 10 + d);
      i := i + 1;
    }
    assert s[..i] == s;
    if isU32 && res.value > UINT32_MAX { return; }
    res := res.(ok := true);
  }

  // ----------------------------------------------------------------------- printer

  /** Line `r` of the table holds the two-digit notations of 10 * r up to 10 * r + 9. */
  function DigitsRow(r: nat): (s: string)
    requires r < 10
    ensures |s| == 20
  {
    match r
    case 0 => "00010203040506070809"
    case 1 => "10111213141516171819"
    case 2 => "20212223242526272829"
    case 3 => "30313233343536373839"
    case 4 => "40414243444546474849"
    case 5 => "50515253545556575859"
    case 6 => "60616263646566676869"
    case 7 => "70717273747576777879"
    case 8 => "80818283848586878889"
    case _ => "90919293949596979899"
  }

  function Rows(m: nat): (s: string)
    requires m <= 10
    ensures |s| == 20 * m
  {
    if m == 0 then [] else Rows(m - 1) + DigitsRow(m - 1)
  }

  function DigitsLookup(): string {
    Rows(10)
  }

  lemma {:induction false} RowInTable(m: nat, r: nat, k: nat)
    requires r < m <= 10 && k < 20
    ensures Rows(m)[20 * r + k] == DigitsRow(r)[k]
    decreases m
  {
    if r < m - 1 { RowInTable(m - 1, r, k); }
  }

  function RowOf(t: char): string {
    [t, '0', t, '1', t, '2', t, '3', t, '4', t, '5', t, '6', t, '7', t, '8', t, '9']
  }

  lemma RowIsRight(r: nat)
    requires r < 10
    ensures DigitsRow(r) == RowOf(DigitChar(r))
  {
  }

  lemma RowEntries(t: char, u: nat)
    requires u < 10
    ensures RowOf(t)[2 * u] == t && RowOf(t)[2 * u + 1] == DigitChar(u)
  {
  }

  /** Entry 2 * p of the table and the one after it are the two digits of p. */
  lemma TableIsRight(part: nat)
    requires part < 100
    ensures |DigitsLookup()| == 200
    ensures DigitsLookup()[part * 2] == DigitChar(part / 10)
    ensures DigitsLookup()[part * 2 + 1] == DigitChar(part % 10)
  {
    var r, u := part / 10, part % 10;
    RowIsRight(r);
    RowEntries(DigitChar(r), u);
    RowInTable(10, r, 2 * u);
    RowInTable(10, r, 2 * u + 1);
  }

  function Pow10(k: nat): nat {
    if k == 0 then 1 else 10 * Pow10(k - 1)
  }

  lemma Powers()
    ensures Pow10(10) == 10000000000 && Pow10(20) == 100000000000000000000
  {
    assert Pow10(2) == 100;
    assert Pow10(4) == 10000;
    assert Pow10(6) == 1000000;
    assert Pow10(8) == 100000000;
    assert Pow10(10) == 10000000000;
    assert Pow10(12) == 1000000000000;
    assert Pow10(14) == 100000000000000;
    assert Pow10(16) == 10000000000000000;
    assert Pow10(18) == 1000000000000000000;
  }

  method CopyBytes(dst: array<char>, at: nat, src: array<char>, from: nat, len: nat)
    requires dst != src && at + len <= dst.Length && from + len <= src.Length
    modifies dst
    ensures dst[at..at + len] == src[from..from + len]
    ensures forall k :: 0 <= k < dst.Length && !(at <= k < at + len) ==> dst[k] == old(dst[k])
  {
    var i := 0;
    while i < len
      invariant 0 <= i <= len
      invariant dst[at..at + i] == src[from..from + i]
      invariant forall k :: 0 <= k < dst.Length && !(at <= k < at + i) ==> dst[k] == old(dst[k])
    {
      dst[at + i] := src[from + i];
      i := i + 1;
    }
  }

  /** Writes the two digits of a number below 100 before position `pos`. */
  method PutPair(tmp: array<char>, pos: nat, part: nat)
    requires tmp.Length == 20 && 2 <= pos <= 20 && part < 100
    modifies tmp
    ensures tmp[pos - 2..] == [DigitChar(part / 10), DigitChar(part % 10)] + old(tmp[pos..])
  {
    TableIsRight(part);
    var digits := DigitsLookup();
    tmp[pos - 2] := digits[part * 2];
    tmp[pos - 1] := digits[part * 2 + 1];
  }

  lemma TwoDigitsPeeled(n: nat)
    requires n >= 100
    ensures Notation(n) == Notation(n / 100) + [DigitChar(n % 100 / 10), DigitChar(n % 100 % 10)]
  {
    assert n / 10 / 10 == n / 100 && n / 10 % 10 == n % 100 / 10 && n % 10 == n % 100 % 10;
  }

  /** Formats `number` from the end of the 20-byte buffer, two digits at a time. */
  method FormatU64(tmp: array<char>, number: nat) returns (pos: nat)
    requires tmp.Length == 20 && number <= UINT64_MAX
    modifies tmp
    ensures pos < 20 && tmp[pos..] == Notation(number)
  {
    var n: nat := number;
    pos := 20;
    assert n < Pow10(pos) by { Powers(); }
    while n >= 100
      invariant 1 <= pos <= 20 && n < Pow10(pos)
      invariant Notation(number) == Notation(n) + tmp[pos..]
      decreases n
    {
      n, pos := PeelPair(tmp, n, pos);
    }
    pos := PutLast(tmp, n, pos);
  }

  method PeelPair(tmp: array<char>, n: nat, pos: nat) returns (rest: nat, next: nat)
    requires tmp.Length == 20 && 1 <= pos <= 20 && 100 <= n < Pow10(pos)
    modifies tmp
    ensures rest < n && 1 <= next < pos && rest < Pow10(next)
    ensures Notation(n) + old(tmp[pos..]) == Notation(rest) + tmp[next..]
  {
    EnoughRoom(n, pos);
    TwoDigitsPeeled(n);
    PutPair(tmp, pos, n % 100);
    rest, next := n / 100, pos - 2;
  }

  method PutLast(tmp: array<char>, n: nat, pos: nat) returns (next: nat)
    requires tmp.Length == 20 && 1 <= pos <= 20 && n < 100 && n < Pow10(pos)
    modifies tmp
    ensures next < 20 && tmp[next..] == Notation(n) + old(tmp[pos..])
  {
    EnoughRoom(n, pos);
    if n < 10 {
      next := pos - 1;
      tmp[next] := DigitChar(n);
      assert tmp[next..] == [DigitChar(n)] + tmp[pos..];
    } else {
      PutPair(tmp, pos, n);
      next := pos - 2;
      assert Notation(n) == [DigitChar(n / 10), DigitChar(n % 10)];
    }
  }

  /** A number below 10 ** pos still fits before position `pos`. */
  lemma EnoughRoom(n: nat, pos: nat)
    requires n < Pow10(pos) && pos >= 1
    ensures (n >= 10 ==> pos >= 2) && (n >= 100 ==> pos >= 3)
    ensures n >= 100 ==> n / 100 < Pow10(pos - 2)
  {
    assert Pow10(0) == 1;
    if pos >= 1 { assert Pow10(pos) == 10 * Pow10(pos - 1); }
    if pos >= 2 { assert Pow10(pos - 1) == 10 * Pow10(pos - 2); }
    if pos >= 3 { assert Pow10(pos - 2) == 10 * Pow10(pos - 3); }
  }

  /** Writes the decimal notation of `n` at `dst[at..]`; it takes at most 20 bytes. */
  method AppendU64(dst: array<char>, at: nat, n: nat) returns (len: nat)
    requires n <= UINT64_MAX && at + |Notation(n)| <= dst.Length
    modifies dst
    ensures len == |Notation(n)| <= 20
    ensures dst[at..at + len] == Notation(n)
    ensures forall k :: 0 <= k < dst.Length && !(at <= k < at + len) ==> dst[k] == old(dst[k])
  {
    var tmp := new char[20];
    var pos := FormatU64(tmp, n);
    assert |tmp[pos..]| == 20 - pos;
    CopyBytes(dst, at, tmp, pos, 20 - pos);
    len := 20 - pos;
    assert tmp[pos..pos + len] == tmp[pos..];
  }

  lemma {:induction false} NotationLength(n: nat, k: nat)
    requires n < Pow10(k) && k >= 1
    ensures |Notation(n)| <= k
    decreases n
  {
    if n >= 10 {
      assert Pow10(k) == 10 * Pow10(k - 1) && k >= 2;
      NotationLength(n / 10, k - 1);
    }
  }

  /** The 64-bit pattern of a signed time. */
  function Unsigned(time: int): nat {
    time % (UINT64_MAX + 1)
  }

  method AppendNumber(buf: array<char>, at: nat, n: nat) returns (len: nat)
    requires n <= UINT64_MAX && at + |Notation(n)| <= buf.Length
    modifies buf
    ensures len == at + |Notation(n)| && buf[..len] == old(buf[..at]) + Notation(n)
  {
    var more := AppendU64(buf, at, n);
    len := at + more;
    assert buf[..at] == old(buf[..at]);
    assert buf[..len] == buf[..at] + buf[at..len];
  }

  method AppendChar(buf: array<char>, at: nat, c: char) returns (len: nat)
    requires at < buf.Length
    modifies buf
    ensures len == at + 1 && buf[..len] == old(buf[..at]) + [c]
  {
    buf[at] := c;
    len := at + 1;
  }

  method AppendMessage(buf: array<char>, at: nat, message: string) returns (len: nat)
    requires at + |message| <= buf.Length
    modifies buf
    ensures len == at + |message| && buf[..len] == old(buf[..at]) + message
  {
    var src := new char[|message|](k requires 0 <= k < |message| => message[k]);
    CopyBytes(buf, at, src, 0, |message|);
    len := at + |message|;
    assert src[0..|message|] == message;
    assert buf[..at] == old(buf[..at]);
    assert buf[..len] == buf[..at] + buf[at..len];
  }

  /** Builds a log line in the 64-byte buffer of log_msg_force: the time and a space, the
      identifier and a space, the message and a line feed. */
  method BuildLine(buf: array<char>, time: int, id: nat, message: string)
    returns (len: nat, ghost p: nat, ghost q: nat)
    requires buf.Length == 64 && id <= UINT32_MAX && |message| <= 31
    modifies buf
    ensures len <= 64 && buf[..len] == LineText(Unsigned(time), id, message)
    ensures var line := buf[..len];
      && p < q < len && line[p] == ' ' && line[q] == ' ' && line[q + 1..] == message + ['\n']
      && AllDigits(line[..p]) && Value(line[..p]) == Unsigned(time)
      && AllDigits(line[p + 1..q]) && Value(line[p + 1..q]) == id
    ensures 0 <= time <= UINT64_MAX ==> Unsigned(time) == time
    ensures -UINT64_MAX <= time < 0 ==> Unsigned(time) == UINT64_MAX + 1 + time
  {
    len := BuildFields(buf, Unsigned(time), id, message);
    p, q := LineReads(buf[..len], Unsigned(time), id, message);
    UnsignedTime(time);
  }

  lemma UnsignedTime(time: int)
    ensures 0 <= time <= UINT64_MAX ==> Unsigned(time) == time
    ensures -UINT64_MAX <= time < 0 ==> Unsigned(time) == UINT64_MAX + 1 + time
  {
  }

  method BuildFields(buf: array<char>, time: nat, id: nat, message: string) returns (len: nat)
    requires buf.Length == 64 && time <= UINT64_MAX && id <= UINT32_MAX && |message| <= 31
    modifies buf
    ensures len <= 64 && buf[..len] == LineText(time, id, message)
  {
    Powers();
    NotationLength(time, 20);
    NotationLength(id, 10);
    len := AppendField(buf, 0, time);
    len := AppendField(buf, len, id);
    len := AppendMessage(buf, len, message);
    len := AppendChar(buf, len, '\n');
    assert buf[..len] == [] + (Notation(time) + [' ']) + (Notation(id) + [' ']) + message + ['\n'];
  }

  lemma LineReads(line: string, time: nat, id: nat, message: string) returns (p: nat, q: nat)
    requires line == LineText(time, id, message)
    ensures p < q < |line| && line[p] == ' ' && line[q] == ' ' && line[q + 1..] == message + ['\n']
    ensures AllDigits(line[..p]) && Value(line[..p]) == time
    ensures AllDigits(line[p + 1..q]) && Value(line[p + 1..q]) == id
  {
    p := |Notation(time)|;
    q := p + 1 + |Notation(id)|;
    assert line[..p] == Notation(time);
    assert line[p + 1..q] == Notation(id);
    assert line[q + 1..] == message + ['\n'];
    ValueOfNotation(time);
    ValueOfNotation(id);
  }

  method AppendField(buf: array<char>, at: nat, n: nat) returns (len: nat)
    requires n <= UINT64_MAX && at + |Notation(n)| < buf.Length
    modifies buf
    ensures len == at + |Notation(n)| + 1 && buf[..len] == old(buf[..at]) + (Notation(n) + [' '])
  {
    len := AppendNumber(buf, at, n);
    len := AppendChar(buf, len, ' ');
  }
}
