/** The byte strings of the program and the helpers of util/strings.cpp.
    A C++ `std::string` is a sequence of bytes; here a byte is a character below 256,
    so that string literals can be used for protocol words. A literal of more than 43 characters
    is written in two parts: the verifier does not see that every character of a longer one is
    a byte. */
module Bytes {

  type byte = c: char | c as int < 256 witness 'a'

  type bytes = seq<byte>

  const U64_LIMIT: nat := 0x1_0000_0000_0000_0000
  const INT_MAX: nat := 0x7FFF_FFFF

  type u64 = n: nat | n < U64_LIMIT
  type u16 = n: nat | n < 0x1_0000

  datatype Option<+T> = None | Some(value: T)

  // ---------- Characters (C locale) ----------

  predicate IsSpace(c: byte) {
    c == ' ' || 9 <= c as int <= 13
  }

  /** White space in the C locale: space, tab, newline, vertical tab, form feed, carriage return. */
  lemma SpaceBytes(c: byte)
    ensures IsSpace(c) <==> c as int in [32, 9, 10, 11, 12, 13]
  {
  }

  predicate IsDigit(c: byte) {
    '0' <= c <= '9'
  }

  function LowerByte(c: byte): byte {
    if 'A' <= c <= 'Z' then (c as int + 32) as char else c
  }

  function Lower(s: bytes): (r: bytes)
    ensures |r| == |s|
    ensures forall i :: 0 <= i < |s| ==> r[i] == LowerByte(s[i])
  {
    if s == [] then [] else [LowerByte(s[0])] + Lower(s[1..])
  }

  predicate EqualsIgnoringCase(a: bytes, b: bytes) {
    Lower(a) == Lower(b)
  }

  /** The same byte, or the two cases of one letter. */
  predicate SameLetter(c: byte, d: byte) {
    c == d || ('A' <= c <= 'Z' && d as int == c as int + 32) || ('A' <= d <= 'Z' && c as int == d as int + 32)
  }

  lemma EqualsIgnoringCaseMeans(a: bytes, b: bytes)
    ensures EqualsIgnoringCase(a, b) <==> |a| == |b| && forall i :: 0 <= i < |a| ==> SameLetter(a[i], b[i])
  {
    if EqualsIgnoringCase(a, b) {
      forall i | 0 <= i < |a| ensures SameLetter(a[i], b[i]) {
        assert Lower(a)[i] == Lower(b)[i];
      }
    }
  }

  // ---------- Trimming ----------

  function TrimLeft(s: bytes): bytes {
    if s != [] && IsSpace(s[0]) then TrimLeft(s[1..]) else s
  }

  function TrimRight(s: bytes): bytes {
    if s != [] && IsSpace(s[|s| - 1]) then TrimRight(s[..|s| - 1]) else s
  }

  function Trim(s: bytes): bytes {
    TrimRight(TrimLeft(s))
  }

  /** Neither end is white space. */
  predicate Trimmed(s: bytes) {
    s == [] || (!IsSpace(s[0]) && !IsSpace(s[|s| - 1]))
  }

  predicate Blank(s: bytes) {
    forall i :: 0 <= i < |s| ==> IsSpace(s[i])
  }

  /** Trimming cuts a stretch out of the text whose ends are not white space. */
  lemma {:induction false} TrimRightIsPrefix(s: bytes)
    ensures TrimRight(s) <= s
    ensures TrimRight(s) == [] || !IsSpace(TrimRight(s)[|TrimRight(s)| - 1])
    ensures Blank(s[|TrimRight(s)|..])
  {
    if s != [] && IsSpace(s[|s| - 1]) {
      TrimRightIsPrefix(s[..|s| - 1]);
      var n := |TrimRight(s)|;
      assert s[n..] == s[..|s| - 1][n..] + [s[|s| - 1]];
    }
  }

  lemma {:induction false} TrimLeftIsSuffix(s: bytes)
    ensures |TrimLeft(s)| <= |s|
    ensures TrimLeft(s) == s[|s| - |TrimLeft(s)|..]
    ensures TrimLeft(s) == [] || !IsSpace(TrimLeft(s)[0])
    ensures Blank(s[..|s| - |TrimLeft(s)|])
  {
    if s != [] && IsSpace(s[0]) {
      TrimLeftIsSuffix(s[1..]);
      var n := |s| - |TrimLeft(s)|;
      assert s[..n] == [s[0]] + s[1..][..n - 1];
    }
  }

  lemma TrimIsTrimmed(s: bytes)
    ensures Trimmed(Trim(s))
    ensures forall c :: c in Trim(s) ==> c in s
    ensures Trim(s) == [] <==> Blank(s)
  {
    var left := TrimLeft(s);
    TrimLeftIsSuffix(s);
    TrimRightIsPrefix(left);
    forall c | c in Trim(s) ensures c in s { assert c in left; }
    if Trim(s) == [] {
      assert left[0..] == left;
      assert s == s[..|s| - |left|] + left;
    } else {
      assert !IsSpace(left[0]);
      assert s[|s| - |left|] == left[0];
    }
  }

  /** Trimming changes nothing exactly on trimmed text. */
  lemma TrimFixesTrimmed(s: bytes)
    ensures Trim(s) == s <==> Trimmed(s)
  {
    TrimIsTrimmed(s);
  }

  /** White space before, and after, is what trimming removes. */
  lemma {:induction false} TrimPadded(before: bytes, s: bytes, after: bytes)
    requires Blank(before) && Blank(after) && Trimmed(s)
    ensures Trim(before + s + after) == s
  {
    if before != [] {
      assert (before + s + after)[1..] == before[1..] + s + after;
      TrimPadded(before[1..], s, after);
    } else {
      assert before + s + after == s + after;
      if s == [] {
        TrimIsTrimmed(s + after);
      } else {
        assert TrimLeft(s + after) == s + after;
        TrimRightPadded(s, after);
      }
    }
  }

  lemma {:induction false} TrimRightPadded(s: bytes, after: bytes)
    requires Blank(after) && Trimmed(s)
    ensures TrimRight(s + after) == s
  {
    if after == [] {
      assert s + after == s;
    } else {
      assert (s + after)[..|s + after| - 1] == s + after[..|after| - 1];
      TrimRightPadded(s, after[..|after| - 1]);
    }
  }

  /** util::trim: two cursors move inwards over white space. */
  method TrimText(value: bytes) returns (r: bytes)
    ensures r == Trim(value)
  {
    hide IsSpace;
    var start := 0;
    while start < |value| && IsSpace(value[start])
      invariant 0 <= start <= |value|
      invariant TrimLeft(value) == TrimLeft(value[start..])
    {
      start := start + 1;
    }
    ghost var left := value[start..];
    assert TrimLeft(value) == left;
    var end := |value|;
    assert value[start..end] == left;
    while end > start && IsSpace(value[end - 1])
      invariant start <= end <= |value|
      invariant TrimRight(left) == TrimRight(value[start..end])
    {
      assert value[start..end][..end - start - 1] == value[start..end - 1];
      end := end - 1;
    }
    r := value[start..end];
  }

  // ---------- Splitting and joining ----------

  function Split(s: bytes, delimiter: byte): (parts: seq<bytes>)
    ensures |parts| >= 1
    ensures forall i :: 0 <= i < |parts| ==> delimiter !in parts[i]
  {
    if s == [] then [[]]
    else
      var rest := Split(s[1..], delimiter);
      if s[0] == delimiter then [[]] + rest
      else [[s[0]] + rest[0]] + rest[1..]
  }

  function Join(parts: seq<bytes>, delimiter: byte): bytes {
    if parts == [] then []
    else if |parts| == 1 then parts[0]
    else parts[0] + [delimiter] + Join(parts[1..], delimiter)
  }

  predicate AllFree(parts: seq<bytes>, c: byte) {
    forall i :: 0 <= i < |parts| ==> c !in parts[i]
  }

  lemma {:induction false} SplitOfPart(part: bytes, delimiter: byte)
    requires delimiter !in part
    ensures Split(part, delimiter) == [part]
  {
    if part != [] {
      SplitOfPart(part[1..], delimiter);
      assert [part[0]] + part[1..] == part;
    }
  }

  lemma {:induction false} SplitAtDelimiter(part: bytes, rest: bytes, delimiter: byte)
    requires delimiter !in part
    ensures Split(part + [delimiter] + rest, delimiter) == [part] + Split(rest, delimiter)
  {
    var s := part + [delimiter] + rest;
    if part == [] {
      assert s[1..] == rest;
    } else {
      assert s[1..] == part[1..] + [delimiter] + rest;
      SplitAtDelimiter(part[1..], rest, delimiter);
      assert [part[0]] + part[1..] == part;
    }
  }

  /** Joining and splitting are inverse: no part is lost, merged or cut. */
  lemma {:induction false} SplitJoin(parts: seq<bytes>, delimiter: byte)
    requires parts != [] && AllFree(parts, delimiter)
    ensures Split(Join(parts, delimiter), delimiter) == parts
  {
    if |parts| == 1 {
      SplitOfPart(parts[0], delimiter);
    } else {
      SplitJoin(parts[1..], delimiter);
      SplitAtDelimiter(parts[0], Join(parts[1..], delimiter), delimiter);
    }
  }

  lemma {:induction false} JoinSplit(s: bytes, delimiter: byte)
    ensures Join(Split(s, delimiter), delimiter) == s
  {
    if s != [] {
      JoinSplit(s[1..], delimiter);
      var rest := Split(s[1..], delimiter);
      var all := Split(s, delimiter);
      if s[0] == delimiter {
        assert all[1..] == rest;
      } else if |rest| > 1 {
        assert all[1..] == rest[1..];
      }
    }
  }

  lemma {:induction false} JoinFree(parts: seq<bytes>, delimiter: byte, c: byte)
    requires AllFree(parts, c) && c != delimiter
    ensures c !in Join(parts, delimiter)
  {
    if |parts| > 1 {
      JoinFree(parts[1..], delimiter, c);
    }
  }

  /** What one more byte does to the parts collected so far. */
  function Extend(parts: seq<bytes>, c: byte, delimiter: byte): seq<bytes>
    requires parts != []
  {
    if c == delimiter then parts + [[]]
    else parts[..|parts| - 1] + [parts[|parts| - 1] + [c]]
  }

  lemma {:induction false} SplitAppend(s: bytes, c: byte, delimiter: byte)
    ensures Split(s + [c], delimiter) == Extend(Split(s, delimiter), c, delimiter)
  {
    if s == [] {
      assert s + [c] == [c] && [c][1..] == [];
      assert [c] + [] == [] + [c];
    } else {
      SplitAppend(s[1..], c, delimiter);
      assert (s + [c])[1..] == s[1..] + [c];
      var rest := Split(s[1..], delimiter);
      if s[0] == delimiter {
        ExtendAfter([], rest, c, delimiter);
      } else {
        ExtendHead(s[0], rest, c, delimiter);
      }
    }
  }

  lemma ExtendAfter(first: bytes, rest: seq<bytes>, c: byte, delimiter: byte)
    requires rest != []
    ensures [first] + Extend(rest, c, delimiter) == Extend([first] + rest, c, delimiter)
  {
    var all := [first] + rest;
    assert all[..|all| - 1] == [first] + rest[..|rest| - 1];
  }

  lemma ExtendHead(b: byte, rest: seq<bytes>, c: byte, delimiter: byte)
    requires rest != []
    ensures var longer := Extend(rest, c, delimiter);
            [[b] + longer[0]] + longer[1..] == Extend([[b] + rest[0]] + rest[1..], c, delimiter)
  {
    assert [b] + (rest[0] + [c]) == [b] + rest[0] + [c];
  }

  /** util::split and protocol::split_fields: one pass that collects the current part. */
  method SplitText(value: bytes, delimiter: byte) returns (parts: seq<bytes>)
    ensures parts == Split(value, delimiter)
  {
    hide Split;
    parts := [];
    var current: bytes := [];
    SplitOfPart([], delimiter);
    for i := 0 to |value|
      invariant parts + [current] == Split(value[..i], delimiter)
    {
      var ch := value[i];
      SplitAppend(value[..i], ch, delimiter);
      assert value[..i + 1] == value[..i] + [ch];
      if ch == delimiter {
        parts := parts + [current];
        current := [];
      } else {
        current := current + [ch];
      }
    }
    assert value[..|value|] == value;
    parts := parts + [current];
  }

  lemma {:induction false} JoinAppend(parts: seq<bytes>, last: bytes, delimiter: byte)
    ensures Join(parts + [last], delimiter) ==
            if parts == [] then last else Join(parts, delimiter) + [delimiter] + last
  {
    if |parts| == 1 {
      assert (parts + [last])[1..] == [last];
    } else if |parts| > 1 {
      assert (parts + [last])[1..] == parts[1..] + [last];
      JoinAppend(parts[1..], last, delimiter);
    }
  }

  /** util::join with a one-byte delimiter. */
  method JoinText(parts: seq<bytes>, delimiter: byte) returns (r: bytes)
    ensures r == Join(parts, delimiter)
  {
    r := [];
    for i := 0 to |parts|
      invariant r == Join(parts[..i], delimiter)
    {
      JoinAppend(parts[..i], parts[i], delimiter);
      assert parts[..i + 1] == parts[..i] + [parts[i]];
      if i != 0 {
        r := r + [delimiter];
      }
      r := r + parts[i];
    }
    assert parts[..|parts|] == parts;
  }

  // ---------- Lines of a file ----------

  /** `std::getline`: a final newline does not begin another line. */
  function Lines(text: bytes): seq<bytes> {
    var parts := Split(text, '\n');
    if parts[|parts| - 1] == [] then parts[..|parts| - 1] else parts
  }

  /** Each line followed by a newline. */
  function Terminated(lines: seq<bytes>): bytes {
    if lines == [] then [] else lines[0] + ['\n'] + Terminated(lines[1..])
  }

  lemma {:induction false} TerminatedSplits(lines: seq<bytes>)
    requires AllFree(lines, '\n')
    ensures Split(Terminated(lines), '\n') == lines + [[]]
  {
    if lines == [] {
      assert lines + [[]] == [[]];
    } else {
      hide Split;
      TerminatedSplits(lines[1..]);
      SplitAtDelimiter(lines[0], Terminated(lines[1..]), '\n');
      assert [lines[0]] + (lines[1..] + [[]]) == lines + [[]];
    }
  }

  /** Lines written with their newlines are the lines read. */
  lemma TerminatedLines(lines: seq<bytes>)
    requires AllFree(lines, '\n')
    ensures Lines(Terminated(lines)) == lines
  {
    hide Terminated, Split;
    TerminatedSplits(lines);
    assert (lines + [[]])[..|lines|] == lines;
  }

  lemma {:induction false} TerminatedAppend(a: seq<bytes>, b: seq<bytes>)
    ensures Terminated(a + b) == Terminated(a) + Terminated(b)
  {
    if a == [] {
      assert a + b == b;
    } else {
      assert (a + b)[1..] == a[1..] + b;
      TerminatedAppend(a[1..], b);
    }
  }

  // ---------- Decimal numbers ----------

  function DigitByte(d: nat): byte
    requires d < 10
  {
    ('0' as int + d) as char
  }

  function Decimal(n: nat): bytes {
    if n < 10 then [DigitByte(n)] else Decimal(n / 10) + [DigitByte(n % 10)]
  }

  predicate AllDigits(s: bytes) {
    forall i :: 0 <= i < |s| ==> IsDigit(s[i])
  }

  lemma {:induction false} DecimalDigits(n: nat)
    ensures Decimal(n) != [] && AllDigits(Decimal(n))
    ensures |Decimal(n)| > 1 ==> Decimal(n)[0] != '0'
  {
    if n >= 10 {
      DecimalDigits(n / 10);
    }
  }

  function NumberOf(s: bytes): nat
    requires AllDigits(s)
  {
    if s == [] then 0 else NumberOf(s[..|s| - 1]) * 10 + (s[|s| - 1] as int - '0' as int)
  }

  /** util::parse_u64: `std::from_chars` must use every byte and the value must fit. */
  function ParseU64(s: bytes): Option<u64> {
    if s != [] && AllDigits(s) && NumberOf(s) < U64_LIMIT then Some(NumberOf(s)) else None
  }

  function ParseU16(s: bytes): Option<u16> {
    var parsed := ParseU64(s);
    if parsed.None? || parsed.value > 65535 then None else Some(parsed.value)
  }

  lemma {:induction false} NumberOfDecimal(n: nat)
    ensures AllDigits(Decimal(n)) && NumberOf(Decimal(n)) == n
  {
    DecimalDigits(n);
    if n >= 10 {
      NumberOfDecimal(n / 10);
      assert Decimal(n)[..|Decimal(n)| - 1] == Decimal(n / 10);
    }
  }

  lemma ParseDecimal(n: u64)
    ensures ParseU64(Decimal(n)) == Some(n)
    ensures n < 65536 ==> ParseU16(Decimal(n)) == Some(n)
  {
    DecimalDigits(n);
    NumberOfDecimal(n);
  }

  /** `std::to_string` of a signed number. */
  function SignedDecimal(n: int): bytes {
    if n < 0 then ['-'] + Decimal(-n) else Decimal(n)
  }

  /** A negative number is printed as text that no unsigned field accepts. */
  lemma ParseSignedDecimal(n: int)
    requires n < U64_LIMIT
    ensures ParseU64(SignedDecimal(n)) == if n < 0 then None else Some(n)
  {
    if n < 0 {
      assert !IsDigit(SignedDecimal(n)[0]);
    } else {
      ParseDecimal(n);
    }
  }

  function Zeros(n: nat): (s: bytes)
    ensures |s| == n && forall i :: 0 <= i < n ==> s[i] == '0'
  {
    if n == 0 then [] else Zeros(n - 1) + ['0']
  }

  /** A number is read from exactly the texts that are its decimal digits behind any zeros. */
  lemma ParseU64Exactly(s: bytes, n: u64)
    ensures ParseU64(s) == Some(n) <==> exists z: nat :: s == Zeros(z) + Decimal(n)
  {
    if ParseU64(s) == Some(n) {
      var z := DigitsAreDecimal(s);
    }
    if z: nat :| s == Zeros(z) + Decimal(n) {
      ZerosDoNotCount(z, n);
    }
  }

  lemma {:induction false} DigitsAreDecimal(s: bytes) returns (z: nat)
    requires s != [] && AllDigits(s)
    ensures s == Zeros(z) + Decimal(NumberOf(s))
  {
    var last := |s| - 1;
    var d := s[last] as int - '0' as int;
    assert s == s[..last] + [s[last]];
    if last == 0 {
      z := 0;
      OneDigitNumber(s);
    } else {
      hide AllDigits, Zeros, Decimal, NumberOf;
      AllDigitsPrefix(s, last);
      z := DigitsAreDecimal(s[..last]);
      LastDigit(s);
      var m := NumberOf(s[..last]);
      MoreDigits(z, m, s[last]);
      z := if m == 0 then z + 1 else z;
    }
  }

  lemma AllDigitsPrefix(s: bytes, n: nat)
    requires AllDigits(s) && n < |s|
    ensures AllDigits(s[..n]) && IsDigit(s[n])
  {
  }

  lemma LastDigit(s: bytes)
    requires s != [] && AllDigits(s)
    ensures AllDigits(s[..|s| - 1])
    ensures NumberOf(s) == NumberOf(s[..|s| - 1]) * 10 + (s[|s| - 1] as int - '0' as int)
  {
  }

  lemma MoreDigits(z: nat, m: nat, c: byte)
    requires IsDigit(c)
    ensures var n := m * 10 + (c as int - '0' as int);
            Zeros(z) + Decimal(m) + [c] == Zeros(if m == 0 then z + 1 else z) + Decimal(n)
  {
    var d := c as int - '0' as int;
    if m == 0 {
      assert Decimal(0) == ['0'] && Decimal(d) == [c];
    } else {
      assert Decimal(m * 10 + d) == Decimal(m) + [c];
    }
  }

  lemma OneDigitNumber(s: bytes)
    requires |s| == 1 && AllDigits(s)
    ensures s == Zeros(0) + Decimal(NumberOf(s))
  {
    assert s[..0] == [];
    assert NumberOf(s) == s[0] as int - '0' as int;
    assert Decimal(NumberOf(s)) == [s[0]];
  }

  lemma {:induction false} ZerosDoNotCount(z: nat, n: nat)
    ensures Decimal(n) != [] && AllDigits(Zeros(z) + Decimal(n)) && NumberOf(Zeros(z) + Decimal(n)) == n
  {
    DecimalDigits(n);
    var s := Zeros(z) + Decimal(n);
    var shorter := s[..|s| - 1];
    if n >= 10 {
      ZerosDoNotCount(z, n / 10);
      assert shorter == Zeros(z) + Decimal(n / 10);
    } else {
      assert shorter == Zeros(z);
      OnlyZeros(z);
    }
  }

  lemma {:induction false} OnlyZeros(z: nat)
    ensures AllDigits(Zeros(z)) && NumberOf(Zeros(z)) == 0
  {
    if z > 0 {
      OnlyZeros(z - 1);
      assert Zeros(z)[..z - 1] == Zeros(z - 1);
    }
  }

  lemma ParseU16Exactly(s: bytes)
    ensures ParseU16(s).Some? <==> ParseU64(s).Some? && ParseU64(s).value < 0x1_0000
    ensures ParseU16(s).Some? ==> ParseU16(s).value == ParseU64(s).value
  {
  }

  // ---------- Order of std::map keys ----------

  /** `std::string` comparison: byte by byte, a proper prefix comes first. */
  predicate Less(a: bytes, b: bytes) {
    b != [] && (a == [] || a[0] < b[0] || (a[0] == b[0] && Less(a[1..], b[1..])))
  }

  /** One text is before another if, behind what they have in common, it ends or has the smaller
      byte. */
  lemma {:induction false} LessMeans(a: bytes, b: bytes)
    ensures Less(a, b) <==>
            exists n: nat :: n <= |a| && n < |b| && a[..n] == b[..n] && (n == |a| || a[n] < b[n])
  {
    if a != [] && b != [] && a[0] == b[0] {
      var c, d := a[1..], b[1..];
      LessMeans(c, d);
      if n: nat :| n <= |c| && n < |d| && c[..n] == d[..n] && (n == |c| || c[n] < d[n]) {
        assert a[..n + 1] == [a[0]] + c[..n] && b[..n + 1] == [b[0]] + d[..n];
        assert a[..n + 1] == b[..n + 1];
      }
      if n: nat :| n <= |a| && n < |b| && a[..n] == b[..n] && (n == |a| || a[n] < b[n]) {
        assert n > 0;
        assert c[..n - 1] == a[..n][1..] && d[..n - 1] == b[..n][1..];
      }
    } else if b != [] {
      assert a[..0] == b[..0];
      if n: nat :| n <= |a| && n < |b| && a[..n] == b[..n] && (n == |a| || a[n] < b[n]) {
        assert n > 0 ==> a[..n][0] == b[..n][0];
      }
    }
  }

  lemma {:induction false} LessAsymmetric(a: bytes, b: bytes)
    requires Less(a, b)
    ensures !Less(b, a) && a != b
  {
    if a != [] && a[0] == b[0] {
      LessAsymmetric(a[1..], b[1..]);
    }
  }

  lemma {:induction false} LessTotal(a: bytes, b: bytes)
    ensures Less(a, b) || a == b || Less(b, a)
  {
    if a != [] && b != [] && a[0] == b[0] {
      LessTotal(a[1..], b[1..]);
      if a[1..] == b[1..] {
        assert a == [a[0]] + a[1..];
        assert b == [b[0]] + b[1..];
      }
    }
  }

  lemma {:induction false} LessTransitive(a: bytes, b: bytes, c: bytes)
    requires Less(a, b) && Less(b, c)
    ensures Less(a, c)
  {
    if a != [] && a[0] == b[0] == c[0] {
      LessTransitive(a[1..], b[1..], c[1..]);
    }
  }

  /** The keys of a std::map in iteration order. */
  ghost function SortedKeys(keys: set<bytes>): (r: seq<bytes>)
    ensures forall k :: k in r <==> k in keys
  {
    if keys == {} then []
    else [Least(keys)] + SortedKeys(keys - {Least(keys)})
  }

  ghost function Least(keys: set<bytes>): (k: bytes)
    requires keys != {}
    ensures IsLeast(k, keys)
  {
    LeastKeyExists(keys);
    var k :| IsLeast(k, keys);
    k
  }

  lemma {:induction false} SortedKeysAscend(keys: set<bytes>, i: nat, j: nat)
    requires i < j < |SortedKeys(keys)|
    ensures Less(SortedKeys(keys)[i], SortedKeys(keys)[j])
  {
    if i == 0 {
      assert SortedKeys(keys)[j] == SortedKeys(keys - {Least(keys)})[j - 1];
    } else {
      SortedKeysAscend(keys - {Least(keys)}, i - 1, j - 1);
    }
  }

  lemma LeastIsUnique(k: bytes, keys: set<bytes>)
    requires IsLeast(k, keys)
    ensures Least(keys) == k
  {
    if Least(keys) != k {
      LessAsymmetric(k, Least(keys));
    }
  }

  ghost predicate IsLeast(k: bytes, keys: set<bytes>) {
    k in keys && forall j :: j in keys && j != k ==> Less(k, j)
  }

  lemma {:induction false} LeastKeyExists(keys: set<bytes>)
    requires keys != {}
    ensures exists k :: IsLeast(k, keys)
  {
    var any :| any in keys;
    var others := keys - {any};
    if others == {} {
      assert keys == {any};
      assert IsLeast(any, keys);
    } else {
      LeastKeyExists(others);
      var k :| IsLeast(k, others);
      LessTotal(any, k);
      if Less(any, k) {
        forall j | j in keys && j != any ensures Less(any, j) {
          if j != k { LessTransitive(any, k, j); }
        }
        assert IsLeast(any, keys);
      } else {
        assert IsLeast(k, keys);
      }
    }
  }

  lemma {:induction false} SortedKeysCount(keys: set<bytes>)
    ensures |SortedKeys(keys)| == |keys|
    ensures forall i, j :: 0 <= i < j < |SortedKeys(keys)| ==> SortedKeys(keys)[i] != SortedKeys(keys)[j]
  {
    if keys != {} {
      SortedKeysCount(keys - {Least(keys)});
    }
  }

  /** Iteration over a std::map: the least key that is left comes next. */
  method KeysInOrder(all: set<bytes>) returns (keys: seq<bytes>)
    ensures keys == SortedKeys(all)
  {
    keys := [];
    var left := all;
    while left != {}
      invariant SortedKeys(all) == keys + SortedKeys(left)
      decreases left
    {
      var k := FirstKey(left);
      LeastIsUnique(k, left);
      assert keys + ([k] + SortedKeys(left - {k})) == keys + [k] + SortedKeys(left - {k});
      keys := keys + [k];
      left := left - {k};
    }
    assert keys + [] == keys;
  }

  method FirstKey(keys: set<bytes>) returns (k: bytes)
    requires keys != {}
    ensures IsLeast(k, keys)
  {
    LeastKeyExists(keys);
    k :| k in keys && forall j :: j in keys && j != k ==> Less(k, j);
  }
}
