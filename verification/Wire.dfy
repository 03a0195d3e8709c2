/** The text protocol of bridge/protocol.cpp: tab-separated fields, hex-encoded strings,
    one line per record. A connection is the sequence of bytes still to be read. */
module Wire {
  import opened Bytes

  // ---------- Results ----------

  /** The enumeration of exit codes. It is an `int` underneath, and a number read from the wire is
      cast to it unchecked, so a value may be none of the named ones. */
  datatype ExitCode =
    | ExitOk | Usage | ConfigExit | Sdk | ConnectionExit | NotFound | Unsupported | Internal
    | Unnamed(number: int)
  {
    function Number(): int {
      match this
      case ExitOk => 0
      case Usage => 2
      case ConfigExit => 3
      case Sdk => 4
      case ConnectionExit => 5
      case NotFound => 6
      case Unsupported => 7
      case Internal => 10
      case Unnamed(number) => number
    }
  }

  datatype Error = Error(category: bytes, code: bytes, message: bytes, exit: ExitCode, details: map<bytes, bytes>)

  datatype Result<+T> = Ok(value: T) | Err(error: Error) {
    predicate IsFailure() { Err? }

    function PropagateFailure<U>(): Result<U>
      requires Err?
    {
      Err(error)
    }

    function Extract(): T
      requires Ok?
    {
      value
    }
  }

  function MakeError(category: bytes, code: bytes, message: bytes, exit: ExitCode): Error {
    Error(category, code, message, exit, map[])
  }

  function ProtocolError(code: bytes, message: bytes): Error {
    MakeError("bridge", code, message, Internal)
  }

  // ---------- Hexadecimal ----------

  const ODD_HEX: Error := ProtocolError("invalid_hex", "bridge hex field has odd length")
  const NON_HEX: Error := ProtocolError("invalid_hex", "bridge hex field contains " + "a non-hex character")

  function HexDigit(n: nat): byte
    requires n < 16
  {
    if n < 10 then ('0' as int + n) as char else ('a' as int + n - 10) as char
  }

  function HexEncode(s: bytes): (r: bytes)
    ensures |r| == 2 * |s|
  {
    if s == [] then []
    else [HexDigit(s[0] as int / 16), HexDigit(s[0] as int % 16)] + HexEncode(s[1..])
  }

  /** Hexadecimal is written in lower case. */
  lemma {:induction false} HexIsLower(s: bytes, i: nat)
    requires i < |HexEncode(s)|
    ensures '0' <= HexEncode(s)[i] <= '9' || 'a' <= HexEncode(s)[i] <= 'f'
    decreases |s|
  {
    if i >= 2 {
      HexIsLower(s[1..], i - 2);
    }
  }

  /** Value of one hex digit, upper or lower case. */
  function HexValue(c: byte): (v: int)
    ensures -1 <= v < 16
  {
    var lower := LowerByte(c);
    if '0' <= lower <= '9' then lower as int - '0' as int
    else if 'a' <= lower <= 'f' then lower as int - 'a' as int + 10
    else -1
  }

  function HexPairs(s: bytes): Result<bytes>
    requires |s| % 2 == 0
  {
    if s == [] then Ok([])
    else if HexValue(s[0]) < 0 || HexValue(s[1]) < 0 then
      Err(NON_HEX)
    else
      var rest :- HexPairs(s[2..]);
      Ok([(HexValue(s[0]) * 16 + HexValue(s[1])) as char] + rest)
  }

  function HexDecode(s: bytes): Result<bytes> {
    if |s| % 2 != 0 then Err(ODD_HEX)
    else HexPairs(s)
  }

  lemma HexDigitValue(n: nat)
    requires n < 16
    ensures HexValue(HexDigit(n)) == n
  {
  }

  /** Every byte string survives the hex round trip. */
  lemma {:induction false} HexRoundTrip(s: bytes)
    ensures HexDecode(HexEncode(s)) == Ok(s)
  {
    if s != [] {
      HexRoundTrip(s[1..]);
      HexPairReads(s[0], HexEncode(s[1..]));
      assert s == [s[0]] + s[1..];
    }
  }

  lemma HexPairReads(c: byte, rest: bytes)
    requires |rest| % 2 == 0
    ensures var s := [HexDigit(c as int / 16), HexDigit(c as int % 16)] + rest;
            HexPairs(s) == if HexPairs(rest).Err? then HexPairs(rest) else Ok([c] + HexPairs(rest).value)
  {
    HexDigitValue(c as int / 16);
    HexDigitValue(c as int % 16);
    hide HexValue, HexDigit;
    var s := [HexDigit(c as int / 16), HexDigit(c as int % 16)] + rest;
    assert s[2..] == rest;
    assert HexValue(s[0]) * 16 + HexValue(s[1]) == c as int;
  }

  /** Hexadecimal text is accepted in either case, and nothing else is. */
  lemma HexDecodeExactly(s: bytes, t: bytes)
    ensures HexDecode(s) == Ok(t) <==> EqualsIgnoringCase(s, HexEncode(t))
    ensures HexDecode(s).Err? ==> HexDecode(s).error == if |s| % 2 != 0 then ODD_HEX else NON_HEX
    ensures ODD_HEX.code == NON_HEX.code == "invalid_hex"
  {
    if |s| % 2 == 0 {
      HexPairsExactly(s, t);
    }
  }

  lemma {:induction false} HexPairsExactly(s: bytes, t: bytes)
    requires |s| % 2 == 0
    ensures HexPairs(s) == Ok(t) <==> EqualsIgnoringCase(s, HexEncode(t))
    ensures HexPairs(s).Err? ==> HexPairs(s).error == NON_HEX
  {
    hide HexValue, HexDigit, LowerByte;
    if s != [] {
      var more := if t == [] then [] else t[1..];
      HexPairsExactly(s[2..], more);
      EqualsIgnoringCaseMeans(s, HexEncode(t));
      EqualsIgnoringCaseMeans(s[2..], HexEncode(more));
      if t != [] {
        PairExactly(s[0], s[1], t[0]);
        assert t == [t[0]] + more;
        var e := HexEncode(t);
        assert e[0] == HexDigit(t[0] as int / 16) && e[1] == HexDigit(t[0] as int % 16) && e[2..] == HexEncode(more);
        assert forall i | 0 <= i < |s[2..]| :: s[2..][i] == s[i + 2];
        assert forall i | 2 <= i < |s| :: s[i] == s[2..][i - 2];
        assert forall i | 2 <= i < |e| :: e[i] == e[2..][i - 2];
      }
    }
  }

  lemma PairExactly(hi: byte, lo: byte, b: byte)
    ensures HexValue(hi) >= 0 && HexValue(lo) >= 0 && (HexValue(hi) * 16 + HexValue(lo)) as char == b <==>
            SameLetter(hi, HexDigit(b as int / 16)) && SameLetter(lo, HexDigit(b as int % 16))
  {
    DigitExactly(hi, b as int / 16);
    DigitExactly(lo, b as int % 16);
  }

  lemma DigitExactly(c: byte, n: nat)
    requires n < 16
    ensures HexValue(c) == n <==> SameLetter(c, HexDigit(n))
  {
  }

  lemma {:induction false} HexPairsAppend(s: bytes, hi: byte, lo: byte)
    requires |s| % 2 == 0 && HexPairs(s).Ok?
    ensures HexPairs(s + [hi, lo]) ==
            if HexValue(hi) < 0 || HexValue(lo) < 0
            then Err(NON_HEX)
            else Ok(HexPairs(s).value + [(HexValue(hi) * 16 + HexValue(lo)) as char])
  {
    if s == [] {
      assert s + [hi, lo] == [hi, lo] && [hi, lo][2..] == [];
      if HexValue(hi) >= 0 && HexValue(lo) >= 0 {
        var last := (HexValue(hi) * 16 + HexValue(lo)) as char;
        assert HexPairs([hi, lo]).value == [last] == HexPairs(s).value + [last];
      }
    } else {
      assert (s + [hi, lo])[2..] == s[2..] + [hi, lo];
      HexPairsAppend(s[2..], hi, lo);
      var longer := s + [hi, lo];
      assert longer[0] == s[0] && longer[1] == s[1];
      var b := (HexValue(s[0]) * 16 + HexValue(s[1])) as char;
      assert HexPairs(s).value == [b] + HexPairs(s[2..]).value;
      if HexPairs(longer[2..]).Ok? {
        var last := (HexValue(hi) * 16 + HexValue(lo)) as char;
        assert [b] + (HexPairs(s[2..]).value + [last]) == [b] + HexPairs(s[2..]).value + [last];
      } else {
        assert HexPairs(longer) == Err(HexPairs(longer[2..]).error);
      }
    }
  }

  lemma {:induction false} HexPairsFailure(s: bytes, more: bytes)
    requires |s| % 2 == 0 && |more| % 2 == 0 && HexPairs(s).Err?
    ensures HexPairs(s + more) == HexPairs(s)
  {
    assert (s + more)[2..] == s[2..] + more;
    if HexValue(s[0]) >= 0 && HexValue(s[1]) >= 0 {
      HexPairsFailure(s[2..], more);
    }
  }

  lemma {:induction false} HexEncodeAppend(s: bytes, c: byte)
    ensures HexEncode(s + [c]) == HexEncode(s) + [HexDigit(c as int / 16), HexDigit(c as int % 16)]
  {
    if s == [] {
      assert s + [c] == [c] && [c][1..] == [];
    } else {
      assert (s + [c])[1..] == s[1..] + [c];
      HexEncodeAppend(s[1..], c);
    }
  }

  /** protocol::hex_encode */
  method HexEncodeText(value: bytes) returns (out: bytes)
    ensures out == HexEncode(value)
  {
    out := [];
    for i := 0 to |value|
      invariant out == HexEncode(value[..i])
    {
      HexEncodeAppend(value[..i], value[i]);
      assert value[..i + 1] == value[..i] + [value[i]];
      out := out + [HexDigit(value[i] as int / 16)] + [HexDigit(value[i] as int % 16)];
    }
    assert value[..|value|] == value;
  }

  /** protocol::hex_decode: pairs are converted until one of them is not hexadecimal. */
  method HexDecodeText(value: bytes) returns (r: Result<bytes>)
    ensures r == HexDecode(value)
  {
    hide LowerByte;
    if |value| % 2 != 0 {
      return Err(ODD_HEX);
    }
    var out: bytes := [];
    var i := 0;
    while i < |value|
      invariant 0 <= i <= |value| && i % 2 == 0
      invariant HexPairs(value[..i]) == Ok(out)
    {
      var hi := HexValue(value[i]);
      var lo := HexValue(value[i + 1]);
      HexPairsAppend(value[..i], value[i], value[i + 1]);
      assert value[..i + 2] == value[..i] + [value[i], value[i + 1]];
      if hi < 0 || lo < 0 {
        HexPairsFailure(value[..i + 2], value[i + 2..]);
        assert value[..i + 2] + value[i + 2..] == value;
        return Err(NON_HEX);
      }
      out := out + [(hi * 16 + lo) as char];
      i := i + 2;
    }
    assert value[..|value|] == value;
    r := Ok(out);
  }

  // ---------- Lines ----------

  type Fields = seq<bytes>

  function SplitFields(line: bytes): Fields {
    Split(line, '\t')
  }

  /** protocol::join_fields: tabs between the fields and a newline at the end. */
  function JoinFields(fields: Fields): bytes {
    Join(fields, '\t') + ['\n']
  }

  datatype LineRead = NoLine | Line(text: bytes, rest: bytes)

  /** protocol::read_line on the bytes that can be read: the bytes before the first newline. */
  function ReadLine(input: bytes): LineRead {
    if input == [] then NoLine
    else if input[0] == '\n' then Line([], input[1..])
    else
      match ReadLine(input[1..])
      case NoLine => NoLine
      case Line(text, rest) => Line([input[0]] + text, rest)
  }

  lemma {:induction false} ReadLineExact(text: bytes, rest: bytes)
    requires '\n' !in text
    ensures ReadLine(text + ['\n'] + rest) == Line(text, rest)
  {
    var input := text + ['\n'] + rest;
    if text == [] {
      assert input[1..] == rest;
    } else {
      assert input[1..] == text[1..] + ['\n'] + rest;
      ReadLineExact(text[1..], rest);
      assert [text[0]] + text[1..] == text;
    }
  }

  /** What a line read returns is cut out of the input at the first newline. */
  lemma {:induction false} ReadLineSplits(input: bytes)
    ensures ReadLine(input).NoLine? <==> '\n' !in input
    ensures var r := ReadLine(input);
            r.Line? ==> '\n' !in r.text && input == r.text + ['\n'] + r.rest
  {
    if input != [] && input[0] != '\n' {
      ReadLineSplits(input[1..]);
    }
  }

  lemma AppendLater(a: bytes, b: bytes, c: bytes)
    ensures a + b + c == a + (b + c)
  {
  }

  lemma ReadLineAppend(input: bytes, more: bytes)
    requires ReadLine(input).Line?
    ensures ReadLine(input + more) == Line(ReadLine(input).text, ReadLine(input).rest + more)
  {
    var text, rest := ReadLine(input).text, ReadLine(input).rest;
    ReadLineSplits(input);
    AppendLater(text + ['\n'], rest, more);
    ReadLineExact(text, rest + more);
  }

  /** The loop of protocol::read_line: one byte at a time until a newline or the end. */
  method ReadLineLoop(input: bytes) returns (r: LineRead)
    ensures r == ReadLine(input)
  {
    var line: bytes := [];
    var i := 0;
    while i < |input|
      invariant 0 <= i <= |input|
      invariant line == input[..i] && '\n' !in line
    {
      var ch := input[i];
      i := i + 1;
      if ch == '\n' {
        assert input == line + ['\n'] + input[i..];
        ReadLineExact(line, input[i..]);
        return Line(line, input[i..]);
      }
      line := line + [ch];
    }
    ReadLineSplits(input);
    return NoLine;
  }

  /** protocol::join_fields */
  method JoinFieldsText(fields: Fields) returns (out: bytes)
    ensures out == JoinFields(fields)
  {
    out := JoinText(fields, '\t');
    out := out + ['\n'];
  }

  /** A field list that may go on a line. */
  predicate Printable(fields: Fields) {
    fields != [] && AllFree(fields, '\t') && AllFree(fields, '\n')
  }

  /** A printed field list is read back as written, and nothing after its line is touched. */
  lemma LineRoundTrip(fields: Fields, rest: bytes)
    requires Printable(fields)
    ensures ReadLine(JoinFields(fields) + rest) == Line(Join(fields, '\t'), rest)
    ensures SplitFields(Join(fields, '\t')) == fields
  {
    JoinFree(fields, '\t', '\n');
    var text := Join(fields, '\t');
    assert JoinFields(fields) + rest == text + ['\n'] + rest;
    ReadLineExact(text, rest);
    SplitJoin(fields, '\t');
  }

  // ---------- Fields by kind ----------

  /** A field before it is printed: a protocol word, a hex-encoded string, a number, a flag, or
      a channel, where 0 stands for none. */
  datatype Item =
    | Word(word: bytes)
    | Hex(text: bytes)
    | Num(value: nat)
    | Int(number: int)
    | Flag(on: bool)
    | Maybe(channel: Option<u64>)

  function Text(item: Item): bytes {
    match item
    case Word(word) => word
    case Hex(text) => HexEncode(text)
    case Num(value) => Decimal(value)
    case Int(number) => SignedDecimal(number)
    case Flag(on) => if on then "1" else "0"
    case Maybe(channel) => if channel.Some? then Decimal(channel.value) else "0"
  }

  function Texts(items: seq<Item>): (r: Fields)
    ensures |r| == |items|
    ensures forall i :: 0 <= i < |items| ==> r[i] == Text(items[i])
  {
    if items == [] then [] else [Text(items[0])] + Texts(items[1..])
  }

  /** Text that can be a field: no tab, no newline. */
  predicate Plain(s: bytes) {
    forall i :: 0 <= i < |s| ==> s[i] != '\t' && s[i] != '\n'
  }

  predicate PlainWords(items: seq<Item>) {
    forall i :: 0 <= i < |items| && items[i].Word? ==> Plain(items[i].word)
  }

  lemma {:induction false} HexIsPlain(s: bytes)
    ensures Plain(HexEncode(s))
  {
    if s != [] {
      HexIsPlain(s[1..]);
    }
  }

  lemma TextIsPlain(item: Item)
    requires item.Word? ==> Plain(item.word)
    ensures Plain(Text(item))
  {
    match item
    case Hex(text) => HexIsPlain(text);
    case Num(value) => DecimalDigits(value);
    case Int(number) => DecimalDigits(if number < 0 then -number else number);
    case Maybe(channel) => DecimalDigits(if channel.Some? then channel.value else 0);
    case _ =>
  }

  /** Items always print to a line that reads back as the same fields. */
  lemma TextsArePrintable(items: seq<Item>)
    requires items != [] && PlainWords(items)
    ensures Printable(Texts(items))
  {
    var fields := Texts(items);
    forall i | 0 <= i < |fields| ensures '\t' !in fields[i] && '\n' !in fields[i] {
      TextIsPlain(items[i]);
    }
  }
}
