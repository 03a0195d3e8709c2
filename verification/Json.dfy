/** The JSON printer of output/render.cpp and a reader for the same language (RFC 8259): what is
    printed can be read back, so no two values look alike. */
module Json {
  import opened Bytes
  import opened Wire

  /** A std::map is listed in the order of its keys. */
  datatype Value =
    | Null
    | Bool(on: bool)
    | Number(number: int)
    | Str(text: bytes)
    | Arr(items: seq<Value>)
    | Obj(members: seq<Member>)

  datatype Member = Member(key: bytes, value: Value)

  // ---------- Printing ----------

  function EscapeByte(c: byte): bytes {
    if c == '\\' then "\\\\"
    else if c == '"' then "\\\""
    else if c == '\n' then "\\n"
    else if c == '\r' then "\\r"
    else if c as int == 8 then "\\b"
    else if c as int == 12 then "\\f"
    else if c == '\t' then "\\t"
    else if (c as int) < 0x20 then "\\u00" + [HexDigit(c as int / 16), HexDigit(c as int % 16)]
    else [c]
  }

  function Escape(s: bytes): bytes {
    if s == [] then [] else EscapeByte(s[0]) + Escape(s[1..])
  }

  function Quoted(s: bytes): bytes {
    ['"'] + Escape(s) + ['"']
  }

  function Render(v: Value): bytes
    decreases v, 0
  {
    match v
    case Null => "null"
    case Bool(on) => if on then "true" else "false"
    case Number(number) => SignedDecimal(number)
    case Str(text) => Quoted(text)
    case Arr(items) => ['['] + RenderItems(items) + [']']
    case Obj(members) => ['{'] + RenderMembers(members) + ['}']
  }

  function RenderItems(items: seq<Value>): bytes
    decreases items, 1
  {
    if items == [] then []
    else Render(items[0]) + if |items| == 1 then [] else [','] + RenderItems(items[1..])
  }

  function RenderMember(m: Member): bytes
    decreases m, 1
  {
    Quoted(m.key) + [':'] + Render(m.value)
  }

  function RenderMembers(members: seq<Member>): bytes
    decreases members, 2
  {
    if members == [] then []
    else RenderMember(members[0]) + if |members| == 1 then [] else [','] + RenderMembers(members[1..])
  }

  // ---------- Reading ----------

  datatype Parsed<+T> = Bad | Got(value: T, rest: bytes)

  function SkipSpace(input: bytes): (r: bytes)
    ensures |r| <= |input|
  {
    if input != [] && (input[0] == ' ' || input[0] == '\t' || input[0] == '\n' || input[0] == '\r')
    then SkipSpace(input[1..]) else input
  }

  function HexQuad(s: bytes): int
    requires |s| == 4
  {
    if HexValue(s[0]) < 0 || HexValue(s[1]) < 0 || HexValue(s[2]) < 0 || HexValue(s[3]) < 0 then -1
    else ((HexValue(s[0]) * 16 + HexValue(s[1])) * 16 + HexValue(s[2])) * 16 + HexValue(s[3])
  }

  /** UTF-8 of a code point; half of a surrogate pair is not one. */
  function Utf8(code: int): Option<bytes>
    requires code < 0x11_0000
  {
    if code < 0 then None
    else if code < 0x80 then Some([code as char])
    else if code < 0x800 then Some([(0xC0 + code / 64) as char, (0x80 + code % 64) as char])
    else if 0xD800 <= code < 0xE000 then None
    else if code < 0x1_0000 then
      Some([(0xE0 + code / 4096) as char, (0x80 + code / 64 % 64) as char, (0x80 + code % 64) as char])
    else
      Some([(0xF0 + code / 0x4_0000) as char, (0x80 + code / 4096 % 64) as char, (0x80 + code / 64 % 64) as char,
            (0x80 + code % 64) as char])
  }

  lemma QuadIsSmall(s: bytes)
    requires |s| == 4
    ensures HexQuad(s) < 0x1_0000
  {
  }

  /** A code unit in hexadecimal, or two of them that make a surrogate pair. */
  function ReadEscapedCode(input: bytes): (r: Parsed<bytes>)
    requires |input| >= 2
    ensures r.Got? ==> |r.rest| < |input|
  {
    if |input| < 6 then Bad
    else
      var first := HexQuad(input[2..6]);
      QuadIsSmall(input[2..6]);
      if 0xD800 <= first < 0xDC00 then
        if |input| < 12 || input[6] != '\\' || input[7] != 'u' then Bad
        else
          var second := HexQuad(input[8..12]);
          if !(0xDC00 <= second < 0xE000) then Bad
          else
            var encoded := Utf8(0x1_0000 + (first - 0xD800) * 0x400 + (second - 0xDC00));
            if encoded.None? then Bad else Got(encoded.value, input[12..])
      else
        var encoded := Utf8(first);
        if encoded.None? then Bad else Got(encoded.value, input[6..])
  }

  /** One character of a string (section 7), escaped or not. */
  function ReadUnit(input: bytes): (r: Parsed<bytes>)
    requires input != []
    ensures r.Got? ==> |r.rest| < |input|
  {
    var c := input[0];
    if (c as int) < 0x20 || c == '"' then Bad
    else if c != '\\' then Got([c], input[1..])
    else if |input| < 2 then Bad
    else
      match input[1]
      case '"' => Got("\"", input[2..])
      case '\\' => Got("\\", input[2..])
      case '/' => Got("/", input[2..])
      case 'n' => Got("\n", input[2..])
      case 'r' => Got("\r", input[2..])
      case 't' => Got("\t", input[2..])
      case 'b' => Got([8 as char], input[2..])
      case 'f' => Got([12 as char], input[2..])
      case 'u' => ReadEscapedCode(input)
      case _ => Bad
  }

  /** The rest of a string, after its opening quote. */
  function ReadChars(input: bytes): (r: Parsed<bytes>)
    ensures r.Got? ==> |r.rest| < |input|
    decreases |input|
  {
    if input == [] then Bad
    else if input[0] == '"' then Got([], input[1..])
    else
      match ReadUnit(input)
      case Bad => Bad
      case Got(unit, after) =>
        match ReadChars(after)
        case Bad => Bad
        case Got(text, rest) => Got(unit + text, rest)
  }

  function LeadingDigits(input: bytes): (n: nat)
    ensures n <= |input|
    ensures forall i :: 0 <= i < n ==> IsDigit(input[i])
  {
    if input != [] && IsDigit(input[0]) then 1 + LeadingDigits(input[1..]) else 0
  }

  /** A number without fraction or exponent (section 6). */
  function ReadNumber(input: bytes): (r: Parsed<Value>)
    ensures r.Got? ==> |r.rest| < |input|
  {
    var negative := input != [] && input[0] == '-';
    var body := if negative then input[1..] else input;
    var n := LeadingDigits(body);
    if n == 0 || (n > 1 && body[0] == '0') then Bad
    else if n < |body| && (body[n] == '.' || body[n] == 'e' || body[n] == 'E') then Bad
    else
      var magnitude: int := NumberOf(body[..n]);
      Got(Number(if negative then -magnitude else magnitude), body[n..])
  }

  predicate StartsWith(input: bytes, word: bytes) {
    word <= input
  }

  function ReadValue(input: bytes): (r: Parsed<Value>)
    ensures r.Got? ==> |r.rest| < |input|
    decreases |input|, 0
  {
    var s := SkipSpace(input);
    if s == [] then Bad
    else if s[0] == '"' then
      match ReadChars(s[1..])
      case Bad => Bad
      case Got(text, rest) => Got(Str(text), rest)
    else if s[0] == '[' then ReadArray(s[1..])
    else if s[0] == '{' then ReadObject(s[1..])
    else if StartsWith(s, "null") then Got(Null, s[4..])
    else if StartsWith(s, "true") then Got(Bool(true), s[4..])
    else if StartsWith(s, "false") then Got(Bool(false), s[5..])
    else ReadNumber(s)
  }

  function ReadArray(input: bytes): (r: Parsed<Value>)
    ensures r.Got? ==> |r.rest| < |input|
    decreases |input|, 2
  {
    var s := SkipSpace(input);
    if s != [] && s[0] == ']' then Got(Arr([]), s[1..])
    else
      match ReadItems(input)
      case Bad => Bad
      case Got(items, rest) => Got(Arr(items), rest)
  }

  function ReadItems(input: bytes): (r: Parsed<seq<Value>>)
    ensures r.Got? ==> |r.rest| < |input|
    decreases |input|, 1
  {
    match ReadValue(input)
    case Bad => Bad
    case Got(v, after) =>
      var s := SkipSpace(after);
      if s == [] then Bad
      else if s[0] == ']' then Got([v], s[1..])
      else if s[0] != ',' then Bad
      else
        match ReadItems(s[1..])
        case Bad => Bad
        case Got(items, rest) => Got([v] + items, rest)
  }

  function ReadObject(input: bytes): (r: Parsed<Value>)
    ensures r.Got? ==> |r.rest| < |input|
    decreases |input|, 3
  {
    var s := SkipSpace(input);
    if s != [] && s[0] == '}' then Got(Obj([]), s[1..])
    else
      match ReadMembers(input)
      case Bad => Bad
      case Got(members, rest) => Got(Obj(members), rest)
  }

  function ReadMember(input: bytes): (r: Parsed<Member>)
    ensures r.Got? ==> |r.rest| < |input|
    decreases |input|, 1
  {
    var s := SkipSpace(input);
    if s == [] || s[0] != '"' then Bad
    else
      match ReadChars(s[1..])
      case Bad => Bad
      case Got(key, after) =>
        var t := SkipSpace(after);
        if t == [] || t[0] != ':' then Bad
        else
          match ReadValue(t[1..])
          case Bad => Bad
          case Got(v, rest) => Got(Member(key, v), rest)
  }

  function ReadMembers(input: bytes): (r: Parsed<seq<Member>>)
    ensures r.Got? ==> |r.rest| < |input|
    decreases |input|, 2
  {
    match ReadMember(input)
    case Bad => Bad
    case Got(m, after) =>
      var s := SkipSpace(after);
      if s == [] then Bad
      else if s[0] == '}' then Got([m], s[1..])
      else if s[0] != ',' then Bad
      else
        match ReadMembers(s[1..])
        case Bad => Bad
        case Got(members, rest) => Got([m] + members, rest)
  }

  /** A whole document: one value with nothing but white space after it. */
  function ReadDocument(input: bytes): Option<Value> {
    match ReadValue(input)
    case Bad => None
    case Got(v, rest) => if SkipSpace(rest) == [] then Some(v) else None
  }

  // ---------- What is printed can be read ----------

  lemma EscapedByteReads(c: byte, rest: bytes)
    ensures EscapeByte(c) != [] && EscapeByte(c)[0] != '"'
    ensures ReadUnit(EscapeByte(c) + rest) == Got([c], rest)
  {
    var e := EscapeByte(c);
    assert (e + rest)[|e|..] == rest;
    if |e| == 6 {
      ControlReads(c, rest);
    }
  }

  lemma ControlReads(c: byte, rest: bytes)
    requires |EscapeByte(c)| == 6
    ensures ReadUnit(EscapeByte(c) + rest) == Got([c], rest)
  {
    var e := EscapeByte(c);
    var hi, lo := c as int / 16, c as int % 16;
    HexDigitValue(hi);
    HexDigitValue(lo);
    assert e == ['\\', 'u', '0', '0', HexDigit(hi), HexDigit(lo)];
    assert (e + rest)[2..6] == ['0', '0', HexDigit(hi), HexDigit(lo)];
    assert HexQuad(['0', '0', HexDigit(hi), HexDigit(lo)]) == c as int;
    assert (e + rest)[6..] == rest;
  }

  /** Any byte string survives quoting. */
  lemma {:induction false} QuotedReads(s: bytes, rest: bytes)
    ensures ReadChars(Escape(s) + (['"'] + rest)) == Got(s, rest)
  {
    hide EscapeByte, ReadUnit;
    if s == [] {
      assert Escape(s) + (['"'] + rest) == ['"'] + rest;
    } else {
      var more := Escape(s[1..]) + (['"'] + rest);
      EscapedByteReads(s[0], more);
      AppendLater(EscapeByte(s[0]), Escape(s[1..]), ['"'] + rest);
      QuotedReads(s[1..], rest);
      assert [s[0]] + s[1..] == s;
    }
  }

  /** Where a value may end. */
  predicate Delimited(rest: bytes) {
    rest == [] || rest[0] == ',' || rest[0] == ']' || rest[0] == '}'
  }

  lemma {:induction false} DigitsRun(digits: bytes, rest: bytes)
    requires AllDigits(digits) && Delimited(rest)
    ensures LeadingDigits(digits + rest) == |digits|
  {
    if digits != [] {
      assert (digits + rest)[1..] == digits[1..] + rest;
      DigitsRun(digits[1..], rest);
    } else {
      assert digits + rest == rest;
    }
  }

  lemma DigitsRead(n: nat, rest: bytes)
    requires Delimited(rest)
    ensures var digits := Decimal(n);
            && digits != [] && IsDigit(digits[0]) && (|digits| > 1 ==> digits[0] != '0') && AllDigits(digits)
            && LeadingDigits(digits + rest) == |digits| && NumberOf(digits) == n
            && (digits + rest)[..|digits|] == digits && (digits + rest)[|digits|..] == rest
  {
    hide Decimal, NumberOf;
    DecimalDigits(n);
    NumberOfDecimal(n);
    DigitsRun(Decimal(n), rest);
  }

  lemma NumberShape(digits: bytes, rest: bytes)
    requires Delimited(rest) && digits != [] && IsDigit(digits[0]) && (|digits| > 1 ==> digits[0] != '0')
    requires AllDigits(digits) && LeadingDigits(digits + rest) == |digits|
    requires (digits + rest)[..|digits|] == digits && (digits + rest)[|digits|..] == rest
    ensures ReadNumber(digits + rest) == Got(Number(NumberOf(digits)), rest)
    ensures ReadNumber(['-'] + (digits + rest)) == Got(Number(0 - NumberOf(digits)), rest)
  {
    hide NumberOf, LeadingDigits, AllDigits;
    var signed := ['-'] + (digits + rest);
    assert signed[1..] == digits + rest && signed[0] == '-';
  }

  lemma NumberReads(n: int, rest: bytes)
    requires Delimited(rest)
    ensures ReadNumber(SignedDecimal(n) + rest) == Got(Number(n), rest)
  {
    hide Decimal, NumberOf, LeadingDigits, AllDigits, ReadNumber;
    var m := if n < 0 then -n else n;
    DigitsRead(m, rest);
    NumberShape(Decimal(m), rest);
    if n < 0 {
      assert SignedDecimal(n) + rest == ['-'] + (Decimal(m) + rest);
    }
  }

  /** What a printed value begins with tells the reader what it is. */
  lemma FirstByte(v: Value)
    ensures Render(v) != []
    ensures Render(v)[0] == '"' <==> v.Str?
    ensures Render(v)[0] == '[' <==> v.Arr?
    ensures Render(v)[0] == '{' <==> v.Obj?
    ensures v.Number? ==> Render(v)[0] == '-' || IsDigit(Render(v)[0])
    ensures Render(v)[0] != ' ' && Render(v)[0] != '\t' && Render(v)[0] != '\n' && Render(v)[0] != '\r'
    ensures Render(v)[0] != ']' && Render(v)[0] != '}'
  {
    if v.Number? {
      DecimalDigits(if v.number < 0 then -v.number else v.number);
    }
  }

  lemma NoSpaceAhead(input: bytes)
    requires input != [] && input[0] != ' ' && input[0] != '\t' && input[0] != '\n' && input[0] != '\r'
    ensures SkipSpace(input) == input
  {
  }

  lemma ScalarReads(v: Value, rest: bytes)
    requires !v.Arr? && !v.Obj? && Delimited(rest)
    ensures ReadValue(Render(v) + rest) == Got(v, rest)
  {
    hide SignedDecimal, ReadNumber, ReadChars, Escape;
    var input := Render(v) + rest;
    FirstByte(v);
    NoSpaceAhead(input);
    assert input[0] == Render(v)[0];
    match v
    case Str(text) =>
      assert input[1..] == Escape(text) + (['"'] + rest);
      QuotedReads(text, rest);
    case Number(number) => NumberReads(number, rest);
    case Null => assert input[4..] == rest;
    case Bool(on) => assert input[|Render(v)|..] == rest;
  }

  lemma {:induction false} ItemsRead(items: seq<Value>, rest: bytes)
    requires items != []
    ensures ReadItems(RenderItems(items) + ([']'] + rest)) == Got(items, rest)
    decreases items, 1
  {
    hide Render, ReadValue;
    var close := [']'] + rest;
    if |items| == 1 {
      ValueReads(items[0], close);
      NoSpaceAhead(close);
      assert RenderItems(items) + close == Render(items[0]) + close;
      assert items == [items[0]];
    } else {
      var more := [','] + (RenderItems(items[1..]) + close);
      assert RenderItems(items) + close == Render(items[0]) + more;
      ValueReads(items[0], more);
      NoSpaceAhead(more);
      assert more[1..] == RenderItems(items[1..]) + close;
      ItemsRead(items[1..], rest);
      assert items == [items[0]] + items[1..];
    }
  }

  lemma {:induction false} MemberReads(m: Member, rest: bytes)
    requires Delimited(rest)
    ensures ReadMember(RenderMember(m) + rest) == Got(m, rest)
    decreases m, 1
  {
    hide Render, ReadValue, ReadChars, Escape;
    var input := RenderMember(m) + rest;
    var after := [':'] + (Render(m.value) + rest);
    assert input == ['"'] + (Escape(m.key) + (['"'] + after));
    assert input[1..] == Escape(m.key) + (['"'] + after);
    NoSpaceAhead(input);
    QuotedReads(m.key, after);
    NoSpaceAhead(after);
    assert after[1..] == Render(m.value) + rest;
    ValueReads(m.value, rest);
  }

  lemma {:induction false} MembersRead(members: seq<Member>, rest: bytes)
    requires members != []
    ensures ReadMembers(RenderMembers(members) + (['}'] + rest)) == Got(members, rest)
    decreases members, 2
  {
    hide RenderMember, ReadMember;
    var close := ['}'] + rest;
    if |members| == 1 {
      MemberReads(members[0], close);
      NoSpaceAhead(close);
      assert RenderMembers(members) + close == RenderMember(members[0]) + close;
      assert members == [members[0]];
    } else {
      var more := [','] + (RenderMembers(members[1..]) + close);
      assert RenderMembers(members) + close == RenderMember(members[0]) + more;
      MemberReads(members[0], more);
      NoSpaceAhead(more);
      assert more[1..] == RenderMembers(members[1..]) + close;
      MembersRead(members[1..], rest);
      assert members == [members[0]] + members[1..];
    }
  }

  lemma ItemsBegin(items: seq<Value>, rest: bytes)
    requires items != []
    ensures var input := RenderItems(items) + rest; input != [] && SkipSpace(input) == input && input[0] != ']'
  {
    hide Render;
    FirstByte(items[0]);
    assert (RenderItems(items) + rest)[0] == Render(items[0])[0];
    NoSpaceAhead(RenderItems(items) + rest);
  }

  lemma MembersBegin(members: seq<Member>, rest: bytes)
    requires members != []
    ensures var input := RenderMembers(members) + rest; input != [] && SkipSpace(input) == input && input[0] != '}'
  {
    hide Render, Escape;
    assert (RenderMembers(members) + rest)[0] == '"';
    NoSpaceAhead(RenderMembers(members) + rest);
  }

  /** Every value tree is read back as itself, and reading stops where it ends. */
  lemma {:induction false} ValueReads(v: Value, rest: bytes)
    requires Delimited(rest)
    ensures ReadValue(Render(v) + rest) == Got(v, rest)
    decreases v, 0
  {
    hide RenderItems, RenderMembers, ReadItems, ReadMembers;
    var input := Render(v) + rest;
    match v
    case Arr(items) =>
      var close := [']'] + rest;
      NoSpaceAhead(input);
      assert input[1..] == RenderItems(items) + close;
      if items == [] {
        assert RenderItems([]) == [] by { NothingPrinted(); }
        assert input[1..] == close;
        NoSpaceAhead(close);
      } else {
        ItemsBegin(items, close);
        ItemsRead(items, rest);
      }
    case Obj(members) =>
      var close := ['}'] + rest;
      NoSpaceAhead(input);
      assert input[1..] == RenderMembers(members) + close;
      if members == [] {
        assert RenderMembers([]) == [] by { NothingPrinted(); }
        assert input[1..] == close;
        NoSpaceAhead(close);
      } else {
        MembersBegin(members, close);
        MembersRead(members, rest);
      }
    case _ => ScalarReads(v, rest);
  }

  lemma NothingPrinted()
    ensures RenderItems([]) == [] && RenderMembers([]) == []
  {
  }

  lemma DocumentReads(v: Value)
    ensures ReadDocument(Render(v)) == Some(v)
  {
    hide Render, ReadValue;
    assert Render(v) + [] == Render(v);
    ValueReads(v, []);
  }

  /** Printing is injective. */
  lemma PrintingIsInjective(v: Value, w: Value)
    requires Render(v) == Render(w)
    ensures v == w
  {
    hide Render;
    DocumentReads(v);
    DocumentReads(w);
  }

  // ---------- No control bytes, and NDJSON ----------

  predicate NoControls(s: bytes) {
    forall i :: 0 <= i < |s| ==> s[i] as int >= 0x20
  }

  lemma EscapedByteIsClean(c: byte)
    ensures NoControls(EscapeByte(c))
  {
  }

  lemma {:induction false} EscapeIsClean(s: bytes)
    ensures NoControls(Escape(s))
  {
    if s != [] {
      hide EscapeByte;
      EscapedByteIsClean(s[0]);
      EscapeIsClean(s[1..]);
    }
  }

  lemma {:induction false} RenderIsClean(v: Value)
    ensures NoControls(Render(v))
    decreases v, 0
  {
    match v
    case Str(text) => EscapeIsClean(text);
    case Number(number) => DecimalDigits(if number < 0 then -number else number);
    case Arr(items) => ItemsAreClean(items);
    case Obj(members) => MembersAreClean(members);
    case Null =>
    case Bool(_) =>
  }

  lemma {:induction false} ItemsAreClean(items: seq<Value>)
    ensures NoControls(RenderItems(items))
    decreases items, 1
  {
    hide Render;
    if items != [] {
      RenderIsClean(items[0]);
      ItemsAreClean(items[1..]);
    }
  }

  lemma {:induction false} MembersAreClean(members: seq<Member>)
    ensures NoControls(RenderMembers(members))
    decreases members, 1
  {
    hide Render, Escape;
    if members != [] {
      EscapeIsClean(members[0].key);
      RenderIsClean(members[0].value);
      MembersAreClean(members[1..]);
    }
  }

  function NdjsonLines(v: Value): (lines: seq<bytes>)
    ensures !v.Arr? ==> lines == [Render(v)]
    ensures v.Arr? ==> |lines| == |v.items| && forall i :: 0 <= i < |lines| ==> lines[i] == Render(v.items[i])
  {
    if v.Arr? then seq(|v.items|, i requires 0 <= i < |v.items| => Render(v.items[i])) else [Render(v)]
  }

  /** NDJSON: the output splits back into one line per item, except that an array without items
      gives one empty line. */
  lemma NdjsonSplitsBack(v: Value)
    ensures Split(Join(NdjsonLines(v), '\n'), '\n') == NdjsonLines(v) <==> v != Arr([])
  {
    hide Render;
    var lines := NdjsonLines(v);
    if lines != [] {
      forall i | 0 <= i < |lines| ensures '\n' !in lines[i] {
        RenderIsClean(if v.Arr? then v.items[i] else v);
      }
      SplitJoin(lines, '\n');
    }
  }

  /** Reading the lines one by one gives the items one by one. */
  lemma NdjsonReads(v: Value, i: nat)
    requires v.Arr? && i < |v.items|
    ensures |Split(Join(NdjsonLines(v), '\n'), '\n')| == |v.items|
    ensures ReadDocument(Split(Join(NdjsonLines(v), '\n'), '\n')[i]) == Some(v.items[i])
  {
    hide Render;
    NdjsonSplitsBack(v);
    DocumentReads(v.items[i]);
  }

  // ---------- Selecting a field ----------

  function Find(members: seq<Member>, key: bytes): Option<Value> {
    if members == [] then None
    else if members[0].key == key then Some(members[0].value)
    else Find(members[1..], key)
  }

  datatype Selected = Selected(value: Value) | EmptyPath | EmptySegment
    | NotAnObject(at: bytes) | NoSuchField(at: bytes, part: bytes)

  const ROOT: bytes := "<root>"

  function Location(prefix: bytes): bytes {
    if prefix == [] then ROOT else prefix
  }

  function Longer(prefix: bytes, part: bytes): bytes {
    if prefix == [] then part else prefix + ['.'] + part
  }

  function Descend(v: Value, prefix: bytes, parts: seq<bytes>): Selected
    decreases |parts|
  {
    if parts == [] then Selected(v)
    else if !v.Obj? then NotAnObject(Location(prefix))
    else
      match Find(v.members, parts[0])
      case None => NoSuchField(Location(prefix), parts[0])
      case Some(child) => Descend(child, Longer(prefix, parts[0]), parts[1..])
  }

  predicate NoEmptyPart(parts: seq<bytes>) {
    forall i :: 0 <= i < |parts| ==> parts[i] != []
  }

  /** extract_field: a path of non-empty segments between dots, followed from the root. */
  function ExtractField(v: Value, path: bytes): Selected {
    if path == [] then EmptyPath
    else if !NoEmptyPart(Split(path, '.')) then EmptySegment
    else Descend(v, [], Split(path, '.'))
  }

  /** Where a list of keys leads. */
  function Follow(v: Value, keys: seq<bytes>): Option<Value>
    decreases |keys|
  {
    if keys == [] then Some(v)
    else if !v.Obj? || Find(v.members, keys[0]).None? then None
    else Follow(Find(v.members, keys[0]).value, keys[1..])
  }

  lemma {:induction false} DescendFollows(v: Value, prefix: bytes, parts: seq<bytes>)
    ensures Descend(v, prefix, parts).Selected? <==> Follow(v, parts).Some?
    ensures Descend(v, prefix, parts).Selected? ==> Follow(v, parts) == Some(Descend(v, prefix, parts).value)
    decreases |parts|
  {
    if parts != [] && v.Obj? {
      var child := Find(v.members, parts[0]);
      if child.Some? {
        DescendFollows(child.value, Longer(prefix, parts[0]), parts[1..]);
      }
    }
  }

  /** Every value that keys without dots lead to can be selected, and nothing else is. */
  lemma FieldsCanBeSelected(v: Value, keys: seq<bytes>)
    requires keys != [] && NoEmptyPart(keys) && AllFree(keys, '.')
    ensures Follow(v, keys).Some? ==> ExtractField(v, Join(keys, '.')) == Selected(Follow(v, keys).value)
    ensures Follow(v, keys).None? ==> !ExtractField(v, Join(keys, '.')).Selected?
  {
    SplitJoin(keys, '.');
    DescendFollows(v, [], keys);
    assert Join(keys, '.') != [] by {
      assert Split([], '.') == [[]];
      assert keys[0] != [];
    }
  }

  /** The member that is found is the first one with the key. */
  lemma {:induction false} FindMeans(members: seq<Member>, key: bytes)
    ensures Find(members, key).None? <==> forall i :: 0 <= i < |members| ==> members[i].key != key
    ensures Find(members, key).Some? ==>
              exists i :: 0 <= i < |members| && members[i].key == key && Find(members, key) == Some(members[i].value) &&
                forall j :: 0 <= j < i ==> members[j].key != key
  {
    if members != [] && members[0].key != key {
      var more := members[1..];
      FindMeans(more, key);
      if Find(more, key).Some? {
        var i :| 0 <= i < |more| && more[i].key == key && Find(more, key) == Some(more[i].value) &&
                 forall j :: 0 <= j < i ==> more[j].key != key;
        assert members[i + 1] == more[i];
        assert forall j | 0 < j < i + 1 :: members[j] == more[j - 1];
      } else {
        assert forall j | 0 < j < |members| :: members[j] == more[j - 1];
      }
    }
  }

  /** Where a path fails, and how: at the first key that leads nowhere, which is named together
      with the path that led to it. */
  lemma SelectionFailsAt(v: Value, keys: seq<bytes>, i: nat)
    requires keys != [] && NoEmptyPart(keys) && AllFree(keys, '.') && i < |keys|
    requires Follow(v, keys[..i]).Some? && Follow(v, keys[..i + 1]).None?
    ensures var u, at := Follow(v, keys[..i]).value, if i == 0 then "<root>" else Join(keys[..i], '.');
            ExtractField(v, Join(keys, '.')) == if u.Obj? then NoSuchField(at, keys[i]) else NotAnObject(at)
  {
    SplitJoin(keys, '.');
    assert Join(keys, '.') != [] by {
      assert Split([], '.') == [[]];
      assert keys[0] != [];
    }
    DescendFails(v, [], keys, i);
  }

  function Prefixed(prefix: bytes, keys: seq<bytes>): bytes
    decreases |keys|
  {
    if keys == [] then prefix else Prefixed(Longer(prefix, keys[0]), keys[1..])
  }

  lemma {:induction false} PrefixedIsJoin(prefix: bytes, keys: seq<bytes>)
    requires keys != [] && NoEmptyPart(keys)
    ensures Prefixed(prefix, keys) == if prefix == [] then Join(keys, '.') else prefix + ['.'] + Join(keys, '.')
    ensures Prefixed(prefix, keys) != []
    decreases |keys|
  {
    if |keys| > 1 {
      PrefixedIsJoin(Longer(prefix, keys[0]), keys[1..]);
      assert prefix + ['.'] + keys[0] + ['.'] + Join(keys[1..], '.') ==
             prefix + ['.'] + (keys[0] + ['.'] + Join(keys[1..], '.'));
    }
  }

  lemma {:induction false} DescendFails(v: Value, prefix: bytes, keys: seq<bytes>, i: nat)
    requires i < |keys| && NoEmptyPart(keys)
    requires Follow(v, keys[..i]).Some? && Follow(v, keys[..i + 1]).None?
    ensures var u, at := Follow(v, keys[..i]).value, Location(Prefixed(prefix, keys[..i]));
            Descend(v, prefix, keys) == if u.Obj? then NoSuchField(at, keys[i]) else NotAnObject(at)
    ensures prefix == [] ==> Location(Prefixed(prefix, keys[..i])) == if i == 0 then "<root>" else Join(keys[..i], '.')
    decreases |keys|
  {
    if i > 0 {
      assert keys[..i][1..] == keys[1..][..i - 1] && keys[..i + 1][1..] == keys[1..][..i];
      assert keys[..i][0] == keys[0] == keys[..i + 1][0];
      PrefixedIsJoin(prefix, keys[..i]);
      var child := Find(v.members, keys[0]).value;
      DescendFails(child, Longer(prefix, keys[0]), keys[1..], i - 1);
    } else {
      assert keys[..1][0] == keys[0] && keys[..1][1..] == [];
    }
  }

  /** Paths that are no paths. */
  lemma BadPaths(v: Value, path: bytes)
    ensures ExtractField(v, path) == EmptyPath <==> path == []
    ensures ExtractField(v, path) == EmptySegment <==> path != [] && [] in Split(path, '.')
  {
    hide Split;
    var parts := Split(path, '.');
    DescendIsNoPath(v, [], parts);
    assert NoEmptyPart(parts) <==> [] !in parts;
  }

  lemma {:induction false} DescendIsNoPath(v: Value, prefix: bytes, parts: seq<bytes>)
    ensures Descend(v, prefix, parts) != EmptyPath && Descend(v, prefix, parts) != EmptySegment
    decreases |parts|
  {
    if parts != [] && v.Obj? && Find(v.members, parts[0]).Some? {
      DescendIsNoPath(Find(v.members, parts[0]).value, Longer(prefix, parts[0]), parts[1..]);
    }
  }

  // ---------- The printer as written ----------

  lemma {:induction false} EscapeAppend(s: bytes, c: byte)
    ensures Escape(s + [c]) == Escape(s) + EscapeByte(c)
  {
    hide EscapeByte;
    if s == [] {
      assert s + [c] == [c] && [c][1..] == [];
      assert EscapeByte(c) + [] == [] + EscapeByte(c);
    } else {
      assert (s + [c])[1..] == s[1..] + [c];
      EscapeAppend(s[1..], c);
    }
  }

  /** escape_json */
  method EscapeText(value: bytes) returns (out: bytes)
    ensures out == Escape(value)
  {
    hide Escape;
    assert Escape([]) == [] by { NothingEscaped(); }
    out := [];
    for i := 0 to |value|
      invariant out == Escape(value[..i])
    {
      var ch := value[i];
      EscapeAppend(value[..i], ch);
      assert value[..i + 1] == value[..i] + [ch];
      if ch == '\\' {
        out := out + "\\\\";
      } else if ch == '"' {
        out := out + "\\\"";
      } else if ch == '\n' {
        out := out + "\\n";
      } else if ch == '\r' {
        out := out + "\\r";
      } else if ch as int == 8 {
        out := out + "\\b";
      } else if ch as int == 12 {
        out := out + "\\f";
      } else if ch == '\t' {
        out := out + "\\t";
      } else if (ch as int) < 0x20 {
        out := out + "\\u00" + [HexDigit(ch as int / 16)] + [HexDigit(ch as int % 16)];
      } else {
        out := out + [ch];
      }
    }
    assert value[..|value|] == value;
  }

  lemma NothingEscaped()
    ensures Escape([]) == []
  {
  }

  lemma AppendTwice(a: bytes, b: bytes, c: bytes, d: bytes)
    ensures a + (b + c + d) == a + b + c + d
  {
  }

  lemma {:induction false} RenderItemsAppend(items: seq<Value>, last: Value)
    ensures RenderItems(items + [last]) ==
            RenderItems(items) + (if items == [] then [] else [',']) + Render(last)
  {
    hide Render;
    if items == [] {
      assert items + [last] == [last];
    } else {
      assert (items + [last])[1..] == items[1..] + [last];
      RenderItemsAppend(items[1..], last);
      AppendTwice(Render(items[0]), [','] + RenderItems(items[1..]), [','], Render(last));
    }
  }

  lemma OneMember(m: Member)
    ensures RenderMembers([m]) == RenderMember(m)
  {
    hide RenderMember;
    assert RenderMember(m) + [] == RenderMember(m);
  }

  lemma MoreMembers(m: Member, more: seq<Member>)
    requires more != []
    ensures RenderMembers([m] + more) == RenderMember(m) + ([','] + RenderMembers(more))
  {
    hide RenderMember;
    assert ([m] + more)[1..] == more;
  }

  lemma {:induction false} RenderMembersAppend(members: seq<Member>, last: Member)
    ensures RenderMembers(members + [last]) ==
            RenderMembers(members) + (if members == [] then [] else [',']) + RenderMember(last)
  {
    hide RenderMember, RenderMembers;
    NothingPrinted();
    OneMember(last);
    if members == [] {
      assert members + [last] == [last];
      assert [] + [] + RenderMember(last) == RenderMember(last);
    } else {
      var m, more := members[0], members[1..];
      assert members == [m] + more && members + [last] == [m] + (more + [last]);
      RenderMembersAppend(more, last);
      MoreMembers(m, more + [last]);
      if more == [] {
        OneMember(m);
        assert members == [m] && more + [last] == [last];
        assert RenderMember(m) + ([','] + RenderMember(last)) == RenderMember(m) + [','] + RenderMember(last);
        assert [] + [] + RenderMember(last) == RenderMember(last);
      } else {
        MoreMembers(m, more);
        Regroup(RenderMember(m), RenderMembers(more), RenderMember(last));
      }
    }
  }

  lemma Regroup(a: bytes, b: bytes, c: bytes)
    ensures a + ([','] + (b + [','] + c)) == a + ([','] + b) + [','] + c
  {
  }

  /** render_json_impl: everything is appended to one stream. */
  method RenderTo(start: bytes, v: Value) returns (out: bytes)
    ensures out == start + Render(v)
    decreases v, 0
  {
    hide Escape, RenderItems, RenderMembers;
    match v
    case Null => out := start + "null";
    case Bool(on) => out := start + if on then "true" else "false";
    case Number(number) => out := start + SignedDecimal(number);
    case Str(text) =>
      var escaped := EscapeText(text);
      out := start + ['"'] + escaped + ['"'];
    case Arr(items) => out := RenderArray(start, items);
    case Obj(members) => out := RenderObject(start, members);
  }

  method RenderArray(start: bytes, items: seq<Value>) returns (out: bytes)
    ensures out == start + ['['] + RenderItems(items) + [']']
    decreases items, 1
  {
    hide Render, RenderItems;
    NothingPrinted();
    out := start + ['['];
    for i := 0 to |items|
      invariant out == start + ['['] + RenderItems(items[..i])
    {
      RenderItemsAppend(items[..i], items[i]);
      assert items[..i + 1] == items[..i] + [items[i]];
      if i != 0 {
        out := out + [','];
      }
      out := RenderTo(out, items[i]);
    }
    assert items[..|items|] == items;
    out := out + [']'];
  }

  method RenderObject(start: bytes, members: seq<Member>) returns (out: bytes)
    ensures out == start + ['{'] + RenderMembers(members) + ['}']
    decreases members, 1
  {
    hide Render, RenderMembers, Escape;
    NothingPrinted();
    out := start + ['{'];
    for i := 0 to |members|
      invariant out == start + ['{'] + RenderMembers(members[..i])
    {
      RenderMembersAppend(members[..i], members[i]);
      assert members[..i + 1] == members[..i] + [members[i]];
      if i != 0 {
        out := out + [','];
      }
      var key := EscapeText(members[i].key);
      out := out + ['"'] + key + ['"'] + [':'];
      out := RenderTo(out, members[i].value);
    }
    assert members[..|members|] == members;
    out := out + ['}'];
  }

  /** render_ndjson_lines */
  method RenderLines(v: Value) returns (lines: seq<bytes>)
    ensures lines == NdjsonLines(v)
  {
    hide Render;
    lines := [];
    if v.Arr? {
      for i := 0 to |v.items|
        invariant |lines| == i && forall j :: 0 <= j < i ==> lines[j] == Render(v.items[j])
      {
        var line := RenderTo([], v.items[i]);
        assert [] + Render(v.items[i]) == Render(v.items[i]);
        lines := lines + [line];
      }
      return;
    }
    var line := RenderTo([], v);
    assert [] + Render(v) == Render(v);
    lines := [line];
  }

  /** extract_field: the loop that descends one segment at a time. */
  method SelectField(v: Value, path: bytes) returns (r: Selected)
    ensures r == ExtractField(v, path)
  {
    if path == [] {
      return EmptyPath;
    }
    var parts := SplitText(path, '.');
    for i := 0 to |parts|
      invariant NoEmptyPart(parts[..i])
    {
      if parts[i] == [] {
        return EmptySegment;
      }
    }
    var current := v;
    var prefix: bytes := [];
    assert parts[0..] == parts && parts[..|parts|] == parts;
    hide Descend, Find, Location, Longer;
    for i := 0 to |parts|
      invariant Descend(v, [], parts) == Descend(current, prefix, parts[i..])
    {
      var part := parts[i];
      DescendStep(current, prefix, parts, i);
      if !current.Obj? {
        return NotAnObject(Location(prefix));
      }
      var found := Find(current.members, part);
      if found.None? {
        return NoSuchField(Location(prefix), part);
      }
      current := found.value;
      prefix := Longer(prefix, part);
    }
    DescendEnds(current, prefix, parts[|parts|..]);
    return Selected(current);
  }

  lemma DescendStep(v: Value, prefix: bytes, parts: seq<bytes>, i: nat)
    requires i < |parts|
    ensures Descend(v, prefix, parts[i..]) ==
            if !v.Obj? then NotAnObject(Location(prefix))
            else
              match Find(v.members, parts[i])
              case None => NoSuchField(Location(prefix), parts[i])
              case Some(child) => Descend(child, Longer(prefix, parts[i]), parts[i + 1..])
  {
    hide Find, Location, Longer;
    assert parts[i..][0] == parts[i] && parts[i..][1..] == parts[i + 1..];
  }

  lemma DescendEnds(v: Value, prefix: bytes, parts: seq<bytes>)
    requires parts == []
    ensures Descend(v, prefix, parts) == Selected(v)
  {
  }
}
