/**
  Multiline replies (section 4.2.1 of RFC 5321) as a language over bytes: the parser as a function
  of the byte stream, a printer, and the proof that each accepts exactly what the other produces.
 */
module SmtpReply {
  import opened Domain

  const CR: byte := 13
  const LF: byte := 10
  const SPACE: byte := 32
  const DASH: byte := 45

  datatype Limits = Limits(maxLineBytes: nat, maxLines: nat)

  /** What follows the bytes a peer delivers before the deadline: a close, an I/O failure, or nothing. */
  datatype End = Eof | Broken | Silent

  datatype ReplyError = Malformed | NonUtf8 | BadCode | TooManyLines | IoFailure | Deadline

  /** `used` counts the bytes taken from the stream, on failure too. */
  datatype Parsed = Reply(lines: seq<seq<byte>>, used: nat) | Refusal(error: ReplyError, used: nat)

  // ---------- one raw line ----------

  function FirstLf(s: seq<byte>): (n: nat)
    ensures n <= |s| && (n < |s| ==> s[n] == LF)
    ensures forall i | 0 <= i < n :: s[i] != LF
  {
    if s == [] || s[0] == LF then 0 else 1 + FirstLf(s[1..])
  }

  /** `take(max + 1).read_until('\n')` on a stream that does not run dry. */
  function RawLine(s: seq<byte>, max: nat): (raw: seq<byte>)
    ensures raw <= s && |raw| <= max + 1
  {
    var n := FirstLf(s);
    if n < |s| && n <= max then s[..n + 1] else if |s| <= max then s else s[..max + 1]
  }

  /** The bytes end before the line does and before the limit is reached. */
  predicate Starved(s: seq<byte>, max: nat) { FirstLf(s) == |s| <= max }

  // ---------- UTF-8 and trailing white space ----------

  predicate Continuation(b: byte) { 128 <= b < 192 }

  /** Bytes of the first scalar value, 0 when the bytes do not start with a well-formed one. */
  function Width(s: seq<byte>): (n: nat)
    requires s != []
    ensures n <= |s|
  {
    var b := s[0];
    if b < 128 then 1
    else if 194 <= b < 224 && |s| > 1 && Continuation(s[1]) then 2
    else if 224 <= b < 240 && |s| > 2 && Continuation(s[1]) && Continuation(s[2])
         && (b == 224 ==> s[1] >= 160) && (b == 237 ==> s[1] < 160) then 3
    else if 240 <= b < 245 && |s| > 3 && Continuation(s[1]) && Continuation(s[2]) && Continuation(s[3])
         && (b == 240 ==> s[1] >= 144) && (b == 244 ==> s[1] < 144) then 4
    else 0
  }

  predicate Utf8(s: seq<byte>) { s == [] || (Width(s) > 0 && Utf8(s[Width(s)..])) }

  /** Bytes of the white-space character that ends the text, 0 when it does not end in one. */
  function TrailingSpace(s: seq<byte>): (n: nat)
    ensures n <= |s|
  {
    var k := |s|;
    if k >= 1 && (9 <= s[k - 1] <= 13 || s[k - 1] == 32) then 1
    else if k >= 2 && s[k - 2] == 194 && (s[k - 1] == 133 || s[k - 1] == 160) then 2
    else if k >= 3 && ThreeByteSpace(s[k - 3], s[k - 2], s[k - 1]) then 3
    else 0
  }

  predicate ThreeByteSpace(a: byte, b: byte, c: byte) {
    || (a == 225 && b == 154 && c == 128)
    || (a == 226 && b == 128 && (128 <= c <= 138 || c == 168 || c == 169 || c == 175))
    || (a == 226 && b == 129 && c == 159)
    || (a == 227 && b == 128 && c == 128)
  }

  /** `str::trim_end` */
  function TrimEnd(s: seq<byte>): (t: seq<byte>)
    ensures t <= s && TrailingSpace(t) == 0
    decreases |s|
  {
    if TrailingSpace(s) == 0 then s else TrimEnd(s[..|s| - TrailingSpace(s)])
  }

  // ---------- the parser ----------

  predicate Digit(b: byte) { 48 <= b <= 57 }

  predicate EndsWithCrLf(raw: seq<byte>) { |raw| >= 2 && raw[|raw| - 2] == CR && raw[|raw| - 1] == LF }

  predicate WellFormed(raw: seq<byte>, max: nat) { |raw| <= max && EndsWithCrLf(raw) && |raw| >= 6 }

  predicate CodeFits(raw: seq<byte>, code: Option<seq<byte>>)
    requires |raw| >= 6
  {
    && Digit(raw[0]) && Digit(raw[1]) && Digit(raw[2])
    && (raw[3] == SPACE || raw[3] == DASH)
    && (code.Some? ==> code.value == raw[..3])
  }

  /** The verdict on one complete raw line: an error, or None when the line is accepted. */
  function LineError(raw: seq<byte>, max: nat, code: Option<seq<byte>>): Option<ReplyError> {
    if !WellFormed(raw, max) then Some(Malformed)
    else if !Utf8(raw) then Some(NonUtf8)
    else if !CodeFits(raw, code) then Some(BadCode)
    else None
  }

  function Prepend(lines: seq<seq<byte>>, used: nat, p: Parsed): Parsed {
    match p
    case Reply(ls, n) => Reply(lines + ls, used + n)
    case Refusal(e, n) => Refusal(e, used + n)
  }

  function Parse(s: seq<byte>, end: End, max: nat, budget: nat, code: Option<seq<byte>>): (p: Parsed)
    ensures p.used <= |s|
    ensures p.Reply? ==> 1 <= |p.lines| <= budget && |p.lines[0]| >= 3
    decreases budget
  {
    if budget == 0 then Refusal(TooManyLines, 0)
    else
      var raw := RawLine(s, max);
      if Starved(s, max) && end.Broken? then Refusal(IoFailure, |raw|)
      else if Starved(s, max) && end.Silent? then Refusal(Deadline, |raw|)
      else if LineError(raw, max, code).Some? then Refusal(LineError(raw, max, code).value, |raw|)
      else
        TrimmedKeepsCode(raw);
        if raw[3] == SPACE then Reply([TrimEnd(raw)], |raw|)
        else Prepend([TrimEnd(raw)], |raw|, Parse(s[|raw|..], end, max, budget - 1, Some(raw[..3])))
  }

  lemma OneMoreLine(max: nat, budget: nat)
    requires budget > 0
    ensures max + 1 <= budget * (max + 1) == (budget - 1) * (max + 1) + (max + 1)
  {}

  /** Parsing never takes more than `maxLines` lines of `maxLineBytes + 1` bytes, whatever the peer sends. */
  lemma {:induction false} ReadsAreBounded(s: seq<byte>, end: End, max: nat, budget: nat, code: Option<seq<byte>>)
    ensures Parse(s, end, max, budget, code).used <= budget * (max + 1)
    decreases budget
  {
    hide LineError, Starved, TrimEnd, RawLine;
    if budget > 0 {
      var raw := RawLine(s, max);
      if LineError(raw, max, code).None? {
        assert |raw| >= 6 by { ReadIsLine(s, max, code); }
        ReadsAreBounded(s[|raw|..], end, max, budget - 1, Some(raw[..3]));
      }
      OneMoreLine(max, budget);
    }
  }

  /** A line that starts with a reply code still starts with it after trimming. */
  lemma TrimmedKeepsCode(raw: seq<byte>)
    requires |raw| >= 3 && Digit(raw[0]) && Digit(raw[1]) && Digit(raw[2])
    ensures |TrimEnd(raw)| >= 3
    decreases |raw|
  {}

  // ---------- the printer ----------

  function PrintLine(code: seq<byte>, separator: byte, text: seq<byte>): seq<byte> {
    code + [separator] + text + [CR, LF]
  }

  function Print(code: seq<byte>, texts: seq<seq<byte>>): seq<byte>
    requires texts != []
  {
    if |texts| == 1 then PrintLine(code, SPACE, texts[0])
    else PrintLine(code, DASH, texts[0]) + Print(code, texts[1..])
  }

  predicate PrintableText(text: seq<byte>, max: nat) { LF !in text && |text| + 6 <= max && Utf8(text) }

  predicate ValidCode(code: seq<byte>) { |code| == 3 && forall i | 0 <= i < 3 :: Digit(code[i]) }

  predicate Printable(code: seq<byte>, texts: seq<seq<byte>>, max: nat, budget: nat) {
    && ValidCode(code) && 1 <= |texts| <= budget
    && forall i | 0 <= i < |texts| :: PrintableText(texts[i], max)
  }

  /** The lines as the probe keeps them: code, separator and text, without trailing white space. */
  function Shown(code: seq<byte>, texts: seq<seq<byte>>): seq<seq<byte>>
    requires texts != []
  {
    if |texts| == 1 then [TrimEnd(code + [SPACE] + texts[0])]
    else [TrimEnd(code + [DASH] + texts[0])] + Shown(code, texts[1..])
  }

  // ---------- UTF-8 is the encoding of scalar values ----------

  /** A Unicode scalar value: any code point but a surrogate. */
  predicate Scalar(v: int) { 0 <= v < 0x11_0000 && !(0xD800 <= v < 0xE000) }

  /** Table 3-6 of the Unicode Standard. */
  function Encode(v: int): (s: seq<byte>)
    requires Scalar(v)
  {
    if v < 0x80 then [v as byte]
    else if v < 0x800 then [(0xC0 + v / 64) as byte, (0x80 + v % 64) as byte]
    else if v < 0x1_0000 then [(0xE0 + v / 4096) as byte, (0x80 + v / 64 % 64) as byte, (0x80 + v % 64) as byte]
    else [(0xF0 + v / 262144) as byte, (0x80 + v / 4096 % 64) as byte, (0x80 + v / 64 % 64) as byte,
          (0x80 + v % 64) as byte]
  }

  ghost predicate Scalars(vs: seq<int>) { forall i | 0 <= i < |vs| :: Scalar(vs[i]) }

  function EncodeAll(vs: seq<int>): seq<byte>
    requires Scalars(vs)
  {
    if vs == [] then [] else Encode(vs[0]) + EncodeAll(vs[1..])
  }

  lemma EncodingHasWidth(v: int, rest: seq<byte>)
    requires Scalar(v)
    ensures Width(Encode(v) + rest) == |Encode(v)|
  {}

  /** The scalar value a well-formed start encodes. */
  function Decode(s: seq<byte>): int
    requires s != [] && Width(s) > 0
  {
    if Width(s) == 1 then s[0] as int
    else if Width(s) == 2 then (s[0] as int - 0xC0) * 64 + (s[1] as int - 0x80)
    else if Width(s) == 3 then (s[0] as int - 0xE0) * 4096 + (s[1] as int - 0x80) * 64 + (s[2] as int - 0x80)
    else (s[0] as int - 0xF0) * 262144 + (s[1] as int - 0x80) * 4096 + (s[2] as int - 0x80) * 64 + (s[3] as int - 0x80)
  }

  lemma TwoUnits(a: int, b: int)
    requires 194 <= a < 224 && 128 <= b < 192
    ensures var v := (a - 0xC0) * 64 + (b - 0x80);
      0x80 <= v < 0x800 && v / 64 == a - 0xC0 && v % 64 == b - 0x80
  {}

  lemma ThreeUnits(a: int, b: int, c: int)
    requires 224 <= a < 240 && 128 <= b < 192 && 128 <= c < 192 && (a == 224 ==> b >= 160) && (a == 237 ==> b < 160)
    ensures var v := (a - 0xE0) * 4096 + (b - 0x80) * 64 + (c - 0x80);
      0x800 <= v < 0x1_0000 && Scalar(v) && v / 4096 == a - 0xE0 && v / 64 % 64 == b - 0x80 && v % 64 == c - 0x80
  {
    var v := (a - 0xE0) * 4096 + (b - 0x80) * 64 + (c - 0x80);
    assert v / 64 == (a - 0xE0) * 64 + (b - 0x80);
  }

  lemma FourUnits(a: int, b: int, c: int, d: int)
    requires 240 <= a < 245 && 128 <= b < 192 && 128 <= c < 192 && 128 <= d < 192
    requires (a == 240 ==> b >= 144) && (a == 244 ==> b < 144)
    ensures var v := (a - 0xF0) * 262144 + (b - 0x80) * 4096 + (c - 0x80) * 64 + (d - 0x80);
      && 0x1_0000 <= v < 0x11_0000 && v / 262144 == a - 0xF0 && v / 4096 % 64 == b - 0x80
      && v / 64 % 64 == c - 0x80 && v % 64 == d - 0x80
  {
    var v := (a - 0xF0) * 262144 + (b - 0x80) * 4096 + (c - 0x80) * 64 + (d - 0x80);
    assert v / 64 == (a - 0xF0) * 4096 + (b - 0x80) * 64 + (c - 0x80);
    assert v / 4096 == (a - 0xF0) * 64 + (b - 0x80);
  }

  lemma WidthIsEncoding(s: seq<byte>)
    requires s != [] && Width(s) > 0
    ensures Scalar(Decode(s)) && s[..Width(s)] == Encode(Decode(s))
  {
    if Width(s) == 2 {
      TwoUnits(s[0] as int, s[1] as int);
    } else if Width(s) == 3 {
      ThreeUnits(s[0] as int, s[1] as int, s[2] as int);
    } else if Width(s) == 4 {
      FourUnits(s[0] as int, s[1] as int, s[2] as int, s[3] as int);
    }
  }

  lemma {:induction false} EncodedIsUtf8(vs: seq<int>)
    requires Scalars(vs)
    ensures Utf8(EncodeAll(vs))
  {
    if vs != [] {
      EncodedIsUtf8(vs[1..]);
      EncodingHasWidth(vs[0], EncodeAll(vs[1..]));
      assert EncodeAll(vs)[|Encode(vs[0])|..] == EncodeAll(vs[1..]);
    }
  }

  lemma {:induction false} Utf8IsEncoded(s: seq<byte>) returns (vs: seq<int>)
    requires Utf8(s)
    ensures Scalars(vs) && EncodeAll(vs) == s
    decreases |s|
  {
    vs := [];
    if s != [] {
      var more := Utf8IsEncoded(s[Width(s)..]);
      WidthIsEncoding(s);
      vs := [Decode(s)] + more;
      assert s == s[..Width(s)] + s[Width(s)..];
    }
  }

  /** The texts accepted as UTF-8 are exactly the encodings of sequences of scalar values. */
  lemma Utf8Exactly(s: seq<byte>)
    ensures Utf8(s) <==> exists vs :: Scalars(vs) && EncodeAll(vs) == s
  {
    if Utf8(s) { var vs := Utf8IsEncoded(s); }
    if vs :| Scalars(vs) && EncodeAll(vs) == s { EncodedIsUtf8(vs); }
  }

  /** The characters with the Unicode property White_Space. */
  const WHITE_SPACE: set<int> :=
    {0x9, 0xA, 0xB, 0xC, 0xD, 0x20, 0x85, 0xA0, 0x1680, 0x2000, 0x2001, 0x2002, 0x2003, 0x2004, 0x2005, 0x2006, 0x2007,
     0x2008, 0x2009, 0x200A, 0x2028, 0x2029, 0x202F, 0x205F, 0x3000}

  ghost predicate EndsWith(s: seq<byte>, end: seq<byte>) { |end| <= |s| && s[|s| - |end|..] == end }

  /** What is trimmed from the end is exactly the encoding of a white-space character. */
  lemma TrailingSpaceExactly(s: seq<byte>)
    ensures forall v | v in WHITE_SPACE && EndsWith(s, Encode(v)) :: TrailingSpace(s) == |Encode(v)|
    ensures TrailingSpace(s) > 0 ==> exists v :: v in WHITE_SPACE && EndsWith(s, Encode(v))
  {
    forall v | v in WHITE_SPACE && EndsWith(s, Encode(v)) ensures TrailingSpace(s) == |Encode(v)| {
      SpaceIsTrimmed(s, v);
    }
    if TrailingSpace(s) > 0 { var v := TrimmedIsSpace(s); }
  }

  lemma SpaceIsTrimmed(s: seq<byte>, v: int)
    requires v in WHITE_SPACE && EndsWith(s, Encode(v))
    ensures TrailingSpace(s) == |Encode(v)|
  {
    var n := |Encode(v)|;
    assert forall i | 0 <= i < n :: s[|s| - n + i] == Encode(v)[i];
  }

  lemma TrimmedIsSpace(s: seq<byte>) returns (v: int)
    requires TrailingSpace(s) > 0
    ensures v in WHITE_SPACE && EndsWith(s, Encode(v))
  {
    var n := TrailingSpace(s);
    var last := s[|s| - 1] as int;
    v := if n == 1 then last
         else if n == 2 then last
         else if s[|s| - 3] == 225 then 0x1680
         else if s[|s| - 3] == 227 then 0x3000
         else if s[|s| - 2] == 129 then 0x205F
         else 0x2000 + (last - 128);
    assert s[|s| - n..] == Encode(v);
  }

  // ---------- the printed bytes ----------

  lemma DigitExactly(b: byte)
    ensures Digit(b) <==> b as char in "0123456789"
  {}

  /** The last line has a space (32) after its code, the others a dash (45), and all end in CR LF (13, 10). */
  lemma PrintedBytes(code: seq<byte>, texts: seq<seq<byte>>)
    requires texts != []
    ensures |texts| == 1 ==> Print(code, texts) == code + [32] + texts[0] + [13, 10]
    ensures |texts| > 1 ==> Print(code, texts) == code + [45] + texts[0] + [13, 10] + Print(code, texts[1..])
  {}

  /**
    Only data that runs dry leaves a reply undecided: any other verdict stands whatever follows, and however it ends.
   */
  lemma {:induction false} VerdictIsFinal(s: seq<byte>, max: nat, budget: nat, code: Option<seq<byte>>, more: seq<byte>,
                                          end: End)
    ensures var p := Parse(s, Silent, max, budget, code);
      if p.Refusal? && p.error == Deadline then p.used == |s|
      else Parse(s + more, end, max, budget, code) == p
    decreases budget
  {
    if budget > 0 && !Starved(s, max) {
      var raw := RawLine(s, max);
      RawLineIsFinal(s, max, more);
      if LineError(raw, max, code).None? {
        assert |raw| >= 6 by { ReadIsLine(s, max, code); }
        assert (s + more)[|raw|..] == s[|raw|..] + more;
        hide LineError, Starved, RawLine, TrimEnd;
        VerdictIsFinal(s[|raw|..], max, budget - 1, Some(raw[..3]), more, end);
      } else {
        LineErrorsAreFinal(raw, max, code);
      }
    }
  }

  lemma LineErrorsAreFinal(raw: seq<byte>, max: nat, code: Option<seq<byte>>)
    ensures LineError(raw, max, code) in {None, Some(Malformed), Some(NonUtf8), Some(BadCode)}
  {}

  lemma RawLineIsFinal(s: seq<byte>, max: nat, more: seq<byte>)
    requires !Starved(s, max)
    ensures RawLine(s + more, max) == RawLine(s, max) && !Starved(s + more, max)
  {
    var n := FirstLf(s);
    if n < |s| {
      assert (s + more)[n] == LF && forall i | 0 <= i < n :: (s + more)[i] == s[i];
      assert FirstLf(s + more) == n;
    } else {
      assert forall i | 0 <= i < |s| :: (s + more)[i] == s[i];
      assert FirstLf(s + more) >= |s|;
    }
  }

  // ---------- UTF-8 facts ----------

  lemma AsciiPrefix(b: byte, s: seq<byte>)
    requires b < 128
    ensures Utf8([b] + s) <==> Utf8(s)
  {}

  lemma {:induction false} AsciiSuffix(s: seq<byte>, b: byte)
    requires b < 128
    ensures Utf8(s + [b]) <==> Utf8(s)
    decreases |s|
  {
    if s == [] {
      assert s + [b] == [b] + [];
      AsciiPrefix(b, []);
    } else {
      assert Width(s + [b]) == Width(s);
      if Width(s) > 0 {
        assert (s + [b])[Width(s)..] == s[Width(s)..] + [b];
        AsciiSuffix(s[Width(s)..], b);
      }
    }
  }

  lemma LineUtf8(code: seq<byte>, separator: byte, text: seq<byte>)
    requires ValidCode(code) && separator < 128
    ensures Utf8(PrintLine(code, separator, text)) <==> Utf8(text)
  {
    assert PrintLine(code, separator, text)
      == [code[0]] + ([code[1]] + ([code[2]] + ([separator] + ((text + [CR]) + [LF]))));
    AsciiPrefix(code[0], [code[1]] + ([code[2]] + ([separator] + ((text + [CR]) + [LF]))));
    AsciiPrefix(code[1], [code[2]] + ([separator] + ((text + [CR]) + [LF])));
    AsciiPrefix(code[2], [separator] + ((text + [CR]) + [LF]));
    AsciiPrefix(separator, (text + [CR]) + [LF]);
    AsciiSuffix(text + [CR], LF);
    AsciiSuffix(text, CR);
  }

  lemma TrimLine(code: seq<byte>, separator: byte, text: seq<byte>)
    ensures TrimEnd(PrintLine(code, separator, text)) == TrimEnd(code + [separator] + text)
  {
    var line := PrintLine(code, separator, text);
    var body := code + [separator] + text;
    assert line[..|line| - 1] == body + [CR];
    assert (body + [CR])[..|body|] == body;
  }

  // ---------- printing and parsing one line ----------

  lemma {:induction false} FirstLfOf(a: seq<byte>, b: seq<byte>)
    requires LF !in a
    ensures FirstLf(a + [LF] + b) == |a|
  {
    assert forall i | 0 <= i < |a| :: (a + [LF] + b)[i] == a[i];
    assert (a + [LF] + b)[|a|] == LF;
  }

  /** A printed line is read back as one raw line and accepted. */
  lemma LineIsRead(code: seq<byte>, separator: byte, text: seq<byte>, rest: seq<byte>, max: nat,
                   expected: Option<seq<byte>>)
    requires ValidCode(code) && PrintableText(text, max) && (separator == SPACE || separator == DASH)
    requires expected.Some? ==> expected.value == code
    ensures var line := PrintLine(code, separator, text);
      && RawLine(line + rest, max) == line && !Starved(line + rest, max)
      && LineError(line, max, expected).None? && |line| >= 6 && line[..3] == code && line[3] == separator
  {
    var line := PrintLine(code, separator, text);
    var body := code + [separator] + text + [CR];
    assert LF !in body;
    assert line + rest == body + [LF] + rest;
    FirstLfOf(body, rest);
    assert (line + rest)[..|line|] == line;
    assert line[..3] == code;
    LineUtf8(code, separator, text);
  }

  /** An accepted raw line is the printing of its own text. */
  lemma ReadIsLine(s: seq<byte>, max: nat, expected: Option<seq<byte>>)
    requires LineError(RawLine(s, max), max, expected).None?
    ensures |RawLine(s, max)| >= 6
    ensures var raw := RawLine(s, max);
      var code, text := raw[..3], raw[4..|raw| - 2];
      && raw == PrintLine(code, raw[3], text) && ValidCode(code) && PrintableText(text, max)
      && (expected.Some? ==> expected.value == code)
      && !Starved(s, max) && (raw[3] == SPACE || raw[3] == DASH)
  {
    var raw := RawLine(s, max);
    var code, text := raw[..3], raw[4..|raw| - 2];
    assert raw == PrintLine(code, raw[3], text);
    LineUtf8(code, raw[3], text);
    var n := FirstLf(s);
    assert n == |raw| - 1 by {
      assert s[|raw| - 1] == LF;
    }
    assert forall i | 0 <= i < |text| :: text[i] == s[i + 4];
  }

  // ---------- the round trip ----------

  /** Printing then parsing returns the lines and consumes exactly the reply, whatever follows it. */
  lemma {:induction false} PrintedParses(code: seq<byte>, texts: seq<seq<byte>>, rest: seq<byte>, end: End, max: nat,
                                         budget: nat, expected: Option<seq<byte>>)
    requires Printable(code, texts, max, budget) && (expected.Some? ==> expected.value == code)
    ensures Parse(Print(code, texts) + rest, end, max, budget, expected)
      == Reply(Shown(code, texts), |Print(code, texts)|)
    decreases |texts|
  {
    hide Parse, PrintLine, TrimEnd, PrintableText;
    if |texts| == 1 {
      LineParses(code, SPACE, texts[0], rest, end, max, budget, expected);
    } else {
      var line, more := PrintLine(code, DASH, texts[0]), Print(code, texts[1..]);
      assert Print(code, texts) + rest == line + (more + rest);
      LineParses(code, DASH, texts[0], more + rest, end, max, budget, expected);
      PrintedParses(code, texts[1..], rest, end, max, budget - 1, Some(code));
    }
  }

  /** A printed line is taken in one step of the parser: the last one ends the reply, another one prolongs it. */
  lemma LineParses(code: seq<byte>, separator: byte, text: seq<byte>, rest: seq<byte>, end: End, max: nat,
                   budget: nat, expected: Option<seq<byte>>)
    requires ValidCode(code) && PrintableText(text, max) && (separator == SPACE || separator == DASH)
    requires budget > 0 && (expected.Some? ==> expected.value == code)
    ensures var line, shown := PrintLine(code, separator, text), [TrimEnd(code + [separator] + text)];
      Parse(line + rest, end, max, budget, expected)
      == if separator == SPACE then Reply(shown, |line|)
         else Prepend(shown, |line|, Parse(rest, end, max, budget - 1, Some(code)))
  {
    hide LineError, RawLine, Starved, TrimEnd, PrintLine, PrintableText;
    var line := PrintLine(code, separator, text);
    TrimLine(code, separator, text);
    LineIsRead(code, separator, text, rest, max, expected);
    assert (line + rest)[|line|..] == rest;
  }

  lemma ParsedLineIsGood(s: seq<byte>, end: End, max: nat, budget: nat, expected: Option<seq<byte>>)
    requires Parse(s, end, max, budget, expected).Reply?
    ensures budget > 0 && LineError(RawLine(s, max), max, expected).None?
  {}

  /** Every accepted input starts with such a printing: one shared code, only the last line space-separated. */
  lemma {:induction false} ParsedIsPrinted(s: seq<byte>, end: End, max: nat, budget: nat, expected: Option<seq<byte>>)
      returns (code: seq<byte>, texts: seq<seq<byte>>)
    requires Parse(s, end, max, budget, expected).Reply?
    ensures Printable(code, texts, max, budget) && (expected.Some? ==> expected.value == code)
    ensures Print(code, texts) == s[..Parse(s, end, max, budget, expected).used]
    ensures Parse(s, end, max, budget, expected).lines == Shown(code, texts)
    decreases budget
  {
    hide LineError, RawLine, Starved, TrimEnd, PrintLine, PrintableText;
    var raw := RawLine(s, max);
    ParsedLineIsGood(s, end, max, budget, expected);
    ReadIsLine(s, max, expected);
    code := raw[..3];
    var text := raw[4..|raw| - 2];
    TrimLine(code, raw[3], text);
    if raw[3] == SPACE {
      texts := [text];
    } else {
      var more := s[|raw|..];
      var c, ts := ParsedIsPrinted(more, end, max, budget - 1, Some(code));
      texts := [text] + ts;
      assert texts[1..] == ts;
      var k := Parse(more, end, max, budget - 1, Some(code)).used;
      assert s[..|raw| + k] == raw + more[..k];
    }
  }

  /** The accepted streams are exactly those that start with a printed reply. */
  lemma AcceptedExactly(s: seq<byte>, end: End, max: nat, budget: nat)
    ensures Parse(s, end, max, budget, None).Reply?
       <==> exists code, texts :: Printable(code, texts, max, budget) && Print(code, texts) <= s
  {
    hide Parse, Print;
    if Parse(s, end, max, budget, None).Reply? {
      var code, texts := ParsedIsPrinted(s, end, max, budget, None);
      assert Printable(code, texts, max, budget) && Print(code, texts) <= s;
    }
    if code, texts :| Printable(code, texts, max, budget) && Print(code, texts) <= s {
      var rest := s[|Print(code, texts)|..];
      assert s == Print(code, texts) + rest;
      PrintedParses(code, texts, rest, end, max, budget, None);
    }
  }

  lemma LineText(code: seq<byte>, separator: byte, text: seq<byte>)
    requires |code| == 3
    ensures var line := PrintLine(code, separator, text); |line| >= 6 && line[4..|line| - 2] == text
  {}

  /** A printed reply determines its code and texts: distinct replies print differently. */
  lemma {:induction false} PrintIsInjective(code: seq<byte>, texts: seq<seq<byte>>, code': seq<byte>,
                                            texts': seq<seq<byte>>,
                         max: nat, budget: nat, rest: seq<byte>, rest': seq<byte>)
    requires Printable(code, texts, max, budget) && Printable(code', texts', max, budget)
    requires Print(code, texts) + rest == Print(code', texts') + rest'
    ensures code == code' && texts == texts' && rest == rest'
    decreases |texts|
  {
    hide LineError, RawLine, Starved, PrintLine, PrintableText;
    var s := Print(code, texts) + rest;
    var sep, sep' := if |texts| == 1 then SPACE else DASH, if |texts'| == 1 then SPACE else DASH;
    var line, line' := PrintLine(code, sep, texts[0]), PrintLine(code', sep', texts'[0]);
    var tail := if |texts| == 1 then rest else Print(code, texts[1..]) + rest;
    var tail' := if |texts'| == 1 then rest' else Print(code', texts'[1..]) + rest';
    assert s == line + tail && s == line' + tail';
    LineIsRead(code, sep, texts[0], tail, max, None);
    LineIsRead(code', sep', texts'[0], tail', max, None);
    LineText(code, sep, texts[0]);
    LineText(code', sep', texts'[0]);
    assert tail == s[|line|..] && tail' == s[|line'|..];
    if |texts| > 1 {
      PrintIsInjective(code, texts[1..], code', texts'[1..], max, budget, rest, rest');
      assert texts == [texts[0]] + texts[1..] && texts' == [texts'[0]] + texts'[1..];
    }
  }
}
