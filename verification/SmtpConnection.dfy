/**
  The buffered connection: bytes arrive in chunks of the peer's choosing, and each read may have to
  wait for one. Reading a reply yields what `SmtpReply.Parse` says about the plain byte stream, so
  the chunking never matters.
 */
module SmtpConnection {
  import opened Domain
  import opened SmtpReply

  function Concat(chunks: seq<seq<byte>>): seq<byte> {
    if chunks == [] then [] else chunks[0] + Concat(chunks[1..])
  }

  datatype Fill = Ready | AtEof | Failed | Stalled

  class Connection {
    var buffer: seq<byte>
    var incoming: seq<seq<byte>>
    const end: End

    /** A socket read that returns no bytes is the end of the stream, so no chunk is empty. */
    ghost predicate Valid()
      reads this
    {
      forall i | 0 <= i < |incoming| :: incoming[i] != []
    }

    /** Everything still to be read. */
    ghost function Flat(): seq<byte>
      reads this
    {
      buffer + Concat(incoming)
    }

    constructor (chunks: seq<seq<byte>>, end: End)
      requires forall i | 0 <= i < |chunks| :: chunks[i] != []
      ensures Valid() && Flat() == Concat(chunks) && buffer == [] && this.end == end
    {
      buffer, incoming := [], chunks;
      this.end := end;
      new;
      assert [] + Concat(chunks) == Concat(chunks);
    }

    method FillBuf() returns (fill: Fill)
      requires Valid()
      modifies this
      ensures Valid() && Flat() == old(Flat())
      ensures fill.Ready? <==> buffer != []
      ensures !fill.Ready? ==> Flat() == []
      ensures fill.AtEof? ==> end.Eof?
      ensures fill.Failed? ==> end.Broken?
      ensures fill.Stalled? ==> end.Silent?
    {
      if buffer != [] { return Ready; }
      if incoming != [] {
        assert Flat() == incoming[0] + Concat(incoming[1..]);
        buffer, incoming := incoming[0], incoming[1..];
        return Ready;
      }
      assert Flat() == [];
      match end
      case Eof => return AtEof;
      case Broken => return Failed;
      case Silent => return Stalled;
    }

    /** `take(max + 1).read_until('\n')`: chunk by chunk until the line ends, the limit is hit, or the data stops. */
    method ReadUntil(max: nat) returns (bytes: seq<byte>, fill: Fill)
      requires Valid()
      modifies this
      ensures Valid() && bytes == RawLine(old(Flat()), max) && Flat() == old(Flat())[|bytes|..]
      ensures fill.Failed? <==> Starved(old(Flat()), max) && end.Broken?
      ensures fill.Stalled? <==> Starved(old(Flat()), max) && end.Silent?
    {
      hide RawLine, Starved, Concat;
      ghost var s := Flat();
      bytes, fill := [], Ready;
      var done := false;
      while !done && |bytes| < max + 1
        invariant Valid() && s == bytes + Flat() && |bytes| <= max + 1
        invariant !done ==> LF !in bytes && fill.Ready?
        invariant done && fill.Ready? ==> |bytes| > 0 && bytes[|bytes| - 1] == LF && LF !in bytes[..|bytes| - 1]
        invariant done && !fill.Ready? ==> LF !in bytes && Flat() == [] && |bytes| <= max
        invariant fill.AtEof? ==> end.Eof?
        invariant fill.Failed? ==> end.Broken?
        invariant fill.Stalled? ==> end.Silent?
        decreases !done, |Flat()|
      {
        fill := FillBuf();
        if !fill.Ready? {
          done := true;
        } else {
          var room := max + 1 - |bytes|;
          var available := if |buffer| <= room then buffer else buffer[..room];
          var k := FirstLf(available);
          var used := if k < |available| then k + 1 else k;
          Consumes(bytes, buffer, available, used, Concat(incoming));
          TakesLine(bytes, available, k);
          bytes := bytes + available[..used];
          buffer := buffer[used..];
          done := k < |available|;
        }
      }
      LineReached(s, bytes, max, done && fill.Ready?);
      assert Flat() == s[|bytes|..];
    }

    /** At most `maxLines` lines, one shared code, the last one space-separated. */
    method ReadReply(limits: Limits) returns (lines: seq<seq<byte>>, error: Option<ReplyError>)
      requires Valid()
      modifies this
      ensures Valid()
      ensures var p := Parse(old(Flat()), end, limits.maxLineBytes, limits.maxLines, None);
        && Flat() == old(Flat())[p.used..]
        && match p
           case Reply(ls, _) => error.None? && lines == ls
           case Refusal(e, _) => error == Some(e)
    {
      hide RawLine, Starved, LineError, TrimEnd, Concat, Parse, Prepend, Flat, FirstLf, Utf8, CodeFits, WellFormed;
      ghost var s := Flat();
      ghost var whole := Parse(s, end, limits.maxLineBytes, limits.maxLines, None);
      ghost var used: nat := 0;
      var code: Option<seq<byte>> := None;
      var last := false;
      lines, error := [], None;
      var i := 0;
      PrependNothing(whole);
      while i < limits.maxLines && !last && error.None?
        invariant Valid() && i <= limits.maxLines && used <= |s| && Flat() == s[used..]
        invariant !last && error.None? ==>
          whole == Prepend(lines, used, Parse(Flat(), end, limits.maxLineBytes, limits.maxLines - i, code))
        invariant last && error.None? ==> whole == Reply(lines, used)
        invariant error.Some? ==> whole == Refusal(error.value, used)
        decreases limits.maxLines - i
      {
        ghost var here := Flat();
        ParseStep(here, end, limits.maxLineBytes, limits.maxLines - i, code);
        var bytes, fill := ReadUntil(limits.maxLineBytes);
        ghost var before: nat := used;
        used := used + |bytes|;
        DropDrop(s, before, |bytes|);
        PrependRefuses(lines, before, IoFailure, |bytes|);
        PrependRefuses(lines, before, Deadline, |bytes|);
        if fill.Failed? {
          error := Some(IoFailure);
        } else if fill.Stalled? {
          error := Some(Deadline);
        } else {
          error := LineError(bytes, limits.maxLineBytes, code);
          if error.Some? {
            PrependRefuses(lines, before, error.value, |bytes|);
          } else {
            code := Some(bytes[..3]);
            last := bytes[3] == SPACE;
            ghost var front := lines;
            lines := lines + [TrimEnd(bytes)];
            PrependReplies(front, before, [TrimEnd(bytes)], |bytes|);
            PrependPrepend(front, before, [TrimEnd(bytes)], |bytes|,
                           Parse(Flat(), end, limits.maxLineBytes, limits.maxLines - i - 1, code));
          }
        }
        i := i + 1;
      }
      if !last && error.None? {
        ParseStep(Flat(), end, limits.maxLineBytes, 0, code);
        PrependRefuses(lines, used, TooManyLines, 0);
        error := Some(TooManyLines);
      }
    }
  }

  lemma Consumes(bytes: seq<byte>, buffer: seq<byte>, available: seq<byte>, used: nat, later: seq<byte>)
    requires available <= buffer && used <= |available|
    ensures bytes + (buffer + later) == (bytes + available[..used]) + (buffer[used..] + later)
  {}

  lemma TakesLine(bytes: seq<byte>, available: seq<byte>, k: nat)
    requires LF !in bytes && k == FirstLf(available)
    ensures k < |available| ==>
      var taken := bytes + available[..k + 1];
      taken[|taken| - 1] == LF && LF !in taken[..|taken| - 1]
    ensures k == |available| ==> LF !in bytes + available[..k]
  {}

  lemma ParseStep(s: seq<byte>, end: End, max: nat, budget: nat, code: Option<seq<byte>>)
    ensures budget == 0 ==> Parse(s, end, max, budget, code) == Refusal(TooManyLines, 0)
    ensures budget > 0 ==>
      var raw := RawLine(s, max);
      Parse(s, end, max, budget, code) ==
        if Starved(s, max) && end.Broken? then Refusal(IoFailure, |raw|)
        else if Starved(s, max) && end.Silent? then Refusal(Deadline, |raw|)
        else if LineError(raw, max, code).Some? then Refusal(LineError(raw, max, code).value, |raw|)
        else if raw[3] == SPACE then Reply([TrimEnd(raw)], |raw|)
        else Prepend([TrimEnd(raw)], |raw|, Parse(s[|raw|..], end, max, budget - 1, Some(raw[..3])))
    ensures budget > 0 && LineError(RawLine(s, max), max, code).None? ==> |RawLine(s, max)| >= 6
  {}

  lemma DropDrop<T>(s: seq<T>, m: nat, n: nat)
    requires m + n <= |s|
    ensures s[m..][n..] == s[m + n..]
  {}

  lemma PrependNothing(p: Parsed)
    ensures Prepend([], 0, p) == p
  {}

  lemma PrependRefuses(lines: seq<seq<byte>>, m: nat, e: ReplyError, n: nat)
    ensures Prepend(lines, m, Refusal(e, n)) == Refusal(e, m + n)
  {}

  lemma PrependReplies(lines: seq<seq<byte>>, m: nat, more: seq<seq<byte>>, n: nat)
    ensures Prepend(lines, m, Reply(more, n)) == Reply(lines + more, m + n)
  {}

  /** The bytes gathered up to a line feed, the limit, or the end of the data are the raw line. */
  lemma LineReached(s: seq<byte>, bytes: seq<byte>, max: nat, ended: bool)
    requires bytes <= s && |bytes| <= max + 1
    requires ended ==> |bytes| > 0 && bytes[|bytes| - 1] == LF && LF !in bytes[..|bytes| - 1]
    requires !ended ==> LF !in bytes && (|bytes| == max + 1 || bytes == s)
    ensures bytes == RawLine(s, max)
    ensures Starved(s, max) <==> !ended && bytes == s && |bytes| <= max
  {}

  lemma PrependPrepend(a: seq<seq<byte>>, m: nat, b: seq<seq<byte>>, n: nat, p: Parsed)
    ensures Prepend(a, m, Prepend(b, n, p)) == Prepend(a + b, m + n, p)
  {}
}
