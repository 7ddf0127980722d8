/** Reading one request line of bounded length from a buffered stream: `read_limited_line` (src/stratum.rs). The
    stream is the chunks the network delivered. */
module LineReader {
  import opened ByteStrings

  const NEWLINE: Byte := 10

  /** The length of the first line: through its newline, or to the end. */
  function LineLength(s: Bytes): (n: nat)
    ensures n <= |s|
    ensures n == 0 <==> s == []
  {
    if s == [] then 0 else if s[0] == NEWLINE then 1 else 1 + LineLength(s[1..])
  }

  /** The first line ends at its only newline, or at the end of the input. */
  lemma {:induction false} LineLengthMeaning(s: Bytes)
    ensures forall i :: 0 <= i < LineLength(s) - 1 ==> s[i] != NEWLINE
    ensures LineLength(s) < |s| ==> s[LineLength(s) - 1] == NEWLINE
  {
    if s != [] && s[0] != NEWLINE {
      LineLengthMeaning(s[1..]);
      assert forall i :: 0 < i < |s| ==> s[i] == s[1..][i - 1];
    }
  }

  lemma {:induction false} LineLengthAt(s: Bytes, p: nat)
    requires p < |s| && s[p] == NEWLINE && forall i :: 0 <= i < p ==> s[i] != NEWLINE
    ensures LineLength(s) == p + 1
  {
    if p > 0 {
      LineLengthAt(s[1..], p - 1);
    }
  }

  lemma {:induction false} LineLengthPast(a: Bytes, b: Bytes)
    requires NEWLINE !in a
    ensures LineLength(a + b) == |a| + LineLength(b)
  {
    if a == [] {
      assert a + b == b;
    } else {
      assert (a + b)[1..] == a[1..] + b;
      LineLengthPast(a[1..], b);
    }
  }

  /** What a read tells its caller. */
  datatype LimitedLineRead = Eof | Line(length: nat) | TooLong(observed: nat)

  class Source {
    var chunks: seq<Bytes>

    ghost predicate Valid()
      reads this
    {
      forall c :: c in chunks ==> c != []
    }

    /** The bytes not yet consumed. */
    ghost function Contents(): Bytes
      reads this
    {
      Concat(chunks)
    }

    constructor (chunks: seq<Bytes>)
      requires forall c :: c in chunks ==> c != []
      ensures Valid() && Contents() == Concat(chunks)
    {
      this.chunks := chunks;
    }

    /** `fill_buf`: empty only at the end of the stream. */
    method FillBuf() returns (available: Bytes)
      requires Valid()
      ensures available <= Contents() && (available == [] <==> Contents() == [])
      ensures available != [] ==> chunks != [] && available == chunks[0]
    {
      if chunks == [] {
        return [];
      }
      available := chunks[0];
      assert available in chunks;
    }

    method Consume(n: nat)
      requires Valid() && chunks != [] && n <= |chunks[0]|
      modifies this
      ensures Valid() && Contents() == old(Contents())[n..]
    {
      var rest := chunks[0][n..];
      assert ([rest] + chunks[1..])[1..] == chunks[1..];
      assert (chunks[0] + Concat(chunks[1..]))[n..] == rest + Concat(chunks[1..]);
      assert forall c :: c in chunks[1..] ==> c in chunks;
      if rest == [] {
        assert rest + Concat(chunks[1..]) == Concat(chunks[1..]);
        chunks := chunks[1..];
      } else {
        chunks := [rest] + chunks[1..];
      }
    }
  }

  method FindNewline(s: Bytes) returns (at: Option<nat>)
    ensures at.None? <==> NEWLINE !in s
    ensures at.Some? ==> at.value < |s| && s[at.value] == NEWLINE && forall i :: 0 <= i < at.value ==> s[i] != NEWLINE
  {
    for i := 0 to |s|
      invariant forall k :: 0 <= k < i ==> s[k] != NEWLINE
    {
      if s[i] == NEWLINE {
        return Some(i);
      }
    }
    return None;
  }

  /** However the bytes were cut into chunks: the first line comes out exactly when it is within the limit, otherwise
      the read reports more bytes than the limit and no more than the line has. What is consumed is what is reported,
      and the buffer never outgrows the limit. */
  method ReadLimitedLine(source: Source, max: nat) returns (out: Bytes, result: LimitedLineRead)
    requires source.Valid()
    modifies source
    ensures source.Valid() && |out| <= max
    ensures result.Eof? <==> old(source.Contents()) == []
    ensures result.Line? <==> old(source.Contents()) != [] && LineLength(old(source.Contents())) <= max
    ensures result.Eof? ==> source.Contents() == []
    ensures result.Line? ==>
      var s := old(source.Contents());
      && result.length == LineLength(s) && out == s[..LineLength(s)] && source.Contents() == s[LineLength(s)..]
    ensures result.TooLong? ==>
      var s := old(source.Contents());
      max < result.observed <= LineLength(s) && source.Contents() == s[result.observed..]
  {
    hide Concat, LineLength;
    out := [];
    ghost var all := source.Contents();
    while true
      invariant source.Valid() && |out| <= max
      invariant all == out + source.Contents() && NEWLINE !in out
      decreases |source.Contents()|
    {
      ghost var contents := source.Contents();
      LineLengthPast(out, contents);
      var available := source.FillBuf();
      if available == [] {
        assert all == out;
        return out, if out == [] then Eof else Line(|out|);
      }
      var at := FindNewline(available);
      LineOfAvailable(contents, available, at);
      var take := if at.Some? then at.value + 1 else |available|;
      assert contents[..take] == available[..take];
      MovePast(all, out, contents, take);
      var observed := |out| + take;
      source.Consume(take);
      if observed > max {
        return out, TooLong(observed);
      }
      out := out + available[..take];
      if at.Some? {
        return out, Line(|out|);
      }
    }
  }

  lemma MovePast(all: Bytes, out: Bytes, contents: Bytes, take: nat)
    requires all == out + contents && take <= |contents|
    ensures all == (out + contents[..take]) + contents[take..]
    ensures contents[take..] == all[|out| + take..] && out + contents[..take] == all[..|out| + take]
  {
  }

  lemma LineOfAvailable(contents: Bytes, available: Bytes, at: Option<nat>)
    requires available <= contents && available != []
    requires at.None? ==> NEWLINE !in available
    requires at.Some? ==>
      at.value < |available| && available[at.value] == NEWLINE
      && forall i :: 0 <= i < at.value ==> available[i] != NEWLINE
    ensures if at.Some? then LineLength(contents) == at.value + 1 else LineLength(contents) >= |available|
  {
    if at.Some? {
      LineLengthAt(contents, at.value);
    } else {
      assert contents == available + contents[|available|..];
      LineLengthPast(available, contents[|available|..]);
    }
  }

  // Line after line

  function Lines(s: Bytes): seq<Bytes> {
    if s == [] then [] else [s[..LineLength(s)]] + Lines(s[LineLength(s)..])
  }

  /** Cutting into lines loses nothing. */
  lemma {:induction false} LinesRejoin(s: Bytes)
    ensures Concat(Lines(s)) == s
    decreases |s|
  {
    if s != [] {
      var n := LineLength(s);
      LinesRejoin(s[n..]);
      assert ([s[..n]] + Lines(s[n..]))[1..] == Lines(s[n..]);
      assert s[..n] + s[n..] == s;
    }
  }

  /** The session's loop: it reads lines until the stream ends or a line is too long. */
  method ReadLines(source: Source, max: nat) returns (lines: seq<Bytes>, overflow: bool)
    requires source.Valid()
    modifies source
    ensures source.Valid()
    ensures lines <= Lines(old(source.Contents())) && forall l :: l in lines ==> |l| <= max
    ensures !overflow ==> lines == Lines(old(source.Contents())) && source.Contents() == []
    ensures overflow ==> |lines| < |Lines(old(source.Contents()))| && |Lines(old(source.Contents()))[|lines|]| > max
  {
    lines := [];
    ghost var all := source.Contents();
    while true
      invariant source.Valid()
      invariant Lines(all) == lines + Lines(source.Contents())
      invariant forall l :: l in lines ==> |l| <= max
      decreases |source.Contents()|
    {
      ghost var s := source.Contents();
      var out, result := ReadLimitedLine(source, max);
      match result
      case Eof => return lines, false;
      case TooLong(_) =>
        assert Lines(all)[|lines|] == s[..LineLength(s)];
        return lines, true;
      case Line(n) =>
        assert lines + Lines(s) == (lines + [s[..n]]) + Lines(s[n..]);
        lines := lines + [out];
    }
  }
}
