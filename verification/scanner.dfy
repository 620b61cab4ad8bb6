/** Streaming content to clamd as length-prefixed chunks (backend/internal/worker/scanner.go). */
module Scanner {
  import opened Basics

  type byte = b: int | 0 <= b < 256

  const BUFFER := 32 * 1024
  const REPLY_LIMIT := 4096

  /** What one Read returns beside its bytes. */
  datatype End = More | Eof | Broken

  datatype Read = Read(data: seq<byte>, end: End)

  /** A write goes through, or fails after some of its bytes went out. */
  datatype Write = Sent | Cut(n: nat)

  datatype Error = Dial | Send | ReadContent | ReadReply | Infected | Unexpected

  // ---- The framing --------------------------------------------------------

  /** "zINSTREAM" and a zero byte. */
  const MAGIC: seq<byte> := [122, 73, 78, 83, 84, 82, 69, 65, 77, 0]

  const TERMINATOR: seq<byte> := [0, 0, 0, 0]

  function BigEndian(n: nat): (h: seq<byte>)
    ensures |h| == 4
  {
    [n / 0x100_0000 % 256, n / 0x1_0000 % 256, n / 0x100 % 256, n % 256]
  }

  function Frame(chunk: seq<byte>): seq<byte> {
    if chunk == [] then [] else BigEndian(|chunk|) + chunk
  }

  function Frames(input: seq<Read>): seq<byte> {
    if input == [] then [] else Frames(input[..|input| - 1]) + Frame(input[|input| - 1].data)
  }

  function Content(input: seq<Read>): seq<byte> {
    if input == [] then [] else Content(input[..|input| - 1]) + input[|input| - 1].data
  }

  function Chunks(input: seq<Read>): seq<seq<byte>> {
    if input == [] then []
    else Chunks(input[..|input| - 1]) + if input[|input| - 1].data == [] then [] else [input[|input| - 1].data]
  }

  /** The complete stream for the given reads. */
  function Stream(input: seq<Read>): seq<byte> {
    MAGIC + Frames(input) + TERMINATOR
  }

  /** The content arrives in buffers, and only the last read ends it. */
  ghost predicate Readable(input: seq<Read>) {
    && input != [] && input[|input| - 1].end != More
    && (forall i :: 0 <= i < |input| ==> |input[i].data| <= BUFFER)
    && (forall i :: 0 <= i < |input| - 1 ==> input[i].end == More)
  }

  // ---- The reply ----------------------------------------------------------

  function TrimRight(s: string): string {
    if s != "" && s[|s| - 1] in {'\r', '\n', '\0'} then TrimRight(s[..|s| - 1]) else s
  }

  /** The text stands at position i. */
  predicate At(s: string, sub: string, i: nat) {
    i + |sub| <= |s| && s[i..i + |sub|] == sub
  }

  predicate Contains(s: string, sub: string) {
    sub <= s || (s != "" && Contains(s[1..], sub))
  }

  function Verdict(reply: string): Result<bool, Error> {
    var msg := TrimRight(reply[..Min(REPLY_LIMIT, |reply|)]);
    if "stream: OK" <= msg then Ok(true)
    else if Contains(msg, "FOUND") then Err(Infected)
    else Err(Unexpected)
  }

  /** Everything goes out up to the terminator or, without it, up to the end of the content. */
  ghost predicate AllSent(dialed: bool, input: seq<Read>, writes: nat -> Write, terminated: bool) {
    dialed && forall w :: 0 <= w <= |Chunks(input)| + (if terminated then 1 else 0) ==> writes(w) == Sent
  }

  /** The daemon was asked in full: the content ended, and every write went through. */
  ghost predicate Asked(dialed: bool, input: seq<Read>, writes: nat -> Write)
    requires Readable(input)
  {
    input[|input| - 1].end == Eof && AllSent(dialed, input, writes, true)
  }

  /**
   * One scan. Whatever fails, the bytes sent are the start of the complete stream. Once the daemon
   * was asked in full and has replied, what the reply's first 4096 characters say is the result:
   * clean exactly when "stream: OK" starts them, else infected exactly when "FOUND" is among them.
   */
  method Scan(dialed: bool, input: seq<Read>, writes: nat -> Write, reply: Option<string>)
    returns (sent: seq<byte>, clean: Result<bool, Error>)
    requires Readable(input)
    ensures sent <= Stream(input)
    ensures Asked(dialed, input, writes) ==> sent == Stream(input)
    ensures Asked(dialed, input, writes) && reply.Some? ==>
      && (clean == Ok(true) <==> "stream: OK" <= reply.value)
      && (clean == Err(Infected) <==>
            !("stream: OK" <= reply.value)
            && exists i: nat :: i + 5 <= 4096 && At(reply.value, "FOUND", i))
      && (clean in {Ok(true), Err(Infected), Err(Unexpected)})
    ensures clean == Err(ReadReply) <==> Asked(dialed, input, writes) && reply.None?
    ensures !Asked(dialed, input, writes) ==> clean.Err? && clean.error in {Dial, Send, ReadContent}
    ensures clean == Err(Dial) <==> !dialed
    ensures clean == Err(ReadContent) <==>
      input[|input| - 1].end == Broken && AllSent(dialed, input, writes, false)
    ensures clean == Err(ReadContent) ==> sent == MAGIC + Frames(input)
    ensures input[|input| - 1].end == Broken ==> sent <= MAGIC + Frames(input)
  {
    StreamParts(input);
    hide Frame, Frames, Stream, Verdict, BigEndian, Chunks;
    sent := [];
    if !dialed { return sent, Err(Dial); }
    if writes(0).Cut? { return MAGIC[..Min(writes(0).n, |MAGIC|)], Err(Send); }
    sent := MAGIC;
    var i, w := 0, 1;
    assert input[..0] == [] && Frames(input[..0]) == [];
    NoChunks();
    while true
      invariant 0 <= i < |input|
      invariant sent == MAGIC + Frames(input[..i])
      invariant w == |Chunks(input[..i])| + 1 && forall k :: 0 <= k < w ==> writes(k) == Write.Sent
      decreases |input| - i
    {
      var n, end := |input[i].data|, input[i].end;
      FramesNext(input, i);
      FramesGrow(input, i + 1, |input|);
      StreamStart(input, i);
      ChunksNext(input, i);
      ChunksGrow(input, i + 1);
      if n > 0 {
        var frame := BigEndian(n) + input[i].data;
        FrameOf(input[i].data);
        if writes(w).Cut? {
          return sent + frame[..Min(writes(w).n, |frame|)], Err(Send);
        }
        sent := sent + frame;
        w := w + 1;
      } else {
        FrameOf(input[i].data);
      }
      i := i + 1;
      assert sent == MAGIC + Frames(input[..i]);
      if end == Eof { break; }
      if end == Broken {
        assert input[..i] == input;
        return sent, Err(ReadContent);
      }
    }
    assert input[..|input|] == input;
    if writes(w).Cut? {
      return sent + TERMINATOR[..Min(writes(w).n, 4)], Err(Send);
    }
    sent := sent + TERMINATOR;
    if reply.None? { return sent, Err(ReadReply); }
    clean := Verdict(reply.value);
    VerdictFromText(reply.value);
  }

  lemma NoChunks()
    ensures Chunks([]) == []
  {
  }

  lemma ChunksNext(input: seq<Read>, i: nat)
    requires i < |input|
    ensures |Chunks(input[..i + 1])| == |Chunks(input[..i])| + if input[i].data == [] then 0 else 1
  {
    assert input[..i + 1][..i] == input[..i];
  }

  lemma {:induction false} ChunksGrow(input: seq<Read>, i: nat)
    requires i <= |input|
    ensures |Chunks(input[..i])| <= |Chunks(input)|
    decreases |input| - i
  {
    if i == |input| {
      assert input[..i] == input;
    } else {
      ChunksNext(input, i);
      ChunksGrow(input, i + 1);
    }
  }

  // ---- What the reply says --------------------------------------------------

  lemma {:induction false} Trimmed(s: string)
    ensures TrimRight(s) <= s
    ensures forall i :: |TrimRight(s)| <= i < |s| ==> s[i] in {'\r', '\n', '\0'}
  {
    if s != "" && s[|s| - 1] in {'\r', '\n', '\0'} {
      Trimmed(s[..|s| - 1]);
    }
  }

  lemma {:induction false} ContainsAt(s: string, sub: string)
    requires sub != ""
    ensures Contains(s, sub) <==> exists i: nat :: At(s, sub, i)
  {
    if sub <= s {
      assert At(s, sub, 0);
    } else if s != "" {
      ContainsAt(s[1..], sub);
      if i: nat :| At(s, sub, i) {
        assert i > 0 && s[1..][i - 1..i - 1 + |sub|] == s[i..i + |sub|];
        assert At(s[1..], sub, i - 1);
      }
      if i: nat :| At(s[1..], sub, i) {
        assert s[1..][i..i + |sub|] == s[i + 1..i + 1 + |sub|];
        assert At(s, sub, i + 1);
      }
    }
  }

  /** Trailing line ends are not part of "FOUND", so what remains of the text has it where the text does. */
  lemma FoundInRest(s: string, msg: string, i: nat)
    requires msg <= s && forall k :: |msg| <= k < |s| ==> s[k] in {'\r', '\n', '\0'}
    ensures At(msg, "FOUND", i) <==> At(s, "FOUND", i)
  {
    if At(s, "FOUND", i) {
      assert s[i + 4] == "FOUND"[4];
      assert msg[i..i + 5] == s[i..i + 5];
    }
    if At(msg, "FOUND", i) {
      assert msg[i..i + 5] == s[i..i + 5];
    }
  }

  lemma FoundInHead(s: string, i: nat)
    ensures At(s[..Min(REPLY_LIMIT, |s|)], "FOUND", i) <==> i + 5 <= 4096 && At(s, "FOUND", i)
  {
    var head := s[..Min(REPLY_LIMIT, |s|)];
    if i + 5 <= |head| { assert head[i..i + 5] == s[i..i + 5]; }
  }

  lemma StartsOk(s: string, msg: string)
    requires msg <= s && forall k :: |msg| <= k < |s| ==> s[k] in {'\r', '\n', '\0'}
    ensures "stream: OK" <= msg <==> "stream: OK" <= s
  {
    if "stream: OK" <= s {
      assert s[9] == "stream: OK"[9];
    }
  }

  /** Trailing line ends matter to neither text, and the limit only to how far "FOUND" is looked for. */
  lemma VerdictFromText(reply: string)
    ensures Verdict(reply) in {Ok(true), Err(Infected), Err(Unexpected)}
    ensures Verdict(reply) == Ok(true) <==> "stream: OK" <= reply
    ensures Verdict(reply) == Err(Infected) <==>
      !("stream: OK" <= reply) && exists i: nat :: i + 5 <= 4096 && At(reply, "FOUND", i)
  {
    var head := reply[..Min(REPLY_LIMIT, |reply|)];
    var msg := TrimRight(head);
    assert "stream: OK" <= head <==> "stream: OK" <= reply;
    Trimmed(head);
    StartsOk(head, msg);
    ContainsAt(msg, "FOUND");
    forall i: nat ensures At(msg, "FOUND", i) <==> i + 5 <= 4096 && At(reply, "FOUND", i) {
      FoundInRest(head, msg, i);
      FoundInHead(reply, i);
    }
    hide TrimRight, Contains, At;
  }

  lemma FrameOf(chunk: seq<byte>)
    ensures Frame(chunk) == if chunk == [] then [] else BigEndian(|chunk|) + chunk
  {
  }

  lemma StreamParts(input: seq<Read>)
    ensures MAGIC + Frames(input) <= Stream(input) == MAGIC + Frames(input) + TERMINATOR
    ensures Frames([]) == [] && [] <= Stream(input) && [] <= MAGIC + Frames(input)
    ensures forall k :: 0 <= k <= 4 ==> MAGIC + Frames(input) + TERMINATOR[..k] <= Stream(input)
    ensures forall k :: 0 <= k <= |MAGIC| ==> MAGIC[..k] <= Stream(input) && MAGIC[..k] <= MAGIC + Frames(input)
  {
  }

  /** The frames sent so far and any part of the next start the complete stream. */
  lemma StreamStart(input: seq<Read>, i: nat)
    requires i < |input| && Frames(input[..i + 1]) <= Frames(input)
    ensures var sent, frame := MAGIC + Frames(input[..i]), Frame(input[i].data);
      forall k :: 0 <= k <= |frame| ==> sent + frame[..k] <= Stream(input) && sent + frame[..k] <= MAGIC + Frames(input)
  {
    hide Frame, Frames;
    FramesNext(input, i);
    var sent, frame := MAGIC + Frames(input[..i]), Frame(input[i].data);
    var rest := Frames(input)[|Frames(input[..i + 1])|..];
    assert Frames(input) == Frames(input[..i]) + frame + rest;
    assert MAGIC + Frames(input) == sent + frame + rest;
  }

  lemma FramesNext(input: seq<Read>, i: nat)
    requires i < |input|
    ensures Frames(input[..i + 1]) == Frames(input[..i]) + Frame(input[i].data)
  {
    assert input[..i + 1][..i] == input[..i];
  }

  lemma {:induction false} FramesGrow(input: seq<Read>, i: nat, j: nat)
    requires i <= j <= |input|
    ensures Frames(input[..i]) <= Frames(input[..j])
    ensures j == |input| ==> Frames(input[..i]) <= Frames(input)
  {
    hide Frame, Frames;
    if i < j {
      FramesGrow(input, i, j - 1);
      FramesNext(input, j - 1);
      PrefixExtends(Frames(input[..i]), Frames(input[..j - 1]), Frame(input[j - 1].data));
    }
    assert input[..|input|] == input;
  }

  lemma PrefixExtends(a: seq<byte>, b: seq<byte>, c: seq<byte>)
    requires a <= b
    ensures a <= b + c
  {
  }

  // ---- The daemon's side --------------------------------------------------

  function FromBigEndian(h: seq<byte>): nat
    requires |h| == 4
  {
    h[0] as int * 0x100_0000 + h[1] as int * 0x1_0000 + h[2] as int * 0x100 + h[3] as int
  }

  /** The chunks up to the zero header; None while it has not arrived. */
  function Parse(s: seq<byte>): Option<seq<seq<byte>>> {
    if |s| < 4 then None
    else
      var n := FromBigEndian(s[..4]);
      if n == 0 then Some([])
      else if |s| < 4 + n then None
      else
        var rest := Parse(s[4 + n..]);
        if rest.None? then None else Some([s[4..4 + n]] + rest.value)
  }

  function Decode(s: seq<byte>): Option<seq<seq<byte>>> {
    if |s| < |MAGIC| then None else Parse(s[|MAGIC|..])
  }

  /** The command is the text "zINSTREAM", ended by a zero byte. */
  lemma MagicIsCommand()
    ensures |MAGIC| == |"zINSTREAM"| + 1 && MAGIC[9] == 0
    ensures forall k :: 0 <= k < 9 ==> MAGIC[k] == "zINSTREAM"[k] as int
  {
  }

  /** A data header is read back as its length, so it is never the terminator. */
  lemma HeaderRoundTrip(n: nat)
    requires n <= BUFFER
    ensures FromBigEndian(BigEndian(n)) == n
    ensures BigEndian(n)[3] == n % 256 && BigEndian(n)[2] == n / 256
    ensures n > 0 ==> BigEndian(n) != TERMINATOR
  {
    assert n / 0x100_0000 == 0 && n / 0x1_0000 == 0;
    assert n / 0x100 % 256 == n / 0x100;
  }

  lemma ParseFrame(chunk: seq<byte>, rest: seq<byte>)
    requires 0 < |chunk| <= BUFFER
    ensures Parse(Frame(chunk) + rest) ==
      if Parse(rest).None? then None else Some([chunk] + Parse(rest).value)
  {
    HeaderRoundTrip(|chunk|);
    hide BigEndian, FromBigEndian;
    var s := Frame(chunk) + rest;
    assert s[..4] == BigEndian(|chunk|) && s[4..4 + |chunk|] == chunk && s[4 + |chunk|..] == rest;
  }

  lemma {:induction false} ParseFrames(input: seq<Read>, rest: seq<byte>)
    requires forall i :: 0 <= i < |input| ==> |input[i].data| <= BUFFER
    ensures Parse(Frames(input) + rest) ==
      if Parse(rest).None? then None else Some(Chunks(input) + Parse(rest).value)
    decreases |input|
  {
    hide Parse, Frame;
    if input == [] {
      assert Frames(input) + rest == rest;
      if Parse(rest).Some? { assert Chunks(input) + Parse(rest).value == Parse(rest).value; }
    } else {
      var init, chunk := input[..|input| - 1], input[|input| - 1].data;
      FrameOf(chunk);
      Associates(Frames(init), Frame(chunk), rest);
      ParseFrames(init, Frame(chunk) + rest);
      if chunk == [] {
        assert Frame(chunk) + rest == rest;
        assert Chunks(input) == Chunks(init);
      } else {
        ParseFrame(chunk, rest);
        if Parse(rest).Some? { Associates(Chunks(init), [chunk], Parse(rest).value); }
      }
    }
  }

  lemma Associates<T>(a: seq<T>, b: seq<T>, c: seq<T>)
    ensures (a + b) + c == a + (b + c)
  {
  }

  function Concat(chunks: seq<seq<byte>>): seq<byte> {
    if chunks == [] then [] else Concat(chunks[..|chunks| - 1]) + chunks[|chunks| - 1]
  }

  lemma {:induction false} ChunksAreContent(input: seq<Read>)
    ensures Concat(Chunks(input)) == Content(input)
    decreases |input|
  {
    if input != [] {
      var init, chunk := input[..|input| - 1], input[|input| - 1].data;
      ChunksAreContent(init);
      if chunk != [] {
        assert Chunks(input)[..|Chunks(input)| - 1] == Chunks(init);
      } else {
        assert Chunks(input) == Chunks(init) && Content(input) == Content(init);
      }
    }
  }

  /**
   * Main result: however the reader splits the content, the stream decodes chunk by chunk to
   * exactly the non-empty reads, hence to exactly the content.
   */
  lemma StreamRoundTrip(input: seq<Read>)
    requires forall i :: 0 <= i < |input| ==> |input[i].data| <= BUFFER
    ensures Decode(Stream(input)) == Some(Chunks(input)) && Concat(Chunks(input)) == Content(input)
  {
    assert Stream(input)[|MAGIC|..] == Frames(input) + TERMINATOR;
    assert Parse(TERMINATOR) == Some([]);
    ParseFrames(input, TERMINATOR);
    assert Chunks(input) + [] == Chunks(input);
    ChunksAreContent(input);
  }

  /** Reading more bytes never takes back a decoded stream. */
  lemma {:induction false} ParseStable(s: seq<byte>, more: seq<byte>)
    requires Parse(s).Some?
    ensures Parse(s + more) == Parse(s)
    decreases |s|
  {
    hide FromBigEndian;
    assert (s + more)[..4] == s[..4];
    var n := FromBigEndian(s[..4]);
    if n != 0 {
      assert (s + more)[4 + n..] == s[4 + n..] + more && (s + more)[4..4 + n] == s[4..4 + n];
      ParseStable(s[4 + n..], more);
    }
  }

  /** Length of the bytes a successful parse consumes. */
  function Used(chunks: seq<seq<byte>>): nat {
    if chunks == [] then 4 else 4 + |chunks[0]| + Used(chunks[1..])
  }

  lemma {:induction false} ParseUses(s: seq<byte>)
    requires Parse(s).Some?
    ensures Used(Parse(s).value) <= |s|
    decreases |s|
  {
    hide FromBigEndian;
    var n := FromBigEndian(s[..4]);
    if n != 0 {
      ParseUses(s[4 + n..]);
      assert Parse(s).value[1..] == Parse(s[4 + n..]).value;
    }
  }

  lemma {:induction false} UsedAppend(chunks: seq<seq<byte>>, chunk: seq<byte>)
    ensures Used(chunks + [chunk]) == Used(chunks) + 4 + |chunk|
  {
    if chunks == [] {
      assert ([] + [chunk])[1..] == [];
    } else {
      assert (chunks + [chunk])[1..] == chunks[1..] + [chunk];
      UsedAppend(chunks[1..], chunk);
    }
  }

  lemma {:induction false} UsedChunks(input: seq<Read>)
    ensures Used(Chunks(input)) == |Frames(input)| + 4
    decreases |input|
  {
    if input != [] {
      var init, chunk := input[..|input| - 1], input[|input| - 1].data;
      UsedChunks(init);
      if chunk != [] {
        UsedAppend(Chunks(init), chunk);
      } else {
        assert Chunks(input) == Chunks(init) && Frames(input) == Frames(init);
      }
    }
  }

  /**
   * Main result: nothing short of the complete stream decodes, so an interrupted scan, and one
   * whose content could not be read, is never taken for a shorter document.
   */
  lemma PrefixNeverDecodes(input: seq<Read>, sent: seq<byte>)
    requires forall i :: 0 <= i < |input| ==> |input[i].data| <= BUFFER
    requires sent <= Stream(input)
    ensures Decode(sent).Some? <==> sent == Stream(input)
  {
    StreamRoundTrip(input);
    hide Stream, Frames, Parse, Decode, Chunks, Used;
    if Decode(sent).Some? {
      DecodedIsLong(input, sent);
      FullPrefix(sent, Stream(input));
    }
  }

  lemma FullPrefix(a: seq<byte>, b: seq<byte>)
    requires a <= b && |a| >= |b|
    ensures a == b
  {
  }

  /** Whatever decodes is as long as the complete stream. */
  lemma DecodedIsLong(input: seq<Read>, sent: seq<byte>)
    requires sent <= Stream(input) && Decode(sent).Some? && Decode(Stream(input)) == Some(Chunks(input))
    ensures |sent| >= |Stream(input)|
  {
    DecodeStable(sent, Stream(input));
    UsedChunks(input);
    hide Frames, Parse, Chunks, Used;
    DecodeUses(sent);
  }

  lemma DecodeStable(sent: seq<byte>, all: seq<byte>)
    requires sent <= all && Decode(sent).Some?
    ensures Decode(all) == Decode(sent)
  {
    hide Parse;
    var more := all[|sent|..];
    assert all[|MAGIC|..] == sent[|MAGIC|..] + more;
    ParseStable(sent[|MAGIC|..], more);
  }

  lemma DecodeUses(sent: seq<byte>)
    requires Decode(sent).Some?
    ensures |MAGIC| + Used(Decode(sent).value) <= |sent|
  {
    hide Parse, Used;
    ParseUses(sent[|MAGIC|..]);
  }
}
