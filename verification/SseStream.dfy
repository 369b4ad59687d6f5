/** The streaming tap as functions on byte strings: the incremental line splitter,
    an independent specification of the whole stream, and their agreement under
    every way of cutting the stream into reads.  A byte is a char: the tap only
    compares bytes. */
module SseStream {
  import opened Prelude

  type Bytes = string

  datatype UsageData = UsageData(input: int, output: int, cacheCreation: int, cacheRead: int, model: string)

  datatype StartFields = StartFields(model: string, input: int, cacheCreation: int, cacheRead: int)

  /** What json.Unmarshal yields for the two envelopes, or that it fails. */
  datatype Decoder = Decoder(start: Bytes -> Option<StartFields>, delta: Bytes -> Option<int>)

  function NoUsage(): UsageData { UsageData(0, 0, 0, 0, "") }

  predicate HasPrefix(s: Bytes, p: Bytes) {
    |p| <= |s| && s[..|p|] == p
  }

  predicate OccursAt(s: Bytes, word: Bytes, i: nat) {
    i + |word| <= |s| && s[i..i + |word|] == word
  }

  predicate Contains(s: Bytes, word: Bytes) {
    exists i :: 0 <= i <= |s| && OccursAt(s, word, i)
  }

  function ApplyStart(u: UsageData, f: Option<StartFields>): UsageData {
    match f
    case None => u
    case Some(v) => UsageData(v.input, u.output, v.cacheCreation, v.cacheRead, v.model)
  }

  function ApplyDelta(u: UsageData, f: Option<int>): UsageData {
    match f
    case None => u
    case Some(v) => u.(output := v)
  }

  function ProcessPayload(d: Decoder, u: UsageData, payload: Bytes): UsageData {
    if Contains(payload, "message_start") then ApplyStart(u, d.start(payload))
    else if Contains(payload, "message_delta") then ApplyDelta(u, d.delta(payload))
    else u
  }

  function ProcessLine(d: Decoder, u: UsageData, line: Bytes): UsageData {
    if HasPrefix(line, "data: ") then ProcessPayload(d, u, line[6..]) else u
  }

  // ------------------------------------------------------ what a line does, spelled out

  ghost predicate SplitBy(s: Bytes, word: Bytes, a: Bytes, b: Bytes) {
    s == a + word + b
  }

  lemma ContainsIff(s: Bytes, word: Bytes)
    ensures Contains(s, word) <==> exists a, b :: SplitBy(s, word, a, b)
  {
    if Contains(s, word) {
      var i: nat :| 0 <= i <= |s| && OccursAt(s, word, i);
      assert SplitBy(s, word, s[..i], s[i + |word|..]);
    }
    if a, b :| SplitBy(s, word, a, b) {
      assert OccursAt(s, word, |a|);
    }
  }

  lemma DataLineIsPayload(d: Decoder, u: UsageData, payload: Bytes)
    ensures ProcessLine(d, u, "data: " + payload) == ProcessPayload(d, u, payload)
  {
    var line := "data: " + payload;
    assert line[..6] == "data: " && line[6..] == payload;
  }

  /** A data line with message_start anywhere in it replaces the four start fields, if it decodes. */
  lemma StartLine(d: Decoder, u: UsageData, a: Bytes, b: Bytes)
    ensures var payload := a + "message_start" + b;
      ProcessLine(d, u, "data: " + payload) ==
        match d.start(payload)
        case None => u
        case Some(v) => UsageData(v.input, u.output, v.cacheCreation, v.cacheRead, v.model)
  {
    var payload := a + "message_start" + b;
    DataLineIsPayload(d, u, payload);
    ContainsIff(payload, "message_start");
    assert SplitBy(payload, "message_start", a, b);
  }

  /** One with message_delta, and without message_start, replaces the output count. */
  lemma DeltaLine(d: Decoder, u: UsageData, a: Bytes, b: Bytes)
    requires forall x, y :: !SplitBy(a + "message_delta" + b, "message_start", x, y)
    ensures var payload := a + "message_delta" + b;
      ProcessLine(d, u, "data: " + payload) ==
        match d.delta(payload)
        case None => u
        case Some(v) => UsageData(u.input, v, u.cacheCreation, u.cacheRead, u.model)
  {
    var payload := a + "message_delta" + b;
    DataLineIsPayload(d, u, payload);
    ContainsIff(payload, "message_start");
    ContainsIff(payload, "message_delta");
    assert SplitBy(payload, "message_delta", a, b);
  }

  /** A data line with neither word changes nothing. */
  lemma PlainLine(d: Decoder, u: UsageData, payload: Bytes)
    requires forall a, b :: !SplitBy(payload, "message_start", a, b) && !SplitBy(payload, "message_delta", a, b)
    ensures ProcessLine(d, u, "data: " + payload) == u
  {
    DataLineIsPayload(d, u, payload);
    ContainsIff(payload, "message_start");
    ContainsIff(payload, "message_delta");
  }

  /** Nor does any line that is no data line. */
  lemma OtherLine(d: Decoder, u: UsageData, line: Bytes)
    ensures ProcessLine(d, u, line) != u ==> exists payload :: line == "data: " + payload
  {
    if HasPrefix(line, "data: ") {
      assert line == "data: " + line[6..];
    }
  }

  // --------------------------------------------------- the incremental splitter

  /** bytes.IndexByte(s, '\n'), or |s| when there is no newline. */
  function NewlineIndex(s: Bytes): (i: nat)
    ensures i <= |s| && (i < |s| ==> s[i] == '\n') && '\n' !in s[..i]
  {
    if s == "" then 0
    else if s[0] == '\n' then 0
    else
      var i := 1 + NewlineIndex(s[1..]);
      assert s[..i] == [s[0]] + s[1..][..i - 1];
      i
  }

  datatype Tap = Tap(usage: UsageData, lineBuf: Bytes)

  /** The loop of scan. */
  function ScanLines(d: Decoder, u: UsageData, chunk: Bytes): Tap
    decreases |chunk|
  {
    var i := NewlineIndex(chunk);
    if i == |chunk| then Tap(u, chunk)
    else ScanLines(d, ProcessLine(d, u, chunk[..i]), chunk[i + 1..])
  }

  lemma ScanNothing(d: Decoder, u: UsageData)
    ensures ScanLines(d, u, "") == Tap(u, "")
  {
  }

  lemma ScanStep(d: Decoder, u: UsageData, chunk: Bytes)
    requires NewlineIndex(chunk) < |chunk|
    ensures var i := NewlineIndex(chunk);
      ScanLines(d, u, chunk) == ScanLines(d, ProcessLine(d, u, chunk[..i]), chunk[i + 1..])
  {
  }

  function Scan(d: Decoder, t: Tap, chunk: Bytes): Tap {
    ScanLines(d, t.usage, t.lineBuf + chunk)
  }

  // --------------------------------------------------- the stream as a whole

  /** What follows the last newline. */
  function Tail(s: Bytes): Bytes {
    if s == "" || s[|s| - 1] == '\n' then "" else Tail(s[..|s| - 1]) + [s[|s| - 1]]
  }

  /** The newline-terminated lines, in order, without their newlines. */
  function Lines(s: Bytes): seq<Bytes> {
    if s == "" then []
    else if s[|s| - 1] == '\n' then Lines(s[..|s| - 1]) + [Tail(s[..|s| - 1])]
    else Lines(s[..|s| - 1])
  }

  function FoldLines(d: Decoder, u: UsageData, lines: seq<Bytes>): UsageData {
    if lines == [] then u
    else ProcessLine(d, FoldLines(d, u, lines[..|lines| - 1]), lines[|lines| - 1])
  }

  /** The specification: fold the complete lines, keep the rest. */
  function Whole(d: Decoder, u: UsageData, s: Bytes): Tap {
    Tap(FoldLines(d, u, Lines(s)), Tail(s))
  }

  // ------------------------------------------------------------- they agree

  function PushByte(d: Decoder, t: Tap, b: char): Tap {
    if b == '\n' then Tap(ProcessLine(d, t.usage, t.lineBuf), "")
    else Tap(t.usage, t.lineBuf + [b])
  }

  lemma {:induction false} NewlineIndexSkips(s: Bytes, t: Bytes)
    requires '\n' !in s
    ensures NewlineIndex(s + t) == |s| + NewlineIndex(t)
  {
    if s == "" {
      assert s + t == t;
    } else {
      assert (s + t)[1..] == s[1..] + t;
      assert forall c :: c in s[1..] ==> c in s;
      NewlineIndexSkips(s[1..], t);
    }
  }

  lemma OpenLinePushesByte(d: Decoder, u: UsageData, s: Bytes, b: char)
    requires NewlineIndex(s) == |s|
    ensures ScanLines(d, u, s + [b]) == PushByte(d, Tap(u, s), b)
  {
    assert s[..|s|] == s;
    NewlineIndexSkips(s, [b]);
    if b == '\n' {
      assert (s + [b])[..|s|] == s && (s + [b])[|s| + 1..] == "";
      ScanNothing(d, ProcessLine(d, u, s));
    } else {
      assert [b][1..] == "" && NewlineIndex([b]) == 1;
    }
  }

  /** The splitter sees one more byte the way a byte-at-a-time machine would. */
  lemma {:induction false} ScanPushesByte(d: Decoder, u: UsageData, s: Bytes, b: char)
    ensures ScanLines(d, u, s + [b]) == PushByte(d, ScanLines(d, u, s), b)
    decreases |s|
  {
    var i := NewlineIndex(s);
    if i == |s| {
      OpenLinePushesByte(d, u, s, b);
    } else {
      var head, rest := s[..i], s[i..];
      assert s == head + rest && s + [b] == head + (rest + [b]);
      NewlineIndexSkips(head, rest + [b]);
      assert NewlineIndex(rest + [b]) == 0;
      assert (s + [b])[..i] == s[..i] && (s + [b])[i + 1..] == s[i + 1..] + [b];
      ScanPushesByte(d, ProcessLine(d, u, s[..i]), s[i + 1..], b);
    }
  }

  /** Splitting incrementally is the same as splitting the whole stream. */
  lemma {:induction false} ScanIsWhole(d: Decoder, u: UsageData, s: Bytes)
    ensures ScanLines(d, u, s) == Whole(d, u, s)
  {
    if s != "" {
      var init, b := s[..|s| - 1], s[|s| - 1];
      assert s == init + [b];
      ScanIsWhole(d, u, init);
      ScanPushesByte(d, u, init, b);
      if b == '\n' {
        assert Lines(s)[..|Lines(s)| - 1] == Lines(init);
      }
    }
  }

  /** A second chunk continues where the first left off. */
  lemma {:induction false} ScanContinues(d: Decoder, u: UsageData, a: Bytes, b: Bytes)
    ensures ScanLines(d, u, a + b) == Scan(d, ScanLines(d, u, a), b)
  {
    if b == "" {
      var t := ScanLines(d, u, a);
      ScanIsWhole(d, u, a);
      TailHasNoNewline(a);
      assert a + b == a && t.lineBuf + b == t.lineBuf;
      NewlineIndexSkips(t.lineBuf, "");
      assert t.lineBuf + "" == t.lineBuf;
    } else {
      var init, c := b[..|b| - 1], b[|b| - 1];
      var t := ScanLines(d, u, a);
      assert a + b == (a + init) + [c] && t.lineBuf + b == (t.lineBuf + init) + [c];
      ScanContinues(d, u, a, init);
      ScanPushesByte(d, u, a + init, c);
      ScanPushesByte(d, t.usage, t.lineBuf + init, c);
    }
  }

  lemma {:induction false} TailHasNoNewline(s: Bytes)
    ensures '\n' !in Tail(s)
  {
    if s != "" {
      TailHasNoNewline(s[..|s| - 1]);
    }
  }

  // ------------------------------------------------------------------- reads

  datatype ReadError = NoError | Eof | OtherError

  /** One Read of the wrapped reader: the bytes it put into the caller's buffer, and its error. */
  datatype ReadResult = ReadResult(data: Bytes, error: ReadError)

  /** The tap between two reads; `armed` is onComplete != nil, the rest is history. */
  datatype Session = Session(tap: Tap, armed: bool, delivered: Bytes, completions: seq<UsageData>)

  function NewSession(): Session {
    Session(Tap(NoUsage(), ""), true, "", [])
  }

  function ReadOnce(d: Decoder, s: Session, r: ReadResult): Session {
    var tap := if |r.data| > 0 then Scan(d, s.tap, r.data) else s.tap;
    var fires := r.error == Eof && s.armed;
    Session(tap, s.armed && !fires, s.delivered + r.data,
            if fires then s.completions + [tap.usage] else s.completions)
  }

  function ReadAll(d: Decoder, s: Session, rs: seq<ReadResult>): Session {
    if rs == [] then s else ReadOnce(d, ReadAll(d, s, rs[..|rs| - 1]), rs[|rs| - 1])
  }

  /** The stream: what the wrapped reader returned, in order. */
  function Stream(rs: seq<ReadResult>): Bytes {
    if rs == [] then "" else Stream(rs[..|rs| - 1]) + rs[|rs| - 1].data
  }

  /** However the stream is cut into reads, empty ones and data returned with an error
      included, the usage is the fold over the complete lines of the whole stream, the
      buffer is what follows the last newline, and the caller got the stream itself. */
  lemma {:induction false} ChunkInvariance(d: Decoder, rs: seq<ReadResult>)
    ensures var s := ReadAll(d, NewSession(), rs);
      s.tap == Whole(d, NoUsage(), Stream(rs)) && s.delivered == Stream(rs)
  {
    if rs != [] {
      var init, r := rs[..|rs| - 1], rs[|rs| - 1];
      ChunkInvariance(d, init);
      ScanIsWhole(d, NoUsage(), Stream(init));
      if |r.data| > 0 {
        ScanContinues(d, NoUsage(), Stream(init), r.data);
        ScanIsWhole(d, NoUsage(), Stream(rs));
      } else {
        assert Stream(rs) == Stream(init);
      }
    }
  }

  /** Two ways of cutting the same stream leave the tap in the same state. */
  lemma CutsAgree(d: Decoder, rs: seq<ReadResult>, rs': seq<ReadResult>)
    requires Stream(rs) == Stream(rs')
    ensures ReadAll(d, NewSession(), rs).tap == ReadAll(d, NewSession(), rs').tap
  {
    ChunkInvariance(d, rs);
    ChunkInvariance(d, rs');
  }

  /** onComplete fires at the first end of file, with the usage of everything up to and
      including the bytes returned alongside it, and never again; without an end of file, never. */
  lemma {:induction false} CompletesOnce(d: Decoder, rs: seq<ReadResult>, k: nat)
    requires k <= |rs|
    requires forall i :: 0 <= i < k ==> rs[i].error != Eof
    requires k < |rs| ==> rs[k].error == Eof
    ensures var s := ReadAll(d, NewSession(), rs);
      && (s.armed <==> k == |rs|)
      && s.completions == if k == |rs| then [] else [FoldLines(d, NoUsage(), Lines(Stream(rs[..k + 1])))]
  {
    if rs != [] {
      var init := rs[..|rs| - 1];
      if k == |rs| {
        CompletesOnce(d, init, |init|);
      } else if k == |rs| - 1 {
        CompletesOnce(d, init, k);
        ChunkInvariance(d, rs);
        assert rs[..k + 1] == rs;
      } else {
        CompletesOnce(d, init, k);
        assert init[..k + 1] == rs[..k + 1];
      }
    }
  }
}
