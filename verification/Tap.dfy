/** The tappingReader object, over Go slices: what it computes is SseStream's
    specification, and its partial-line buffer never shares memory with a caller's
    read buffer. */
module TapObject {
  import opened Slices
  import opened SseStream

  class TappingReader {
    const decoder: Decoder
    var usage: UsageData
    var armed: bool                     // onComplete != nil
    var lineBuf: Slice<char>
    var completions: seq<UsageData>     // the calls of onComplete
    ghost var delivered: Bytes          // history: the bytes handed to the caller

    ghost predicate Valid()
      reads this, lineBuf.Memory()
    {
      lineBuf.Valid() && (lineBuf.Len() == 0 ==> lineBuf.Nil?)
    }

    ghost function Buffered(): Tap
      requires lineBuf.Valid()
      reads this, lineBuf.Memory()
    {
      Tap(usage, lineBuf.Contents())
    }

    ghost function View(): Session
      requires lineBuf.Valid()
      reads this, lineBuf.Memory()
    {
      Session(Buffered(), armed, delivered, completions)
    }

    constructor (d: Decoder)
      ensures Valid() && View() == NewSession() && decoder == d && lineBuf.Memory() == {}
    {
      decoder, usage, armed := d, NoUsage(), true;
      lineBuf, completions, delivered := Nil, [], "";
    }

    /** Read: `r` is what the wrapped reader does with the caller's buffer p.  The buffer must
        be memory the tap does not own, which it never is unless the tap was given it. */
    method Read(p: array<char>, r: ReadResult) returns (n: nat, err: ReadError)
      requires Valid() && |r.data| <= p.Length && p !in lineBuf.Memory()
      modifies this, lineBuf.Memory(), p
      ensures Valid() && View() == ReadOnce(decoder, old(View()), r)
      ensures n == |r.data| && err == r.error
      ensures p[..n] == r.data && p[n..] == old(p[n..])
      ensures lineBuf == old(lineBuf) || fresh(lineBuf.Memory())
    {
      n, err := |r.data|, r.error;
      Fill(p, r.data);
      Observe(p, r);
    }

    /** What the wrapped reader does to the caller's buffer. */
    static method Fill(p: array<char>, data: Bytes)
      requires |data| <= p.Length
      modifies p
      ensures p[..|data|] == data && p[|data|..] == old(p[|data|..])
    {
      forall i | 0 <= i < |data| {
        p[i] := data[i];
      }
      assert forall i :: |data| <= i < p.Length ==> p[i] == old(p[i]);
    }

    /** The tap's part of Read. */
    method Observe(p: array<char>, r: ReadResult)
      requires Valid() && |r.data| <= p.Length && p !in lineBuf.Memory() && p[..|r.data|] == r.data
      modifies this, lineBuf.Memory()
      ensures Valid() && View() == ReadOnce(decoder, old(View()), r)
      ensures lineBuf == old(lineBuf) || fresh(lineBuf.Memory())
    {
      delivered := delivered + r.data;
      if |r.data| > 0 {
        var chunk := Slice(p, 0, |r.data|);
        assert chunk.Contents() == r.data;
        ScanChunk(chunk);
      }
      if r.error == Eof && armed {
        completions := completions + [usage];
        armed := false;
      }
    }

    /** scan: reads the chunk, writes only memory of its own. */
    method ScanChunk(chunk: Slice<char>)
      requires Valid() && chunk.Valid() && chunk.Memory() !! lineBuf.Memory()
      modifies this`usage, this`lineBuf, lineBuf.Memory()
      ensures Valid() && fresh(lineBuf.Memory())
      ensures Buffered() == Scan(decoder, old(Buffered()), chunk.Contents())
    {
      ghost var text := Joined(chunk);
      var joined := Join(chunk, text);
      Split(joined, text);
    }

    ghost function Joined(chunk: Slice<char>): Bytes
      requires lineBuf.Valid() && chunk.Valid()
      reads this, lineBuf.Memory(), chunk.Memory()
    {
      lineBuf.Contents() + chunk.Contents()
    }

    /** The chunk behind what is left of the previous read. */
    method Join(chunk: Slice<char>, ghost text: Bytes) returns (joined: Slice<char>)
      requires Valid() && chunk.Valid() && chunk.Memory() !! lineBuf.Memory() && text == Joined(chunk)
      modifies this`lineBuf, lineBuf.Memory()
      ensures lineBuf.Nil? && joined.Valid() && joined.Contents() == text
    {
      joined := chunk;
      if lineBuf.Len() > 0 {
        joined := Append(lineBuf, chunk.Contents());
        lineBuf := Nil;
      } else {
        assert lineBuf.Contents() + chunk.Contents() == chunk.Contents();
      }
    }

    /** The loop of scan; it writes no byte, and buffers a partial line in new memory. */
    method Split(chunk: Slice<char>, ghost all: Bytes)
      requires lineBuf.Nil? && chunk.Valid() && chunk.Contents() == all
      modifies this`usage, this`lineBuf
      ensures Valid() && fresh(lineBuf.Memory())
      ensures Buffered() == ScanLines(decoder, old(usage), all)
    {
      var rest := chunk;
      ghost var text, goal := all, ScanLines(decoder, usage, all);
      while rest.Len() > 0
        invariant rest.Valid() && rest.Contents() == text && lineBuf.Nil?
        invariant ScanLines(decoder, usage, text) == goal
        decreases |text|
      {
        var found, next := TakeLine(rest, text);
        if !found {
          Keep(rest, text);
          return;
        }
        rest, text := next, text[NewlineIndex(text) + 1..];
      }
      assert text == "";
      ScanNothing(decoder, usage);
    }

    /** Buffers a partial line, in memory of its own. */
    method Keep(rest: Slice<char>, ghost text: Bytes)
      requires lineBuf.Nil? && rest.Valid() && rest.Len() > 0 && rest.Contents() == text
      modifies this`lineBuf
      ensures Valid() && fresh(lineBuf.Memory()) && lineBuf.Contents() == text
    {
      lineBuf := Append(lineBuf.Emptied(), rest.Contents());
    }

    /** One turn of the loop: processes the first complete line, if there is one. */
    method TakeLine(chunk: Slice<char>, ghost text: Bytes) returns (found: bool, rest: Slice<char>)
      requires chunk.Valid() && chunk.Contents() == text
      modifies this`usage
      ensures found <==> NewlineIndex(text) < |text|
      ensures !found ==> ScanLines(decoder, old(usage), text) == Tap(usage, text)
      ensures found ==> rest.Valid() && rest.Contents() == text[NewlineIndex(text) + 1..]
      ensures found ==>
        ScanLines(decoder, old(usage), text) == ScanLines(decoder, usage, text[NewlineIndex(text) + 1..])
    {
      var line;
      found, line, rest := CutLine(chunk, text);
      if found {
        ScanStep(decoder, usage, text);
        Process(line, text[..NewlineIndex(text)]);
      }
    }

    /** The line before the first newline and what follows it, as windows into the chunk. */
    static method CutLine(chunk: Slice<char>, ghost text: Bytes)
      returns (found: bool, line: Slice<char>, rest: Slice<char>)
      requires chunk.Valid() && chunk.Contents() == text
      ensures found <==> NewlineIndex(text) < |text|
      ensures found ==> line.Valid() && line.Contents() == text[..NewlineIndex(text)]
      ensures found ==> rest.Valid() && rest.Contents() == text[NewlineIndex(text) + 1..]
    {
      var i := NewlineIndex(chunk.Contents());
      found, line, rest := i < chunk.Len(), Nil, Nil;
      if found {
        line, rest := chunk.Sub(0, i), chunk.Sub(i + 1, chunk.Len());
      }
    }

    method Process(line: Slice<char>, ghost text: Bytes)
      requires line.Valid() && line.Contents() == text
      modifies this`usage
      ensures usage == ProcessLine(decoder, old(usage), text)
    {
      if !HasPrefix(line.Contents(), "data: ") {
        return;
      }
      var payload := line.Sub(6, line.Len());
      var hasStart := Contains(payload.Contents(), "message_start");
      var hasDelta := Contains(payload.Contents(), "message_delta");
      if !hasStart && !hasDelta {
        return;
      }
      if hasStart {
        ParseMessageStart(payload.Contents());
      } else {
        ParseMessageDelta(payload.Contents());
      }
    }

    method ParseMessageStart(data: Bytes)
      modifies this`usage
      ensures usage == ApplyStart(old(usage), decoder.start(data))
      ensures usage.output == old(usage).output
      ensures match decoder.start(data)
        case None => usage == old(usage)
        case Some(v) => usage.model == v.model && usage.input == v.input &&
                        usage.cacheCreation == v.cacheCreation && usage.cacheRead == v.cacheRead
    {
      var env := decoder.start(data);
      if env.None? {
        return;
      }
      usage := usage.(model := env.value.model);
      usage := usage.(input := env.value.input);
      usage := usage.(cacheCreation := env.value.cacheCreation);
      usage := usage.(cacheRead := env.value.cacheRead);
    }

    method ParseMessageDelta(data: Bytes)
      modifies this`usage
      ensures usage == ApplyDelta(old(usage), decoder.delta(data))
    {
      var env := decoder.delta(data);
      if env.None? {
        return;
      }
      usage := usage.(output := env.value);
    }
  }

  /** A caller that reads a whole stream through one buffer, and overwrites the buffer with
      arbitrary bytes between reads: the tap's result depends on the stream alone. */
  method Drain(d: Decoder, p: array<char>, rs: seq<ReadResult>, garbage: char) returns (t: TappingReader, out: Bytes)
    requires forall i :: 0 <= i < |rs| ==> |rs[i].data| <= p.Length
    modifies p
    ensures fresh(t) && t.Valid()
    ensures t.Buffered() == Whole(d, NoUsage(), Stream(rs)) && out == Stream(rs)
    ensures t.completions == ReadAll(d, NewSession(), rs).completions
  {
    t := new TappingReader(d);
    out := "";
    for i := 0 to |rs|
      invariant t.Valid() && t.decoder == d && fresh(t) && fresh(t.lineBuf.Memory())
      invariant t.View() == ReadAll(d, NewSession(), rs[..i])
      invariant out == Stream(rs[..i])
    {
      var n, err := t.Read(p, rs[i]);
      out := out + p[..n];
      assert rs[..i + 1][..i] == rs[..i];
      ghost var view := t.View();
      forall j | 0 <= j < p.Length {
        p[j] := garbage;
      }
      assert t.lineBuf.Contents() == view.tap.lineBuf;
    }
    assert rs[..|rs|] == rs;
    ChunkInvariance(d, rs);
  }
}
