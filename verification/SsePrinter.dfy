/** Printing events as a server-sent-event stream and reading them back through the
    tap: the round trip, and exactly which events the tap reads as what they are. */
module SsePrinter {
  import opened Prelude
  import opened SseStream

  datatype Event = Event(name: Bytes, data: Bytes)

  function NamePart(e: Event): Bytes {
    if e.name != "" then "event: " + e.name + "\n" else ""
  }

  function DataPart(e: Event): Bytes {
    "data: " + e.data + "\n\n"
  }

  function PrintEvent(e: Event): Bytes {
    NamePart(e) + DataPart(e)
  }

  function Print(es: seq<Event>): Bytes {
    if es == [] then "" else Print(es[..|es| - 1]) + PrintEvent(es[|es| - 1])
  }

  lemma PrintOneMore(es: seq<Event>, i: nat)
    requires i < |es|
    ensures Print(es[..i + 1]) == Print(es[..i]) + (NamePart(es[i]) + DataPart(es[i]))
  {
    assert es[..i + 1][..i] == es[..i];
  }

  method BuildSSEResponse(es: seq<Event>) returns (result: Bytes)
    ensures result == Print(es)
  {
    result := "";
    for i := 0 to |es|
      invariant result == Print(es[..i])
    {
      var e := es[i];
      PrintOneMore(es, i);
      ghost var before := result;
      if e.name != "" {
        result := result + ("event: " + e.name + "\n");
      }
      result := result + ("data: " + e.data + "\n\n");
      Associates(before, NamePart(e), DataPart(e));
      assert e.name == "" ==> before + "" == before;
    }
    assert es[..|es|] == es;
  }

  // ----------------------------------------------------------- printed lines

  lemma {:induction false} LinesAppend(a: Bytes, b: Bytes)
    requires Tail(a) == ""
    ensures Lines(a + b) == Lines(a) + Lines(b) && Tail(a + b) == Tail(b)
  {
    if b == "" {
      assert a + b == a;
    } else {
      var init := b[..|b| - 1];
      assert (a + b)[..|a + b| - 1] == a + init;
      LinesAppend(a, init);
    }
  }

  lemma {:induction false} OpenLine(s: Bytes)
    requires '\n' !in s
    ensures Lines(s) == [] && Tail(s) == s
  {
    if s != "" {
      OpenLine(s[..|s| - 1]);
    }
  }

  lemma OneLine(s: Bytes)
    requires '\n' !in s
    ensures Lines(s + "\n") == [s] && Tail(s + "\n") == ""
  {
    OpenLine(s);
    assert (s + "\n")[..|s|] == s;
  }

  lemma {:induction false} FoldAppend(d: Decoder, u: UsageData, a: seq<Bytes>, b: seq<Bytes>)
    ensures FoldLines(d, u, a + b) == FoldLines(d, FoldLines(d, u, a), b)
  {
    if b == [] {
      assert a + b == a;
    } else {
      assert (a + b)[..|a + b| - 1] == a + b[..|b| - 1];
      FoldAppend(d, u, a, b[..|b| - 1]);
    }
  }

  predicate Printable(e: Event) {
    '\n' !in e.name && '\n' !in e.data
  }

  function NameLines(e: Event): seq<Bytes> {
    if e.name != "" then ["event: " + e.name] else []
  }

  lemma NameLine(e: Event)
    requires Printable(e)
    ensures Lines(NamePart(e)) == NameLines(e) && Tail(NamePart(e)) == ""
  {
    if e.name != "" {
      var line := "event: " + e.name;
      OneLine(line);
    }
  }

  lemma DataLine(e: Event)
    requires Printable(e)
    ensures Lines(DataPart(e)) == ["data: " + e.data, ""] && Tail(DataPart(e)) == ""
  {
    var line := "data: " + e.data;
    OneLine(line);
    OneLine("");
    LinesAppend(line + "\n", "" + "\n");
    assert DataPart(e) == (line + "\n") + ("" + "\n");
  }

  lemma PrintedLines(e: Event)
    requires Printable(e)
    ensures Lines(PrintEvent(e)) == NameLines(e) + ["data: " + e.data, ""] && Tail(PrintEvent(e)) == ""
  {
    NameLine(e);
    DataLine(e);
    LinesAppend(NamePart(e), DataPart(e));
  }

  lemma NonDataLinesSkipped(d: Decoder, u: UsageData, name: Bytes)
    ensures ProcessLine(d, u, "event: " + name) == u && ProcessLine(d, u, "") == u
  {
    assert ("event: " + name)[..6][0] == 'e';
  }

  /** A printed event is seen by the tap as its payload, once. */
  lemma PrintedEffect(d: Decoder, u: UsageData, e: Event)
    requires Printable(e)
    ensures FoldLines(d, u, Lines(PrintEvent(e))) == ProcessPayload(d, u, e.data)
  {
    PrintedLines(e);
    NonDataLinesSkipped(d, u, e.name);
    var line := "data: " + e.data;
    assert line[..6] == "data: " && line[6..] == e.data;
    assert FoldLines(d, u, NameLines(e)) == u by {
      if e.name != "" {
        assert NameLines(e)[..0] == [];
      }
    }
    var v, one := ProcessPayload(d, u, e.data), [line];
    assert FoldLines(d, u, one) == v by {
      assert one[..0] == [];
    }
    NonDataLinesSkipped(d, v, e.name);
    assert [line, ""][..1] == one;
    FoldAppend(d, u, NameLines(e), [line, ""]);
  }

  function Observed(d: Decoder, u: UsageData, es: seq<Event>): UsageData {
    if es == [] then u else ProcessPayload(d, Observed(d, u, es[..|es| - 1]), es[|es| - 1].data)
  }

  lemma {:induction false} PrintedStream(d: Decoder, u: UsageData, es: seq<Event>)
    requires forall i :: 0 <= i < |es| ==> Printable(es[i])
    ensures Whole(d, u, Print(es)) == Tap(Observed(d, u, es), "")
  {
    if es != [] {
      var init, e := es[..|es| - 1], es[|es| - 1];
      PrintedStream(d, u, init);
      PrintedLines(e);
      LinesAppend(Print(init), PrintEvent(e));
      FoldAppend(d, u, Lines(Print(init)), Lines(PrintEvent(e)));
      PrintedEffect(d, Observed(d, u, init), e);
    }
  }

  // --------------------------------------------- events and what they are read as

  datatype Kind = StartKind | DeltaKind | OtherKind

  /** What the event is, by its name. */
  function NamedKind(e: Event): Kind {
    if e.name == "message_start" then StartKind else if e.name == "message_delta" then DeltaKind else OtherKind
  }

  /** The branch the tap takes, by the marker words in the payload. */
  function MarkedKind(e: Event): Kind {
    if Contains(e.data, "message_start") then StartKind
    else if Contains(e.data, "message_delta") then DeltaKind
    else OtherKind
  }

  function Effect(d: Decoder, k: Kind, u: UsageData, payload: Bytes): UsageData {
    match k
    case StartKind => ApplyStart(u, d.start(payload))
    case DeltaKind => ApplyDelta(u, d.delta(payload))
    case OtherKind => u
  }

  predicate Parses(d: Decoder, k: Kind, payload: Bytes) {
    match k
    case StartKind => d.start(payload).Some?
    case DeltaKind => d.delta(payload).Some?
    case OtherKind => false
  }

  /** The marker words agree with the name, or neither reading of the payload parses. */
  predicate WellMarked(d: Decoder, e: Event) {
    MarkedKind(e) == NamedKind(e) || (!Parses(d, MarkedKind(e), e.data) && !Parses(d, NamedKind(e), e.data))
  }

  /** The tap treats an event as what its name says, whatever was recorded before, exactly
      when the event is well marked. */
  lemma ReadAsNamedIff(d: Decoder, e: Event)
    ensures (forall u :: ProcessPayload(d, u, e.data) == Effect(d, NamedKind(e), u, e.data)) <==> WellMarked(d, e)
  {
    assert forall u :: ProcessPayload(d, u, e.data) == Effect(d, MarkedKind(e), u, e.data);
    if !WellMarked(d, e) {
      var p := e.data;
      var s, o := d.start(p), d.delta(p);
      // a record that differs from everything either reading can write
      var u := UsageData(
        if s.Some? then s.value.input + 1 else 0, if o.Some? then o.value + 1 else 0,
        if s.Some? then s.value.cacheCreation else 0, if s.Some? then s.value.cacheRead else 0, "");
      assert s.Some? ==> ApplyStart(u, s).input != u.input && ApplyStart(u, s).output == u.output;
      assert o.Some? ==> ApplyDelta(u, o).output != u.output && ApplyDelta(u, o).input == u.input;
      assert ProcessPayload(d, u, p) == Effect(d, MarkedKind(e), u, p) != Effect(d, NamedKind(e), u, p);
    }
  }

  /** A payload that mentions message_start and decodes overwrites the start record, whatever
      the event was: a text delta quoting the word wipes model, input and cache counts. */
  lemma QuotedMarkerOverwrites(d: Decoder, u: UsageData, es: seq<Event>, e: Event)
    requires Contains(e.data, "message_start") && d.start(e.data) == Some(StartFields("", 0, 0, 0))
    ensures Observed(d, u, es + [e]) == UsageData(0, Observed(d, u, es).output, 0, 0, "")
  {
    assert (es + [e])[..|es + [e]| - 1] == es;
  }

  /** The last message_start that decodes. */
  function LastStart(d: Decoder, es: seq<Event>): Option<StartFields> {
    if es == [] then None
    else
      var e := es[|es| - 1];
      if NamedKind(e) == StartKind && d.start(e.data).Some? then d.start(e.data) else LastStart(d, es[..|es| - 1])
  }

  /** The last message_delta that decodes. */
  function LastDelta(d: Decoder, es: seq<Event>): Option<int> {
    if es == [] then None
    else
      var e := es[|es| - 1];
      if NamedKind(e) == DeltaKind && d.delta(e.data).Some? then d.delta(e.data) else LastDelta(d, es[..|es| - 1])
  }

  lemma {:induction false} ObservedIsLast(d: Decoder, es: seq<Event>)
    requires forall i :: 0 <= i < |es| ==> WellMarked(d, es[i])
    ensures Observed(d, NoUsage(), es) == ApplyDelta(ApplyStart(NoUsage(), LastStart(d, es)), LastDelta(d, es))
  {
    if es != [] {
      ObservedIsLast(d, es[..|es| - 1]);
      ReadAsNamedIff(d, es[|es| - 1]);
    }
  }

  /** Round trip: print well-marked events without newlines, read the stream in any pieces,
      and the tap holds the model, input and cache counts of the last message_start, the
      output count of the last message_delta, and no partial line. */
  lemma PrintThenTap(d: Decoder, es: seq<Event>, rs: seq<ReadResult>)
    requires forall i :: 0 <= i < |es| ==> Printable(es[i]) && WellMarked(d, es[i])
    requires Stream(rs) == Print(es)
    ensures ReadAll(d, NewSession(), rs).tap.lineBuf == ""
    ensures var u := ReadAll(d, NewSession(), rs).tap.usage;
      && (u.output == match LastDelta(d, es) case None => 0 case Some(v) => v)
      && StartFields(u.model, u.input, u.cacheCreation, u.cacheRead) ==
           match LastStart(d, es) case None => StartFields("", 0, 0, 0) case Some(v) => v
  {
    ChunkInvariance(d, rs);
    PrintedStream(d, NoUsage(), es);
    ObservedIsLast(d, es);
  }
}
