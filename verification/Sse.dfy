/**
 The incremental parser of the server-sent event stream (src/subscribe.ts).

 The decoder's output is an arbitrary list of text chunks. `Feed` is the specification: a machine over single
 characters, which cannot see chunk boundaries; `ReadStream` is the source's loop over chunks and lines.
 */
module Sse {
  import opened Prelude

  /** data: what JSON.parse made of the text, or { raw: text }. */
  datatype Payload = Parsed(text: string) | Raw(text: string)

  datatype Event = Event(id: string, kind: string, data: Payload)

  /** Whether a text is JSON, and whether the subscriber's handler throws on an event. */
  datatype Env = Env(isJson: string -> bool, throws: Event -> bool)

  datatype Fields = Fields(kind: string, id: string, data: string)

  const BLANK := Fields("", "", "")

  /** `out` lists the calls of the handler; a handler that throws on the fallback call ends the stream. */
  datatype Stream = Live(buffer: string, fields: Fields, out: seq<Event>) | Broken(out: seq<Event>)

  const START := Live("", BLANK, [])

  // ---- Text helpers ----

  /** White space and line terminators, as String.prototype.trimStart sees them. */
  predicate IsSpace(c: char) {
    || '\t' <= c <= '\r' || c == ' ' || c == '\U{00A0}' || c == '\U{FEFF}' || c == '\U{1680}'
    || '\U{2000}' <= c <= '\U{200A}' || c == '\U{2028}' || c == '\U{2029}' || c == '\U{202F}'
    || c == '\U{205F}' || c == '\U{3000}'
  }

  predicate Trimmed(s: string) {
    s == "" || !IsSpace(s[0])
  }

  predicate LfFree(s: string) {
    '\n' !in s
  }

  function TrimStart(s: string): (r: string)
    ensures Trimmed(r)
  {
    if s == "" || !IsSpace(s[0]) then s else TrimStart(s[1..])
  }

  /** What is trimmed is the longest run of leading white space. */
  lemma {:induction false} TrimmedPrefix(s: string) returns (k: nat)
    ensures k <= |s| && TrimStart(s) == s[k..] && forall i | 0 <= i < k :: IsSpace(s[i])
  {
    if s == "" || !IsSpace(s[0]) {
      k := 0;
    } else {
      k := TrimmedPrefix(s[1..]);
      k := k + 1;
    }
  }

  predicate StartsWith(s: string, prefix: string) {
    |prefix| <= |s| && s[..|prefix|] == prefix
  }

  /** text.split('\n'). */
  function Split(text: string): (lines: seq<string>)
    ensures lines != []
  {
    if text == "" then [""] else
      var lines, c := Split(Front(text)), Last(text);
      if c == '\n' then lines + [""] else Front(lines) + [Last(lines) + [c]]
  }

  lemma {:induction false} SplitLfFree(text: string)
    ensures forall line <- Split(text) :: LfFree(line)
  {
    if text != "" {
      SplitLfFree(Front(text));
      var lines, c := Split(Front(text)), Last(text);
      assert Last(lines) in lines && forall line <- Front(lines) :: line in lines;
      assert c != '\n' ==> LfFree(Last(lines) + [c]);
    }
  }

  function Concat(chunks: seq<string>): string {
    if chunks == [] then "" else Concat(Front(chunks)) + Last(chunks)
  }

  // ---- One line ----

  /** The calls of the handler at an event boundary, and whether the stream survives them. */
  function Deliver(env: Env, f: Fields): (seq<Event>, bool) {
    if f.data == "" then ([], true) else
      var kind := if f.kind == "" then "message" else f.kind;
      var parsed, raw := Event(f.id, kind, Parsed(f.data)), Event(f.id, kind, Raw(f.data));
      if !env.isJson(f.data) then ([raw], !env.throws(raw))
      else if !env.throws(parsed) then ([parsed], true)
      else ([parsed, raw], !env.throws(raw))
  }

  function OnField(f: Fields, line: string): Fields {
    if StartsWith(line, "event:") then f.(kind := TrimStart(line[6..]))
    else if StartsWith(line, "id:") then f.(id := TrimStart(line[3..]))
    else if StartsWith(line, "data:") then
      var chunk := TrimStart(line[5..]);
      f.(data := if f.data == "" then chunk else f.data + "\n" + chunk)
    else f
  }

  function OnLine(env: Env, s: Stream, line: string): Stream {
    if s.Broken? then s
    else if line == "" then
      var (calls, ok) := Deliver(env, s.fields);
      if ok then s.(fields := BLANK, out := s.out + calls) else Broken(s.out + calls)
    else s.(fields := OnField(s.fields, line))
  }

  function OnLines(env: Env, s: Stream, lines: seq<string>): Stream {
    FoldLeft((t: Stream, line: string) => OnLine(env, t, line), s, lines)
  }

  // ---- The machine over characters ----

  function OnChar(env: Env, s: Stream, c: char): Stream {
    if s.Broken? then s
    else if c == '\n' then OnLine(env, s.(buffer := ""), s.buffer)
    else s.(buffer := s.buffer + [c])
  }

  function Feed(env: Env, s: Stream, text: string): Stream {
    FoldLeft((t: Stream, c: char) => OnChar(env, t, c), s, text)
  }

  lemma {:induction false} FeedConcat(env: Env, s: Stream, a: string, b: string)
    ensures Feed(env, s, a + b) == Feed(env, Feed(env, s, a), b)
  {
    FoldConcat((t: Stream, c: char) => OnChar(env, t, c), s, a, b);
  }

  lemma {:induction false} OnLinesConcat(env: Env, s: Stream, a: seq<string>, b: seq<string>)
    ensures OnLines(env, s, a + b) == OnLines(env, OnLines(env, s, a), b)
  {
    FoldConcat((t: Stream, line: string) => OnLine(env, t, line), s, a, b);
  }

  function WithBuffer(s: Stream, buffer: string): Stream {
    if s.Broken? then s else s.(buffer := buffer)
  }

  /** The source's step: append the chunk to the buffer, split, handle all lines but the last, keep the last. */
  function OnChunk(env: Env, s: Stream, chunk: string): Stream {
    if s.Broken? then s else
      var lines := Split(s.buffer + chunk);
      WithBuffer(OnLines(env, s, Front(lines)), Last(lines))
  }

  function OnChunks(env: Env, s: Stream, chunks: seq<string>): Stream {
    FoldLeft((t: Stream, chunk: string) => OnChunk(env, t, chunk), s, chunks)
  }

  /** Splitting what is buffered and handling all lines but the last is feeding it by characters. */
  lemma {:induction false} FeedBySplitting(env: Env, s: Stream, text: string)
    requires s.Live? && s.buffer == ""
    ensures Feed(env, s, text) == WithBuffer(OnLines(env, s, Front(Split(text))), Last(Split(text)))
  {
    if text != "" {
      FeedBySplitting(env, s, Front(text));
      var lines, c := Split(Front(text)), Last(text);
      if c == '\n' {
        assert Front(lines + [""]) == lines;
      }
      BufferKept(env, s, Front(lines));
    }
  }

  lemma {:induction false} BufferKept(env: Env, s: Stream, lines: seq<string>)
    requires s.Live?
    ensures OnLines(env, s, lines).Live? ==> OnLines(env, s, lines).buffer == s.buffer
    ensures forall b :: OnLines(env, s.(buffer := b), lines) == WithBuffer(OnLines(env, s, lines), b)
  {
    if lines != [] {
      BufferKept(env, s, Front(lines));
    }
  }

  lemma {:induction false} FeedLfFree(env: Env, s: Stream, text: string)
    requires s.Live? && s.buffer == "" && LfFree(text)
    ensures Feed(env, s, text) == s.(buffer := text)
  {
    if text != "" {
      FeedLfFree(env, s, Front(text));
      assert text == Front(text) + [Last(text)];
    }
  }

  lemma {:induction false} BufferLfFree(env: Env, s: Stream, text: string)
    requires s.Live? ==> LfFree(s.buffer)
    ensures Feed(env, s, text).Live? ==> LfFree(Feed(env, s, text).buffer)
  {
    if text != "" {
      BufferLfFree(env, s, Front(text));
    }
  }

  lemma {:induction false} BrokenIsFed(env: Env, s: Stream, text: string)
    requires s.Broken?
    ensures Feed(env, s, text) == s
  {
    if text != "" {
      BrokenIsFed(env, s, Front(text));
    }
  }

  /** One chunk handled as the source does is the chunk fed by characters. */
  lemma {:induction false} ChunkIsFed(env: Env, s: Stream, chunk: string)
    requires s.Live? ==> LfFree(s.buffer)
    ensures OnChunk(env, s, chunk) == Feed(env, s, chunk)
  {
    if s.Broken? {
      BrokenIsFed(env, s, chunk);
    } else {
      var s0 := s.(buffer := "");
      FeedLfFree(env, s0, s.buffer);
      FeedConcat(env, s0, s.buffer, chunk);
      FeedBySplitting(env, s0, s.buffer + chunk);
      BufferKept(env, s0, Front(Split(s.buffer + chunk)));
    }
  }

  /** Handling chunk after chunk gives what the whole text gives: every way of cutting a text into chunks
      makes the same calls and ends in the same state. */
  lemma {:induction false} ChunkBoundariesAreInvisible(env: Env, s: Stream, chunks: seq<string>)
    requires s.Live? ==> LfFree(s.buffer)
    ensures OnChunks(env, s, chunks) == Feed(env, s, Concat(chunks))
  {
    if chunks != [] {
      var before := Concat(Front(chunks));
      ChunkBoundariesAreInvisible(env, s, Front(chunks));
      BufferLfFree(env, s, before);
      ChunkIsFed(env, Feed(env, s, before), Last(chunks));
      FeedConcat(env, s, before, Last(chunks));
    }
  }

  /** The source's branches on one line. */
  method HandleLine(env: Env, f: Fields, calls: seq<Event>, line: string)
    returns (kind: string, id: string, data: string, out: seq<Event>, ok: bool)
    ensures forall b ::
              (if ok then Live(b, Fields(kind, id, data), out) else Broken(out)) == OnLine(env, Live(b, f, calls), line)
  {
    kind, id, data, out, ok := f.kind, f.id, f.data, calls, true;
    if line == "" {
      if data != "" {
        var kind' := if kind == "" then "message" else kind;
        ok := false;
        if env.isJson(data) {
          var parsed := Event(id, kind', Parsed(data));
          out := out + [parsed];
          ok := !env.throws(parsed);
        }
        if !ok {
          var raw := Event(id, kind', Raw(data));
          out := out + [raw];
          ok := !env.throws(raw);
        }
      }
      if ok {
        kind, id, data := "", "", "";
      }
    } else if StartsWith(line, "event:") {
      kind := TrimStart(line[6..]);
    } else if StartsWith(line, "id:") {
      id := TrimStart(line[3..]);
    } else if StartsWith(line, "data:") {
      var chunk := TrimStart(line[5..]);
      data := if data != "" then data + "\n" + chunk else chunk;
    }
  }

  /** The source's inner loop over the lines of a chunk. */
  method HandleLines(env: Env, f: Fields, calls: seq<Event>, lines: seq<string>, ghost buffer: string)
    returns (kind: string, id: string, data: string, out: seq<Event>, ok: bool)
    ensures (if ok then Live(buffer, Fields(kind, id, data), out) else Broken(out))
         == OnLines(env, Live(buffer, f, calls), lines)
  {
    ghost var s0 := Live(buffer, f, calls);
    kind, id, data, out, ok := f.kind, f.id, f.data, calls, true;
    for j := 0 to |lines|
      invariant ok && Live(buffer, Fields(kind, id, data), out) == OnLines(env, s0, lines[..j])
    {
      assert Front(lines[..j + 1]) == lines[..j];
      kind, id, data, out, ok := HandleLine(env, Fields(kind, id, data), out, lines[j]);
      assert OnLines(env, s0, lines[..j + 1]) == OnLine(env, OnLines(env, s0, lines[..j]), lines[j]);
      if !ok {
        BrokenStays(env, s0, lines, j + 1);
        return;
      }
    }
    assert lines[..|lines|] == lines;
  }

  /** The source's loop. However the text is cut into chunks, the calls of the handler and the final state are
      those of the whole text. */
  method ReadStream(env: Env, chunks: seq<string>) returns (s: Stream)
    ensures s == Feed(env, START, Concat(chunks))
  {
    var buffer, kind, id, data := "", "", "", "";
    var out: seq<Event> := [];
    ChunkBoundariesAreInvisible(env, START, chunks);
    for i := 0 to |chunks|
      invariant Live(buffer, Fields(kind, id, data), out) == OnChunks(env, START, chunks[..i])
    {
      ghost var s0 := Live(buffer, Fields(kind, id, data), out);
      assert Front(chunks[..i + 1]) == chunks[..i];
      assert OnChunks(env, START, chunks[..i + 1]) == OnChunk(env, s0, chunks[i]);
      buffer := buffer + chunks[i];
      var lines := Split(buffer);
      var ok;
      kind, id, data, out, ok := HandleLines(env, Fields(kind, id, data), out, Front(lines), s0.buffer);
      if !ok {
        StaysBroken(env, chunks, i + 1);
        return Broken(out);
      }
      buffer := Last(lines);
    }
    assert chunks[..|chunks|] == chunks;
    s := Live(buffer, Fields(kind, id, data), out);
  }

  lemma {:induction false} BrokenStays(env: Env, s: Stream, lines: seq<string>, j: nat)
    requires j <= |lines| && OnLines(env, s, lines[..j]).Broken?
    ensures OnLines(env, s, lines) == OnLines(env, s, lines[..j])
    decreases |lines|
  {
    if j == |lines| {
      assert lines[..j] == lines;
    } else {
      assert Front(lines)[..j] == lines[..j];
      BrokenStays(env, s, Front(lines), j);
    }
  }

  lemma {:induction false} StaysBroken(env: Env, chunks: seq<string>, i: nat)
    requires i <= |chunks| && OnChunks(env, START, chunks[..i]).Broken?
    ensures OnChunks(env, START, chunks) == OnChunks(env, START, chunks[..i])
    decreases |chunks|
  {
    if i == |chunks| {
      assert chunks[..i] == chunks;
    } else {
      assert Front(chunks)[..i] == chunks[..i];
      StaysBroken(env, Front(chunks), i);
    }
  }

  // ---- What can be delivered ----

  /** Non-empty text whose lines have no leading white space and whose first line is not empty. */
  ghost predicate CanonicalText(t: string) {
    Split(t)[0] != "" && forall line <- Split(t) :: Trimmed(line)
  }

  ghost predicate CanonicalName(s: string) {
    LfFree(s) && Trimmed(s)
  }

  /** The events the parser can deliver. */
  ghost predicate Canonical(env: Env, e: Event) {
    && CanonicalName(e.id)
    && CanonicalName(e.kind) && e.kind != ""
    && CanonicalText(e.data.text)
    && (e.data.Parsed? <==> env.isJson(e.data.text))
  }

  ghost predicate NeverThrows(env: Env) {
    forall e :: !env.throws(e)
  }

  /** The same JSON, and a handler that never throws. */
  function Quiet(env: Env): Env {
    env.(throws := e => false)
  }

  /** The events of a text: what a handler that never throws is called with. */
  function Events(env: Env, text: string): seq<Event> {
    Feed(Quiet(env), START, text).out
  }

  /** The calls of the handler for one event: an event it throws on is delivered again as raw text, and a
      throw on raw text ends the stream. */
  function Handle(env: Env, s: Stream, e: Event): Stream {
    if s.Broken? then s
    else if !env.throws(e) then s.(out := s.out + [e])
    else if e.data.Raw? then Broken(s.out + [e])
    else
      var raw := e.(data := Raw(e.data.text));
      if env.throws(raw) then Broken(s.out + [e, raw]) else s.(out := s.out + [e, raw])
  }

  function Handled(env: Env, es: seq<Event>): Stream {
    FoldLeft((t: Stream, e: Event) => Handle(env, t, e), START, es)
  }

  ghost predicate AllCanonical(env: Env, es: seq<Event>) {
    forall e <- es :: Canonical(env, e)
  }

  ghost predicate CanonicalFields(f: Fields) {
    CanonicalName(f.kind) && CanonicalName(f.id) && (f.data == "" || CanonicalText(f.data))
  }

  ghost predicate CanonicalStream(env: Env, s: Stream) {
    s.Live? && LfFree(s.buffer) && CanonicalFields(s.fields) && forall e <- s.out :: Canonical(env, e)
  }

  lemma {:induction false} SplitOne(t: string)
    requires LfFree(t)
    ensures Split(t) == [t]
  {
    if t != "" {
      assert t == Front(t) + [Last(t)];
      SplitOne(Front(t));
    }
  }

  lemma {:induction false} SplitMore(a: string, line: string)
    requires LfFree(line)
    ensures Split(a + "\n" + line) == Split(a) + [line]
  {
    if line == "" {
      assert a + "\n" + line == a + "\n" && Front(a + "\n") == a;
    } else {
      var t := a + "\n" + line;
      assert line == Front(line) + [Last(line)];
      assert Front(t) == a + "\n" + Front(line) && Last(t) == Last(line);
      SplitMore(a, Front(line));
      assert Front(Split(a) + [Front(line)]) == Split(a);
    }
  }

  lemma {:induction false} ValueIsCanonical(line: string, k: nat)
    requires LfFree(line) && k <= |line|
    ensures CanonicalName(TrimStart(line[k..]))
  {
    var j := TrimmedPrefix(line[k..]);
    assert forall c <- line[k..][j..] :: c in line;
  }

  lemma {:induction false} DataStaysCanonical(data: string, chunk: string)
    requires (data == "" || CanonicalText(data)) && CanonicalName(chunk)
    ensures data == "" ==> chunk == "" || CanonicalText(chunk)
    ensures data != "" ==> CanonicalText(data + "\n" + chunk)
  {
    if data == "" {
      SplitOne(chunk);
    } else {
      SplitMore(data, chunk);
    }
  }

  lemma {:induction false} FieldsStayCanonical(f: Fields, line: string)
    requires CanonicalFields(f) && LfFree(line)
    ensures CanonicalFields(OnField(f, line))
  {
    if StartsWith(line, "event:") {
      ValueIsCanonical(line, 6);
    } else if StartsWith(line, "id:") {
      ValueIsCanonical(line, 3);
    } else if StartsWith(line, "data:") {
      ValueIsCanonical(line, 5);
      DataStaysCanonical(f.data, TrimStart(line[5..]));
    }
  }

  lemma {:induction false} LineStaysCanonical(env: Env, s: Stream, line: string)
    requires NeverThrows(env) && CanonicalStream(env, s) && LfFree(line)
    ensures CanonicalStream(env, OnLine(env, s, line))
  {
    if line == "" {
      assert CanonicalName("message");
    } else {
      FieldsStayCanonical(s.fields, line);
    }
  }

  lemma {:induction false} StreamStaysCanonical(env: Env, text: string)
    requires NeverThrows(env)
    ensures CanonicalStream(env, Feed(env, START, text))
  {
    if text != "" {
      StreamStaysCanonical(env, Front(text));
      var s := Feed(env, START, Front(text));
      if Last(text) == '\n' {
        LineStaysCanonical(env, s.(buffer := ""), s.buffer);
      }
    }
  }

  // ---- Handlers that throw ----

  /** The stream of a handler that may throw, by that of one that does not and the calls made. */
  function Overlay(quiet: Stream, calls: Stream): Stream {
    if calls.Broken? || quiet.Broken? then calls else quiet.(out := calls.out)
  }

  lemma {:induction false} HandledNext(env: Env, es: seq<Event>, e: Event)
    ensures Handled(env, es + [e]) == Handle(env, Handled(env, es), e)
  {
    assert Front(es + [e]) == es;
  }

  lemma {:induction false} BlankLineOverlay(env: Env, q: Stream)
    requires q.Live?
    ensures OnLine(Quiet(env), q, "").Live?
    ensures OnLine(env, Overlay(q, Handled(env, q.out)), "")
         == Overlay(OnLine(Quiet(env), q, ""), Handled(env, OnLine(Quiet(env), q, "").out))
  {
    var f := q.fields;
    if f.data == "" {
      assert q.out + [] == q.out && Handled(env, q.out).out + [] == Handled(env, q.out).out;
    } else {
      var kind := if f.kind == "" then "message" else f.kind;
      HandledNext(env, q.out, Event(f.id, kind, if env.isJson(f.data) then Parsed(f.data) else Raw(f.data)));
    }
  }

  /** Whatever the handler does, it is called with the events of the text, in order: once each, and once more
      with the raw text after it threw, until it throws on raw text. */
  lemma {:induction false} CallsFollowEvents(env: Env, text: string)
    ensures Feed(Quiet(env), START, text).Live?
    ensures Feed(env, START, text) == Overlay(Feed(Quiet(env), START, text), Handled(env, Events(env, text)))
  {
    if text != "" {
      CallsFollowEvents(env, Front(text));
      var q := Feed(Quiet(env), START, Front(text));
      if Last(text) == '\n' && q.buffer == "" {
        BlankLineOverlay(env, q.(buffer := ""));
      }
    }
  }

  ghost predicate EndsStream(env: Env, call: Event) {
    call.data.Raw? && env.throws(call)
  }

  lemma {:induction false} HandledBreaks(env: Env, es: seq<Event>)
    ensures var s := Handled(env, es);
            && (s.Broken? <==> exists e <- es :: env.throws(e) && env.throws(e.(data := Raw(e.data.text))))
            && (if s.Broken? then s.out != [] && EndsStream(env, Last(s.out))
                             && forall call <- Front(s.out) :: !EndsStream(env, call)
                else forall call <- s.out :: !EndsStream(env, call))
  {
    if es != [] {
      HandledBreaks(env, Front(es));
      var s, e := Handled(env, Front(es)), Last(es);
      assert es == Front(es) + [e];
      var raw := e.(data := Raw(e.data.text));
      assert Front(s.out + [e]) == s.out && Front(s.out + [e, raw]) == s.out + [e];
    }
  }

  /** The stream ends exactly at a text with an event on which the handler throws, and throws again as raw text; the
      call that ends it is the first one on raw text that throws, and the last one of all. */
  lemma {:induction false} BreaksIff(env: Env, text: string)
    ensures var s := Feed(env, START, text);
            && (s.Broken? <==> exists e <- Events(env, text) ::
                                 env.throws(e) && env.throws(e.(data := Raw(e.data.text))))
            && (if s.Broken? then s.out != [] && EndsStream(env, Last(s.out))
                             && forall call <- Front(s.out) :: !EndsStream(env, call)
                else forall call <- s.out :: !EndsStream(env, call))
  {
    CallsFollowEvents(env, text);
    HandledBreaks(env, Events(env, text));
  }

  ghost predicate IsRetold(env: Env, es: seq<Event>, raw: Event) {
    exists e <- es :: env.throws(e) && e.data.Parsed? && raw == e.(data := Raw(e.data.text))
  }

  lemma {:induction false} CallsAreEvents(env: Env, es: seq<Event>)
    ensures forall call <- Handled(env, es).out :: call in es || IsRetold(env, es, call)
  {
    if es != [] {
      var before, e := Front(es), Last(es);
      CallsAreEvents(env, before);
      assert forall x <- before :: x in es;
      forall call <- Handled(env, es).out
        ensures call in es || IsRetold(env, es, call)
      {
        if call !in Handled(env, before).out {
          assert e in es;
        }
      }
    }
  }

  /** Whatever the server sends and however the handler behaves, the events are canonical, and each call is an
      event, or the raw text of one the handler threw on. */
  lemma {:induction false} OnlyCanonicalEvents(env: Env, text: string)
    ensures AllCanonical(env, Events(env, text))
    ensures forall call <- Feed(env, START, text).out ::
              call in Events(env, text) || IsRetold(env, Events(env, text), call)
  {
    StreamStaysCanonical(Quiet(env), text);
    forall e <- Events(env, text)
      ensures Canonical(env, e)
    {
      assert Canonical(Quiet(env), e);
    }
    CallsFollowEvents(env, text);
    CallsAreEvents(env, Events(env, text));
  }

  lemma {:induction false} ThrowsShow(env: Env, es: seq<Event>)
    ensures (forall e <- es :: !env.throws(e)) ==> Handled(env, es) == START.(out := es)
    ensures Handled(env, es).Live? ==> |Handled(env, es).out| >= |es|
    ensures Handled(env, es).Live? && (exists e <- es :: env.throws(e)) ==> |Handled(env, es).out| > |es|
  {
    if es != [] {
      ThrowsShow(env, Front(es));
      assert es == Front(es) + [Last(es)];
    }
  }

  // ---- Printing ----

  function FieldLine(name: string, value: string): string {
    name + (" " + value)
  }

  function DataLines(lines: seq<string>): seq<string> {
    seq(|lines|, i requires 0 <= i < |lines| => FieldLine("data:", lines[i]))
  }

  function PrintLines(e: Event): seq<string> {
    [FieldLine("event:", e.kind), FieldLine("id:", e.id)] + DataLines(Split(e.data.text)) + [""]
  }

  function PrintAll(es: seq<Event>): seq<string> {
    if es == [] then [] else PrintAll(Front(es)) + PrintLines(Last(es))
  }

  function Unlines(lines: seq<string>): string {
    if lines == [] then "" else Unlines(Front(lines)) + Last(lines) + "\n"
  }

  /** The text of a list of events, one block each. */
  function Print(es: seq<Event>): string {
    Unlines(PrintAll(es))
  }

  lemma {:induction false} FeedUnlines(env: Env, s: Stream, lines: seq<string>)
    requires s.Live? && s.buffer == "" && forall line <- lines :: LfFree(line)
    ensures Feed(env, s, Unlines(lines)) == OnLines(env, s, lines)
  {
    if lines != [] {
      FeedUnlines(env, s, Front(lines));
      BufferKept(env, s, Front(lines));
      var t := OnLines(env, s, Front(lines));
      var before, line := Unlines(Front(lines)), Last(lines);
      FeedConcat(env, s, before, line);
      if t.Live? {
        FeedLfFree(env, t, line);
      } else {
        BrokenIsFed(env, t, line);
      }
      assert Front(before + line + "\n") == before + line;
    }
  }

  lemma {:induction false} TrimNothing(s: string)
    requires Trimmed(s)
    ensures TrimStart(" " + s) == s
  {
    assert (" " + s)[1..] == s;
  }

  /** The data accumulated from the first k printed data lines. */
  function Joined(lines: seq<string>): string
    requires lines != []
  {
    if |lines| == 1 then lines[0] else Joined(Front(lines)) + "\n" + Last(lines)
  }

  lemma {:induction false} JoinSplit(t: string)
    ensures Joined(Split(t)) == t
  {
    if t != "" {
      JoinSplit(Front(t));
      var lines, c := Split(Front(t)), Last(t);
      if c == '\n' {
        assert Front(lines + [""]) == lines;
        assert Joined(lines + [""]) == Front(t) + "\n" + "";
      } else if |lines| == 1 {
        assert Split(t) == [lines[0] + [c]];
      } else {
        assert Front(Front(lines) + [Last(lines) + [c]]) == Front(lines);
        assert Joined(lines) == Joined(Front(lines)) + "\n" + Last(lines);
      }
      assert t == Front(t) + [c];
    }
  }

  /** The printed data lines accumulate to the text they were split from. */
  lemma {:induction false} DataLinesAccumulate(env: Env, s: Stream, lines: seq<string>)
    requires s.Live? && s.fields.data == ""
    requires lines != [] && lines[0] != "" && forall line <- lines :: Trimmed(line)
    ensures OnLines(env, s, DataLines(lines)) == s.(fields := s.fields.(data := Joined(lines)))
  {
    var line, rest := Last(lines), Front(lines);
    assert DataLines(lines) == DataLines(rest) + [FieldLine("data:", line)];
    assert Front(DataLines(lines)) == DataLines(rest) && Last(DataLines(lines)) == FieldLine("data:", line);
    var t := s;
    if rest != [] {
      DataLinesAccumulate(env, s, rest);
      t := OnLines(env, s, DataLines(rest));
      JoinedNotEmpty(rest);
    }
    assert OnLines(env, s, DataLines(rest)) == t;
    DataLine(env, t, line);
    assert OnLines(env, s, DataLines(lines)) == OnLine(env, t, FieldLine("data:", line));
  }

  lemma {:induction false} JoinedNotEmpty(lines: seq<string>)
    requires lines != [] && lines[0] != ""
    ensures Joined(lines) != ""
  {
    if |lines| > 1 {
      JoinedNotEmpty(Front(lines));
    }
  }

  lemma {:induction false} FieldParts(name: string, value: string)
    requires name != "" && Trimmed(value)
    ensures var line := FieldLine(name, value);
            StartsWith(line, name) && TrimStart(line[|name|..]) == value && line != "" && line[0] == name[0]
  {
    var line := FieldLine(name, value);
    assert line[..|name|] == name && line[|name|..] == " " + value;
    TrimNothing(value);
  }

  lemma {:induction false} OtherPrefix(s: string, prefix: string)
    requires s != "" && prefix != "" && s[0] != prefix[0]
    ensures !StartsWith(s, prefix)
  {
  }

  lemma {:induction false} DataLine(env: Env, s: Stream, line: string)
    requires s.Live? && Trimmed(line)
    ensures OnLine(env, s, FieldLine("data:", line))
         == s.(fields := s.fields.(data := if s.fields.data == "" then line else s.fields.data + "\n" + line))
  {
    var whole := FieldLine("data:", line);
    FieldParts("data:", line);
    OtherPrefix(whole, "event:");
    OtherPrefix(whole, "id:");
  }

  lemma {:induction false} KindLine(env: Env, s: Stream, kind: string)
    requires s.Live? && Trimmed(kind)
    ensures OnLine(env, s, FieldLine("event:", kind)) == s.(fields := s.fields.(kind := kind))
  {
    FieldParts("event:", kind);
  }

  lemma {:induction false} IdLine(env: Env, s: Stream, id: string)
    requires s.Live? && Trimmed(id)
    ensures OnLine(env, s, FieldLine("id:", id)) == s.(fields := s.fields.(id := id))
  {
    FieldParts("id:", id);
    OtherPrefix(FieldLine("id:", id), "event:");
  }

  lemma {:induction false} NameLines(env: Env, s: Stream, kind: string, id: string)
    requires s.Live? && Trimmed(kind) && Trimmed(id)
    ensures OnLines(env, s, [FieldLine("event:", kind), FieldLine("id:", id)])
         == s.(fields := s.fields.(kind := kind, id := id))
  {
    var a, b := FieldLine("event:", kind), FieldLine("id:", id);
    KindLine(env, s, kind);
    IdLine(env, OnLine(env, s, a), id);
    OnLinesTwo(env, s, a, b);
  }

  lemma {:induction false} OnLinesTwo(env: Env, s: Stream, a: string, b: string)
    ensures OnLines(env, s, [a, b]) == OnLine(env, OnLine(env, s, a), b)
  {
    assert Front([a, b]) == [a] && Front([a]) == [];
    assert OnLines(env, s, [a]) == OnLine(env, OnLines(env, s, []), a);
  }

  lemma {:induction false} BlockDelivers(env: Env, s: Stream, e: Event)
    requires NeverThrows(env) && Canonical(env, e) && s.Live? && s.fields == BLANK
    ensures OnLines(env, s, PrintLines(e)) == s.(out := s.out + [e])
  {
    var names, data := [FieldLine("event:", e.kind), FieldLine("id:", e.id)], DataLines(Split(e.data.text));
    var t := s.(fields := Fields(e.kind, e.id, ""));
    NameLines(env, s, e.kind, e.id);
    DataLinesAccumulate(env, t, Split(e.data.text));
    JoinSplit(e.data.text);
    JoinedNotEmpty(Split(e.data.text));
    OnLinesConcat(env, s, names, data);
    OnLinesConcat(env, s, names + data, [""]);
    assert Front([""]) == [];
  }

  lemma {:induction false} QuietRoundTrip(env: Env, es: seq<Event>)
    requires NeverThrows(env) && forall e <- es :: Canonical(env, e)
    ensures Feed(env, START, Print(es)) == START.(out := es)
  {
    PrintedLinesLfFree(env, es);
    FeedUnlines(env, START, PrintAll(es));
    LinesRoundTrip(env, es);
  }

  lemma {:induction false} BlockAppends(env: Env, before: seq<Event>, e: Event)
    requires NeverThrows(env) && Canonical(env, e)
    requires OnLines(env, START, PrintAll(before)) == START.(out := before)
    ensures OnLines(env, START, PrintAll(before) + PrintLines(e)) == START.(out := before + [e])
  {
    OnLinesConcat(env, START, PrintAll(before), PrintLines(e));
    BlockDelivers(env, START.(out := before), e);
  }

  lemma {:induction false} LinesRoundTrip(env: Env, es: seq<Event>)
    requires NeverThrows(env) && forall e <- es :: Canonical(env, e)
    ensures OnLines(env, START, PrintAll(es)) == START.(out := es)
  {
    if es != [] {
      var before, e := Front(es), Last(es);
      assert e in es && forall x <- before :: x in es;
      LinesRoundTrip(env, before);
      BlockAppends(env, before, e);
      assert es == before + [e];
    }
  }

  lemma {:induction false} LfFreeConcat(name: string, value: string)
    requires LfFree(name) && LfFree(value)
    ensures LfFree(FieldLine(name, value)) && LfFree(value + "\r")
  {
    assert LfFree(" " + value);
  }

  lemma {:induction false} FieldLinesLfFree(name: string, lines: seq<string>)
    requires LfFree(name) && forall line <- lines :: LfFree(line)
    ensures forall i | 0 <= i < |lines| :: LfFree(FieldLine(name, lines[i])) && LfFree(lines[i] + "\r")
  {
    forall i | 0 <= i < |lines|
      ensures LfFree(FieldLine(name, lines[i])) && LfFree(lines[i] + "\r")
    {
      LfFreeConcat(name, lines[i]);
    }
  }

  lemma {:induction false} PrintedLinesLfFree(env: Env, es: seq<Event>)
    requires forall e <- es :: Canonical(env, e)
    ensures forall line <- PrintAll(es) :: LfFree(line)
  {
    if es != [] {
      PrintedLinesLfFree(env, Front(es));
      var e := Last(es);
      assert e in es && forall x <- Front(es) :: x in es;
      SplitLfFree(e.data.text);
      FieldLinesLfFree("data:", Split(e.data.text));
      LfFreeConcat("event:", e.kind);
      LfFreeConcat("id:", e.id);
    }
  }

  lemma {:induction false} QuietCanonical(env: Env, es: seq<Event>)
    requires AllCanonical(env, es)
    ensures AllCanonical(Quiet(env), es)
  {
    forall e <- es
      ensures Canonical(Quiet(env), e)
    {
      assert Canonical(env, e);
    }
  }

  /** Printing canonical events and parsing the text gives exactly those events, and leaves nothing behind.
      The handler is called with exactly those, once each, if and only if it throws on none of them. */
  lemma {:induction false} PrintedEventsRoundTrip(env: Env, es: seq<Event>)
    requires AllCanonical(env, es)
    ensures Events(env, Print(es)) == es && Feed(env, START, Print(es)) == Handled(env, es)
    ensures Feed(env, START, Print(es)) == START.(out := es) <==> forall e <- es :: !env.throws(e)
  {
    QuietCanonical(env, es);
    QuietRoundTrip(Quiet(env), es);
    CallsFollowEvents(env, Print(es));
    HandledIsClear(env, es);
    ThrowsShow(env, es);
  }

  lemma {:induction false} HandledIsClear(env: Env, es: seq<Event>)
    ensures Handled(env, es).Live? ==> Handled(env, es) == START.(out := Handled(env, es).out)
  {
    if es != [] {
      HandledIsClear(env, Front(es));
    }
  }

  lemma {:induction false} CalledAgain(env: Env, e: Event)
    requires Canonical(env, e) && e.data.Parsed? && env.throws(e) && !env.throws(e.(data := Raw(e.data.text)))
    ensures Feed(env, START, Print([e])).out == [e, e.(data := Raw(e.data.text))]
  {
    PrintedEventsRoundTrip(env, [e]);
    assert [] + [e] == [e];
    HandledNext(env, [], e);
  }

  /** Takes every text for JSON, and throws on what is parsed. */
  const FRAGILE: Env := Env((text: string) => true, (e: Event) => e.data.Parsed?)

  /** One event, two calls. */
  lemma {:induction false} ThrowingHandlerIsCalledTwice()
    ensures var e := Event("1", "message", Parsed("x"));
            Canonical(FRAGILE, e)
            && Feed(FRAGILE, START, Print([e])).out == [e, Event("1", "message", Raw("x"))]
  {
    var e := Event("1", "message", Parsed("x"));
    assert Canonical(FRAGILE, e) by {
      SplitOne("x");
      assert Trimmed("1") && Trimmed("message") && Trimmed("x");
    }
    CalledAgain(FRAGILE, e);
  }

  /** A list of events is what some text holds exactly when every event is canonical; and a list of calls is
      what some text makes exactly when a handler makes it of canonical events. */
  lemma {:induction false} DeliverableIffCanonical(env: Env, es: seq<Event>)
    ensures (exists text :: Events(env, text) == es) <==> AllCanonical(env, es)
    ensures (exists text :: Feed(env, START, text).out == es)
       <==> exists events :: AllCanonical(env, events) && Handled(env, events).out == es
  {
    forall events | AllCanonical(env, events)
      ensures Events(env, Print(events)) == events && Feed(env, START, Print(events)) == Handled(env, events)
    {
      PrintedEventsRoundTrip(env, events);
    }
    forall text
      ensures AllCanonical(env, Events(env, text))
      ensures Feed(env, START, text).out == Handled(env, Events(env, text)).out
    {
      OnlyCanonicalEvents(env, text);
      CallsFollowEvents(env, text);
    }
  }

  // ---- Events do not leak into each other ----

  function Prepend(calls: seq<Event>, s: Stream): Stream {
    s.(out := calls + s.out)
  }

  lemma {:induction false} EarlierCallsDoNotMatter(env: Env, calls: seq<Event>, s: Stream, text: string)
    ensures Feed(env, Prepend(calls, s), text) == Prepend(calls, Feed(env, s, text))
  {
    if text != "" {
      EarlierCallsDoNotMatter(env, calls, s, Front(text));
      PrependChar(env, calls, Feed(env, s, Front(text)), Last(text));
    }
  }

  lemma {:induction false} PrependChar(env: Env, calls: seq<Event>, s: Stream, c: char)
    ensures OnChar(env, Prepend(calls, s), c) == Prepend(calls, OnChar(env, s, c))
  {
    if s.Live? && c == '\n' && s.buffer == "" {
      var (more, ok) := Deliver(env, s.fields);
      assert (calls + s.out) + more == calls + (s.out + more);
    }
  }

  /** Two texts joined at a blank line are parsed independently of each other. */
  lemma {:induction false} BlankLineSeparates(env: Env, a: string, b: string)
    requires Feed(env, START, a + "\n\n").Live?
    ensures Feed(env, START, a + "\n\n" + b) == Prepend(Feed(env, START, a + "\n\n").out, Feed(env, START, b))
  {
    var s := Feed(env, START, a + "\n\n");
    assert Front(a + "\n\n") == a + "\n" && Front(a + "\n") == a;
    assert Feed(env, START, a + "\n") == OnChar(env, Feed(env, START, a), '\n');
    assert s == OnChar(env, Feed(env, START, a + "\n"), '\n');
    assert s == Prepend(s.out, START);
    FeedConcat(env, START, a + "\n\n", b);
    EarlierCallsDoNotMatter(env, s.out, START, b);
  }

  /** Without an empty line nothing is delivered; lines that end in CR LF are never empty. */
  lemma {:induction false} CrLfStreamsDeliverNothing(env: Env, lines: seq<string>)
    requires forall line <- lines :: LfFree(line)
    ensures Feed(env, START, Unlines(CrTerminated(lines))).out == []
  {
    FieldLinesLfFree("", lines);
    FeedUnlines(env, START, CrTerminated(lines));
    NoBlankLineNoCall(env, CrTerminated(lines));
  }

  function CrTerminated(lines: seq<string>): seq<string> {
    seq(|lines|, i requires 0 <= i < |lines| => lines[i] + "\r")
  }

  lemma {:induction false} NoBlankLineNoCall(env: Env, lines: seq<string>)
    requires forall i | 0 <= i < |lines| :: lines[i] != ""
    ensures OnLines(env, START, lines).Live? && OnLines(env, START, lines).out == []
  {
    if lines != [] {
      NoBlankLineNoCall(env, Front(lines));
    }
  }
}
