/**
 A reference reading of event streams, after section 9.2.6 ("Interpreting an event stream") of the WHATWG
 HTML Standard, and where the parser of src/subscribe.ts agrees with it: line by line exactly on a simple form
 of lines, and on printed lists of canonical events exactly when LF ends the lines.
 */
module SseStandard {
  import opened Prelude
  import opened Sse

  // ---- The standard ----

  /** The lines of a text: LF, CR, and CR LF as one, end a line. The last piece is unfinished. */
  function SplitAny(text: string): (lines: seq<string>)
    ensures lines != []
  {
    if text == "" then [""] else
      var lines, c := SplitAny(Front(text)), Last(text);
      if c == '\n' && |text| > 1 && text[|text| - 2] == '\r' then lines
      else if c == '\n' || c == '\r' then lines + [""]
      else Front(lines) + [Last(lines) + [c]]
  }

  /** The standard's data, event type and last event ID buffers, and what was dispatched: id, type, data. */
  datatype Reader = Reader(data: string, kind: string, lastId: string, out: seq<(string, string, string)>)

  const EMPTY := Reader("", "", "", [])

  function FirstColon(line: string): (i: nat)
    ensures i <= |line| && (i < |line| ==> line[i] == ':') && forall j | 0 <= j < i :: line[j] != ':'
  {
    if line == "" || line[0] == ':' then 0 else 1 + FirstColon(line[1..])
  }

  function Value(line: string, colon: nat): string
    requires colon <= |line|
  {
    if colon == |line| then ""
    else if colon + 1 < |line| && line[colon + 1] == ' ' then line[colon + 2..]
    else line[colon + 1..]
  }

  function Field(r: Reader, name: string, value: string): Reader {
    if name == "event" then r.(kind := value)
    else if name == "data" then r.(data := r.data + value + "\n")
    else if name == "id" && '\0' !in value then r.(lastId := value)
    else r
  }

  function Dispatch(r: Reader): Reader {
    if r.data == "" then r.(kind := "") else
      var text := if Last(r.data) == '\n' then Front(r.data) else r.data;
      Reader("", "", r.lastId, r.out + [(r.lastId, if r.kind == "" then "message" else r.kind, text)])
  }

  function ReadLine(r: Reader, line: string): Reader {
    if line == "" then Dispatch(r) else
      var colon := FirstColon(line);
      if colon == 0 then r else Field(r, line[..colon], Value(line, colon))
  }

  function ReadLines(r: Reader, lines: seq<string>): Reader {
    FoldLeft((t: Reader, line: string) => ReadLine(t, line), r, lines)
  }

  /** The reader before the unfinished last line. */
  function ReadText(text: string): Reader {
    ReadLines(EMPTY, Front(SplitAny(text)))
  }

  /** The events of a text; an unfinished last line is discarded. */
  function Read(text: string): seq<(string, string, string)> {
    ReadText(text).out
  }

  function Plain(e: Event): (string, string, string) {
    (e.id, e.kind, e.data.text)
  }

  function PlainAll(es: seq<Event>): seq<(string, string, string)> {
    seq(|es|, i requires 0 <= i < |es| => Plain(es[i]))
  }

  // ---- Lines on which the two agree ----

  /** Which fields the lines since the last blank line have set. */
  datatype Block = Block(id: bool, data: bool)

  const NOTHING := Block(false, false)

  function AfterLine(b: Block, line: string): Block {
    if line == "" then NOTHING
    else if line[..FirstColon(line)] == "id" then b.(id := true)
    else if line[..FirstColon(line)] == "data" then b.(data := true)
    else b
  }

  function AfterLines(b: Block, lines: seq<string>): Block {
    FoldLeft((t: Block, line: string) => AfterLine(t, line), b, lines)
  }

  /** A blank line that ends a block without data or with an id of its own; a line of any other field or a
      comment; or an event, id or data line with a colon whose value starts with no further white space,
      without NUL in an id, and not empty for the first data line of a block. */
  predicate Fits(b: Block, line: string) {
    if line == "" then b.data ==> b.id else
      var colon := FirstColon(line);
      var name, value := line[..colon], Value(line, colon);
      && (name == "event" || name == "id" || name == "data" ==> colon < |line| && Trimmed(value))
      && (name == "id" ==> '\0' !in value)
      && (name == "data" ==> b.data || value != "")
  }

  predicate Conforming(b: Block, lines: seq<string>) {
    lines == [] || (Conforming(b, Front(lines)) && Fits(AfterLines(b, Front(lines)), Last(lines)))
  }

  /** What the parser and the standard have in common between two lines. */
  ghost predicate Alike(b: Block, f: Fields, r: Reader) {
    && f.kind == r.kind
    && (b.id ==> f.id == r.lastId)
    && (b.data <==> f.data != "")
    && r.data == if b.data then f.data + "\n" else ""
  }

  lemma {:induction false} FieldName(line: string, name: string)
    requires ':' !in name
    ensures StartsWith(line, name + ":") <==> |name| < |line| && FirstColon(line) == |name| && line[..|name|] == name
  {
    var i, p := FirstColon(line), name + ":";
    if StartsWith(line, p) {
      assert line[..|p|][|name|] == ':' && line[..|p|][..|name|] == line[..|name|];
      assert forall j | 0 <= j < |name| :: line[j] == name[j];
    }
    if |name| < |line| && i == |name| && line[..|name|] == name {
      assert line[..|p|] == line[..|name|] + [line[|name|]];
    }
  }

  lemma {:induction false} SameValue(line: string, colon: nat)
    requires colon < |line| && Trimmed(Value(line, colon))
    ensures TrimStart(line[colon + 1..]) == Value(line, colon)
  {
    if colon + 1 < |line| && line[colon + 1] == ' ' {
      assert line[colon + 1..] == " " + line[colon + 2..];
      TrimNothing(line[colon + 2..]);
    }
  }

  /** The parser's reading of any line, by the standard's name. */
  lemma {:induction false} OnFieldByName(f: Fields, line: string)
    requires line != ""
    ensures var colon := FirstColon(line);
            OnField(f, line) == if colon == |line| then f else
              var name, value := line[..colon], TrimStart(line[colon + 1..]);
              if name == "event" then f.(kind := value)
              else if name == "id" then f.(id := value)
              else if name == "data" then f.(data := if f.data == "" then value else f.data + "\n" + value)
              else f
  {
    assert "event" + ":" == "event:" && "id" + ":" == "id:" && "data" + ":" == "data:";
    FieldName(line, "event");
    FieldName(line, "id");
    FieldName(line, "data");
  }

  lemma {:induction false} FieldLineAlike(b: Block, f: Fields, r: Reader, line: string)
    requires Alike(b, f, r) && line != "" && Fits(b, line)
    ensures Alike(AfterLine(b, line), OnField(f, line), ReadLine(r, line)) && ReadLine(r, line).out == r.out
  {
    var colon := FirstColon(line);
    var value := Value(line, colon);
    OnFieldByName(f, line);
    if colon < |line| && Trimmed(value) {
      SameValue(line, colon);
    }
    assert f.data + "\n" + value + "\n" == (f.data + "\n") + value + "\n";
    assert "" + value + "\n" == value + "\n";
  }

  /** Both have delivered the same events, and go on alike. */
  ghost predicate Agree(b: Block, s: Stream, r: Reader) {
    s.Live? && Alike(b, s.fields, r) && PlainAll(s.out) == r.out
  }

  lemma {:induction false} BlankLineAgrees(env: Env, b: Block, s: Stream, r: Reader)
    requires NeverThrows(env) && Agree(b, s, r) && Fits(b, "")
    ensures Agree(NOTHING, OnLine(env, s, ""), ReadLine(r, ""))
  {
    var f, t := s.fields, OnLine(env, s, "");
    if b.data {
      assert Front(f.data + "\n") == f.data;
      assert t.out == s.out + [Last(t.out)];
      assert Plain(Last(t.out)) == Last(ReadLine(r, "").out);
      assert PlainAll(t.out) == PlainAll(s.out) + [Plain(Last(t.out))];
    }
  }

  lemma {:induction false} LineAgrees(env: Env, b: Block, s: Stream, r: Reader, line: string)
    requires NeverThrows(env) && Agree(b, s, r) && Fits(b, line)
    ensures Agree(AfterLine(b, line), OnLine(env, s, line), ReadLine(r, line))
  {
    if line == "" {
      BlankLineAgrees(env, b, s, r);
    } else {
      FieldLineAlike(b, s.fields, r, line);
    }
  }

  lemma {:induction false} LinesAgree(env: Env, lines: seq<string>)
    requires NeverThrows(env) && Conforming(NOTHING, lines)
    ensures Agree(AfterLines(NOTHING, lines), OnLines(env, START, lines), ReadLines(EMPTY, lines))
  {
    if lines != [] {
      var before, line := Front(lines), Last(lines);
      LinesAgree(env, before);
      LineAgrees(env, AfterLines(NOTHING, before), OnLines(env, START, before), ReadLines(EMPTY, before), line);
    }
  }

  lemma {:induction false} SplitWithoutCr(text: string)
    requires '\r' !in text
    ensures SplitAny(text) == Split(text)
  {
    if text != "" {
      assert text == Front(text) + [Last(text)];
      SplitWithoutCr(Front(text));
    }
  }

  /** On every text without CR whose lines have the simple form, the parser and the standard deliver the same
      events. */
  lemma {:induction false} TextsAgree(env: Env, text: string)
    requires '\r' !in text && Conforming(NOTHING, Front(Split(text)))
    ensures PlainAll(Events(env, text)) == Read(text)
  {
    SplitWithoutCr(text);
    FeedBySplitting(Quiet(env), START, text);
    LinesAgree(Quiet(env), Front(Split(text)));
  }

  // ---- Every other line can tell them apart ----

  ghost predicate KeepsAgreement(env: Env, b: Block, line: string) {
    forall s, r | Agree(b, s, r) :: Agree(AfterLine(b, line), OnLine(Quiet(env), s, line), ReadLine(r, line))
  }

  /** An agreeing pair in front of a line. */
  function FieldsBefore(b: Block, id: string): Fields {
    Fields("k", id, if b.data then "d" else "")
  }

  function ReaderBefore(b: Block, id: string): Reader {
    Reader(if b.data then "d\n" else "", "k", id, [])
  }

  lemma {:induction false} DataCancels(a: string, x: string, y: string)
    requires a + x + "\n" == a + y + "\n"
    ensures x == y
  {
    assert (a + x + "\n")[|a|..] == x + "\n" && (a + y + "\n")[|a|..] == y + "\n";
    assert Front(x + "\n") == x && Front(y + "\n") == y;
  }

  lemma {:induction false} UntrimmedDiffers(line: string, colon: nat)
    requires colon < |line| && !Trimmed(Value(line, colon))
    ensures TrimStart(line[colon + 1..]) != Value(line, colon)
  {
  }

  lemma {:induction false} EventLineBreaks(b: Block, line: string)
    requires line != "" && line[..FirstColon(line)] == "event" && !Fits(b, line)
    ensures !Alike(AfterLine(b, line), OnField(FieldsBefore(b, ""), line), ReadLine(ReaderBefore(b, ""), line))
  {
    OnFieldByName(FieldsBefore(b, ""), line);
    if FirstColon(line) < |line| {
      UntrimmedDiffers(line, FirstColon(line));
    }
  }

  lemma {:induction false} IdLineBreaks(b: Block, line: string) returns (id: string)
    requires line != "" && line[..FirstColon(line)] == "id" && !Fits(b, line)
    ensures !Alike(AfterLine(b, line), OnField(FieldsBefore(b, id), line), ReadLine(ReaderBefore(b, id), line))
  {
    var colon := FirstColon(line);
    id := if colon == |line| then "x" else TrimStart(line[colon + 1..]) + "x";
    OnFieldByName(FieldsBefore(b, id), line);
    if colon < |line| && !Trimmed(Value(line, colon)) {
      UntrimmedDiffers(line, colon);
    }
  }

  /** What the data buffers hold after a data line that the parser takes for `t` and the standard for `value`. */
  lemma {:induction false} DataBreaks(b: Block, f: Fields, r: Reader, t: string, value: string)
    requires f == FieldsBefore(b, "") && r == ReaderBefore(b, "") && (t != value || (t == "" && !b.data))
    ensures !Alike(b.(data := true), f.(data := if f.data == "" then t else f.data + "\n" + t),
                   r.(data := r.data + value + "\n"))
  {
    if b.data {
      assert f.data + "\n" + t + "\n" == r.data + t + "\n";
      if r.data + value + "\n" == r.data + t + "\n" {
        DataCancels(r.data, value, t);
      }
    } else {
      assert "" + value + "\n" == value + "\n";
      if value + "\n" == t + "\n" {
        DataCancels("", value, t);
      }
    }
  }

  lemma {:induction false} DataLineBreaks(b: Block, line: string)
    requires line != "" && line[..FirstColon(line)] == "data" && !Fits(b, line)
    ensures !Alike(AfterLine(b, line), OnField(FieldsBefore(b, ""), line), ReadLine(ReaderBefore(b, ""), line))
  {
    var colon, f, r := FirstColon(line), FieldsBefore(b, ""), ReaderBefore(b, "");
    var value := Value(line, colon);
    OnFieldByName(f, line);
    assert ReadLine(r, line) == r.(data := r.data + value + "\n");
    if colon == |line| {
      assert |r.data + value + "\n"| == |r.data| + 1;
    } else if Trimmed(value) {
      SameValue(line, colon);
      DataBreaks(b, f, r, value, value);
    } else {
      UntrimmedDiffers(line, colon);
      DataBreaks(b, f, r, TrimStart(line[colon + 1..]), value);
    }
  }

  lemma {:induction false} LineBreaks(env: Env, b: Block, line: string) returns (s: Stream, r: Reader)
    requires !Fits(b, line)
    ensures Agree(b, s, r) && !Agree(AfterLine(b, line), OnLine(Quiet(env), s, line), ReadLine(r, line))
  {
    if line == "" {
      s, r := Live("", Fields("k", "x", "d"), []), Reader("d\n", "k", "y", []);
      assert PlainAll(OnLine(Quiet(env), s, "").out)[0].0 == "x" && ReadLine(r, "").out[0].0 == "y";
    } else {
      var id := "";
      if line[..FirstColon(line)] == "id" {
        id := IdLineBreaks(b, line);
      } else if line[..FirstColon(line)] == "event" {
        EventLineBreaks(b, line);
      } else {
        DataLineBreaks(b, line);
      }
      s, r := Live("", FieldsBefore(b, id), []), ReaderBefore(b, id);
      assert Alike(b, s.fields, r);
    }
  }

  /** The simple form is exact: a line keeps the parser and the standard in agreement, whatever was read
      before, if and only if it fits. */
  lemma {:induction false} FitsIff(env: Env, b: Block, line: string)
    ensures KeepsAgreement(env, b, line) <==> Fits(b, line)
  {
    if Fits(b, line) {
      forall s, r | Agree(b, s, r)
        ensures Agree(AfterLine(b, line), OnLine(Quiet(env), s, line), ReadLine(r, line))
      {
        LineAgrees(Quiet(env), b, s, r, line);
      }
    } else {
      var s, r := LineBreaks(env, b, line);
    }
  }

  // ---- Printed events ----

  /** What can end a line in an event stream. */
  datatype Ending = Lf | CrLf | Cr

  function Mark(t: Ending): string {
    match t
    case Lf => "\n"
    case CrLf => "\r\n"
    case Cr => "\r"
  }

  function Terminate(t: Ending, lines: seq<string>): string {
    if lines == [] then "" else Terminate(t, Front(lines)) + Last(lines) + Mark(t)
  }

  function PrintWith(t: Ending, es: seq<Event>): string {
    Terminate(t, PrintAll(es))
  }

  /** An event that a stream of the standard can carry. */
  predicate Portable(e: Event) {
    '\0' !in e.id && '\r' !in e.id && '\r' !in e.kind && '\r' !in e.data.text
  }

  predicate CrFree(s: string) {
    '\r' !in s
  }

  lemma {:induction false} AfterLinesConcat(b: Block, xs: seq<string>, ys: seq<string>)
    ensures AfterLines(b, xs + ys) == AfterLines(AfterLines(b, xs), ys)
  {
    FoldConcat((t: Block, line: string) => AfterLine(t, line), b, xs, ys);
  }

  lemma {:induction false} ConformingConcat(b: Block, xs: seq<string>, ys: seq<string>)
    requires Conforming(b, xs) && Conforming(AfterLines(b, xs), ys)
    ensures Conforming(b, xs + ys) && AfterLines(b, xs + ys) == AfterLines(AfterLines(b, xs), ys)
  {
    AfterLinesConcat(b, xs, ys);
    if ys == [] {
      assert xs + ys == xs;
    } else {
      var all, before := xs + ys, xs + Front(ys);
      ConformingConcat(b, xs, Front(ys));
      assert Front(all) == before && Last(all) == Last(ys);
    }
  }

  lemma {:induction false} ConformingOne(b: Block, line: string)
    requires Fits(b, line)
    ensures Conforming(b, [line]) && AfterLines(b, [line]) == AfterLine(b, line)
  {
    assert Front([line]) == [];
  }

  lemma {:induction false} FieldLineParts(name: string, value: string)
    requires ':' !in name && name != ""
    ensures var line := FieldLine(name + ":", value);
            line != "" && FirstColon(line) == |name| && line[..|name|] == name && Value(line, |name|) == value
  {
    var line := FieldLine(name + ":", value);
    assert line == name + ":" + " " + value;
    assert line[|name|] == ':' && forall j | 0 <= j < |name| :: line[j] == name[j];
    assert FirstColon(line) == |name| && line[..|name|] == name && line[|name| + 2..] == value;
  }

  lemma {:induction false} DataLinesConform(b: Block, lines: seq<string>)
    requires lines != [] && lines[0] != "" && forall line <- lines :: Trimmed(line)
    ensures Conforming(b, DataLines(lines)) && AfterLines(b, DataLines(lines)) == b.(data := true)
  {
    var rest, line := Front(lines), Last(lines);
    assert "data" + ":" == "data:";
    FieldLineParts("data", line);
    assert DataLines(lines) == DataLines(rest) + [FieldLine("data:", line)];
    if rest == [] {
      assert DataLines(rest) == [];
      ConformingOne(b, FieldLine("data:", line));
      assert DataLines(lines) == [FieldLine("data:", line)];
    } else {
      DataLinesConform(b, rest);
      ConformingOne(b.(data := true), FieldLine("data:", line));
      ConformingConcat(b, DataLines(rest), [FieldLine("data:", line)]);
    }
  }

  lemma {:induction false} NameLinesConform(kind: string, id: string)
    requires Trimmed(kind) && Trimmed(id) && '\0' !in id
    ensures var lines := [FieldLine("event:", kind), FieldLine("id:", id)];
            Conforming(NOTHING, lines) && AfterLines(NOTHING, lines) == Block(true, false)
  {
    assert "event" + ":" == "event:" && "id" + ":" == "id:";
    FieldLineParts("event", kind);
    FieldLineParts("id", id);
    var a, b := FieldLine("event:", kind), FieldLine("id:", id);
    ConformingOne(NOTHING, a);
    ConformingOne(NOTHING, b);
    ConformingConcat(NOTHING, [a], [b]);
    assert [a] + [b] == [a, b];
  }

  lemma {:induction false} BlockConforms(env: Env, e: Event)
    requires Canonical(env, e) && '\0' !in e.id
    ensures Conforming(NOTHING, PrintLines(e)) && AfterLines(NOTHING, PrintLines(e)) == NOTHING
  {
    var names, data := [FieldLine("event:", e.kind), FieldLine("id:", e.id)], DataLines(Split(e.data.text));
    NameLinesConform(e.kind, e.id);
    DataLinesConform(Block(true, false), Split(e.data.text));
    ConformingConcat(NOTHING, names, data);
    ConformingOne(Block(true, true), "");
    ConformingConcat(NOTHING, names + data, [""]);
  }

  lemma {:induction false} PrintedConforms(env: Env, es: seq<Event>)
    requires forall e <- es :: Canonical(env, e) && '\0' !in e.id
    ensures Conforming(NOTHING, PrintAll(es)) && AfterLines(NOTHING, PrintAll(es)) == NOTHING
  {
    if es != [] {
      assert Last(es) in es && forall x <- Front(es) :: x in es;
      PrintedConforms(env, Front(es));
      BlockConforms(env, Last(es));
      ConformingConcat(NOTHING, PrintAll(Front(es)), PrintLines(Last(es)));
    }
  }

  lemma {:induction false} SplitPlainChar(text: string, c: char)
    requires c != '\n' && c != '\r'
    ensures SplitAny(text + [c]) == Front(SplitAny(text)) + [Last(SplitAny(text)) + [c]]
  {
    assert Front(text + [c]) == text;
  }

  lemma {:induction false} SplitPiece(text: string, piece: string)
    requires LfFree(piece) && CrFree(piece)
    ensures SplitAny(text + piece) == Front(SplitAny(text)) + [Last(SplitAny(text)) + piece]
  {
    if piece == "" {
      assert text + piece == text;
      assert Last(SplitAny(text)) + piece == Last(SplitAny(text));
    } else {
      var rest, c, lines := Front(piece), Last(piece), SplitAny(text);
      assert piece == rest + [c] && c in piece;
      SplitPiece(text, rest);
      SplitPlainChar(text + rest, c);
      assert text + piece == text + rest + [c];
      assert Front(Front(lines) + [Last(lines) + rest]) == Front(lines);
      assert Last(lines) + rest + [c] == Last(lines) + piece;
    }
  }

  lemma {:induction false} SplitMark(text: string, t: Ending)
    requires t.Lf? ==> text == "" || Last(text) != '\r'
    ensures SplitAny(text + Mark(t)) == SplitAny(text) + [""]
  {
    match t {
      case Lf =>
        assert Front(text + "\n") == text;
      case Cr =>
        assert Front(text + "\r") == text;
      case CrLf =>
        assert Front(text + "\r") == text;
        assert Front(text + "\r\n") == text + "\r";
    }
  }

  lemma {:induction false} LfEnds(lines: seq<string>, line: string)
    requires CrFree(line) && Terminate(Lf, lines) + line != ""
    ensures Last(Terminate(Lf, lines) + line) != '\r'
  {
    if line != "" {
      assert Last(Terminate(Lf, lines) + line) == Last(line) && Last(line) in line;
    }
  }

  lemma {:induction false} SplitTerminated(t: Ending, lines: seq<string>)
    requires forall line <- lines :: LfFree(line) && CrFree(line)
    ensures SplitAny(Terminate(t, lines)) == lines + [""]
  {
    if lines != [] {
      var rest, line := Front(lines), Last(lines);
      var before := Terminate(t, rest);
      SplitTerminated(t, rest);
      SplitPiece(before, line);
      assert Front(rest + [""]) == rest && "" + line == line;
      assert line in lines && lines == rest + [line];
      if t.Lf? && before + line != "" {
        LfEnds(rest, line);
      }
      SplitMark(before + line, t);
    }
  }

  lemma {:induction false} LinesOfCrFree(text: string)
    requires CrFree(text)
    ensures forall line <- Split(text) :: CrFree(line)
  {
    if text != "" {
      assert text == Front(text) + [Last(text)];
      LinesOfCrFree(Front(text));
      var lines := Split(Front(text));
      assert Last(lines) in lines && forall line <- Front(lines) :: line in lines;
    }
  }

  lemma {:induction false} CrFreeFieldLine(name: string, value: string)
    requires CrFree(name) && CrFree(value)
    ensures CrFree(FieldLine(name, value))
  {
    assert CrFree(" " + value);
  }

  lemma {:induction false} PrintedLinesCrFree(es: seq<Event>)
    requires forall e <- es :: Portable(e)
    ensures forall line <- PrintAll(es) :: CrFree(line)
  {
    if es != [] {
      var e := Last(es);
      assert e in es && forall x <- Front(es) :: x in es;
      PrintedLinesCrFree(Front(es));
      LinesOfCrFree(e.data.text);
      forall i | 0 <= i < |Split(e.data.text)|
        ensures CrFree(FieldLine("data:", Split(e.data.text)[i]))
      {
        CrFreeFieldLine("data:", Split(e.data.text)[i]);
      }
      CrFreeFieldLine("event:", e.kind);
      CrFreeFieldLine("id:", e.id);
    }
  }

  /** Whatever ends the lines, the standard reads the printed events. */
  lemma {:induction false} StandardReadsAll(env: Env, es: seq<Event>, t: Ending)
    requires forall e <- es :: Canonical(env, e) && Portable(e)
    ensures Read(PrintWith(t, es)) == PlainAll(es)
  {
    PrintedLinesLfFree(env, es);
    PrintedLinesCrFree(es);
    SplitTerminated(t, PrintAll(es));
    assert Front(PrintAll(es) + [""]) == PrintAll(es);
    PrintedConforms(env, es);
    QuietCanonical(env, es);
    LinesAgree(Quiet(env), PrintAll(es));
    LinesRoundTrip(Quiet(env), es);
  }

  // ---- Where they differ ----

  ghost predicate CleanReader(r: Reader) {
    && CrFree(r.data) && CrFree(r.kind) && CrFree(r.lastId) && '\0' !in r.lastId
    && forall x <- r.out :: CrFree(x.0) && CrFree(x.1) && CrFree(x.2) && '\0' !in x.0
  }

  lemma {:induction false} CleanLine(r: Reader, line: string)
    requires CleanReader(r) && CrFree(line)
    ensures CleanReader(ReadLine(r, line))
  {
    if line != "" {
      var value := Value(line, FirstColon(line));
      assert CrFree(value);
      assert CrFree(r.data + value + "\n");
    } else if r.data != "" {
      assert CrFree(Front(r.data)) && CrFree("message");
    }
  }

  lemma {:induction false} CleanLines(lines: seq<string>)
    requires forall line <- lines :: CrFree(line)
    ensures CleanReader(ReadLines(EMPTY, lines))
  {
    if lines != [] {
      assert Last(lines) in lines;
      CleanLines(Front(lines));
      CleanLine(ReadLines(EMPTY, Front(lines)), Last(lines));
    }
  }

  lemma {:induction false} SplitAnyCrFree(text: string)
    ensures forall line <- SplitAny(text) :: CrFree(line)
  {
    if text != "" {
      SplitAnyCrFree(Front(text));
      var lines, c := SplitAny(Front(text)), Last(text);
      assert Last(lines) in lines && forall line <- Front(lines) :: line in lines;
      assert c != '\r' ==> CrFree(Last(lines) + [c]);
    }
  }

  /** The standard never delivers a CR, nor an id with NUL. */
  lemma {:induction false} StandardIsClean(text: string)
    ensures CleanReader(ReadText(text))
  {
    SplitAnyCrFree(text);
    CleanLines(Front(SplitAny(text)));
  }

  /** A data line has been begun, or was followed by a dispatch. */
  ghost predicate Reading(text: string) {
    var r := ReadText(text);
    r.out != [] || r.data != "" || StartsWith(Last(SplitAny(text)), "data:")
  }

  lemma {:induction false} KeepsReading(text: string, more: string)
    requires Reading(text)
    ensures Reading(text + more)
  {
    if more == "" {
      assert text + more == text;
    } else {
      KeepsReading(text, Front(more));
      assert Front(text + more) == text + Front(more);
      ReadingStep(text + more);
    }
  }

  lemma {:induction false} ReadingStep(text: string)
    requires text != "" && Reading(Front(text))
    ensures Reading(text)
  {
    var lines, c := SplitAny(Front(text)), Last(text);
    if c == '\n' && |text| > 1 && text[|text| - 2] == '\r' {
    } else if c == '\n' || c == '\r' {
      assert Front(lines + [""]) == lines;
      assert ReadText(text) == ReadLine(ReadText(Front(text)), Last(lines));
      assert "data" + ":" == "data:";
      FieldName(Last(lines), "data");
    } else {
      assert Front(SplitAny(text)) == Front(lines);
      assert Last(SplitAny(text))[..|Last(lines)|] == Last(lines);
    }
  }

  lemma {:induction false} LineEndClears(text: string)
    requires text != "" && (Last(text) == '\n' || Last(text) == '\r')
    ensures Last(SplitAny(text)) == ""
  {
  }

  lemma {:induction false} BlankLineDispatches(text: string, t: Ending)
    requires Reading(text) && Last(SplitAny(text)) == ""
    requires t.Lf? ==> text != "" && Last(text) != '\r'
    ensures Read(text + Mark(t)) != []
  {
    var lines := SplitAny(text);
    SplitMark(text, t);
    assert Front(lines + [""]) == lines;
    assert ReadText(text + Mark(t)) == ReadLine(ReadText(text), "");
  }

  /** A data line and two line ends dispatch something, if they follow a line end. */
  lemma {:induction false} DataDispatches(before: string, value: string, t: Ending)
    requires Last(SplitAny(before)) == ""
    ensures Read(before + FieldLine("data:", value) + Mark(t) + Mark(t)) != []
  {
    var data, more := before + "data:", " " + value + Mark(t);
    assert Reading(data) by {
      SplitPiece(before, "data:");
    }
    KeepsReading(data, more);
    var text := before + FieldLine("data:", value) + Mark(t);
    assert text == data + more && Last(text) == Last(Mark(t));
    LineEndClears(text);
    BlankLineDispatches(text, t);
  }

  /** The lines before the last data line. */
  function BeforeLastData(es: seq<Event>): (lines: seq<string>)
    requires es != []
    ensures lines != []
  {
    var e := Last(es);
    PrintAll(Front(es)) + [FieldLine("event:", e.kind), FieldLine("id:", e.id)] + DataLines(Front(Split(e.data.text)))
  }

  lemma {:induction false} LastDataLine(es: seq<Event>)
    requires es != []
    ensures PrintAll(es) == BeforeLastData(es) + [FieldLine("data:", Last(Split(Last(es).data.text)))] + [""]
  {
    var e := Last(es);
    var pieces := Split(e.data.text);
    assert DataLines(pieces) == DataLines(Front(pieces)) + [FieldLine("data:", Last(pieces))];
    var names := [FieldLine("event:", e.kind), FieldLine("id:", e.id)];
    assert PrintAll(es) == PrintAll(Front(es)) + (names + DataLines(pieces) + [""]);
  }

  lemma {:induction false} TerminateTwo(t: Ending, before: seq<string>, line: string)
    ensures Terminate(t, before + [line] + [""]) == Terminate(t, before) + line + Mark(t) + Mark(t)
  {
    assert Front(before + [line] + [""]) == before + [line];
    assert Front(before + [line]) == before;
    assert Terminate(t, before + [line]) == Terminate(t, before) + line + Mark(t);
    assert Terminate(t, before + [line]) + "" == Terminate(t, before + [line]);
  }

  /** Whatever ends the lines, the standard reads at least one event from a printed non-empty list. */
  lemma {:induction false} StandardReadsSome(es: seq<Event>, t: Ending)
    requires es != []
    ensures Read(PrintWith(t, es)) != []
  {
    var before, value := BeforeLastData(es), Last(Split(Last(es).data.text));
    LastDataLine(es);
    TerminateTwo(t, before, FieldLine("data:", value));
    LineEndClears(Terminate(t, before));
    DataDispatches(Terminate(t, before), value, t);
  }

  lemma {:induction false} NoLineFeed(lines: seq<string>)
    requires forall line <- lines :: LfFree(line)
    ensures LfFree(Terminate(Cr, lines))
  {
    if lines != [] {
      assert Last(lines) in lines && forall line <- Front(lines) :: line in lines;
      NoLineFeed(Front(lines));
      assert LfFree(Terminate(Cr, Front(lines)) + Last(lines));
    }
  }

  lemma {:induction false} CrLfLines(lines: seq<string>)
    ensures Terminate(CrLf, lines) == Unlines(CrTerminated(lines))
    ensures Terminate(Lf, lines) == Unlines(lines)
  {
    if lines != [] {
      CrLfLines(Front(lines));
      assert Front(CrTerminated(lines)) == CrTerminated(Front(lines));
      assert Last(lines) + Mark(CrLf) == Last(lines) + "\r" + "\n";
    }
  }

  /** The parser reads printed events when LF ends the lines, and nothing otherwise. */
  lemma {:induction false} ParserReadsLfOnly(env: Env, es: seq<Event>, t: Ending)
    requires AllCanonical(env, es)
    ensures Events(env, PrintWith(t, es)) == if t.Lf? then es else []
  {
    CrLfLines(PrintAll(es));
    PrintedLinesLfFree(env, es);
    match t {
      case Lf =>
        PrintedEventsRoundTrip(env, es);
      case CrLf =>
        CrLfStreamsDeliverNothing(Quiet(env), PrintAll(es));
      case Cr =>
        NoLineFeed(PrintAll(es));
        FeedLfFree(Quiet(env), START, PrintWith(t, es));
    }
  }

  lemma {:induction false} OnlyPortableAgree(es: seq<Event>, text: string)
    requires Read(text) == PlainAll(es)
    ensures forall e <- es :: Portable(e)
  {
    StandardIsClean(text);
    forall i | 0 <= i < |es|
      ensures Portable(es[i])
    {
      assert PlainAll(es)[i] == Plain(es[i]) && PlainAll(es)[i] in Read(text);
    }
  }

  /** For canonical events, printed with any line end, the parser and the standard deliver the same exactly
      when LF ends the lines and no event has a CR or an id with NUL, or when there is no event. */
  lemma {:induction false} AgreesWithStandardIff(env: Env, es: seq<Event>, t: Ending)
    requires AllCanonical(env, es)
    ensures PlainAll(Events(env, PrintWith(t, es))) == Read(PrintWith(t, es))
       <==> es == [] || (t.Lf? && forall e <- es :: Portable(e))
  {
    ParserReadsLfOnly(env, es, t);
    if es == [] {
      assert Read("") == [];
    } else if !t.Lf? {
      StandardReadsSome(es, t);
    } else {
      if forall e <- es :: Portable(e) {
        StandardReadsAll(env, es, t);
      }
      if PlainAll(es) == Read(PrintWith(t, es)) {
        OnlyPortableAgree(es, PrintWith(t, es));
      }
    }
  }

  // ---- One text for each difference on texts without CR ----

  lemma {:induction false} OneLine(env: Env, s: Stream, r: Reader, line: string, rest: seq<string>)
    ensures OnLines(env, s, [line] + rest) == OnLines(env, OnLine(env, s, line), rest)
    ensures ReadLines(r, [line] + rest) == ReadLines(ReadLine(r, line), rest)
  {
    OnLinesConcat(env, s, [line], rest);
    FoldConcat((t: Reader, x: string) => ReadLine(t, x), r, [line], rest);
    assert Front([line]) == [];
    assert OnLines(env, s, [line]) == OnLine(env, OnLines(env, s, []), line);
    assert ReadLines(r, [line]) == ReadLine(ReadLines(r, []), line);
  }

  lemma {:induction false} TextOfLines(env: Env, lines: seq<string>)
    requires forall line <- lines :: LfFree(line) && CrFree(line)
    ensures Events(env, Unlines(lines)) == OnLines(Quiet(env), START, lines).out
    ensures Read(Unlines(lines)) == ReadLines(EMPTY, lines).out
  {
    FeedUnlines(Quiet(env), START, lines);
    CrLfLines(lines);
    SplitTerminated(Lf, lines);
    assert Front(lines + [""]) == lines;
  }

  function StripOne(rest: string): string {
    if rest != "" && rest[0] == ' ' then rest[1..] else rest
  }

  /** How the two read a line with a colon. */
  lemma {:induction false} ColonLine(env: Env, s: Stream, r: Reader, name: string, rest: string)
    requires s.Live? && ':' !in name && name != ""
    ensures var line := name + ":" + rest;
            && ReadLine(r, line) == Field(r, name, StripOne(rest))
            && (name == "id" ==> OnLine(env, s, line) == s.(fields := s.fields.(id := TrimStart(rest))))
            && (name == "data" && s.fields.data == "" ==>
                  OnLine(env, s, line) == s.(fields := s.fields.(data := TrimStart(rest))))
  {
    var line := name + ":" + rest;
    assert line[|name|] == ':' && forall j | 0 <= j < |name| :: line[j] == name[j];
    assert FirstColon(line) == |name| && line[..|name|] == name && line[|name| + 1..] == rest;
    assert rest != "" ==> line[|name| + 1] == rest[0] && line[|name| + 2..] == rest[1..];
    OnFieldByName(s.fields, line);
  }

  /** A block of data ends. */
  lemma {:induction false} BlockEnds(env: Env, s: Stream, r: Reader)
    requires s.Live? && s.fields.data != "" && r.data != "" && Last(r.data) == '\n'
    ensures var t := OnLine(Quiet(env), s, "");
            && t.Live? && t.fields == BLANK
            && PlainAll(t.out) == PlainAll(s.out)
                 + [(s.fields.id, if s.fields.kind == "" then "message" else s.fields.kind, s.fields.data)]
    ensures ReadLine(r, "") == Reader("", "", r.lastId,
              r.out + [(r.lastId, if r.kind == "" then "message" else r.kind, Front(r.data))])
  {
    var t := OnLine(Quiet(env), s, "");
    assert t.out == s.out + [Last(t.out)];
    assert PlainAll(t.out) == PlainAll(s.out) + [Plain(Last(t.out))];
  }

  const BLOCK_X := ["data:x", ""]

  /** A block, or the rest of one, with the data x. */
  lemma {:induction false} ReadBlockX(env: Env, s: Stream, r: Reader)
    requires s.Live? && s.fields.data == "" && s.fields.kind == "" && r.kind == ""
    ensures var t := OnLines(Quiet(env), s, BLOCK_X);
            && t.Live? && t.fields == BLANK && PlainAll(t.out) == PlainAll(s.out) + [(s.fields.id, "message", "x")]
    ensures ReadLines(r, BLOCK_X)
         == Reader("", "", r.lastId, r.out + [(r.lastId, "message", r.data + "x")])
  {
    var s1, r1 := OnLine(Quiet(env), s, "data:x"), ReadLine(r, "data:x");
    assert "data" + ":" + "x" == "data:x";
    ColonLine(Quiet(env), s, r, "data", "x");
    assert r1 == r.(data := r.data + "x" + "\n") && Front(r.data + "x" + "\n") == r.data + "x";
    assert s1 == s.(fields := s.fields.(data := "x"));
    BlockEnds(env, s1, r1);
    assert BLOCK_X == ["data:x"] + [""] && [""] + [] == [""];
    OneLine(Quiet(env), s, r, "data:x", [""]);
    OneLine(Quiet(env), s1, r1, "", []);
  }

  lemma {:induction false} ReadLinesConcat(r: Reader, a: seq<string>, b: seq<string>)
    ensures ReadLines(r, a + b) == ReadLines(ReadLines(r, a), b)
  {
    FoldConcat((t: Reader, line: string) => ReadLine(t, line), r, a, b);
  }

  /** A line, then the block. */
  lemma {:induction false} LineThenX(env: Env, line: string, f: Fields, r: Reader)
    requires LfFree(line) && CrFree(line)
    requires OnLine(Quiet(env), START, line) == Live("", f, []) && f.data == "" && f.kind == ""
    requires ReadLine(EMPTY, line) == r && r.kind == "" && r.out == []
    ensures var text := Unlines([line] + BLOCK_X);
            && PlainAll(Events(env, text)) == [(f.id, "message", "x")]
            && Read(text) == [(r.lastId, "message", r.data + "x")]
  {
    TextOfLines(env, [line] + BLOCK_X);
    OneLine(Quiet(env), START, EMPTY, line, BLOCK_X);
    ReadBlockX(env, Live("", f, []), r);
  }

  /** A text of a line and a block with the data x. */
  function TextX(line: string): string {
    Unlines([line] + BLOCK_X)
  }

  /** Both readings of an id line. */
  lemma {:induction false} IdReadings(env: Env, rest: string)
    requires LfFree(rest) && CrFree(rest)
    ensures PlainAll(Events(env, TextX("id" + ":" + rest))) == [(TrimStart(rest), "message", "x")]
    ensures Read(TextX("id" + ":" + rest))
         == [(if '\0' in StripOne(rest) then "" else StripOne(rest), "message", "x")]
  {
    var line, value := "id" + ":" + rest, StripOne(rest);
    ColonLine(Quiet(env), START, EMPTY, "id", rest);
    assert "" + "x" == "x";
    LineThenX(env, line, BLANK.(id := TrimStart(rest)), if '\0' in value then EMPTY else EMPTY.(lastId := value));
  }

  /** Both readings of a data line without anything but white space. */
  lemma {:induction false} EmptyDataReadings(env: Env, rest: string)
    requires LfFree(rest) && CrFree(rest) && TrimStart(rest) == ""
    ensures PlainAll(Events(env, TextX("data" + ":" + rest))) == [("", "message", "x")]
    ensures Read(TextX("data" + ":" + rest)) == [("", "message", StripOne(rest) + "\n" + "x")]
  {
    var line, value := "data" + ":" + rest, StripOne(rest);
    ColonLine(Quiet(env), START, EMPTY, "data", rest);
    assert "" + value + "\n" == value + "\n";
    LineThenX(env, line, BLANK, EMPTY.(data := value + "\n"));
  }

  lemma {:induction false} BareDataReadings(env: Env, name: string)
    requires name == "data"
    ensures PlainAll(Events(env, TextX(name))) == [("", "message", "x")]
    ensures Read(TextX(name)) == [("", "message", "\n" + "x")]
  {
    assert FirstColon(name) == |name| && name[..|name|] == name;
    OnFieldByName(BLANK, name);
    assert "" + "" + "\n" == "\n";
    LineThenX(env, name, BLANK, EMPTY.(data := "\n"));
  }

  /** One text for each difference: white space behind the first space, NUL in an id, an empty data line in front
      of the first other one, and a field name without a colon. */
  lemma {:induction false} Differences(env: Env)
    ensures PlainAll(Events(env, TextX("id" + ":" + "  1"))) == [("1", "message", "x")]
         && Read(TextX("id" + ":" + "  1")) == [(" 1", "message", "x")]
    ensures PlainAll(Events(env, TextX("id" + ":" + "\0"))) == [("\0", "message", "x")]
         && Read(TextX("id" + ":" + "\0")) == [("", "message", "x")]
    ensures PlainAll(Events(env, TextX("data" + ":" + ""))) == [("", "message", "x")]
         && Read(TextX("data" + ":" + "")) == [("", "message", "\nx")]
    ensures PlainAll(Events(env, TextX("data"))) == [("", "message", "x")]
         && Read(TextX("data")) == [("", "message", "\nx")]
  {
    assert "  1"[1..] == " 1" && " 1"[1..] == "1" && TrimStart("  1") == "1" && StripOne("  1") == " 1";
    assert "\n" + "x" == "\nx" && StripOne("") + "\n" + "x" == "\nx";
    IdReadings(env, "  1");
    IdReadings(env, "\0");
    EmptyDataReadings(env, "");
    BareDataReadings(env, "data");
  }

  lemma {:induction false} TwoBlocks(env: Env, s: Stream, r: Reader)
    requires s.Live? && s.out == [] && s.fields.data == "" && s.fields.kind == ""
    requires r.kind == "" && r.data == "" && r.out == []
    ensures PlainAll(OnLines(Quiet(env), s, BLOCK_X + BLOCK_X).out)
         == [(s.fields.id, "message", "x"), ("", "message", "x")]
    ensures ReadLines(r, BLOCK_X + BLOCK_X).out == [(r.lastId, "message", "x"), (r.lastId, "message", "x")]
  {
    OnLinesConcat(Quiet(env), s, BLOCK_X, BLOCK_X);
    ReadLinesConcat(r, BLOCK_X, BLOCK_X);
    assert "" + "x" == "x";
    ReadBlockX(env, s, r);
    ReadBlockX(env, OnLines(Quiet(env), s, BLOCK_X), ReadLines(r, BLOCK_X));
  }

  /** And one for the fifth: the parser forgets an id after its event. */
  lemma {:induction false} LaterIdDiffers(env: Env)
    ensures var text := Unlines(["id:1"] + (BLOCK_X + BLOCK_X));
            && PlainAll(Events(env, text)) == [("1", "message", "x"), ("", "message", "x")]
            && Read(text) == [("1", "message", "x"), ("1", "message", "x")]
  {
    IdLine1(env);
    TextOfLines(env, ["id:1"] + (BLOCK_X + BLOCK_X));
    OneLine(Quiet(env), START, EMPTY, "id:1", BLOCK_X + BLOCK_X);
    TwoBlocks(env, Live("", BLANK.(id := "1"), []), EMPTY.(lastId := "1"));
  }

  lemma {:induction false} IdLine1(env: Env)
    ensures OnLine(Quiet(env), START, "id:1") == Live("", BLANK.(id := "1"), [])
    ensures ReadLine(EMPTY, "id:1") == EMPTY.(lastId := "1")
  {
    assert "id" + ":" + "1" == "id:1";
    ColonLine(Quiet(env), START, EMPTY, "id", "1");
  }
}
