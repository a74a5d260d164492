/** Server-sent-event text: the two line-oriented readers of the repository (Decoder.Decode in
    pkg/spikes/anthropic/decoder.go and Scanner.Scan in pkg/provider/internal/sse/sse.go) and the proof
    that both read back exactly the (event, data) pairs that were written.  The format is section
    9.2.5 and 9.2.6 of the WHATWG HTML Living Standard.  Lines are unbounded. */
module SseText {
  import opened Common

  // One dispatched event: its event line and its data.
  datatype Dispatched = Dispatched(event: string, data: string)

  // ---------------------------------------------------------------- lines (bufio.ScanLines)

  function FindNewline(s: string): (n: nat)
    ensures n <= |s|
    ensures forall k :: 0 <= k < n ==> s[k] != '\n'
    ensures n < |s| ==> s[n] == '\n'
  {
    if s == "" || s[0] == '\n' then 0 else 1 + FindNewline(s[1..])
  }

  function DropCR(s: string): string {
    if s != "" && s[|s| - 1] == '\r' then s[..|s| - 1] else s
  }

  function Lines(s: string): seq<string> {
    if s == "" then []
    else
      var n := FindNewline(s);
      if n == |s| then [DropCR(s)] else [DropCR(s[..n])] + Lines(s[n + 1..])
  }

  predicate HasPrefix(s: string, p: string) {
    |p| <= |s| && s[..|p|] == p
  }

  function TrimOneSpace(s: string): string {
    if s != "" && s[0] == ' ' then s[1..] else s
  }

  // ---------------------------------------------------------------- Decoder.Decode

  // currentEvent, currentData and what has been dispatched so far
  datatype LineAcc = LineAcc(event: string, data: string, out: seq<Dispatched>)

  const FRESH := LineAcc("", "", [])

  function Flush(acc: LineAcc): LineAcc {
    if acc.data != "" || acc.event != "" then LineAcc("", "", acc.out + [Dispatched(acc.event, acc.data)]) else acc
  }

  function LineStep(acc: LineAcc, line: string): LineAcc {
    if line == "" then Flush(acc)
    else if line[0] == ':' then acc
    else if HasPrefix(line, "event:") then acc.(event := TrimSpace(line[6..]))
    else if HasPrefix(line, "data:") then
      acc.(data := acc.data + (if acc.data != "" then "\n" else "") + TrimOneSpace(line[5..]))
    else acc
  }

  function LinesFrom(acc: LineAcc, lines: seq<string>): LineAcc
    decreases |lines|
  {
    if lines == [] then acc else LinesFrom(LineStep(acc, lines[0]), lines[1..])
  }

  // The pairs Decode hands to HandleEvent, in order.
  function DecodeEvents(s: string): seq<Dispatched> {
    Flush(LinesFrom(FRESH, Lines(s))).out
  }

  // ---------------------------------------------------------------- Scanner.Scan

  datatype Field = Field(name: string, value: string)

  function FindColon(s: string): (n: nat)
    ensures n <= |s|
    ensures n < |s| ==> s[n] == ':'
    ensures forall k :: 0 <= k < n ==> s[k] != ':'
  {
    if s == "" || s[0] == ':' then 0 else 1 + FindColon(s[1..])
  }

  function ParseField(line: string): Field {
    var n := FindColon(line);
    if n == |line| then Field(line, "") else Field(line[..n], TrimOneSpace(line[n + 1..]))
  }

  datatype ScanAcc = ScanAcc(event: string, id: string, dataLines: seq<string>)
  {
    predicate Pending() {
      dataLines != [] || event != "" || id != ""
    }

    function Result(): Dispatched {
      Dispatched(event, Join(dataLines))
    }
  }

  function Join(lines: seq<string>): string {
    if lines == [] then "" else if |lines| == 1 then lines[0] else lines[0] + "\n" + Join(lines[1..])
  }

  function ScanLine(acc: ScanAcc, line: string): ScanAcc {
    if line == "" || line[0] == ':' then acc
    else
      var f := ParseField(line);
      if f.name == "event" then acc.(event := TrimSpace(f.value))
      else if f.name == "id" then acc.(id := TrimSpace(f.value))
      else if f.name == "data" then acc.(dataLines := acc.dataLines + [f.value])
      else acc
  }

  // Every event successive Scan calls return, starting with the fields collected in acc.
  function ScanAll(acc: ScanAcc, lines: seq<string>): seq<Dispatched>
    decreases |lines|
  {
    if lines == [] then (if acc.Pending() then [acc.Result()] else [])
    else if lines[0] == "" && acc.Pending() then [acc.Result()] + ScanAll(ScanAcc("", "", []), lines[1..])
    else ScanAll(ScanLine(acc, lines[0]), lines[1..])
  }

  class Scanner {
    var lines: seq<string>  // what the line scanner has not delivered yet
    var event: Dispatched

    constructor (text: string)
      ensures lines == Lines(text)
    {
      lines := Lines(text);
      event := Dispatched("", "");
    }

    /** Scan either takes the next event off the stream or reports its end. */
    method Scan() returns (found: bool)
      modifies this
      ensures found == (ScanAll(ScanAcc("", "", []), old(lines)) != [])
      ensures found ==>
        ScanAll(ScanAcc("", "", []), old(lines)) == [event] + ScanAll(ScanAcc("", "", []), lines)
      ensures !found ==> lines == []
    {
      var acc := ScanAcc("", "", []);
      while lines != []
        invariant ScanAll(acc, lines) == ScanAll(ScanAcc("", "", []), old(lines))
        decreases |lines|
      {
        var line := lines[0];
        lines := lines[1..];
        if line == "" && acc.Pending() {
          event := acc.Result();
          return true;
        }
        acc := ScanLine(acc, line);
      }
      if acc.Pending() {
        event := acc.Result();
        return true;
      }
      return false;
    }
  }

  // ---------------------------------------------------------------- what is written

  function Line(s: string): string {
    s + "\n"
  }

  // An Anthropic frame has an event line; an OpenAI chunk has only its data line.
  function WithEvent(d: Dispatched): string {
    Line("event: " + d.event) + DataOnly(d)
  }

  function DataOnly(d: Dispatched): string {
    Line("data: " + d.data) + Line("")
  }

  function Write(d: Dispatched): string {
    if d.event == "" then DataOnly(d) else WithEvent(d)
  }

  function WriteAll(ds: seq<Dispatched>): string {
    if ds == [] then "" else Write(ds[0]) + WriteAll(ds[1..])
  }

  predicate OneLine(s: string) {
    forall k :: 0 <= k < |s| ==> s[k] != '\n' && s[k] != '\r'
  }

  // What encoders write: an event name without white space (or none) and non-empty data on one line.
  predicate Writable(d: Dispatched) {
    && OneLine(d.data) && d.data != ""
    && forall k :: 0 <= k < |d.event| ==> !IsSpace(d.event[k])
  }

  // ---------------------------------------------------------------- reading back

  lemma {:induction false} FindNewlineAt(a: string, rest: string)
    requires OneLine(a)
    ensures FindNewline(Line(a) + rest) == |a|
  {
    assert (Line(a) + rest)[..|a|] == a;
    assert (Line(a) + rest)[|a|] == '\n';
  }

  lemma {:induction false} LinesCons(a: string, rest: string)
    requires OneLine(a)
    ensures Lines(Line(a) + rest) == [a] + Lines(rest)
  {
    var s := Line(a) + rest;
    FindNewlineAt(a, rest);
    assert s[..|a|] == a && s[|a| + 1..] == rest;
    assert DropCR(a) == a;
  }

  lemma {:induction false} LinesOfTwo(dl: string, rest: string)
    requires OneLine(dl)
    ensures Lines(Line(dl) + Line("") + rest) == [dl, ""] + Lines(rest)
  {
    LinesCons("", rest);
    LinesCons(dl, Line("") + rest);
    AppendAssoc(Line(dl), Line(""), rest);
  }

  lemma {:induction false} LinesOfThree(el: string, dl: string, rest: string)
    requires OneLine(el) && OneLine(dl)
    ensures Lines(Line(el) + (Line(dl) + Line("")) + rest) == [el] + ([dl, ""] + Lines(rest))
  {
    LinesOfTwo(dl, rest);
    LinesCons(el, Line(dl) + Line("") + rest);
    AppendAssoc(Line(el), Line(dl) + Line(""), rest);
  }

  lemma {:induction false} TrimRightKeeps(s: string)
    requires forall k :: 0 <= k < |s| ==> !IsSpace(s[k])
    ensures TrimSpace(" " + s) == s && TrimSpace(s) == s
  {
    assert (" " + s)[1..] == s;
    assert TrimLeft(s) == s && TrimRight(s) == s;
  }

  lemma {:induction false} LinesFromCons(acc: LineAcc, line: string, lines: seq<string>)
    ensures LinesFrom(acc, [line] + lines) == LinesFrom(LineStep(acc, line), lines)
  {
    assert ([line] + lines)[1..] == lines;
  }

  lemma {:induction false} DataLineStep(event: string, data: string, out: seq<Dispatched>)
    requires data != ""
    ensures OneLine(data) ==> OneLine("data: " + data)
    ensures LineStep(LineAcc(event, "", out), "data: " + data) == LineAcc(event, data, out)
  {
    var dl := "data: " + data;
    assert dl[..5] == "data:" && dl[0] == 'd';
    assert dl[5..] == " " + data;
    assert (" " + data)[1..] == data;
    assert "" + "" + data == data;
  }

  lemma {:induction false} EventLineStep(event: string, out: seq<Dispatched>)
    requires forall k :: 0 <= k < |event| ==> !IsSpace(event[k])
    ensures OneLine("event: " + event)
    ensures LineStep(LineAcc("", "", out), "event: " + event) == LineAcc(event, "", out)
  {
    var el := "event: " + event;
    assert el[..6] == "event:" && el[0] == 'e';
    assert el[6..] == " " + event;
    TrimRightKeeps(event);
  }

  // Decode reads one written event as exactly one dispatch.
  lemma {:induction false} DecodeOne(d: Dispatched, out: seq<Dispatched>, rest: string)
    requires Writable(d)
    ensures LinesFrom(LineAcc("", "", out), Lines(Write(d) + rest))
         == LinesFrom(LineAcc("", "", out + [d]), Lines(rest))
  {
    var mid := LineAcc(d.event, "", out);
    var full := LineAcc(d.event, d.data, out);
    var dl, tail := "data: " + d.data, [""] + Lines(rest);
    DataLineStep(d.event, d.data, out);
    assert [dl, ""] + Lines(rest) == [dl] + tail;
    if d.event != "" {
      var el := "event: " + d.event;
      EventLineStep(d.event, out);
      LinesOfThree(el, dl, rest);
      LinesFromCons(LineAcc("", "", out), el, [dl] + tail);
    } else {
      LinesOfTwo(dl, rest);
    }
    LinesFromCons(mid, dl, tail);
    LinesFromCons(full, "", Lines(rest));
  }

  lemma {:induction false} DecodeFrom(out: seq<Dispatched>, ds: seq<Dispatched>)
    requires forall d :: d in ds ==> Writable(d)
    ensures LinesFrom(LineAcc("", "", out), Lines(WriteAll(ds))) == LineAcc("", "", out + ds)
    decreases |ds|
  {
    if ds == [] {
      assert out + ds == out;
    } else {
      var head, rest := ds[0], ds[1..];
      assert ds == [head] + rest;
      DecodeOne(head, out, WriteAll(rest));
      DecodeFrom(out + [head], rest);
      AppendAssoc(out, [head], rest);
    }
  }

  /** Decode dispatches exactly the events that were written, in order. */
  lemma {:induction false} DecodeReadsBack(ds: seq<Dispatched>)
    requires forall d :: d in ds ==> Writable(d)
    ensures DecodeEvents(WriteAll(ds)) == ds
  {
    DecodeFrom([], ds);
    assert [] + ds == ds;
  }

  lemma {:induction false} ParseFieldOf(name: string, value: string)
    requires forall k :: 0 <= k < |name| ==> name[k] != ':'
    ensures ParseField(name + ": " + value) == Field(name, value)
  {
    var line := name + ": " + value;
    var n := FindColon(line);
    assert line[|name|] == ':' && line[..|name|] == name;
    assert n == |name| && line[..n] == name;
    assert line[n + 1..] == " " + value;
    assert (" " + value)[1..] == value;
  }

  lemma {:induction false} ScanCons(acc: ScanAcc, line: string, lines: seq<string>)
    requires line != ""
    ensures ScanAll(acc, [line] + lines) == ScanAll(ScanLine(acc, line), lines)
  {
    assert ([line] + lines)[1..] == lines;
  }

  lemma {:induction false} ScanEnd(acc: ScanAcc, lines: seq<string>)
    requires acc.Pending()
    ensures ScanAll(acc, [""] + lines) == [acc.Result()] + ScanAll(ScanAcc("", "", []), lines)
  {
    assert ([""] + lines)[1..] == lines;
  }

  lemma {:induction false} ScanDataLine(event: string, data: string)
    ensures OneLine(data) ==> OneLine("data: " + data)
    ensures ScanLine(ScanAcc(event, "", []), "data: " + data) == ScanAcc(event, "", [data])
  {
    assert "data: " + data == "data" + ": " + data;
    assert ("data: " + data)[0] == 'd';
    ParseFieldOf("data", data);
    assert [] + [data] == [data];
  }

  lemma {:induction false} ScanEventLine(event: string)
    requires forall k :: 0 <= k < |event| ==> !IsSpace(event[k])
    ensures OneLine("event: " + event)
    ensures ScanLine(ScanAcc("", "", []), "event: " + event) == ScanAcc(event, "", [])
  {
    assert "event: " + event == "event" + ": " + event;
    assert ("event: " + event)[0] == 'e';
    ParseFieldOf("event", event);
    TrimRightKeeps(event);
  }

  lemma {:induction false} ScanOne(d: Dispatched, rest: string)
    requires Writable(d)
    ensures ScanAll(ScanAcc("", "", []), Lines(Write(d) + rest)) == [d] + ScanAll(ScanAcc("", "", []), Lines(rest))
  {
    var mid := ScanAcc(d.event, "", []);
    var full := ScanAcc(d.event, "", [d.data]);
    var dl, tail := "data: " + d.data, [""] + Lines(rest);
    ScanDataLine(d.event, d.data);
    assert [dl, ""] + Lines(rest) == [dl] + tail;
    if d.event != "" {
      var el := "event: " + d.event;
      ScanEventLine(d.event);
      LinesOfThree(el, dl, rest);
      ScanCons(ScanAcc("", "", []), el, [dl] + tail);
    } else {
      LinesOfTwo(dl, rest);
    }
    ScanCons(mid, dl, tail);
    ScanEnd(full, Lines(rest));
  }

  /** Both readers return the same events on every written stream. */
  lemma {:induction false} ScannerReadsBack(ds: seq<Dispatched>)
    requires forall d :: d in ds ==> Writable(d)
    ensures ScanAll(ScanAcc("", "", []), Lines(WriteAll(ds))) == ds == DecodeEvents(WriteAll(ds))
  {
    DecodeReadsBack(ds);
    ScanReadsBack(ds);
  }

  lemma {:induction false} ScanReadsBack(ds: seq<Dispatched>)
    requires forall d :: d in ds ==> Writable(d)
    ensures ScanAll(ScanAcc("", "", []), Lines(WriteAll(ds))) == ds
    decreases |ds|
  {
    if ds != [] {
      ScanOne(ds[0], WriteAll(ds[1..]));
      ScanReadsBack(ds[1..]);
    }
  }
}
