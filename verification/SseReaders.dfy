/** The two SSE readers of SseText on text that neither encoder wrote: comments, unknown fields, data on several lines, and
    carriage returns (sections 9.2.5 and 9.2.6 of the WHATWG HTML Living Standard). */
module SseReaders {
  import opened Common
  import opened SseText

  predicate EventLine(line: string) {
    HasPrefix(line, "event:")
  }

  predicate DataLine(line: string) {
    HasPrefix(line, "data:")
  }

  // A field name that neither reader takes; a line without a colon is a name alone.
  predicate Unknown(line: string) {
    && line != "" && line[0] != ':'
    && var name := line[..FindColon(line)]; name != "event" && name != "data" && name != "id"
  }

  /** A line that both readers understand: blank, a comment, an event name, data that is not empty, or an unknown field. */
  predicate Shared(line: string) {
    line == "" || line[0] == ':' || EventLine(line) || (DataLine(line) && TrimOneSpace(line[5..]) != "") || Unknown(line)
  }

  // ---------------------------------------------------------------- one line

  lemma {:induction false} PrefixField(line: string, name: string)
    requires HasPrefix(line, name + ":") && forall k :: 0 <= k < |name| ==> name[k] != ':'
    ensures FindColon(line) == |name| && ParseField(line) == Field(name, TrimOneSpace(line[|name| + 1..]))
  {
    var p := name + ":";
    assert forall k :: 0 <= k < |p| ==> line[k] == p[k];
    assert line[..|name|] == name && line[|name|] == p[|name|] == ':';
    assert forall k :: 0 <= k < |name| ==> line[k] == name[k];
    assert FindColon(line) == |name|;
  }

  lemma {:induction false} TrimAfterSpace(s: string)
    ensures TrimSpace(TrimOneSpace(s)) == TrimSpace(s)
  {
  }

  lemma {:induction false} UnknownIsNeither(line: string)
    requires Unknown(line)
    ensures !EventLine(line) && !DataLine(line)
  {
    if EventLine(line) {
      assert "event" + ":" == "event:";
      PrefixField(line, "event");
    }
    if DataLine(line) {
      assert "data" + ":" == "data:";
      PrefixField(line, "data");
    }
  }

  lemma {:induction false} UnknownIsSkipped(acc: LineAcc, scan: ScanAcc, line: string)
    requires Unknown(line)
    ensures LineStep(acc, line) == acc && ScanLine(scan, line) == scan
  {
    UnknownIsNeither(line);
    assert line[..FindColon(line)] == ParseField(line).name;
  }

  // ---------------------------------------------------------------- in step

  lemma {:induction false} JoinMore(lines: seq<string>, s: string)
    requires lines != []
    ensures Join(lines + [s]) == Join(lines) + "\n" + s
    decreases |lines|
  {
    if |lines| == 1 {
      assert (lines + [s])[1..] == [s];
    } else {
      JoinMore(lines[1..], s);
      assert (lines + [s])[1..] == lines[1..] + [s];
      AppendAssoc(lines[0] + "\n", Join(lines[1..]), "\n" + s);
    }
  }

  // Both readers have collected the same since the last event.
  predicate InStep(acc: LineAcc, scan: ScanAcc) {
    && acc.event == scan.event && scan.id == "" && acc.data == Join(scan.dataLines)
    && (scan.dataLines != [] ==> acc.data != "")
  }

  lemma {:induction false} DataRead(acc: LineAcc, scan: ScanAcc, line: string)
    requires DataLine(line)
    ensures var s := TrimOneSpace(line[5..]);
      && line != "" && LineStep(acc, line) == acc.(data := acc.data + (if acc.data != "" then "\n" else "") + s)
      && ScanLine(scan, line) == scan.(dataLines := scan.dataLines + [s])
  {
    assert "data" + ":" == "data:" && line[..5] == "data:" && line[0] == 'd';
    PrefixField(line, "data");
  }

  lemma {:induction false} DataInStep(acc: LineAcc, scan: ScanAcc, line: string)
    requires InStep(acc, scan) && DataLine(line) && TrimOneSpace(line[5..]) != ""
    ensures InStep(LineStep(acc, line), ScanLine(scan, line)) && LineStep(acc, line).out == acc.out && line != ""
  {
    var s := TrimOneSpace(line[5..]);
    DataRead(acc, scan, line);
    if scan.dataLines == [] {
      assert [] + [s] == [s] && "" + "" + s == s;
    } else {
      JoinMore(scan.dataLines, s);
    }
  }

  lemma {:induction false} EventInStep(acc: LineAcc, scan: ScanAcc, line: string)
    requires InStep(acc, scan) && EventLine(line)
    ensures InStep(LineStep(acc, line), ScanLine(scan, line)) && LineStep(acc, line).out == acc.out && line != ""
  {
    assert "event" + ":" == "event:" && line[..6] == "event:" && line[0] == 'e';
    PrefixField(line, "event");
    TrimAfterSpace(line[6..]);
  }

  // A line that is not blank is collected alike.
  lemma {:induction false} LineInStep(acc: LineAcc, scan: ScanAcc, line: string)
    requires InStep(acc, scan) && Shared(line) && line != ""
    ensures InStep(LineStep(acc, line), ScanLine(scan, line)) && LineStep(acc, line).out == acc.out
  {
    if line[0] == ':' {
    } else if EventLine(line) {
      EventInStep(acc, scan, line);
    } else if DataLine(line) && TrimOneSpace(line[5..]) != "" {
      DataInStep(acc, scan, line);
    } else {
      UnknownIsSkipped(acc, scan, line);
    }
  }

  lemma {:induction false} PendingInStep(acc: LineAcc, scan: ScanAcc)
    requires InStep(acc, scan)
    ensures scan.Pending() <==> acc.data != "" || acc.event != ""
    ensures scan.Pending() ==> Flush(acc) == LineAcc("", "", acc.out + [scan.Result()])
    ensures !scan.Pending() ==> Flush(acc) == acc && scan == ScanAcc("", "", [])
  {
  }

  lemma {:induction false} LinesInStep(acc: LineAcc, scan: ScanAcc, lines: seq<string>)
    requires InStep(acc, scan) && forall line :: line in lines ==> Shared(line)
    ensures Flush(LinesFrom(acc, lines)).out == acc.out + ScanAll(scan, lines)
    decreases |lines|
  {
    PendingInStep(acc, scan);
    if lines == [] {
      assert acc.out + [] == acc.out;
    } else if lines[0] != "" {
      LineInStep(acc, scan, lines[0]);
      LinesInStep(LineStep(acc, lines[0]), ScanLine(scan, lines[0]), lines[1..]);
    } else if scan.Pending() {
      LinesInStep(Flush(acc), ScanAcc("", "", []), lines[1..]);
      AppendAssoc(acc.out, [scan.Result()], ScanAll(ScanAcc("", "", []), lines[1..]));
    } else {
      LinesInStep(acc, scan, lines[1..]);
    }
  }

  /** On every text of shared lines, written by whomever, the two readers return the same events. */
  lemma {:induction false} ReadersAgree(text: string)
    requires forall line :: line in Lines(text) ==> Shared(line)
    ensures DecodeEvents(text) == ScanAll(ScanAcc("", "", []), Lines(text))
  {
    LinesInStep(FRESH, ScanAcc("", "", []), Lines(text));
    assert [] + ScanAll(ScanAcc("", "", []), Lines(text)) == ScanAll(ScanAcc("", "", []), Lines(text));
  }

  /** On others they may not: an empty first data line is lost to the decoder, where the standard and the scanner have an empty
      line in the data. */
  lemma {:induction false} EmptyDataDiffers(first: string, second: string)
    requires DataLine(first) && TrimOneSpace(first[5..]) == "" && DataLine(second) && TrimOneSpace(second[5..]) == "x"
    ensures Flush(LinesFrom(FRESH, [first] + [second])).out == [Dispatched("", "x")]
    ensures ScanAll(ScanAcc("", "", []), [first] + [second]) == [Dispatched("", "\nx")]
  {
    var none, one := ScanAcc("", "", []), ScanAcc("", "", [""]);
    DataRead(FRESH, none, first);
    DataRead(FRESH, one, second);
    assert "" + "" + "" == "" && [] + [""] == [""];
    LinesFromCons(FRESH, first, [second]);
    LinesFromCons(FRESH, second, []);
    ScanCons(none, first, [second]);
    ScanCons(one, second, []);
    assert [second] + [] == [second];
    JoinMore([""], "x");
    assert "" + "\n" + "x" == "\nx" && "" + "" + "x" == "x";
  }

  // ---------------------------------------------------------------- line ends

  /** A line may end in a carriage return and a line feed, or in a line feed alone. */
  lemma {:induction false} LineEndings(line: string, rest: string)
    requires OneLine(line)
    ensures Lines(line + "\r\n" + rest) == Lines(line + "\n" + rest) == [line] + Lines(rest)
  {
    LinesCons(line, rest);
    var s := line + "\r\n" + rest;
    var n := |line| + 1;
    assert s[..n] == line + "\r" && s[n] == '\n' && s[n + 1..] == rest;
    assert forall k :: 0 <= k < n ==> s[k] == (line + "\r")[k];
    assert FindNewline(s) == n;
    assert DropCR(line + "\r") == line;
  }
}
