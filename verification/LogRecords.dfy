/** Records of a log: a header, the message, a newline. A reader can tell where each ends. */
module LogRecords {
  import opened LogText

  /** The time stamp, the thread, the level and the filter of a record, and the message. */
  datatype Record = Record(header: string, message: string)

  /** A time stamp comes first, and nothing in a header breaks the line. */
  predicate HeaderOk(header: string) {
    header != "" && header[0] != ' ' && '\n' !in header
  }

  function Line(r: Record): string {
    r.header + Escape(r.message) + "\n"
  }

  function Concat(records: seq<Record>): string {
    if records == [] then "" else Line(records[0]) + Concat(records[1..])
  }

  method WriteDefaulInfo(out: Stream, r: Record)
    modifies out
    ensures out.text == old(out.text) + Line(r)
  {
    out.Write(r.header);
    WriteMessage(out, r.message);
    out.Write("\n");
  }

  // ----- reading a log -----

  /** The position of the first newline that is not followed by two spaces. */
  function FirstEnd(text: string): (i: nat)
    ensures i <= |text|
    ensures i < |text| ==> text[i] == '\n'
  {
    if text == "" then 0
    else if text[0] == '\n' && !("\n  " <= text) then 0
    else FirstEnd(text[1..]) + 1
  }

  /** The text, cut behind every newline that is not followed by two spaces. */
  function Split(text: string): seq<string>
    decreases |text|
  {
    var i := FirstEnd(text);
    if text == "" then []
    else if i == |text| then [text]
    else [text[..i + 1]] + Split(text[i + 1..])
  }

  lemma {:induction false} FirstEndSkips(body: string, rest: string)
    requires Indented(body) && !("  " <= rest)
    ensures FirstEnd(body + "\n" + rest) == |body|
  {
    var text := body + "\n" + rest;
    if body == "" {
      assert text[1..] == rest;
    } else {
      FirstEndSkips(body[1..], rest);
      assert text[1..] == body[1..] + "\n" + rest;
      if body[0] == '\n' {
        assert "\n  " <= body <= text;
      }
    }
  }

  lemma BodyIndented(r: Record)
    requires HeaderOk(r.header)
    ensures Indented(r.header + Escape(r.message))
  {
    OneLine(r.header);
    OutputIsClean(r.message);
    IndentedConcat(r.header, Escape(r.message));
  }

  lemma NextStartsNonSpace(records: seq<Record>)
    requires forall i | 0 <= i < |records| :: HeaderOk(records[i].header)
    ensures !("  " <= Concat(records))
  {
    if records != [] {
      assert Concat(records)[0] == records[0].header[0];
    }
  }

  function Lines(records: seq<Record>): seq<string> {
    seq(|records|, i requires 0 <= i < |records| => Line(records[i]))
  }

  /** Cutting a log behind each newline that two spaces do not follow gives exactly the
      records that were written, whatever their messages contain. */
  lemma {:induction false} Framing(records: seq<Record>)
    requires forall i | 0 <= i < |records| :: HeaderOk(records[i].header)
    ensures Split(Concat(records)) == Lines(records)
  {
    if records != [] {
      var body, rest := records[0].header + Escape(records[0].message), Concat(records[1..]);
      Framing(records[1..]);
      BodyIndented(records[0]);
      NextStartsNonSpace(records[1..]);
      FirstEndSkips(body, rest);
      var text := Concat(records);
      assert text == body + "\n" + rest;
      assert text[..|body| + 1] == Line(records[0]) && text[|body| + 1..] == rest;
      assert Lines(records) == [Line(records[0])] + Lines(records[1..]);
    }
    hide Escape, Indented, FirstEnd;
  }

  /** What a reader who knows the header makes of a line. */
  function Read(line: string, header: string): string
    requires |header| < |line|
  {
    Decode(line[|header|..|line| - 1])
  }

  /** Every message can be read back from the log, as `RoundTrip` says. */
  lemma MessagesReadBack(records: seq<Record>, i: nat)
    requires forall j | 0 <= j < |records| :: HeaderOk(records[j].header)
    requires i < |records| && Unambiguous(Strip(records[i].message))
    ensures |Split(Concat(records))| == |records|
    ensures |records[i].header| < |Split(Concat(records))[i]|
    ensures Read(Split(Concat(records))[i], records[i].header) == Strip(records[i].message)
  {
    Framing(records);
    RoundTrip(records[i].message);
    var line, header := Line(records[i]), records[i].header;
    assert line[|header|..|line| - 1] == Escape(records[i].message);
    hide Split, Concat, Escape, Decode, Unambiguous;
  }
}
