/** The text of log records: how `LogEventHandler` writes a message, and that what it writes
    can be read back. Characters are classified as in the "C" locale. */
module LogText {

  predicate IsSpace(c: char) {
    c == ' ' || '\t' <= c <= '\r'
  }

  /** Control characters other than white space. */
  predicate IsControl(c: char) {
    (c < ' ' || c as int == 127) && !IsSpace(c)
  }

  function HexDigit(n: nat): (c: char)
    requires n < 16
  {
    "0123456789abcdef"[n]
  }

  /** Two hexadecimal digits after a percent sign. */
  function Percent(c: char): string
    requires IsControl(c)
  {
    ['%', HexDigit(c as int / 16), HexDigit(c as int % 16)]
  }

  // ----- writing -----

  /** What `WriteMessage` writes for character c; `last` if nothing follows it. */
  function Written(c: char, last: bool): string {
    if c == '\r' then ""
    else if c == '\n' then (if last then "" else "\n  ")
    else if IsControl(c) then Percent(c)
    else [c]
  }

  function Escape(message: string): string {
    if message == "" then ""
    else Written(message[0], |message| == 1) + Escape(message[1..])
  }

  class Stream {
    var text: string

    constructor ()
      ensures text == ""
    {
      text := "";
    }

    method Write(more: string)
      modifies this
      ensures text == old(text) + more
    {
      text := text + more;
    }
  }

  lemma EscapeFrom(buf: string, ch: nat)
    requires ch < |buf|
    ensures Escape(buf[ch..]) == Written(buf[ch], ch + 1 == |buf|) + Escape(buf[ch + 1..])
  {
    assert buf[ch..][1..] == buf[ch + 1..];
  }

  method WriteMessage(out: Stream, buf: string)
    modifies out
    ensures out.text == old(out.text) + Escape(buf)
  {
    hide Escape, HexDigit;
    var ch := 0;
    ghost var done: string := "";
    assert buf[0..] == buf;
    while ch != |buf|
      invariant 0 <= ch <= |buf|
      invariant out.text == old(out.text) + done && Escape(buf) == done + Escape(buf[ch..])
      decreases |buf| - ch
    {
      var c := buf[ch];
      EscapeFrom(buf, ch);
      done := done + Written(c, ch + 1 == |buf|);
      if '\r' == c {
      } else if '\n' == c {
        ch := ch + 1;
        if ch == |buf| {
          break; // end of buffer: do nothing
        }
        ch := ch - 1;
        out.Write("\n");
        out.Write("  ");
      } else if IsControl(c) {
        out.Write(['%', HexDigit(c as int / 16), HexDigit(c as int % 16)]);
      } else {
        out.Write([c]);
      }
      ch := ch + 1;
    }
    EscapeEnd(buf);
  }

  lemma EscapeEnd(buf: string)
    ensures Escape(buf[|buf|..]) == ""
  {
  }

  // ----- reading back -----

  function NoReturns(text: string): string {
    if text == "" then ""
    else (if text[0] == '\r' then "" else [text[0]]) + NoReturns(text[1..])
  }

  function Chomp(message: string): string {
    if message != "" && message[|message| - 1] == '\n' then message[..|message| - 1] else message
  }

  /** What of a message is kept: a newline at its very end and all carriage returns are not. */
  function Strip(message: string): string {
    NoReturns(Chomp(message))
  }

  function HexValue(c: char): int {
    if '0' <= c <= '9' then c as int - '0' as int
    else if 'a' <= c <= 'f' then c as int - 'a' as int + 10
    else -1
  }

  /** The text starts with a percent sign and the code of a control character. */
  predicate StartsWithCode(text: string) {
    && |text| >= 3 && text[0] == '%' && HexValue(text[1]) >= 0 && HexValue(text[2]) >= 0
    && IsControl(CodeAt(text))
  }

  function CodeAt(text: string): char
    requires |text| >= 3 && HexValue(text[1]) >= 0 && HexValue(text[2]) >= 0
  {
    (HexValue(text[1]) * 16 + HexValue(text[2])) as char
  }

  /** A reader's view: a newline and two spaces are a newline, a control code is the control
      character, everything else is itself. */
  function Decode(text: string): string
    decreases |text|
  {
    if text == "" then ""
    else if "\n  " <= text then "\n" + Decode(text[3..])
    else if StartsWithCode(text) then [CodeAt(text)] + Decode(text[3..])
    else [text[0]] + Decode(text[1..])
  }

  /** Nothing in the text could be mistaken for a control code. */
  predicate Unambiguous(text: string) {
    text == "" || (!StartsWithCode(text) && Unambiguous(text[1..]))
  }

  // ----- round trip -----

  lemma ChompStep(message: string)
    requires |message| > 1
    ensures Chomp(message) == [message[0]] + Chomp(message[1..])
  {
    var rest := message[1..];
    assert rest[|rest| - 1] == message[|message| - 1];
  }

  lemma NoReturnsStep(c: char, rest: string)
    ensures NoReturns([c] + rest) == (if c == '\r' then "" else [c]) + NoReturns(rest)
  {
    assert ([c] + rest)[1..] == rest;
  }

  lemma {:induction false} EscapeOfStrip(message: string)
    ensures Escape(message) == Plainly(Strip(message))
  {
    if |message| > 1 {
      EscapeOfStrip(message[1..]);
      ChompStep(message);
      NoReturnsStep(message[0], Chomp(message[1..]));
      assert "" + Strip(message[1..]) == Strip(message[1..]);
    } else if |message| == 1 {
      var c := message[0];
      assert message == [c] + "" && message[1..] == "";
      NoReturnsStep(c, "");
    }
    hide IsControl, Chomp;
  }

  /** The escapes of a text that has nothing to be stripped. */
  function Plainly(text: string): string {
    if text == "" then "" else Written(text[0], false) + Plainly(text[1..])
  }

  /** Only a hexadecimal digit of the text itself yields one at the front of the output. */
  lemma PlainlyDigit(text: string)
    requires '\r' !in text
    ensures Plainly(text) != "" && HexValue(Plainly(text)[0]) >= 0 ==>
      text != "" && text[0] == Plainly(text)[0] && Plainly(text)[1..] == Plainly(text[1..])
    ensures text != "" && HexValue(text[0]) >= 0 ==>
      Plainly(text) == [text[0]] + Plainly(text[1..])
  {
  }

  lemma CodeShows(text: string)
    requires '\r' !in text && text != "" && text[0] == '%'
    ensures StartsWithCode("%" + Plainly(text[1..])) <==> StartsWithCode(text)
  {
    hide IsControl, HexValue, Plainly, Written;
    var rest := text[1..];
    PlainlyDigit(rest);
    if rest != "" {
      PlainlyDigit(rest[1..]);
      assert rest[1..] == text[2..];
      if |text| > 2 {
        assert text[2..][1..] == text[3..];
      }
    }
  }

  lemma DecodeCode(c: char, rest: string)
    requires IsControl(c)
    ensures Decode(Percent(c) + rest) == [c] + Decode(rest)
  {
    var hi, lo := c as int / 16, c as int % 16;
    assert HexValue(HexDigit(hi)) == hi && HexValue(HexDigit(lo)) == lo;
    hide HexValue, HexDigit, IsControl;
    var text := Percent(c) + rest;
    assert text[1] == Percent(c)[1] && text[2] == Percent(c)[2] && text[3..] == rest;
  }

  /** A percent sign in front is read as itself unless a control code begins there. */
  lemma DecodePercent(rest: string)
    ensures var text := "%" + rest;
      if StartsWithCode(text) then Decode(text) != "" && Decode(text)[0] != '%'
      else Decode(text) == "%" + Decode(rest)
  {
    assert !IsControl('%');
    hide HexValue, IsControl;
    assert ("%" + rest)[1..] == rest;
  }

  /** Decoding the escapes of a text gives the text back exactly when nothing in it could be
      mistaken for a control code. */
  lemma {:induction false} DecodePlainly(text: string)
    requires '\r' !in text
    ensures Decode(Plainly(text)) == text <==> Unambiguous(text)
    decreases |text|
  {
    if text != "" {
      var c, rest := text[0], text[1..];
      DecodePlainly(rest);
      assert text == [c] + rest;
      if c == '\n' {
      } else if IsControl(c) {
        DecodeCode(c, Plainly(rest));
      } else if c == '%' {
        CodeShows(text);
        DecodePercent(Plainly(rest));
      } else {
        assert Plainly(text) == [c] + Plainly(rest);
        assert Plainly(text)[1..] == Plainly(rest);
      }
    }
    hide HexValue, HexDigit;
  }

  lemma {:induction false} NoReturnsLeft(text: string)
    ensures '\r' !in NoReturns(text)
    ensures forall c | c in NoReturns(text) :: c in text
    ensures '\r' !in text ==> NoReturns(text) == text
  {
    if text != "" {
      NoReturnsLeft(text[1..]);
    }
  }

  /** A reader gets the message back, without carriage returns and a final newline, exactly
      when what is kept of it contains no percent sign followed by the two lower-case
      hexadecimal digits of a control character. */
  lemma RoundTrip(message: string)
    ensures Decode(Escape(message)) == Strip(message) <==> Unambiguous(Strip(message))
  {
    EscapeOfStrip(message);
    NoReturnsLeft(Chomp(message));
    DecodePlainly(Strip(message));
  }

  lemma {:induction false} NoPercentSign(text: string)
    requires '%' !in text
    ensures Unambiguous(text)
  {
    if text != "" {
      NoPercentSign(text[1..]);
    }
  }

  lemma RoundTripWithoutPercent(message: string)
    requires '%' !in message
    ensures Decode(Escape(message)) == Strip(message)
  {
    NoReturnsLeft(Chomp(message));
    NoPercentSign(Strip(message));
    RoundTrip(message);
  }

  /** Two different messages that are written alike. */
  lemma Ambiguity()
    ensures Strip("%07") != Strip([7 as char]) && Escape("%07") == Escape([7 as char]) == "%07"
  {
    NoReturnsLeft("%07");
    NoReturnsLeft([7 as char]);
    assert "%07"[1..] == "07" && "07"[1..] == "7" && "7"[1..] == "" && [7 as char][1..] == "";
    assert Escape("7") == "7";
    assert Escape("07") == "07";
  }

  /** Each newline of the text is followed by two spaces. */
  predicate Indented(text: string) {
    text == "" || ((text[0] == '\n' ==> "\n  " <= text) && Indented(text[1..]))
  }

  lemma {:induction false} IndentedConcat(a: string, b: string)
    requires Indented(a) && Indented(b)
    ensures Indented(a + b)
  {
    if a == "" {
      assert a + b == b;
    } else {
      IndentedConcat(a[1..], b);
      assert (a + b)[1..] == a[1..] + b;
    }
  }

  lemma {:induction false} OneLine(text: string)
    requires '\n' !in text
    ensures Indented(text)
  {
    if text != "" {
      OneLine(text[1..]);
    }
  }

  /** Printable, or tab, newline, vertical tab or form feed, by code point. */
  predicate Clean(d: char) {
    var n := d as int;
    32 <= n <= 126 || n > 127 || n == 9 || n == 10 || n == 11 || n == 12
  }

  lemma WrittenIsClean(c: char, last: bool)
    ensures forall d | d in Written(c, last) :: d != '\r' && !IsControl(d) && Clean(d)
    ensures Clean(c) && c as int != 10 ==> Written(c, last) == [c]
    ensures Indented(Written(c, last))
  {
    if c == '\n' && !last {
      assert "\n  "[1..] == "  ";
      OneLine("  ");
    } else {
      OneLine(Written(c, last));
    }
  }

  /** The output holds no carriage return and no control character that is not white space:
      every character is printable or one of tab, newline, vertical tab and form feed. Each
      newline is followed by two spaces. */
  lemma {:induction false} OutputIsClean(message: string)
    ensures forall d | d in Escape(message) :: d != '\r' && !IsControl(d) && Clean(d)
    ensures Indented(Escape(message))
  {
    if message != "" {
      OutputIsClean(message[1..]);
      WrittenIsClean(message[0], |message| == 1);
      IndentedConcat(Written(message[0], |message| == 1), Escape(message[1..]));
    }
    hide IsControl, Written, Indented, Clean;
  }

  /** A message of such characters without a newline is written as it is. */
  lemma {:induction false} CleanIsKept(message: string)
    requires forall d | d in message :: Clean(d) && d as int != 10
    ensures Escape(message) == message
  {
    if message != "" {
      CleanIsKept(message[1..]);
      WrittenIsClean(message[0], |message| == 1);
      assert message[0] in message && message == [message[0]] + message[1..];
    }
  }
}
