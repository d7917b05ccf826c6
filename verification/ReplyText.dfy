/** Replies in free text, as the C library scans them, and what the sender makes of them. */
module ReplyText {
  import opened Casts
  import opened FlowControl
  import opened FlowState
  import opened MarlinPacket
  import opened SyncLine
  import opened TextSearch

  // ---- Scanning by a format ----

  predicate White(c: char) {
    c == ' ' || 9 <= c as int <= 13
  }

  function SkipWhite(text: string): (r: string)
    ensures |r| <= |text|
  {
    if text != "" && White(text[0]) then SkipWhite(text[1..]) else text
  }

  predicate IsDigit(c: char) {
    '0' <= c <= '9'
  }

  /** The digits at the beginning of a text. */
  function Digits(text: string): (r: string)
    ensures r <= text
  {
    if text == "" || !IsDigit(text[0]) then "" else [text[0]] + Digits(text[1..])
  }

  function Value(digits: string): nat
    requires forall i :: 0 <= i < |digits| ==> IsDigit(digits[i])
  {
    if digits == "" then 0 else
    var last := digits[|digits| - 1];
    assert IsDigit(last);
    10 * Value(digits[..|digits| - 1]) + (last as int - '0' as int)
  }

  lemma DigitsAreDigits(text: string)
    ensures forall i :: 0 <= i < |Digits(text)| ==> IsDigit(Digits(text)[i])
  {
  }

  /** An unsigned conversion, cut to a byte, and what follows it. limit: where a machine word overflows; a number that
      does not fit becomes the largest word. */
  function Unsigned(text: string, limit: nat): (r: Option<(byte, string)>)
    ensures r.Some? ==> |r.value.1| < |text|
  {
    var t := SkipWhite(text);
    var signed := t != "" && (t[0] == '+' || t[0] == '-');
    var digits := Digits(if signed then t[1..] else t);
    if digits == "" then None else
    DigitsAreDigits(if signed then t[1..] else t);
    var v := Value(digits);
    var b := if v >= limit then 255 else if t[0] == '-' then (0 - v as int) % 256 else v % 256;
    Some((b, (if signed then t[1..] else t)[|digits|..]))
  }

  /** The numbers a text yields up to where it departs from the format. A space stands for any white space, and
      "%u" for an unsigned number. */
  function Scan(format: string, text: string, limit: nat): seq<byte>
    decreases |format|
  {
    if format == "" then []
    else if format[0] == ' ' then Scan(format[1..], SkipWhite(text), limit)
    else if |format| >= 2 && format[..2] == "%u" then
      var r := Unsigned(text, limit);
      if r == None then [] else [r.value.0] + Scan(format[2..], r.value.1, limit)
    else if text != "" && text[0] == format[0] then Scan(format[1..], text[1..], limit)
    else []
  }

  // ---- Replies ----

  /** Words, each with a space behind it. */
  function Phrase(words: seq<string>): string {
    if words == [] then "" else words[0] + (" " + Phrase(words[1..]))
  }

  const UNEXPECTED := Phrase(["ProtoError:Sequence", "number", "is", "unexpected", "(received,", "expected):"])

  function Expected(line: string, limit: nat): Option<byte> {
    var a := Scan("Error:" + UNEXPECTED + "%u,%u", line, limit);
    var b := Scan(UNEXPECTED + "%u,%u", line, limit);
    if |a| == 2 then Some(a[1]) else if |b| == 2 then Some(b[1]) else None
  }

  const FORMATS := ["ok N%u", "ok %u", "Resend:%u", "Resend: %u", "rs N%u", "rs %u"]

  /** The number by the first format from i on that yields one. */
  function NumberIn(line: string, i: nat, limit: nat): Option<byte>
    decreases |FORMATS| - i
  {
    if i >= |FORMATS| then None else
    var r := Scan(FORMATS[i], line, limit);
    if |r| == 1 then Some(r[0]) else NumberIn(line, i + 1, limit)
  }

  predicate Holds(line: string, piece: string) {
    Find(line, piece, 0).Some?
  }

  function TextOf(line: string, limit: nat): (r: Reply)
    ensures !r.Sync? && !r.DamagedSync?
  {
    if Expected(line, limit).Some? then ProtoExpected(Expected(line, limit).value)
    else if Holds(line, "Resend") || Holds(line, "rs ") || Holds(line, "rs N") then ResendText(NumberIn(line, 0, limit))
    else if "ok" <= line then OkText(NumberIn(line, 0, limit))
    else if Holds(line, "Error") then ErrorText
    else OtherText
  }

  // ---- What controllers write ----

  function Decimal(n: nat): (r: string)
    ensures r != "" && forall i :: 0 <= i < |r| ==> IsDigit(r[i])
  {
    var last := ['0' + (n % 10) as char];
    if n < 10 then last else Decimal(n / 10) + last
  }

  lemma {:induction false} DecimalValue(n: nat)
    ensures Value(Decimal(n)) == n
  {
    if n >= 10 {
      DecimalValue(n / 10);
      assert Decimal(n)[..|Decimal(n)| - 1] == Decimal(n / 10);
    } else {
      assert Decimal(n)[..0] == "";
    }
  }

  lemma {:induction false} DigitsOf(digits: string, after: string)
    requires forall i :: 0 <= i < |digits| ==> IsDigit(digits[i])
    requires after == "" || !IsDigit(after[0])
    ensures Digits(digits + after) == digits
  {
    if digits == "" {
      assert digits + after == after;
    } else {
      DigitsOf(digits[1..], after);
      assert (digits + after)[1..] == digits[1..] + after;
    }
  }

  /** A number in decimal is read as itself, modulo 256. */
  lemma NumberRead(n: nat, after: string, limit: nat)
    requires n < limit && (after == "" || !IsDigit(after[0]))
    ensures Unsigned(Decimal(n) + after, limit) == Some((n % 256, after))
  {
    var text := Decimal(n) + after;
    assert IsDigit(text[0]);
    assert SkipWhite(text) == text;
    DigitsOf(Decimal(n), after);
    DecimalValue(n);
    assert text[|Decimal(n)|..] == after;
  }

  /** A text that stands for itself in a format. */
  predicate Spaced(lit: string) {
    lit == ""
    || (lit[0] != '%' && (White(lit[0]) ==> lit[0] == ' ' && (|lit| > 1 ==> !White(lit[1]))) && Spaced(lit[1..]))
  }

  lemma {:induction false} LiteralMatched(lit: string, format: string, text: string, limit: nat)
    requires Spaced(lit) && (text != "" && White(text[0]) && lit != "" ==> lit[|lit| - 1] != ' ')
    ensures Scan(lit + format, lit + text, limit) == Scan(format, text, limit)
    decreases |lit|
  {
    if lit == "" {
      assert lit + format == format && lit + text == text;
    } else {
      assert (lit + format)[1..] == lit[1..] + format && (lit + text)[1..] == lit[1..] + text;
      LiteralMatched(lit[1..], format, text, limit);
      if lit[0] == ' ' {
        assert SkipWhite(lit[1..] + text) == lit[1..] + text;
        assert SkipWhite(lit + text) == lit[1..] + text;
      } else if |lit + format| >= 2 {
        assert (lit + format)[..2][0] == lit[0];
      }
    }
  }

  lemma DigitFirst(n: nat, after: string)
    ensures !White((Decimal(n) + after)[0])
  {
  }

  lemma NumberScanned(n: nat, format: string, after: string, limit: nat)
    requires n < limit && (after == "" || !IsDigit(after[0]))
    ensures Scan("%u" + format, Decimal(n) + after, limit) == [n % 256] + Scan(format, after, limit)
  {
    hide Unsigned, Decimal;
    NumberRead(n, after, limit);
    assert ("%u" + format)[..2] == "%u" && ("%u" + format)[2..] == format;
  }

  predicate Solid(word: string) {
    forall i :: 0 <= i < |word| ==> word[i] != '%' && !White(word[i])
  }

  lemma {:induction false} WordBefore(word: string, tail: string)
    requires Solid(word) && Spaced(tail)
    ensures Spaced(word + tail)
    decreases |word|
  {
    if word == "" {
      assert word + tail == tail;
    } else {
      WordBefore(word[1..], tail);
      assert (word + tail)[1..] == word[1..] + tail;
    }
  }

  lemma SpaceBefore(tail: string)
    requires Spaced(tail) && (tail == "" || !White(tail[0]))
    ensures Spaced(" " + tail)
  {
    assert (" " + tail)[1..] == tail;
  }

  lemma {:induction false} PhraseIsSpaced(words: seq<string>)
    requires forall k :: 0 <= k < |words| ==> words[k] != "" && Solid(words[k])
    ensures Spaced(Phrase(words)) && (words != [] ==> !White(Phrase(words)[0]))
  {
    if words != [] {
      PhraseIsSpaced(words[1..]);
      SpaceBefore(Phrase(words[1..]));
      WordBefore(words[0], " " + Phrase(words[1..]));
    }
  }

  lemma WordsAreSolid()
    ensures Solid("ProtoError:Sequence") && Solid("number") && Solid("is")
    ensures Solid("unexpected") && Solid("(received,") && Solid("expected):") && Solid("Error:")
  {
  }

  lemma UnexpectedIsSpaced()
    ensures Spaced(UNEXPECTED) && Spaced("Error:" + UNEXPECTED)
  {
    WordsAreSolid();
    hide Spaced, Solid;
    PhraseIsSpaced(["ProtoError:Sequence", "number", "is", "unexpected", "(received,", "expected):"]);
    WordBefore("Error:", UNEXPECTED);
  }

  // ---- What the replies mean ----

  lemma TwoNumbers(a: nat, b: nat, limit: nat)
    requires a < limit && b < limit
    ensures Scan("%u,%u", Decimal(a) + ("," + Decimal(b)), limit) == [a % 256, b % 256]
  {
    assert Scan("", "", limit) == [];
    assert ("," + Decimal(b))[1..] == Decimal(b);
    assert Scan(",%u", "," + Decimal(b), limit) == Scan("%u", Decimal(b), limit) by { CommaMatched(Decimal(b), limit); }
    hide Scan, Decimal;
    NumberScanned(a, ",%u", "," + Decimal(b), limit);
    NumberScanned(b, "", "", limit);
    assert "%u" + ",%u" == "%u,%u" && "%u" + "" == "%u" && Decimal(b) + "" == Decimal(b);
  }

  lemma CommaMatched(text: string, limit: nat)
    ensures Scan(",%u", "," + text, limit) == Scan("%u", text, limit)
  {
    assert ",%u"[..2] != "%u" && ",%u"[1..] == "%u" && ("," + text)[1..] == text;
  }

  lemma NotAnError(text: string, format: string, limit: nat)
    ensures Scan("Error:" + format, UNEXPECTED + text, limit) == []
  {
    assert UNEXPECTED[0] == 'P' && ("Error:" + format)[0] == 'E' && ("Error:" + format)[..2][0] == 'E';
  }

  /** The report of a lost link, with or without the word Error in front, gives the number that was expected. */
  lemma ExpectedRead(received: nat, expected: nat, limit: nat)
    requires received < limit && expected < limit
    ensures var text := UNEXPECTED + (Decimal(received) + ("," + Decimal(expected)));
      && TextOf(text, limit) == ProtoExpected(expected % 256)
      && TextOf("Error:" + text, limit) == ProtoExpected(expected % 256)
  {
    hide Scan, Unsigned, Decimal, Spaced;
    var numbers := Decimal(received) + ("," + Decimal(expected));
    TwoNumbers(received, expected, limit);
    UnexpectedIsSpaced();
    DigitFirst(received, "," + Decimal(expected));
    LiteralMatched(UNEXPECTED, "%u,%u", numbers, limit);
    LiteralMatched("Error:" + UNEXPECTED, "%u,%u", numbers, limit);
    assert "Error:" + (UNEXPECTED + numbers) == ("Error:" + UNEXPECTED) + numbers;
    NotAnError(numbers, UNEXPECTED + "%u,%u", limit);
    assert "Error:" + UNEXPECTED + "%u,%u" == "Error:" + (UNEXPECTED + "%u,%u");
  }

  lemma NotHeld(line: string, piece: string)
    requires piece != "" && piece[0] !in line
    ensures !Holds(line, piece)
  {
    if Holds(line, piece) {
      CharAt(line, Find(line, piece, 0).value, piece, 0);
    }
  }

  lemma HeldInFront(line: string, piece: string)
    requires piece <= line
    ensures Holds(line, piece)
  {
    assert line[0..|piece|] == piece;
    assert At(line, 0, piece);
  }

  /** A line that begins with another letter reports no expected number. */
  lemma NoReport(line: string, limit: nat)
    requires line != "" && line[0] != 'E' && line[0] != 'P'
    ensures Expected(line, limit) == None
  {
    assert UNEXPECTED[0] == 'P' && (UNEXPECTED + "%u,%u")[0] == 'P' && (UNEXPECTED + "%u,%u")[..2][0] == 'P';
    assert ("Error:" + UNEXPECTED + "%u,%u")[0] == 'E' && ("Error:" + UNEXPECTED + "%u,%u")[..2][0] == 'E';
  }

  lemma NumberBehind(lit: string, n: nat, limit: nat)
    requires n < limit && Spaced(lit)
    ensures Scan(lit + "%u", lit + Decimal(n), limit) == [n % 256]
  {
    assert Scan("", "", limit) == [];
    assert Decimal(n) + "" == Decimal(n) && "%u" + "" == "%u";
    DigitFirst(n, "");
    hide Scan, Decimal;
    LiteralMatched(lit, "%u", Decimal(n), limit);
    NumberScanned(n, "", "", limit);
  }

  lemma ShortWordsAreSpaced()
    ensures Spaced("ok N") && Spaced("ok ") && Spaced("Resend:") && Spaced("rs N") && Spaced("rs ")
  {
  }

  /** A format that departs from the text at its first letter. */
  lemma OtherLetter(format: string, text: string, limit: nat)
    requires format != "" && text != "" && format[0] != text[0] && format[0] != ' ' && format[0] != '%'
    ensures Scan(format, text, limit) == []
  {
    if |format| >= 2 {
      assert format[..2][0] == format[0];
    }
  }

  lemma NoLetterN(lit: string, digits: string, limit: nat)
    requires (lit == "ok " || lit == "rs ") && digits != "" && forall i :: 0 <= i < |digits| ==> IsDigit(digits[i])
    ensures Scan(lit + "N%u", lit + digits, limit) == []
  {
    assert !White(digits[0]);
    ShortWordsAreSpaced();
    LiteralMatched(lit, "N%u", digits, limit);
    OtherLetter("N%u", digits, limit);
  }

  /** The first format that yields one number decides. */
  lemma {:induction false} FirstFormat(line: string, i: nat, k: nat, v: byte, limit: nat)
    requires i <= k < |FORMATS| && Scan(FORMATS[k], line, limit) == [v]
    requires forall j :: i <= j < k ==> Scan(FORMATS[j], line, limit) == []
    ensures NumberIn(line, i, limit) == Some(v)
    decreases k - i
  {
    hide Scan;
    if i < k {
      FirstFormat(line, i + 1, k, v, limit);
    }
  }

  lemma OtherFormats(line: string, limit: nat)
    requires line != ""
    ensures line[0] != 'o' ==> forall j :: 0 <= j < 2 ==> Scan(FORMATS[j], line, limit) == []
    ensures line[0] != 'R' ==> forall j :: 2 <= j < 4 ==> Scan(FORMATS[j], line, limit) == []
  {
    hide Scan;
    if line[0] != 'o' {
      OtherLetter("ok N%u", line, limit);
      OtherLetter("ok %u", line, limit);
    }
    if line[0] != 'R' {
      OtherLetter("Resend:%u", line, limit);
      OtherLetter("Resend: %u", line, limit);
    }
  }

  lemma SpaceThenNumber(n: nat, limit: nat)
    requires n < limit
    ensures Scan("%u", " " + Decimal(n), limit) == [n % 256]
  {
    var text := Decimal(n);
    assert text + "" == text && (" " + text)[1..] == text && SkipWhite(" " + text) == SkipWhite(text);
    NumberRead(n, "", limit);
    assert Unsigned(" " + text, limit) == Unsigned(text, limit);
    assert "%u"[..2] == "%u" && "%u"[2..] == "";
  }

  lemma FormatsAre()
    ensures FORMATS[0] == "ok N" + "%u" == "ok " + "N%u" && FORMATS[1] == "ok " + "%u"
    ensures FORMATS[2] == "Resend:" + "%u"
    ensures FORMATS[4] == "rs N" + "%u" == "rs " + "N%u" && FORMATS[5] == "rs " + "%u"
  {
  }

  lemma OkLine(line: string, k: nat, v: byte, limit: nat)
    requires "ok" <= line && 'R' !in line && 'r' !in line && k < 2 && Scan(FORMATS[k], line, limit) == [v]
    requires k == 1 ==> Scan(FORMATS[0], line, limit) == []
    ensures TextOf(line, limit) == OkText(Some(v))
  {
    NoReport(line, limit);
    NotHeld(line, "Resend");
    NotHeld(line, "rs ");
    NotHeld(line, "rs N");
    hide Scan, Expected, Holds;
    FirstFormat(line, 0, k, v, limit);
  }

  lemma ResendLine(line: string, word: string, k: nat, v: byte, limit: nat)
    requires word in ["Resend", "rs ", "rs N"] && word <= line && k < |FORMATS|
    requires Scan(FORMATS[k], line, limit) == [v]
    requires if line[0] == 'R' then k == 2 else k == 4 || (k == 5 && Scan(FORMATS[4], line, limit) == [])
    ensures TextOf(line, limit) == ResendText(Some(v))
  {
    NoReport(line, limit);
    HeldInFront(line, word);
    hide Scan, Expected, Holds;
    OtherFormats(line, limit);
    FirstFormat(line, 0, k, v, limit);
  }

  /** A number behind ok, with or without an N. */
  lemma OkNumbered(n: nat, limit: nat)
    requires n < limit
    ensures TextOf("ok N" + Decimal(n), limit) == OkText(Some(n % 256)) == TextOf("ok " + Decimal(n), limit)
  {
    var digits := Decimal(n);
    OkWords(digits);
    ShortWordsAreSpaced();
    FormatsAre();
    hide Decimal, Spaced, Scan, TextOf;
    NumberBehind("ok N", n, limit);
    OkLine("ok N" + digits, 0, n % 256, limit);
    NumberBehind("ok ", n, limit);
    NoLetterN("ok ", digits, limit);
    OkLine("ok " + digits, 1, n % 256, limit);
  }

  lemma OkWords(digits: string)
    requires forall i :: 0 <= i < |digits| ==> IsDigit(digits[i])
    ensures "ok" <= "ok N" + digits && 'R' !in "ok N" + digits && 'r' !in "ok N" + digits
    ensures "ok" <= "ok " + digits && 'R' !in "ok " + digits && 'r' !in "ok " + digits
  {
  }

  /** A number behind Resend, with or without a space. */
  lemma ResendNumbered(n: nat, limit: nat)
    requires n < limit
    ensures TextOf("Resend:" + Decimal(n), limit) == ResendText(Some(n % 256))
    ensures TextOf("Resend:" + (" " + Decimal(n)), limit) == ResendText(Some(n % 256))
  {
    ShortWordsAreSpaced();
    FormatsAre();
    assert forall tail: string :: "Resend" <= "Resend:" + tail;
    hide Decimal, Spaced, Scan, TextOf;
    NumberBehind("Resend:", n, limit);
    ResendLine("Resend:" + Decimal(n), "Resend", 2, n % 256, limit);
    SpaceThenNumber(n, limit);
    LiteralMatched("Resend:", "%u", " " + Decimal(n), limit);
    ResendLine("Resend:" + (" " + Decimal(n)), "Resend", 2, n % 256, limit);
  }

  /** Or behind the short word for it. */
  lemma ShortResendNumbered(n: nat, limit: nat)
    requires n < limit
    ensures TextOf("rs N" + Decimal(n), limit) == ResendText(Some(n % 256)) == TextOf("rs " + Decimal(n), limit)
  {
    ShortWordsAreSpaced();
    FormatsAre();
    hide Decimal, Spaced, Scan, TextOf;
    NumberBehind("rs N", n, limit);
    ResendLine("rs N" + Decimal(n), "rs N", 4, n % 256, limit);
    NumberBehind("rs ", n, limit);
    NoLetterN("rs ", Decimal(n), limit);
    ResendLine("rs " + Decimal(n), "rs ", 5, n % 256, limit);
  }

  // ---- A line heard ----

  /** A line as it is understood: a numbered reply if it is one, and else free text. */
  function Understood(line: string, limit: nat): Reply {
    if Parse(line) == None then TextOf(line, limit) else Parse(line).value
  }

  method Hear(flow: Flow, line: string, limit: nat) returns (outcome: Outcome)
    requires flow.Valid()
    modifies flow, flow.slots
    ensures flow.Valid() && (flow.Model(), outcome) == Handle(old(flow.Model()), Understood(line, limit))
  {
    outcome := flow.HandleResponse(line, TextOf(line, limit));
  }

  /** Whatever was in flight: after the controller's report of the number it expects and a resynchronisation, the next
      packet carries that number. */
  lemma LostLinkResumes(st: State, received: nat, expected: byte, command: string, room: nat, limit: nat)
    requires |st.slots| == WINDOW && |command| <= 255 && |command| + 6 <= room
    requires received < limit && expected < limit
    ensures var line := "Error:" + (UNEXPECTED + (Decimal(received) + ("," + Decimal(expected))));
      && Parse(line) == None && Handle(st, Understood(line, limit)).1 == ExpectedReported
      && Prepare(Resync(Handle(st, Understood(line, limit)).0), command, room).1 == Ready(expected)
  {
    hide TextOf, Decimal, Phrase, Resync, Prepare, Parse;
    ExpectedRead(received, expected, limit);
    ReportIsText(Decimal(received) + ("," + Decimal(expected)));
    NextIsExpected(st, expected, command, room);
  }

  lemma ReportIsText(numbers: string)
    ensures Parse("Error:" + (UNEXPECTED + numbers)) == None
  {
    assert ("Error:" + (UNEXPECTED + numbers))[0] == 'E';
  }

  lemma NextIsExpected(st: State, expected: byte, command: string, room: nat)
    requires |st.slots| == WINDOW && |command| <= 255 && |command| + 6 <= room
    ensures Handle(st, ProtoExpected(expected)).1 == ExpectedReported
    ensures Prepare(Resync(Handle(st, ProtoExpected(expected)).0), command, room).1 == Ready(expected)
  {
  }
}
