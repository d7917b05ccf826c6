/** Reading a G-code file through a small buffer, one command at a time. */
module GcodeStream {
  import opened MarlinPacket
  import opened GcodeRewrite

  const LINE := 256
  const BUFFER := 512
  const NUL: char := '\0'

  // ---- What the file means, read all at once ----

  function DropReturns(s: string): string {
    if s == "" then "" else (if s[0] == '\r' then "" else [s[0]]) + DropReturns(s[1..])
  }

  /** A line as the fixed line buffer holds it. */
  function Fitted(s: string): (r: string)
    ensures |r| < LINE
  {
    var t := DropReturns(s);
    if |t| < LINE then t else t[..LINE - 1]
  }

  function UpTo(s: string, c: char): (r: string)
    ensures r <= s && c !in r
    ensures |r| < |s| ==> s[|r|] == c
    ensures |r| == |s| <==> c !in s
  {
    if s == "" || s[0] == c then "" else [s[0]] + UpTo(s[1..], c)
  }

  function TrimRight(s: string): (r: string)
    ensures r <= s
  {
    if s == "" || !IsSpace(s[|s| - 1]) then s else TrimRight(s[..|s| - 1])
  }

  /** The line without indentation, comment and trailing blanks; empty when nothing is left. */
  function Payload(line: string): string {
    TrimRight(UpTo(SkipSpace(line), ';'))
  }

  /** A command and the heater its sender has to wait for after it. */
  datatype Item = Item(command: string, waitBed: bool, waitNozzle: bool, target: real)

  function Plain(commands: seq<string>): seq<Item> {
    seq(|commands|, i requires 0 <= i < |commands| => Item(commands[i], false, false, 0.0))
  }

  /** Only the first command of a rewritten line carries the line's wait. */
  function Items(r: Rewritten): seq<Item> {
    if r.commands == [] then []
    else [Item(r.commands[0], r.waitBed, r.waitNozzle, r.target)] + Plain(r.commands[1..])
  }

  function PayloadItems(libc: Libc, payload: string): seq<Item> {
    if payload == "" then [] else Items(Rewrite(libc, payload))
  }

  function LineItems(libc: Libc, line: string): seq<Item> {
    PayloadItems(libc, Payload(line))
  }

  /** The commands of all complete lines. */
  function Batch(libc: Libc, content: string): seq<Item>
    decreases |content|
  {
    var line := UpTo(content, '\n');
    if |line| == |content| then []
    else LineItems(libc, Fitted(line)) + Batch(libc, content[|line| + 1..])
  }

  predicate Terminated(content: string) {
    content == "" || content[|content| - 1] == '\n'
  }

  predicate NulFree(content: string) {
    forall i :: 0 <= i < |content| ==> content[i] != NUL
  }

  // ---- C strings ----

  /** The string in a buffer: everything before the first NUL. */
  function CString(buffer: seq<char>): string {
    UpTo(buffer, NUL)
  }

  lemma {:induction false} CStringOf(text: string, rest: seq<char>)
    requires NulFree(text)
    ensures CString(text + [NUL] + rest) == text
  {
    if text == "" {
      assert text + [NUL] + rest == [NUL] + rest;
    } else {
      CStringOf(text[1..], rest);
      assert (text + [NUL] + rest)[1..] == text[1..] + [NUL] + rest;
    }
  }

  // ---- The stream ----

  /** The line buffer once text has been stored in it, before any terminator. */
  function Partial(text: string, before: seq<char>): seq<char>
    requires |text| < |before|
  {
    if text == "" then [NUL] + before[1..] else text + before[|text|..]
  }

  // ---- The line buffer, from line to line ----

  /** The buffer once a complete line has been stored in it. */
  function Stored(text: string, before: seq<char>): (r: seq<char>)
    requires |text| < |before|
    ensures |r| == |before|
  {
    text + [NUL] + before[|text| + 1..]
  }

  function Nuls(n: nat): (r: string)
    ensures |r| == n
  {
    seq(n, _ => NUL)
  }

  /** The buffer with the text from i on cut to len, up to the comment or the end of the line at end. */
  function Cleared(b: seq<char>, i: nat, end: nat, len: nat): (r: seq<char>)
    requires i + len <= end <= |CString(b)|
    ensures |r| == |b|
  {
    b[..i + len] + Nuls(end - i - len) + if end < |CString(b)| then [NUL] + b[end + 1..] else b[end..]
  }

  /** The same with the text moved to the front. */
  function Moved(b: seq<char>, i: nat, end: nat, len: nat): (r: seq<char>)
    requires i + len <= end <= |CString(b)|
    ensures |r| == |b|
  {
    if i == 0 then Cleared(b, i, end, len) else b[i..i + len] + [NUL] + Cleared(b, i, end, len)[len + 1..]
  }

  /** The buffer once the line in it has been stripped in place: comment and trailing blanks overwritten, the rest
      moved to the front. A blank line or a mere comment stays as it is. */
  function Stripped(b: seq<char>): (r: seq<char>)
    ensures |r| == |b|
  {
    var s := CString(b);
    var body, i := UpTo(SkipSpace(s), ';'), |s| - |SkipSpace(s)|;
    var t := TrimRight(body);
    if t == "" then b else Moved(b, i, i + |body|, |t|)
  }

  /** A command written over the front of the buffer. */
  function Put(b: seq<char>, command: string): (r: seq<char>)
    ensures |r| == |b|
  {
    if |command| < |b| then command + [NUL] + b[|command| + 1..]
    else if |b| == 0 then b else command[..|b| - 1] + [NUL]
  }

  function PutAll(b: seq<char>, commands: seq<string>): (r: seq<char>)
    ensures |r| == |b|
    decreases |commands|
  {
    if commands == [] then b else PutAll(Put(b, commands[0]), commands[1..])
  }

  /** The commands the line in the buffer expands to. */
  function Expanded(libc: Libc, payload: string): seq<string> {
    if payload == "" then [] else Rewrite(libc, payload).commands
  }

  /** The buffer when the line in it has been used up. */
  function Consumed(libc: Libc, b: seq<char>): (r: seq<char>)
    ensures |r| == |b|
  {
    PutAll(Stripped(b), Expanded(libc, Payload(CString(b))))
  }

  /** What a file means that is read through a line buffer with these contents: a last line without a newline is
      read on into what earlier lines have left there. */
  function Whole(libc: Libc, content: string, buffer: seq<char>): seq<Item>
    requires |buffer| == LINE
    decreases |content|
  {
    var raw := UpTo(content, '\n');
    var text := Fitted(raw);
    if |raw| < |content| then
      var read := Stored(text, buffer);
      LineItems(libc, CString(read)) + Whole(libc, content[|raw| + 1..], Consumed(libc, read))
    else if text == "" then []
    else LineItems(libc, CString(Partial(text, buffer)))
  }

  /** What reading a line does to the unread input and to the line buffer. */
  ghost predicate LineRead(start: string, before: seq<char>, result: ReadResult, line: seq<char>, rest: string)
    requires |before| == LINE
  {
    var raw := UpTo(start, '\n');
    var text := Fitted(raw);
    FittedShort(raw);
    if |raw| < |start| then
      result == Got && line == text + [NUL] + before[|text| + 1..] && rest == start[|raw| + 1..]
    else
      (result == Got <==> text != "") && line == Partial(text, before) && rest == ""
  }

  datatype ReadResult = Got | AtEnd | Failed

  class Stream {
    const libc: Libc
    const file: string
    /** no read from the device fails */
    const reliable: bool
    var offset: nat
    const readBuffer: array<char>
    var readPos: nat
    var readLen: nat
    var eof: bool
    var lineNumber: nat
    const hasPrime: bool
    var pending: seq<string>
    var pendingIndex: nat
    var waitBed: bool
    var waitNozzle: bool
    var waitTarget: real
    /** some read from the device has failed */
    ghost var failed: bool

    ghost predicate Valid()
      reads this
    {
      && readBuffer.Length == BUFFER && readPos <= readLen <= BUFFER && offset <= |file|
      && (eof ==> offset == |file|)
      && pendingIndex <= |pending| <= MAX_COMMANDS
      && (reliable ==> !failed)
    }

    /** What has not been consumed yet: the rest of the buffer, then the rest of the file. */
    ghost function Unread(): string
      requires Valid()
      reads this, readBuffer
    {
      readBuffer[readPos..readLen] + file[offset..]
    }

    /** The commands still to come, with these contents of the caller's line buffer. */
    ghost function Meaning(buffer: seq<char>): seq<Item>
      requires Valid() && |buffer| == LINE
      reads this, readBuffer
    {
      var left := pending[pendingIndex..];
      Plain(left) + Whole(libc, Unread(), PutAll(buffer, left))
    }

    /** The commands still to come of a file whose lines are all complete. */
    ghost function Remaining(): seq<Item>
      requires Valid()
      reads this, readBuffer
    {
      Plain(pending[pendingIndex..]) + Batch(libc, Unread())
    }

    constructor (libc: Libc, file: string, hasPrime: bool, reliable: bool)
      ensures Valid() && fresh(readBuffer) && !failed
      ensures this.libc == libc && this.file == file && this.hasPrime == hasPrime && this.reliable == reliable
      ensures Unread() == file && Remaining() == Batch(libc, file)
      ensures pending == [] && pendingIndex == 0
    {
      this.libc, this.file, this.hasPrime, this.reliable := libc, file, hasPrime, reliable;
      offset, readPos, readLen, eof, lineNumber := 0, 0, 0, false, 0;
      pending, pendingIndex := [], 0;
      waitBed, waitNozzle, waitTarget, failed := false, false, 0.0, false;
      readBuffer := new char[BUFFER];
    }

    /** One read from the device: any nonempty piece of what is left, nothing at the end, or, unless the device is
        reliable, a failure. */
    method Fill() returns (result: ReadResult)
      requires Valid() && readPos == readLen && !eof
      modifies this`offset, this`readPos, this`readLen, this`eof, this`failed, readBuffer
      ensures Valid() && Unread() == old(Unread())
      ensures result == Got ==> readPos < readLen
      ensures result == AtEnd ==> eof && Unread() == ""
      ensures failed == (old(failed) || result == Failed)
    {
      var broken: bool := *;
      if broken && !reliable {
        failed := true;
        return Failed;
      }
      if offset == |file| {
        eof := true;
        return AtEnd;
      }
      var n: nat :| 0 < n <= BUFFER && n <= |file| - offset;
      forall i | 0 <= i < n {
        readBuffer[i] := file[offset + i];
      }
      assert readBuffer[0..n] == file[offset..offset + n];
      assert file[offset..] == file[offset..offset + n] + file[offset + n..];
      readPos, readLen, offset := 0, n, offset + n;
      return Got;
    }

    method ReadChar() returns (result: ReadResult, c: char)
      requires Valid()
      modifies this`offset, this`readPos, this`readLen, this`eof, this`failed, readBuffer
      ensures Valid()
      ensures result == Got ==> old(Unread()) == [c] + Unread()
      ensures result == AtEnd ==> old(Unread()) == "" && Unread() == ""
      ensures failed == (old(failed) || result == Failed)
    {
      c := NUL;
      if readPos >= readLen {
        if eof {
          return AtEnd, c;
        }
        result := Fill();
        if result != Got {
          return;
        }
      }
      c := readBuffer[readPos];
      assert readBuffer[readPos..readLen] == [c] + readBuffer[readPos + 1..readLen];
      readPos := readPos + 1;
      return Got, c;
    }

    /** A line without its newline, in the caller's buffer. At the end of the file the text is left
        without a terminating NUL. */
    method ReadLine(line: array<char>) returns (result: ReadResult)
      requires Valid() && line.Length == LINE && line != readBuffer
      modifies this`offset, this`readPos, this`readLen, this`eof, this`failed, readBuffer, line
      ensures Valid()
      ensures failed == (old(failed) || result == Failed)
      ensures result != Failed ==> LineRead(old(Unread()), old(line[..]), result, line[..], Unread())
    {
      hide Fitted, Batch, Partial, LineRead, UpTo;
      ghost var start, before := Unread(), line[..];
      var len := 0;
      ghost var seen := "";
      line[0] := NUL;
      PartialEmpty(before);
      while true
        invariant Valid() && 0 <= len < LINE
        invariant failed == old(failed)
        invariant start == seen + Unread() && '\n' !in seen
        invariant len == |Fitted(seen)| && line[..] == Partial(Fitted(seen), before)
        decreases |Unread()|
      {
        var c;
        result, c := ReadChar();
        if result == Failed {
          return;
        }
        if result == AtEnd {
          FileEnds(seen, before);
          assert seen == start;
          return if len > 0 then Got else AtEnd;
        }
        Shift(seen, c, Unread());
        if c == '\n' {
          line[len] := NUL;
          LineEnds(seen, Unread(), before);
          return Got;
        }
        CharStored(seen, c, before);
        seen := seen + [c];
        if c != '\r' && len + 1 < LINE {
          line[len] := c;
          len := len + 1;
        }
      }
    }

    /** Reads one line and strips it. */
    method NextPayload(line: array<char>) returns (got: bool, payload: string)
      requires Valid() && line.Length == LINE && line != readBuffer
      modifies this`offset, this`readPos, this`readLen, this`eof, this`failed, this`lineNumber, readBuffer, line
      ensures Valid() && (got ==> failed == old(failed))
      ensures got ==> |Unread()| < |old(Unread())| && (Complete(old(Unread())) ==> Complete(Unread()))
      ensures got ==>
        Whole(libc, old(Unread()), old(line[..]))
        == PayloadItems(libc, payload) + Whole(libc, Unread(), PutAll(line[..], Expanded(libc, payload)))
      ensures !got ==> Whole(libc, old(Unread()), old(line[..])) == [] || failed
    {
      hide Fitted, Whole, Payload, PayloadItems, LineRead, CString, Stripped, Complete;
      ghost var u, before := Unread(), line[..];
      var result := ReadLine(line);
      ghost var read := line[..];
      if result != Failed {
        LineUnderstood(libc, u, before, result, read, Unread());
      }
      if result != Got {
        return false, "";
      }
      lineNumber := lineNumber + 1;
      payload := StripLine(line);
      return true, payload;
    }

    /** Reads and rewrites one line; a blank line becomes no commands. */
    method NextLine(line: array<char>) returns (got: bool, r: Rewritten)
      requires Valid() && line.Length == LINE && line != readBuffer
      modifies this`offset, this`readPos, this`readLen, this`eof, this`failed, this`lineNumber, readBuffer, line
      ensures Valid() && (got ==> failed == old(failed))
      ensures got ==> |Unread()| < |old(Unread())| && (Complete(old(Unread())) ==> Complete(Unread()))
      ensures got ==> |r.commands| < MAX_COMMANDS
      ensures got ==>
        Whole(libc, old(Unread()), old(line[..])) == Items(r) + Whole(libc, Unread(), PutAll(line[..], r.commands))
      ensures !got ==> Whole(libc, old(Unread()), old(line[..])) == [] || failed
    {
      hide Whole, Rewrite, Payload, Complete, PutAll;
      var payload;
      r := Rewritten([], false, false, 0.0);
      got, payload := NextPayload(line);
      if got && payload != "" {
        r := RewriteLine(libc, payload);
      }
    }

    /** The next command left from an expanded line. */
    method NextPending(line: array<char>) returns (command: string)
      requires Valid() && pendingIndex < |pending| && !waitBed && !waitNozzle && waitTarget == 0.0
      requires line.Length == LINE && line != readBuffer
      modifies this`pending, this`pendingIndex, line
      ensures Valid() && line[..] == Put(old(line[..]), command)
      ensures old(Meaning(line[..])) == [Item(command, waitBed, waitNozzle, waitTarget)] + Meaning(line[..])
      ensures old(Remaining()) == [Item(command, waitBed, waitNozzle, waitTarget)] + Remaining()
    {
      hide Batch, Whole, Put;
      ghost var left, before := pending[pendingIndex..], line[..];
      PlainHead(left, Batch(libc, Unread()));
      PlainHead(left, Whole(libc, Unread(), PutAll(before, left)));
      command := pending[pendingIndex];
      CopyCommand(line, command);
      pendingIndex := pendingIndex + 1;
      if pendingIndex >= |pending| {
        pending, pendingIndex := [], 0;
      }
      assert pending[pendingIndex..] == left[1..];
    }

    /** The next command. */
    method Next(line: array<char>) returns (found: bool, command: string)
      requires Valid() && line.Length == LINE && line != readBuffer
      modifies this, readBuffer, line
      ensures Valid()
      ensures found ==> old(Meaning(line[..])) == [Item(command, waitBed, waitNozzle, waitTarget)] + Meaning(line[..])
      ensures found ==> (Complete(old(Unread())) ==> Complete(Unread())) && failed == old(failed)
      ensures !found ==> old(Meaning(line[..])) == [] || failed
    {
      hide Whole, Items, Plain, Complete, Put;
      NoPending();
      waitBed, waitNozzle, waitTarget := false, false, 0.0;
      if pendingIndex < |pending| {
        command := NextPending(line);
        return true, command;
      }
      assert pending[pendingIndex..] == [];
      while true
        invariant Valid() && pendingIndex == |pending|
        invariant failed == old(failed) && (Complete(old(Unread())) ==> Complete(Unread()))
        invariant Whole(libc, Unread(), line[..]) == old(Meaning(line[..]))
        decreases |Unread()|
      {
        var got, r := NextLine(line);
        if !got {
          return false, "";
        }
        if |r.commands| > 0 {
          waitBed, waitNozzle, waitTarget := r.waitBed, r.waitNozzle, r.target;
          pending, pendingIndex := r.commands[1..], 0;
          CopyCommand(line, r.commands[0]);
          assert pending[pendingIndex..] == r.commands[1..];
          ItemsHead(r, Whole(libc, Unread(), PutAll(line[..], r.commands[1..])));
          return true, r.commands[0];
        }
        ItemsNone(r);
      }
    }

    lemma MeaningIsWhole(buffer: seq<char>)
      requires Valid() && |buffer| == LINE && pending == [] && pendingIndex == 0
      ensures Meaning(buffer) == Whole(libc, Unread(), buffer)
    {
      hide Whole;
      NoPending();
    }

    lemma MeaningIsRemaining(buffer: seq<char>)
      requires Valid() && |buffer| == LINE && Complete(Unread())
      ensures Meaning(buffer) == Remaining()
    {
      hide Batch, Whole, Complete;
      WholeIsBatch(libc, Unread(), PutAll(buffer, pending[pendingIndex..]));
    }
  }

  /** Every line is complete, and none is cut short by a NUL. */
  predicate Complete(content: string) {
    NulFree(content) && Terminated(content)
  }

  // ---- Stripping in place ----

  /** The first character that is not blank. */
  method Indent(line: array<char>) returns (i: nat)
    ensures var s := CString(line[..]); i == |s| - |SkipSpace(s)| <= |s| <= line.Length && s[i..] == SkipSpace(s)
  {
    hide CString;
    ghost var s := CString(line[..]);
    CStringIn(line[..]);
    i := 0;
    while i < line.Length && line[i] != NUL && IsSpace(line[i])
      invariant i <= |s| && SkipSpace(s) == SkipSpace(s[i..])
    {
      assert s[i..][1..] == s[i + 1..];
      i := i + 1;
    }
    SkipSpaceFacts(s[i..]);
    assert s[i..] == SkipSpace(s[i..]);
  }

  lemma CStringIn(b: seq<char>)
    ensures |CString(b)| <= |b| && (forall k :: 0 <= k < |CString(b)| ==> CString(b)[k] == b[k] && b[k] != NUL)
    ensures |CString(b)| < |b| ==> b[|CString(b)|] == NUL
  {
  }

  /** Where the comment, or the line, ends. */
  method FindComment(line: array<char>, i: nat) returns (end: nat)
    requires i <= |CString(line[..])|
    ensures var s := CString(line[..]); i <= end <= |s| && s[i..end] == UpTo(s[i..], ';') && (end < |s| ==> s[end] == ';')
  {
    hide CString, UpTo;
    ghost var b, s := line[..], CString(line[..]);
    CStringChar(b, i);
    end := i;
    while end < line.Length && line[end] != NUL && line[end] != ';'
      invariant i <= end <= |s| <= line.Length && forall k :: i <= k < end ==> s[k] != ';'
      invariant if end < |s| then b[end] == s[end] != NUL else end < |b| ==> b[end] == NUL
    {
      end := end + 1;
      CStringChar(b, end);
    }
    assert s[i..end] == s[i..][..end - i];
    UpToIs(s[i..], ';', s[i..end]);
  }

  lemma CStringChar(b: seq<char>, k: nat)
    requires k <= |CString(b)|
    ensures |CString(b)| <= |b|
    ensures if k < |CString(b)| then b[k] == CString(b)[k] != NUL else k < |b| ==> b[k] == NUL
  {
    hide CString;
    CStringIn(b);
  }

  /** Overwrites the blanks at the end of the text between i and end. */
  method TrimBack(line: array<char>, i: nat, end: nat) returns (len: nat)
    requires i <= end <= line.Length
    modifies line
    ensures len == |TrimRight(old(line[i..end]))| <= end - i && line[i..i + len] == TrimRight(old(line[i..end]))
    ensures line[..] == old(line[..i + len]) + Nuls(end - i - len) + old(line[end..])
  {
    ghost var b := line[..];
    len := end - i;
    assert line[..] == b[..i + len] + Nuls(0) + b[end..];
    while len > 0 && IsSpace(line[i + len - 1])
      invariant 0 <= len <= end - i && TrimRight(b[i..end]) == TrimRight(b[i..i + len])
      invariant line[..] == b[..i + len] + Nuls(end - i - len) + b[end..]
    {
      ghost var text := b[i..i + len];
      assert line[i + len - 1] == b[i + len - 1] == text[|text| - 1];
      assert text[..|text| - 1] == b[i..i + (len - 1)];
      len := len - 1;
      line[i + len] := NUL;
      assert Nuls(end - i - len) == [NUL] + Nuls(end - i - len - 1);
    }
    assert line[i..i + len] == b[i..i + len];
    if len > 0 {
      assert b[i..i + len][len - 1] == line[i + len - 1];
    }
  }

  /** Moves the text behind i to the front. */
  method MoveToFront(line: array<char>, i: nat, len: nat)
    requires i + len <= line.Length
    modifies line
    ensures line[..] == if i == 0 then old(line[..]) else old(line[i..i + len]) + [NUL] + old(line[len + 1..])
  {
    if i != 0 {
      forall k | 0 <= k < len {
        line[k] := line[i + k];
      }
      line[len] := NUL;
    }
  }

  /** Ends the text where its comment begins. */
  method EndComment(line: array<char>, end: nat)
    requires end <= |CString(line[..])| && (end < |CString(line[..])| ==> CString(line[..])[end] == ';')
    modifies line
    ensures var b := old(line[..]);
      line[..] == if end < |CString(b)| then b[..end] + [NUL] + b[end + 1..] else b
  {
    hide CString;
    CStringIn(line[..]);
    if end < line.Length && line[end] == ';' {
      line[end] := NUL;
    }
  }

  /** Strips the line in the buffer, in place. */
  method StripLine(line: array<char>) returns (payload: string)
    requires line.Length == LINE
    modifies line
    ensures payload == Payload(CString(old(line[..]))) && line[..] == Stripped(old(line[..]))
  {
    hide CString, TrimRight, UpTo, SkipSpace, Stripped, Payload, Nuls;
    ghost var b := line[..];
    var i := Indent(line);
    if i == line.Length || line[i] == NUL || line[i] == ';' {
      NothingToStrip(b, i);
      return "";
    }
    var end := FindComment(line, i);
    SomethingToStrip(b, i, end);
    EndComment(line, end);
    var len := StripText(line, b, i, end);
    payload := line[i..i + len];
    MoveToFront(line, i, len);
  }

  /** Trims the text between i and end, behind which the line has been ended. */
  method StripText(line: array<char>, ghost b: seq<char>, i: nat, end: nat) returns (len: nat)
    requires line.Length == LINE == |b| && i < end <= |CString(b)|
    requires CString(b)[i..] == SkipSpace(CString(b)) && i == |CString(b)| - |SkipSpace(CString(b))|
    requires CString(b)[i..end] == UpTo(SkipSpace(CString(b)), ';') && TrimRight(CString(b)[i..end]) != ""
    requires line[..] == if end < |CString(b)| then b[..end] + [NUL] + b[end + 1..] else b
    modifies line
    ensures i + len <= end <= line.Length && line[i..i + len] == Payload(CString(b))
    ensures Stripped(b) == if i == 0 then line[..] else line[i..i + len] + [NUL] + line[len + 1..]
  {
    hide CString, TrimRight, UpTo, SkipSpace, Stripped, Payload, Nuls;
    ghost var c := line[..];
    CStringSlice(b, i, end);
    assert c[i..end] == b[i..end] == line[i..end];
    len := TrimBack(line, i, end);
    CStringSlice(b, i, i + len);
    assert b[i..i + len] == b[i..end][..len];
    MovedIs(b, i, end, c, len, line[..]);
    StrippedIs(b, i, end);
    assert CString(b)[i..i + len] == CString(b)[i..end][..len];
  }

  lemma CStringSlice(b: seq<char>, i: nat, j: nat)
    requires i <= j <= |CString(b)|
    ensures |CString(b)| <= |b| && b[i..j] == CString(b)[i..j]
  {
    hide CString;
    CStringIn(b);
  }

  lemma SomethingToStrip(b: seq<char>, i: nat, end: nat)
    requires var s := CString(b); i == |s| - |SkipSpace(s)| <= end <= |s| && s[i..] == SkipSpace(s)
    requires CString(b)[i..end] == UpTo(CString(b)[i..], ';') && i < |b| && b[i] != NUL && b[i] != ';'
    ensures TrimRight(CString(b)[i..end]) != "" && i < end
  {
    hide CString;
    var s := CString(b);
    CStringIn(b);
    SkipSpaceFacts(s);
    assert UpTo(s[i..], ';')[0] == s[i];
    NotTrimmedAway(s[i..end]);
  }

  lemma NothingToStrip(b: seq<char>, i: nat)
    requires var s := CString(b); i == |s| - |SkipSpace(s)| && s[i..] == SkipSpace(s)
    requires i == |b| || b[i] == NUL || b[i] == ';'
    ensures Payload(CString(b)) == "" && Stripped(b) == b
  {
    hide CString;
    CStringIn(b);
  }

  lemma ClearedIs(b: seq<char>, i: nat, end: nat, c: seq<char>, len: nat, d: seq<char>)
    requires i + len <= end <= |CString(b)|
    requires c == if end < |CString(b)| then b[..end] + [NUL] + b[end + 1..] else b
    requires d == c[..i + len] + Nuls(end - i - len) + c[end..]
    ensures d == Cleared(b, i, end, len) && d[i..i + len] == b[i..i + len]
  {
    hide CString;
    CStringIn(b);
    assert c[..i + len] == b[..i + len];
    assert c[end..] == if end < |CString(b)| then [NUL] + b[end + 1..] else b[end..];
    assert d[..i + len] == b[..i + len];
    assert d[i..i + len] == d[..i + len][i..] == b[..i + len][i..];
  }

  lemma MovedIs(b: seq<char>, i: nat, end: nat, c: seq<char>, len: nat, d: seq<char>)
    requires i + len <= end <= |CString(b)|
    requires c == if end < |CString(b)| then b[..end] + [NUL] + b[end + 1..] else b
    requires d == c[..i + len] + Nuls(end - i - len) + c[end..]
    ensures d[i..i + len] == b[i..i + len] == CString(b)[i..i + len]
    ensures Moved(b, i, end, len) == if i == 0 then d else d[i..i + len] + [NUL] + d[len + 1..]
  {
    hide CString, Cleared;
    CStringSlice(b, i, i + len);
    ClearedIs(b, i, end, c, len, d);
  }

  lemma StrippedIs(b: seq<char>, i: nat, end: nat)
    requires var s := CString(b); i == |s| - |SkipSpace(s)| < end <= |s| && s[i..end] == UpTo(SkipSpace(s), ';')
    requires TrimRight(CString(b)[i..end]) != ""
    ensures var t := TrimRight(CString(b)[i..end]);
      Payload(CString(b)) == t && i + |t| <= end && Stripped(b) == Moved(b, i, end, |t|)
  {
    hide CString, TrimRight, Moved, UpTo, SkipSpace;
  }

  method CopyCommand(line: array<char>, command: string)
    requires line.Length == LINE
    modifies line
    ensures line[..] == Put(old(line[..]), command)
  {
    var n := if |command| < LINE then |command| else LINE - 1;
    forall i | 0 <= i < n {
      line[i] := command[i];
    }
    line[n] := NUL;
  }

  // ---- Facts about lines ----

  lemma PlainHead(commands: seq<string>, rest: seq<Item>)
    requires |commands| > 0
    ensures Plain(commands) + rest == [Item(commands[0], false, false, 0.0)] + (Plain(commands[1..]) + rest)
  {
  }

  lemma NoPending()
    ensures Plain([]) == []
  {
  }

  lemma ItemsNone(r: Rewritten)
    requires r.commands == []
    ensures Items(r) == []
  {
  }

  lemma ItemsHead(r: Rewritten, rest: seq<Item>)
    requires |r.commands| > 0
    ensures Items(r) + rest
         == [Item(r.commands[0], r.waitBed, r.waitNozzle, r.target)] + (Plain(r.commands[1..]) + rest)
  {
  }

  lemma {:induction false} DropReturnsAppend(s: string, c: char)
    ensures DropReturns(s + [c]) == DropReturns(s) + if c == '\r' then "" else [c]
  {
    if s == "" {
      assert s + [c] == [c];
    } else {
      DropReturnsAppend(s[1..], c);
      assert (s + [c])[1..] == s[1..] + [c];
    }
  }

  lemma FittedAppend(s: string, c: char)
    ensures |Fitted(s)| < LINE
    ensures Fitted(s + [c]) == Fitted(s) + if c != '\r' && |Fitted(s)| + 1 < LINE then [c] else ""
  {
    DropReturnsAppend(s, c);
  }

  /** The text before the first c is the beginning without a c that a c follows, or all of it. */
  lemma UpToIs(s: string, c: char, r: string)
    requires r <= s && c !in r && (|r| < |s| ==> s[|r|] == c)
    ensures UpTo(s, c) == r
  {
    hide UpTo;
    var u := UpTo(s, c);
    assert u == s[..|u|] && r == s[..|r|];
  }

  lemma UpToFirst(s: string, c: char, rest: string)
    requires c !in s
    ensures UpTo(s + [c] + rest, c) == s
  {
    UpToIs(s + [c] + rest, c, s);
  }

  lemma Shift(seen: string, c: char, rest: string)
    ensures seen + ([c] + rest) == seen + [c] + rest
  {
  }

  lemma PartialEmpty(before: seq<char>)
    requires |before| == LINE
    ensures Fitted("") == "" && Partial(Fitted(""), before) == before[0 := NUL]
  {
  }

  lemma CharStored(seen: string, c: char, before: seq<char>)
    requires |before| == LINE
    ensures |Fitted(seen)| < LINE && |Fitted(seen + [c])| < LINE
    ensures var n := |Fitted(seen)|;
      if c != '\r' && n + 1 < LINE then
        |Fitted(seen + [c])| == n + 1
        && Partial(Fitted(seen + [c]), before) == Partial(Fitted(seen), before)[n := c]
      else Fitted(seen + [c]) == Fitted(seen)
  {
    FittedAppend(seen, c);
  }

  lemma LineEnds(seen: string, rest: string, before: seq<char>)
    requires '\n' !in seen && |before| == LINE
    ensures |Fitted(seen)| < LINE
    ensures LineRead(seen + ['\n'] + rest, before, Got, Partial(Fitted(seen), before)[|Fitted(seen)| := NUL], rest)
  {
    UpToFirst(seen, '\n', rest);
    assert (seen + ['\n'] + rest)[|seen| + 1..] == rest;
    var text := Fitted(seen);
    assert Partial(text, before)[|text| := NUL] == text + [NUL] + before[|text| + 1..];
  }

  lemma FileEnds(seen: string, before: seq<char>)
    requires '\n' !in seen && |before| == LINE
    ensures |Fitted(seen)| < LINE
    ensures LineRead(seen, before, if Fitted(seen) != "" then Got else AtEnd, Partial(Fitted(seen), before), "")
  {
    assert UpTo(seen, '\n') == seen;
  }

  lemma FittedShort(s: string)
    ensures |Fitted(s)| < LINE
  {
  }

  /** What the buffer holds after a read is the next line the file means; at the end nothing is left to mean. */
  lemma LineUnderstood(libc: Libc, u: string, before: seq<char>, result: ReadResult, line: seq<char>, rest: string)
    requires |before| == LINE && result != Failed && LineRead(u, before, result, line, rest)
    ensures result == AtEnd ==> Whole(libc, u, before) == []
    ensures result == Got ==> |line| == LINE && |rest| < |u| && (Complete(u) ==> Complete(rest))
    ensures result == Got ==>
      Whole(libc, u, before) == LineItems(libc, CString(line)) + Whole(libc, rest, Consumed(libc, line))
  {
    hide LineItems, CString, Consumed, Fitted, Whole, Complete;
    FittedOfNone();
    if Complete(u) {
      CompleteRest(u);
    }
    WholeIs(libc, u, before);
    NothingLeft(libc, Consumed(libc, line));
  }

  lemma WholeIs(libc: Libc, content: string, buffer: seq<char>)
    requires |buffer| == LINE
    ensures var raw := UpTo(content, '\n');
      var text := Fitted(raw);
      Whole(libc, content, buffer) ==
        if |raw| < |content| then
          LineItems(libc, CString(Stored(text, buffer)))
          + Whole(libc, content[|raw| + 1..], Consumed(libc, Stored(text, buffer)))
        else if text == "" then []
        else LineItems(libc, CString(Partial(text, buffer)))
  {
    hide LineItems, CString, Consumed, Fitted;
  }

  /** Behind a complete line a complete file goes on; without one it is at its end. */
  lemma CompleteRest(u: string)
    requires Complete(u)
    ensures var n := |UpTo(u, '\n')|; if n < |u| then Complete(u[n + 1..]) else u == ""
  {
    if u != "" {
      assert u[|u| - 1] in u;
    }
  }

  lemma FittedOfNone()
    ensures Fitted("") == ""
  {
  }

  lemma NothingLeft(libc: Libc, buffer: seq<char>)
    requires |buffer| == LINE
    ensures Whole(libc, "", buffer) == []
  {
  }

  lemma NulFreeFitted(s: string)
    requires NulFree(s)
    ensures NulFree(Fitted(s)) && (s == "" ==> Fitted(s) == "")
  {
    NulFreeDropReturns(s);
  }

  lemma {:induction false} NulFreeDropReturns(s: string)
    requires NulFree(s)
    ensures NulFree(DropReturns(s))
  {
    if s != "" {
      NulFreeDropReturns(s[1..]);
    }
  }

  // ---- Whole files ----

  /** Of a file whose lines are all complete the old contents of the line buffer do not matter. */
  lemma {:induction false} WholeIsBatch(libc: Libc, content: string, buffer: seq<char>)
    requires Complete(content) && |buffer| == LINE
    ensures Whole(libc, content, buffer) == Batch(libc, content)
    decreases |content|
  {
    hide LineItems, CString, Fitted, Consumed, Whole, Complete;
    var raw := UpTo(content, '\n');
    FittedOfNone();
    CompleteRest(content);
    WholeIs(libc, content, buffer);
    if content != "" {
      CompleteLine(content);
      var text := Fitted(raw);
      CStringOf(text, buffer[|text| + 1..]);
      WholeIsBatch(libc, content[|raw| + 1..], Consumed(libc, Stored(text, buffer)));
    }
  }

  lemma CompleteLine(content: string)
    requires Complete(content)
    ensures NulFree(Fitted(UpTo(content, '\n')))
  {
    hide Fitted;
    NulFreeFitted(UpTo(content, '\n'));
  }

  /** The text behind the last newline. */
  function Tail(content: string): string {
    var raw := UpTo(content, '\n');
    if |raw| < |content| then Tail(content[|raw| + 1..]) else content
  }

  /** The line buffer when the text behind the last newline is read. */
  function Leftover(libc: Libc, content: string, buffer: seq<char>): (r: seq<char>)
    requires |buffer| == LINE
    ensures |r| == LINE
    decreases |content|
  {
    var raw := UpTo(content, '\n');
    if |raw| < |content| then Leftover(libc, content[|raw| + 1..], Consumed(libc, Stored(Fitted(raw), buffer)))
    else buffer
  }

  /** What the reader adds to a last line without a newline: the old contents of the buffer behind it. */
  function Junk(libc: Libc, content: string, buffer: seq<char>): string
    requires |buffer| == LINE
  {
    CString(Leftover(libc, content, buffer)[|Fitted(Tail(content))|..])
  }

  function LastItems(libc: Libc, content: string, buffer: seq<char>): seq<Item>
    requires |buffer| == LINE
  {
    var text := Fitted(Tail(content));
    if text == "" then [] else LineItems(libc, text + Junk(libc, content, buffer))
  }

  lemma {:induction false} CStringGoesOn(text: string, rest: seq<char>)
    requires NulFree(text)
    ensures CString(text + rest) == text + CString(rest)
  {
    if text == "" {
      assert text + rest == rest;
    } else {
      CStringGoesOn(text[1..], rest);
      assert (text + rest)[1..] == text[1..] + rest;
    }
  }

  /** Every file without NULs means its complete lines, and behind them its last line as it runs on into the old
      contents of the buffer. */
  lemma {:induction false} WholeFile(libc: Libc, content: string, buffer: seq<char>)
    requires NulFree(content) && |buffer| == LINE
    ensures Whole(libc, content, buffer) == Batch(libc, content) + LastItems(libc, content, buffer)
    decreases |content|
  {
    hide LineItems, CString, Fitted, Consumed, Whole, LastItems, Batch;
    var raw := UpTo(content, '\n');
    var text := Fitted(raw);
    NulFreeFitted(raw);
    WholeIs(libc, content, buffer);
    BatchIs(libc, content);
    if |raw| < |content| {
      var rest, next := content[|raw| + 1..], Consumed(libc, Stored(text, buffer));
      CStringOf(text, buffer[|text| + 1..]);
      WholeFile(libc, rest, next);
      LastItemsFurther(libc, content, buffer);
      assert LineItems(libc, text) + (Batch(libc, rest) + LastItems(libc, rest, next))
          == LineItems(libc, text) + Batch(libc, rest) + LastItems(libc, rest, next);
    } else {
      assert raw == content;
      LastItemsHere(libc, content, buffer);
    }
  }

  lemma BatchIs(libc: Libc, content: string)
    ensures var raw := UpTo(content, '\n');
      Batch(libc, content) ==
        if |raw| < |content| then LineItems(libc, Fitted(raw)) + Batch(libc, content[|raw| + 1..]) else []
  {
    hide LineItems, Fitted;
  }

  lemma LastItemsFurther(libc: Libc, content: string, buffer: seq<char>)
    requires |buffer| == LINE && |UpTo(content, '\n')| < |content|
    ensures var raw := UpTo(content, '\n');
      LastItems(libc, content, buffer)
        == LastItems(libc, content[|raw| + 1..], Consumed(libc, Stored(Fitted(raw), buffer)))
  {
    hide LineItems, CString, Fitted, Consumed;
  }

  lemma LastItemsHere(libc: Libc, content: string, buffer: seq<char>)
    requires |buffer| == LINE && |UpTo(content, '\n')| == |content| && NulFree(Fitted(content))
    ensures var text := Fitted(content);
      LastItems(libc, content, buffer)
        == if text == "" then [] else LineItems(libc, CString(Partial(text, buffer)))
  {
    hide LineItems, CString, Fitted, Consumed;
    var text := Fitted(content);
    CStringGoesOn(text, buffer[|text|..]);
  }

  /** The same file with a newline at its end. */
  lemma TailFurther(content: string)
    requires |UpTo(content, '\n')| < |content|
    ensures Tail(content) == Tail(content[|UpTo(content, '\n')| + 1..])
  {
  }

  lemma TailHere(content: string)
    requires |UpTo(content, '\n')| == |content|
    ensures Tail(content) == content
  {
  }

  lemma {:induction false} BatchOfTerminated(libc: Libc, content: string)
    ensures Batch(libc, content + "\n") == Batch(libc, content) + LineItems(libc, Fitted(Tail(content)))
    decreases |content|
  {
    hide LineItems, Fitted, Batch, UpTo, Tail;
    var raw, longer := UpTo(content, '\n'), content + "\n";
    BatchIs(libc, content);
    BatchIs(libc, longer);
    BatchIs(libc, "");
    if |raw| < |content| {
      var rest := content[|raw| + 1..];
      UpToIs(longer, '\n', raw);
      assert longer[|raw| + 1..] == rest + "\n";
      BatchOfTerminated(libc, rest);
      TailFurther(content);
    } else {
      assert raw == content;
      UpToIs(longer, '\n', content);
      TailHere(content);
      assert longer[|content| + 1..] == "";
    }
  }

  // ---- When the last line is understood ----

  predicate AllBlank(s: string) {
    forall i :: 0 <= i < |s| ==> IsSpace(s[i])
  }

  lemma {:induction false} SkipSpaceFacts(s: string)
    ensures SkipSpace(s) == "" <==> AllBlank(s)
    ensures SkipSpace(s) != "" ==> !IsSpace(SkipSpace(s)[0])
    ensures |SkipSpace(s)| <= |s| && s[|s| - |SkipSpace(s)|..] == SkipSpace(s) && AllBlank(s[..|s| - |SkipSpace(s)|])
  {
    if s != "" && IsSpace(s[0]) {
      SkipSpaceFacts(s[1..]);
      BlankFront(s, |s| - |SkipSpace(s)|);
      BlankFront(s, |s|);
      assert s[..|s|] == s && s[1..][..|s| - 1] == s[1..];
    } else {
      assert s[..0] == "";
    }
  }

  lemma BlankFront(s: string, k: nat)
    requires s != "" && IsSpace(s[0]) && 0 < k <= |s|
    ensures AllBlank(s[..k]) <==> AllBlank(s[1..][..k - 1])
    ensures s[k..] == s[1..][k - 1..]
  {
    assert s[..k] == [s[0]] + s[1..][..k - 1];
  }

  lemma {:induction false} SkipSpaceOver(blanks: string, s: string)
    requires AllBlank(blanks)
    ensures SkipSpace(blanks + s) == SkipSpace(s)
  {
    if blanks == "" {
      assert blanks + s == s;
    } else {
      SkipSpaceOver(blanks[1..], s);
      assert (blanks + s)[1..] == blanks[1..] + s;
    }
  }

  lemma SkipSpaceStays(s: string, more: string)
    requires !AllBlank(s)
    ensures SkipSpace(s + more) == SkipSpace(s) + more
  {
    SkipSpaceFacts(s);
    var n := |s| - |SkipSpace(s)|;
    assert s + more == s[..n] + (SkipSpace(s) + more);
    SkipSpaceOver(s[..n], SkipSpace(s) + more);
  }

  lemma UpToOver(s: string, more: string, c: char)
    ensures UpTo(s + more, c) == if c in s then UpTo(s, c) else s + UpTo(more, c)
  {
    hide UpTo;
    UpToIs(s + more, c, if c in s then UpTo(s, c) else s + UpTo(more, c));
  }

  lemma {:induction false} TrimRightFacts(s: string)
    ensures |TrimRight(s)| <= |s| && AllBlank(s[|TrimRight(s)|..]) && s[..|TrimRight(s)|] == TrimRight(s)
    ensures TrimRight(s) != "" ==> !IsSpace(TrimRight(s)[|TrimRight(s)| - 1])
  {
    if s != "" && IsSpace(s[|s| - 1]) {
      TrimRightFacts(s[..|s| - 1]);
      var n := |TrimRight(s)|;
      assert s[n..] == s[..|s| - 1][n..] + [s[|s| - 1]];
    }
  }

  lemma {:induction false} TrimRightUnique(s: string, n: nat)
    requires n <= |s| && AllBlank(s[n..]) && (n > 0 ==> !IsSpace(s[n - 1]))
    ensures TrimRight(s) == s[..n]
  {
    if n < |s| {
      var m := |s| - 1;
      assert s[n..][m - n] == s[m];
      assert s[..m][n..] == s[n..][..m - n] && s[..m][..n] == s[..n];
      TrimRightUnique(s[..m], n);
    } else {
      assert s[..n] == s;
    }
  }

  /** Trailing blanks are what trimming takes away. */
  lemma TrimRightSameIff(s: string, more: string)
    ensures TrimRight(s + more) == TrimRight(s) <==> AllBlank(more)
  {
    TrimRightFacts(s);
    TrimRightFacts(s + more);
    var n := |TrimRight(s)|;
    assert (s + more)[n..] == s[n..] + more && (s + more)[..n] == s[..n];
    if AllBlank(more) {
      TrimRightUnique(s + more, n);
    } else if TrimRight(s + more) == TrimRight(s) {
      BlankParts(s[n..], more);
    }
  }

  lemma BlankParts(a: string, b: string)
    ensures AllBlank(a + b) <==> AllBlank(a) && AllBlank(b)
  {
    assert forall i :: 0 <= i < |a| ==> (a + b)[i] == a[i];
    assert forall i :: 0 <= i < |b| ==> (a + b)[|a| + i] == b[i];
  }

  /** Text behind a line leaves its command alone exactly when the line has a comment, or the text up to its own
      first comment is blank. */
  lemma PayloadSameIff(text: string, junk: string)
    ensures Payload(text + junk) == Payload(text) <==> ';' in text || AllBlank(UpTo(junk, ';'))
  {
    hide TrimRight;
    var core := SkipSpace(text);
    SkipSpaceFacts(text);
    if AllBlank(text) {
      SkipSpaceOver(text, junk);
      BlankPayload(junk);
      assert TrimRight("") == "" && UpTo("", ';') == "";
      assert ';' !in text;
    } else {
      SkipSpaceStays(text, junk);
      UpToOver(core, junk, ';');
      CommentInCore(text);
      if ';' !in core {
        assert UpTo(core, ';') == core;
        TrimRightSameIff(core, UpTo(junk, ';'));
      }
    }
  }

  lemma CommentInCore(text: string)
    ensures ';' in text <==> ';' in SkipSpace(text)
  {
    SkipSpaceFacts(text);
    var n := |text| - |SkipSpace(text)|;
    assert text == text[..n] + SkipSpace(text);
  }

  lemma BlankPayload(s: string)
    ensures Payload(s) == "" <==> AllBlank(UpTo(s, ';'))
  {
    var core := SkipSpace(s);
    SkipSpaceFacts(s);
    var n := |s| - |core|;
    assert s == s[..n] + core;
    UpToOver(s[..n], core, ';');
    assert ';' !in s[..n];
    TrimRightFacts(UpTo(core, ';'));
    if core != "" && core[0] != ';' {
      assert UpTo(core, ';')[0] == core[0];
      assert (s[..n] + UpTo(core, ';'))[n] == core[0];
      NotTrimmedAway(UpTo(core, ';'));
    }
  }

  lemma TrimmedAway(s: string)
    ensures TrimRight(s) == "" ==> AllBlank(s)
  {
    TrimRightFacts(s);
    assert s[0..] == s;
  }

  lemma NotTrimmedAway(s: string)
    requires s != "" && !IsSpace(s[0])
    ensures TrimRight(s) != ""
  {
    TrimmedAway(s);
  }

  /** A payload that is sent as it stands. */
  predicate Ordinary(payload: string) {
    !IsCommand(payload, "M117") && !IsCommand(payload, "M190") && !IsCommand(payload, "M109") && !IsCommand(payload, "G280")
  }

  /** A last line without a newline, read on into the text that follows it in the buffer, changes nothing if it has
      a comment or that text is blank up to its first comment. For lines that are sent as they stand that is exactly
      when it changes nothing. */
  lemma UnterminatedFileIff(libc: Libc, content: string, buffer: seq<char>)
    requires NulFree(content) && |buffer| == LINE
    ensures var text, junk := Fitted(Tail(content)), Junk(libc, content, buffer);
      var understood := text == "" || ';' in text || AllBlank(UpTo(junk, ';'));
      && (understood ==> Whole(libc, content, buffer) == Batch(libc, content + "\n"))
      && (Ordinary(Payload(text)) && Ordinary(Payload(text + junk)) ==>
            (Whole(libc, content, buffer) == Batch(libc, content + "\n") <==> understood))
  {
    hide Batch, Whole, Fitted, Junk, Payload, AllBlank, Rewrite, Leftover;
    var text, junk := Fitted(Tail(content)), Junk(libc, content, buffer);
    WholeFile(libc, content, buffer);
    BatchOfTerminated(libc, content);
    PayloadSameIff(text, junk);
    NoItems(libc);
    Cancel(Batch(libc, content), LastItems(libc, content, buffer), LineItems(libc, text));
    if Ordinary(Payload(text)) && Ordinary(Payload(text + junk)) {
      OrdinaryItems(libc, Payload(text));
      OrdinaryItems(libc, Payload(text + junk));
    }
  }

  lemma Cancel(a: seq<Item>, x: seq<Item>, y: seq<Item>)
    ensures a + x == a + y <==> x == y
  {
    if a + x == a + y {
      assert (a + x)[|a|..] == x && (a + y)[|a|..] == y;
    }
  }

  lemma NoItems(libc: Libc)
    ensures LineItems(libc, "") == []
  {
  }

  lemma OrdinaryItems(libc: Libc, payload: string)
    requires Ordinary(payload)
    ensures PayloadItems(libc, payload) == if payload == "" then [] else [Item(payload, false, false, 0.0)]
  {
    hide IsCommand;
  }

  /** A line keeps its first 255 characters, carriage returns not counted. */
  lemma FirstOfLine(s: string)
    ensures Fitted(s) == if |DropReturns(s)| <= 255 then DropReturns(s) else DropReturns(s)[..255]
    ensures '\r' !in DropReturns(s)
  {
    NoReturns(s);
  }

  lemma {:induction false} NoReturns(s: string)
    ensures '\r' !in DropReturns(s) && |DropReturns(s)| <= |s|
  {
    if s != "" {
      NoReturns(s[1..]);
    }
  }

  /** A line with nothing to drop, strip or expand. */
  predicate AsItStands(line: string) {
    && 0 < |line| < LINE && (forall i :: 0 <= i < |line| ==> line[i] != '\r' && line[i] != '\n' && line[i] != ';' && line[i] != NUL)
    && !IsSpace(line[0]) && !IsSpace(line[|line| - 1])
  }

  lemma {:induction false} NothingDropped(s: string)
    requires forall i :: 0 <= i < |s| ==> s[i] != '\r'
    ensures DropReturns(s) == s
  {
    if s != "" {
      NothingDropped(s[1..]);
    }
  }

  lemma PlainLine(line: string)
    requires AsItStands(line)
    ensures Fitted(line) == line && Payload(line) == line && NulFree(line)
  {
    NothingDropped(line);
    assert ';' !in line;
  }

  lemma PlainItems(libc: Libc, line: string)
    requires AsItStands(line) && Ordinary(line)
    ensures LineItems(libc, line) == [Item(line, false, false, 0.0)]
  {
    hide IsCommand;
    PlainLine(line);
  }

  /** Such a line leaves itself in the buffer. */
  lemma SpentLine(libc: Libc, line: string, buffer: seq<char>)
    requires AsItStands(line) && Ordinary(line) && |buffer| == LINE
    ensures Consumed(libc, Stored(line, buffer)) == Stored(line, buffer)
  {
    hide IsCommand;
    var b := Stored(line, buffer);
    PlainLine(line);
    CStringOf(line, buffer[|line| + 1..]);
    assert SkipSpace(line) == line && UpTo(line, ';') == line && TrimRight(line) == line;
    assert Stripped(b) == b;
    assert PutAll(b, [line]) == PutAll(Put(b, line), []) == Put(b, line) == b;
  }

  /** Such a line in front of a file means itself, and leaves itself in the buffer. */
  lemma PlainFirstLine(libc: Libc, line: string, rest: string, buffer: seq<char>)
    requires AsItStands(line) && Ordinary(line) && |buffer| == LINE
    ensures Whole(libc, line + ['\n'] + rest, buffer)
         == [Item(line, false, false, 0.0)] + Whole(libc, rest, Stored(line, buffer))
  {
    hide Consumed, LineItems, CString, Fitted, Stored;
    var content := line + ['\n'] + rest;
    UpToFirst(line, '\n', rest);
    PlainLine(line);
    StoredLine(line, buffer);
    PlainItems(libc, line);
    SpentLine(libc, line, buffer);
    assert content[|line| + 1..] == rest;
  }

  lemma StoredLine(line: string, buffer: seq<char>)
    requires NulFree(line) && |line| < |buffer|
    ensures CString(Stored(line, buffer)) == line
  {
    CStringOf(line, buffer[|line| + 1..]);
  }

  /** A file of the two lines "G28 X" and "M1", the last without a newline, means "G28 X" and "M18 X". */
  lemma LeftoverIsRead(libc: Libc, buffer: seq<char>)
    requires |buffer| == LINE
    ensures Whole(libc, "G28 X\nM1", buffer) == [Item("G28 X", false, false, 0.0), Item("M18 X", false, false, 0.0)]
  {
    hide Whole, Ordinary, AsItStands, Stored, LineItems;
    assert "G28 X\nM1" == "G28 X" + ['\n'] + "M1";
    FewCommands();
    FewLines();
    PlainFirstLine(libc, "G28 X", "M1", buffer);
    BehindM1(buffer);
    LastLine(libc, "M1", "8 X", Stored("G28 X", buffer));
    assert "M1" + "8 X" == "M18 X";
    PlainItems(libc, "M18 X");
  }

  lemma FewLines()
    ensures AsItStands("G28 X") && AsItStands("M1") && AsItStands("M18 X") && NulFree("8 X")
  {
  }

  lemma BehindM1(buffer: seq<char>)
    requires |buffer| == LINE
    ensures var b := Stored("G28 X", buffer); b[2..5] == "8 X" && b[5] == NUL
  {
  }

  lemma FewCommands()
    ensures Ordinary("G28 X") && Ordinary("M18 X")
  {
    assert "G28 X"[1] == '2' && "M18 X"[2] == '8';
    assert "M117"[0] == 'M' && "M190"[0] == 'M' && "M109"[0] == 'M' && "G280"[3] == '0';
    assert "M117"[2] == '1' && "M190"[2] == '9' && "M109"[2] == '0' && "G280"[0] == 'G';
  }

  /** A last line without a newline runs on into the text behind it in the buffer. */
  lemma LastLine(libc: Libc, text: string, junk: string, b: seq<char>)
    requires AsItStands(text) && NulFree(junk) && |b| == LINE && |text| + |junk| < LINE
    requires b[|text|..|text| + |junk|] == junk && b[|text| + |junk|] == NUL
    ensures Whole(libc, text, b) == LineItems(libc, text + junk)
  {
    hide LineItems, Fitted;
    PlainLine(text);
    assert UpTo(text, '\n') == text;
    var line := text + junk;
    assert text + b[|text|..] == line + [NUL] + b[|line| + 1..];
    CStringOf(line, b[|line| + 1..]);
  }

  /** Reading to the end one command at a time gives exactly what the whole file means, whatever the sizes of the
      pieces the device delivers and whatever the line buffer held at the start, unless a read fails; then it gives
      a beginning of it. */
  method ReadAll(libc: Libc, file: string, hasPrime: bool, reliable: bool, buffer: seq<char>) returns (items: seq<Item>)
    requires |buffer| == LINE
    ensures items <= Whole(libc, file, buffer) && (reliable ==> items == Whole(libc, file, buffer))
    ensures Complete(file) ==> items <= Batch(libc, file) && (reliable ==> items == Batch(libc, file))
  {
    hide Whole, Items, Plain, Complete, Batch, PutAll, Stream.Meaning;
    var stream := new Stream(libc, file, hasPrime, reliable);
    var line := new char[LINE](i requires 0 <= i < LINE => buffer[i]);
    assert line[..] == buffer;
    items := [];
    if Complete(file) {
      WholeIsBatch(libc, file, buffer);
    }
    stream.MeaningIsWhole(buffer);
    while true
      invariant stream.Valid() && line != stream.readBuffer && fresh(stream) && fresh(stream.readBuffer) && fresh(line)
      invariant Whole(libc, file, buffer) == items + stream.Meaning(line[..])
      decreases |stream.Meaning(line[..])|
    {
      var found, command := stream.Next(line);
      if !found {
        return;
      }
      var item := Item(command, stream.waitBed, stream.waitNozzle, stream.waitTarget);
      assert items + ([item] + stream.Meaning(line[..])) == items + [item] + stream.Meaning(line[..]);
      items := items + [item];
    }
  }

  // ---- Where the waits come from ----

  /** The item is what the line says: a wait for the bed behind "M140 S" from an M190, one for the nozzle behind
      "M104 S" from an M109, and no other wait. */
  ghost predicate Says(libc: Libc, line: string, item: Item) {
    && item in PayloadItems(libc, line)
    && (item.waitBed ==> IsCommand(line, "M190") && item == Item("M140 S" + libc.number(item.target), true, false, item.target))
    && (item.waitNozzle ==> IsCommand(line, "M109") && item == Item("M104 S" + libc.number(item.target), false, true, item.target))
    && (item.waitBed || item.waitNozzle ==> item.target >= 0.0 && AsksFor(libc, line, item.target))
  }

  lemma ItemSays(libc: Libc, line: string, k: nat)
    requires k < |PayloadItems(libc, line)|
    ensures Says(libc, line, PayloadItems(libc, line)[k])
  {
    hide Rewrite, IsCommand, AsksFor;
    WaitsAreHeaters(libc, line);
    assert PayloadItems(libc, line)[k] in PayloadItems(libc, line);
  }

  /** A line that waits for a heater gives exactly one item, and that waits. */
  lemma WaitingLine(libc: Libc, line: string)
    requires line != "" && (IsCommand(line, "M190") || IsCommand(line, "M109"))
    ensures var items := PayloadItems(libc, line);
      |items| == 1 && (items[0].waitBed <==> IsCommand(line, "M190")) && (items[0].waitNozzle <==> IsCommand(line, "M109"))
  {
    hide Rewrite, IsCommand, AsksFor;
    WaitsAreHeaters(libc, line);
  }

  /** Every item of a file, however its lines end, is what one of the lines it is read as says. */
  lemma {:induction false} ItemsAreSaid(libc: Libc, content: string, buffer: seq<char>, k: nat)
    requires |buffer| == LINE && k < |Whole(libc, content, buffer)|
    ensures exists line: string :: Says(libc, line, Whole(libc, content, buffer)[k])
    decreases |content|
  {
    hide Says, Fitted, Payload, PayloadItems, Stored, Partial, CString, Consumed, UpTo;
    var raw := UpTo(content, '\n');
    var text := Fitted(raw);
    var last := Payload(CString(if |raw| < |content| then Stored(text, buffer) else Partial(text, buffer)));
    var first, whole := PayloadItems(libc, last), Whole(libc, content, buffer);
    if k < |first| {
      ItemSays(libc, last, k);
      assert whole[k] == first[k];
    } else {
      var rest := Whole(libc, content[|raw| + 1..], Consumed(libc, Stored(text, buffer)));
      assert whole == first + rest && whole[k] == rest[k - |first|];
      ItemsAreSaid(libc, content[|raw| + 1..], Consumed(libc, Stored(text, buffer)), k - |first|);
    }
  }

  /** The lines of a text that end in a newline. */
  function LinesOf(content: string): seq<string>
    decreases |content|
  {
    var line := UpTo(content, '\n');
    if |line| == |content| then [] else [line] + LinesOf(content[|line| + 1..])
  }

  /** Every item of a file whose lines all end in a newline is what one of these lines, stripped of indentation and
      comment, says. */
  lemma {:induction false} BatchIsSaid(libc: Libc, content: string, k: nat)
    requires k < |Batch(libc, content)|
    ensures exists i :: 0 <= i < |LinesOf(content)| && Says(libc, Payload(Fitted(LinesOf(content)[i])), Batch(libc, content)[k])
    decreases |content|
  {
    hide Says, Fitted, Payload, PayloadItems, UpTo;
    var line := UpTo(content, '\n');
    var rest := content[|line| + 1..];
    var first := LineItems(libc, Fitted(line));
    if k < |first| {
      ItemSays(libc, Payload(Fitted(line)), k);
      assert LinesOf(content)[0] == line && Batch(libc, content)[k] == first[k];
    } else {
      BatchIsSaid(libc, rest, k - |first|);
      var i :| 0 <= i < |LinesOf(rest)| && Says(libc, Payload(Fitted(LinesOf(rest)[i])), Batch(libc, rest)[k - |first|]);
      assert LinesOf(content)[i + 1] == LinesOf(rest)[i] && Batch(libc, content)[k] == Batch(libc, rest)[k - |first|];
    }
  }
}
