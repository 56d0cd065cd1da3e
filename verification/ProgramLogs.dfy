/**
 * Which `Program data:` lines of a transaction log our program emitted: the invoke-stack
 * scanner, against the call tree the log was flattened from. Lines are classified by the
 * code's own patterns. Payloads stay base64 text; decoding them is a function of each
 * payload alone and cannot fail.
 */
module ProgramLogs {
  import opened Wrappers

  // ------------------------------------------------------------ the patterns

  /** What `\s` matches. */
  predicate IsSpace(c: char) {
    var n := c as int;
    || n == 0x20 || 0x09 <= n <= 0x0d || n == 0xa0 || n == 0x1680 || 0x2000 <= n <= 0x200a
    || n == 0x2028 || n == 0x2029 || n == 0x202f || n == 0x205f || n == 0x3000 || n == 0xfeff
  }

  predicate IsDigit(c: char) {
    '0' <= c <= '9'
  }

  predicate AllDigits(s: string) {
    forall c <- s :: IsDigit(c)
  }

  predicate IsToken(s: string) {
    s != "" && forall c <- s :: !IsSpace(c)
  }

  predicate StartsWith(s: string, prefix: string) {
    |prefix| <= |s| && s[..|prefix|] == prefix
  }

  /** Length of the leading run of non-space characters: all that `\S+ ` can match. */
  function TokenLength(s: string): (n: nat)
    ensures n <= |s| && forall i | 0 <= i < n :: !IsSpace(s[i])
    ensures n < |s| ==> IsSpace(s[n])
  {
    if s == "" || IsSpace(s[0]) then 0 else 1 + TokenLength(s[1..])
  }

  /** ` invoke [<digits>]`, to the end of the line. */
  predicate InvokeTail(s: string) {
    |s| > 10 && s[..9] == " invoke [" && s[|s| - 1] == ']' && AllDigits(s[9..|s| - 1])
  }

  predicate ExitTail(s: string) {
    StartsWith(s, " success") || StartsWith(s, " failed")
  }

  datatype Line = Invoke(id: string) | Exit | Data(payload: string) | Other

  function Classify(line: string): Line {
    if StartsWith(line, "Program ") && TokenLength(line[8..]) > 0 && InvokeTail(line[8..][TokenLength(line[8..])..])
    then Invoke(line[8..][..TokenLength(line[8..])])
    else if StartsWith(line, "Program ") && TokenLength(line[8..]) > 0 && ExitTail(line[8..][TokenLength(line[8..])..])
    then Exit
    else if StartsWith(line, "Program data: ") then Data(line[14..])
    else Other
  }

  // ------------------------------------------------------------ the scanner

  datatype Scanner = Scanner(stack: seq<string>, out: seq<string>)

  function Feed(s: Scanner, line: Line, programId: string): Scanner {
    match line
    case Invoke(id) => s.(stack := s.stack + [id])
    case Exit => if s.stack == [] then s else s.(stack := s.stack[..|s.stack| - 1])
    case Data(p) => if s.stack != [] && s.stack[|s.stack| - 1] == programId then s.(out := s.out + [p]) else s
    case Other => s
  }

  function Run(s: Scanner, lines: seq<string>, programId: string): Scanner
    decreases lines
  {
    if lines == [] then s else Run(Feed(s, Classify(lines[0]), programId), lines[1..], programId)
  }

  function Payloads(lines: seq<string>, programId: string): seq<string> {
    Run(Scanner([], []), lines, programId).out
  }

  method ProgramScopedEventPayloads(logMessages: Option<seq<string>>, programId: Option<string>) returns (out: seq<string>)
    ensures out == if logMessages.None? || programId.None? || programId.value == "" then []
                   else Payloads(logMessages.value, programId.value)
  {
    out := [];
    if logMessages.None? || programId.None? || programId.value == "" {
      return;
    }
    var lines, program := logMessages.value, programId.value;
    var stack: seq<string> := [];
    var k := 0;
    while k < |lines|
      invariant k <= |lines|
      invariant Run(Scanner(stack, out), lines[k..], program) == Run(Scanner([], []), lines, program)
    {
      var line := Classify(lines[k]);
      assert lines[k..][1..] == lines[k + 1..];
      k := k + 1;
      if line.Invoke? {
        stack := stack + [line.id];
        continue;
      }
      if line.Exit? {
        if |stack| > 0 {
          stack := stack[..|stack| - 1];
        }
        continue;
      }
      if !line.Data? {
        continue;
      }
      if |stack| == 0 || stack[|stack| - 1] != program {
        continue;
      }
      out := out + [line.payload];
    }
  }

  lemma {:induction false} RunConcat(s: Scanner, a: seq<string>, b: seq<string>, programId: string)
    ensures Run(s, a + b, programId) == Run(Run(s, a, programId), b, programId)
    decreases a
  {
    if a == [] {
      assert a + b == b;
    } else {
      assert (a + b)[1..] == a[1..] + b;
      RunConcat(Feed(s, Classify(a[0]), programId), a[1..], b, programId);
    }
  }

  lemma RunOne(s: Scanner, line: string, programId: string)
    ensures Run(s, [line], programId) == Feed(s, Classify(line), programId)
  {
    assert Run(Feed(s, Classify(line), programId), [], programId) == Feed(s, Classify(line), programId);
  }

  // ------------------------------------------------------------ call trees

  /** One program's execution: what it called, emitted and logged, and how it ended. */
  datatype Frame = Frame(id: string, body: seq<Item>, ending: string)
  datatype Item = Call(frame: Frame) | Emit(payload: string) | Text(line: string)

  function Decimal(n: nat): (s: string)
    ensures s != "" && AllDigits(s)
  {
    if n < 10 then [('0' as int + n) as char] else Decimal(n / 10) + [('0' as int + n % 10) as char]
  }

  function InvokeLine(id: string, depth: nat): string {
    "Program " + id + " invoke [" + Decimal(depth) + "]"
  }

  function ExitLine(id: string, ending: string): string {
    "Program " + id + " " + ending
  }

  function DataLine(payload: string): string {
    "Program data: " + payload
  }

  /** The log of one frame at a depth. */
  function Flatten(f: Frame, depth: nat): seq<string>
    decreases f, 1
  {
    [InvokeLine(f.id, depth)] + FlattenItems(f.body, depth + 1) + [ExitLine(f.id, f.ending)]
  }

  function FlattenItem(i: Item, depth: nat): seq<string>
    decreases i, 0
  {
    match i
    case Call(f) => Flatten(f, depth)
    case Emit(p) => [DataLine(p)]
    case Text(t) => [t]
  }

  function FlattenItems(items: seq<Item>, depth: nat): seq<string>
    decreases items, 0
  {
    if items == [] then [] else FlattenItem(items[0], depth) + FlattenItems(items[1..], depth)
  }

  function FlattenAll(frames: seq<Frame>): seq<string> {
    if frames == [] then [] else Flatten(frames[0], 1) + FlattenAll(frames[1..])
  }

  /** What the program emitted itself, in order: the data of frames with its id. */
  function Emitted(f: Frame, programId: string): seq<string>
    decreases f, 1
  {
    EmittedItems(f.body, f.id, programId)
  }

  function EmittedItem(i: Item, owner: string, programId: string): seq<string>
    decreases i, 0
  {
    match i
    case Call(f) => Emitted(f, programId)
    case Emit(p) => if owner == programId then [p] else []
    case Text(_) => []
  }

  function EmittedItems(items: seq<Item>, owner: string, programId: string): seq<string>
    decreases items, 0
  {
    if items == [] then [] else EmittedItem(items[0], owner, programId) + EmittedItems(items[1..], owner, programId)
  }

  function EmittedAll(frames: seq<Frame>, programId: string): seq<string> {
    if frames == [] then [] else Emitted(frames[0], programId) + EmittedAll(frames[1..], programId)
  }

  /** Ids are tokens, endings are endings, and no data or text line reads as anything else. */
  predicate Plain(f: Frame)
    decreases f, 1
  {
    IsToken(f.id) && ExitTail(" " + f.ending) && PlainItems(f.body)
  }

  predicate PlainItem(i: Item)
    decreases i, 0
  {
    match i
    case Call(f) => Plain(f)
    case Emit(p) => Classify(DataLine(p)) == Data(p)
    case Text(t) => Classify(t) == Other
  }

  predicate PlainItems(items: seq<Item>)
    decreases items, 0
  {
    items == [] || (PlainItem(items[0]) && PlainItems(items[1..]))
  }

  // ------------------------------------------------------------ classification of the lines of a tree

  lemma {:induction false} TokenThenSpace(id: string, rest: string)
    requires forall c <- id :: !IsSpace(c)
    requires rest == "" || IsSpace(rest[0])
    ensures TokenLength(id + rest) == |id|
  {
    if id == "" {
      assert id + rest == rest;
    } else {
      assert (id + rest)[1..] == id[1..] + rest;
      TokenThenSpace(id[1..], rest);
    }
  }

  lemma SplitProgramLine(id: string, rest: string)
    requires IsToken(id) && rest != "" && IsSpace(rest[0])
    ensures var line := "Program " + id + rest;
      && StartsWith(line, "Program ") && line[8..] == id + rest
      && TokenLength(line[8..]) == |id| > 0
      && line[8..][..|id|] == id && line[8..][|id|..] == rest
  {
    var line := "Program " + id + rest;
    assert line == "Program " + (id + rest);
    TokenThenSpace(id, rest);
  }

  lemma SpaceIsSpace()
    ensures IsSpace(' ')
  {
  }

  lemma InvokeLineRead(id: string, depth: nat)
    requires IsToken(id)
    ensures Classify(InvokeLine(id, depth)) == Invoke(id)
  {
    var rest := " invoke [" + Decimal(depth) + "]";
    assert InvokeLine(id, depth) == "Program " + id + rest;
    SplitProgramLine(id, rest);
    assert rest[9..|rest| - 1] == Decimal(depth);
  }

  lemma ExitLineRead(id: string, ending: string)
    requires IsToken(id) && ExitTail(" " + ending)
    ensures Classify(ExitLine(id, ending)) == Exit
  {
    hide TokenLength, IsSpace;
    assert IsSpace(' ') by { SpaceIsSpace(); }
    var rest := " " + ending;
    assert ExitLine(id, ending) == "Program " + id + rest;
    SplitProgramLine(id, rest);
    assert rest[1] == 's' || rest[1] == 'f' by {
      if StartsWith(rest, " success") {
        assert rest[..8][1] == rest[1];
      } else {
        assert rest[..7][1] == rest[1];
      }
    }
    if |rest| > 10 {
      assert rest[..9][1] == rest[1] && " invoke ["[1] == 'i';
    }
  }

  /** A message line is ignored exactly when it does not begin like an outcome or read as an invoke. */
  lemma LogLineRead(msg: string)
    ensures var line := "Program log: " + msg;
      && (Classify(line).Invoke? <==> InvokeTail(" " + msg))
      && (Classify(line).Exit? <==> ExitTail(" " + msg) && !InvokeTail(" " + msg))
      && (Classify(line).Other? <==> !InvokeTail(" " + msg) && !ExitTail(" " + msg))
  {
    var line := "Program log: " + msg;
    assert line == "Program " + "log:" + (" " + msg);
    SplitProgramLine("log:", " " + msg);
    assert line[8] == 'l' && "Program data: "[8] == 'd';
    if |line| >= 14 {
      assert line[..14][8] == line[8];
    }
  }

  /** A data line is read as its payload exactly when the payload does not read as an outcome or an invoke. */
  lemma DataLineRead(payload: string)
    ensures Classify(DataLine(payload)) == Data(payload) <==>
            !InvokeTail(" " + payload) && !ExitTail(" " + payload)
  {
    var line := DataLine(payload);
    assert line == "Program " + "data:" + (" " + payload);
    SplitProgramLine("data:", " " + payload);
    assert line[..14] == "Program data: " && line[14..] == payload;
  }

  // ------------------------------------------------------------ what each pattern matches

  predicate Digits(s: string) {
    s != "" && forall c <- s :: '0' <= c <= '9'
  }

  ghost predicate ReadsAsInvoke(line: string, id: string) {
    IsToken(id) && exists digits :: Digits(digits) && line == "Program " + id + " invoke [" + digits + "]"
  }

  ghost predicate ReadsAsExit(line: string) {
    exists id, rest :: IsToken(id) && (line == "Program " + id + " success" + rest || line == "Program " + id + " failed" + rest)
  }

  /** The white space and line terminators of ECMAScript, by code point. */
  const WHITE: seq<int> := [
    0x09, 0x0a, 0x0b, 0x0c, 0x0d, 0x20, 0xa0, 0x1680, 0x2000, 0x2001, 0x2002, 0x2003, 0x2004, 0x2005, 0x2006,
    0x2007, 0x2008, 0x2009, 0x200a, 0x2028, 0x2029, 0x202f, 0x205f, 0x3000, 0xfeff]

  lemma SpaceExactly(c: char)
    ensures IsSpace(c) <==> c as int in WHITE
  {
    var n := c as int;
    if 0x09 <= n <= 0x0d {
      assert WHITE[n - 0x09] == n;
    } else if 0x2000 <= n <= 0x200a {
      assert WHITE[8 + n - 0x2000] == n;
    } else if IsSpace(c) {
      assert WHITE[5] == 0x20 && WHITE[6] == 0xa0 && WHITE[7] == 0x1680;
      assert WHITE[19] == 0x2028 && WHITE[20] == 0x2029 && WHITE[21] == 0x202f && WHITE[22] == 0x205f;
      assert WHITE[23] == 0x3000 && WHITE[24] == 0xfeff;
    }
  }

  lemma TokenEnds(s: string)
    ensures var n := TokenLength(s); n > 0 ==> IsToken(s[..n])
  {
  }

  /** A line that begins "Program " with a token after it, taken apart. */
  lemma Parts(line: string) returns (id: string, tail: string)
    requires StartsWith(line, "Program ") && TokenLength(line[8..]) > 0
    ensures var n := TokenLength(line[8..]);
      id == line[8..][..n] && tail == line[8..][n..] && IsToken(id) && line == "Program " + id + tail
  {
    var s := line[8..];
    id, tail := s[..TokenLength(s)], s[TokenLength(s)..];
    TokenEnds(s);
    hide TokenLength, IsToken;
    assert line == "Program " + s && s == id + tail;
  }

  lemma InvokeTailParts(tail: string) returns (digits: string)
    requires InvokeTail(tail)
    ensures Digits(digits) && tail == " invoke [" + digits + "]"
  {
    digits := tail[9..|tail| - 1];
    assert tail == tail[..9] + digits + [tail[|tail| - 1]];
  }

  lemma InvokeTailWhole(digits: string)
    requires Digits(digits)
    ensures InvokeTail(" invoke [" + digits + "]")
  {
    var tail := " invoke [" + digits + "]";
    assert tail[9..|tail| - 1] == digits;
  }

  lemma ReadInvoke(id: string, digits: string)
    requires IsToken(id) && Digits(digits)
    ensures Classify("Program " + id + " invoke [" + digits + "]") == Invoke(id)
  {
    var tail := " invoke [" + digits + "]";
    InvokeTailWhole(digits);
    assert "Program " + id + " invoke [" + digits + "]" == "Program " + id + tail;
    hide IsToken, TokenLength, InvokeTail;
    SpaceIsSpace();
    SplitProgramLine(id, tail);
  }

  lemma WasInvoke(line: string)
    requires Classify(line).Invoke?
    ensures ReadsAsInvoke(line, Classify(line).id)
  {
    var id, tail := Parts(line);
    hide IsToken, TokenLength;
    var digits := InvokeTailParts(tail);
    hide InvokeTail, Digits;
    assert line == "Program " + id + (" invoke [" + digits + "]") == "Program " + id + " invoke [" + digits + "]";
  }

  /** An invocation is a token between "Program " and " invoke [", digits and a bracket; nothing else is. */
  lemma InvokeExactly(line: string, id: string)
    ensures Classify(line) == Invoke(id) <==> ReadsAsInvoke(line, id)
  {
    hide Classify, IsToken, Digits;
    if Classify(line) == Invoke(id) {
      WasInvoke(line);
    }
    if ReadsAsInvoke(line, id) {
      var digits :| Digits(digits) && line == "Program " + id + " invoke [" + digits + "]";
      ReadInvoke(id, digits);
    }
  }

  lemma WasExit(line: string)
    requires Classify(line) == Exit
    ensures ReadsAsExit(line)
  {
    var id, tail := Parts(line);
    hide IsToken, TokenLength, ReadsAsExit;
    ExitTailParts(id, tail);
  }

  lemma ReadExit(id: string, word: string, rest: string)
    requires IsToken(id) && (word == "success" || word == "failed")
    ensures Classify("Program " + id + " " + word + rest) == Exit
  {
    WordThenRest(word, rest);
    assert "Program " + id + " " + word + rest == ExitLine(id, word + rest);
    hide IsToken, TokenLength, ExitTail, Classify;
    ExitLineRead(id, word + rest);
  }

  /** An outcome is a token between "Program " and " success" or " failed", whatever follows. */
  lemma ExitExactly(line: string)
    ensures Classify(line) == Exit <==> ReadsAsExit(line)
  {
    if Classify(line) == Exit {
      hide Classify;
      WasExit(line);
    }
    hide Classify, IsToken;
    if id, rest :| IsToken(id) && line == "Program " + id + " success" + rest {
      assert line == "Program " + id + " " + "success" + rest;
      ReadExit(id, "success", rest);
    }
    if id, rest :| IsToken(id) && line == "Program " + id + " failed" + rest {
      assert line == "Program " + id + " " + "failed" + rest;
      ReadExit(id, "failed", rest);
    }
  }

  lemma WordThenRest(word: string, rest: string)
    requires word == "success" || word == "failed"
    ensures ExitTail(" " + (word + rest))
  {
    var tail := " " + (word + rest);
    assert word == "success" ==> tail[..8] == " success";
    assert word == "failed" ==> tail[..7] == " failed";
  }

  lemma ExitTailParts(id: string, tail: string)
    requires IsToken(id) && ExitTail(tail)
    ensures ReadsAsExit("Program " + id + tail)
  {
    var line := "Program " + id + tail;
    hide IsToken;
    if StartsWith(tail, " success") {
      assert tail == " success" + tail[8..];
      assert line == "Program " + id + " success" + tail[8..];
    } else {
      assert tail == " failed" + tail[7..];
      assert line == "Program " + id + " failed" + tail[7..];
    }
  }

  /** A data line is "Program data: " and its payload, unless it reads as one of the others. */
  lemma DataExactly(line: string, payload: string)
    ensures Classify(line) == Data(payload) <==>
            line == "Program data: " + payload && !ReadsAsExit(line) && forall id :: !ReadsAsInvoke(line, id)
  {
    ExitExactly(line);
    forall id ensures ReadsAsInvoke(line, id) <==> Classify(line) == Invoke(id) {
      InvokeExactly(line, id);
    }
    hide ReadsAsExit, ReadsAsInvoke, InvokeTail, ExitTail, TokenLength;
    if line == "Program data: " + payload {
      assert line[..14] == "Program data: " && line[14..] == payload;
    }
    if Classify(line) == Data(payload) {
      assert line == line[..14] + line[14..];
    }
    assert Classify(line).Invoke? ==> ReadsAsInvoke(line, Classify(line).id);
  }

  // ------------------------------------------------------------ scanning a flattened tree

  lemma {:induction false} ScanFrame(s: Scanner, f: Frame, depth: nat, programId: string)
    requires Plain(f)
    ensures Run(s, Flatten(f, depth), programId) == Scanner(s.stack, s.out + Emitted(f, programId))
    decreases f, 1
  {
    var inner := FlattenItems(f.body, depth + 1);
    var first, last := [InvokeLine(f.id, depth)], [ExitLine(f.id, f.ending)];
    RunConcat(s, first + inner, last, programId);
    RunConcat(s, first, inner, programId);
    RunOne(s, first[0], programId);
    InvokeLineRead(f.id, depth);
    var inside := Scanner(s.stack + [f.id], s.out);
    ScanItems(inside, f.body, depth + 1, programId);
    var done := Run(inside, inner, programId);
    RunOne(done, last[0], programId);
    ExitLineRead(f.id, f.ending);
    assert (s.stack + [f.id])[..|s.stack|] == s.stack;
  }

  lemma {:induction false} ScanItem(s: Scanner, i: Item, depth: nat, programId: string)
    requires s.stack != [] && PlainItem(i)
    ensures Run(s, FlattenItem(i, depth), programId) ==
            Scanner(s.stack, s.out + EmittedItem(i, s.stack[|s.stack| - 1], programId))
    decreases i, 0
  {
    match i {
      case Call(f) => ScanFrame(s, f, depth, programId);
      case Emit(p) => RunOne(s, DataLine(p), programId);
      case Text(t) => RunOne(s, t, programId);
    }
  }

  lemma {:induction false} ScanItems(s: Scanner, items: seq<Item>, depth: nat, programId: string)
    requires s.stack != [] && PlainItems(items)
    ensures Run(s, FlattenItems(items, depth), programId) ==
            Scanner(s.stack, s.out + EmittedItems(items, s.stack[|s.stack| - 1], programId))
    decreases items, 0
  {
    hide Classify, FlattenItem, EmittedItem, PlainItem;
    var owner := s.stack[|s.stack| - 1];
    if items != [] {
      RunConcat(s, FlattenItem(items[0], depth), FlattenItems(items[1..], depth), programId);
      ScanItem(s, items[0], depth, programId);
      var next := Scanner(s.stack, s.out + EmittedItem(items[0], owner, programId));
      ScanItems(next, items[1..], depth, programId);
      assert next.out + EmittedItems(items[1..], owner, programId) == s.out + EmittedItems(items, owner, programId);
    } else {
      assert s.out + [] == s.out;
    }
  }

  lemma {:induction false} ScanForest(s: Scanner, frames: seq<Frame>, programId: string)
    requires forall f <- frames :: Plain(f)
    ensures Run(s, FlattenAll(frames), programId) == Scanner(s.stack, s.out + EmittedAll(frames, programId))
    decreases frames
  {
    hide Plain, Flatten, Emitted, Classify;
    if frames != [] {
      RunConcat(s, Flatten(frames[0], 1), FlattenAll(frames[1..]), programId);
      ScanFrame(s, frames[0], 1, programId);
      var next := Scanner(s.stack, s.out + Emitted(frames[0], programId));
      ScanForest(next, frames[1..], programId);
      assert next.out + EmittedAll(frames[1..], programId) == s.out + EmittedAll(frames, programId);
    } else {
      assert s.out + [] == s.out;
    }
  }

  /** For every call tree and depth: exactly the program's own events, in order. */
  lemma ScanRecoversEvents(frames: seq<Frame>, programId: string)
    requires forall f <- frames :: Plain(f)
    ensures Payloads(FlattenAll(frames), programId) == EmittedAll(frames, programId)
  {
    ScanForest(Scanner([], []), frames, programId);
    assert [] + EmittedAll(frames, programId) == EmittedAll(frames, programId);
  }

  lemma {:induction false} OutOnlyGrows(s: Scanner, lines: seq<string>, programId: string)
    ensures s.out <= Run(s, lines, programId).out
    decreases lines
  {
    if lines != [] {
      OutOnlyGrows(Feed(s, Classify(lines[0]), programId), lines[1..], programId);
    }
  }

  /** A log cut off anywhere (as the runtime does) yields the first of those events and nothing else. */
  lemma TruncatedLogIsPrefix(frames: seq<Frame>, k: nat, programId: string)
    requires forall f <- frames :: Plain(f)
    requires k <= |FlattenAll(frames)|
    ensures Payloads(FlattenAll(frames)[..k], programId) <= EmittedAll(frames, programId)
  {
    var lines := FlattenAll(frames);
    ScanRecoversEvents(frames, programId);
    assert lines == lines[..k] + lines[k..];
    RunConcat(Scanner([], []), lines[..k], lines[k..], programId);
    OutOnlyGrows(Run(Scanner([], []), lines[..k], programId), lines[k..], programId);
  }

  // ------------------------------------------------------------ which texts a tree may contain

  function OneEvent(id: string, text: string, payload: string): Frame {
    Frame(id, [Text(text), Emit(payload)], "success")
  }

  /** Whatever program logs `text` and then emits an event, the scan returns that event. */
  ghost predicate TextHarmless(text: string) {
    forall id, payload {:trigger OneEvent(id, text, payload)} ::
      IsToken(id) && Classify(DataLine(payload)) == Data(payload) ==>
        Payloads(Flatten(OneEvent(id, text, payload), 1), id) == [payload]
  }

  lemma OneEventScanned(id: string, text: string, payload: string)
    requires IsToken(id) && Classify(DataLine(payload)) == Data(payload)
    ensures Payloads(Flatten(OneEvent(id, text, payload), 1), id) ==
            Feed(Feed(Scanner([id], []), Classify(text), id), Data(payload), id).out
  {
    OneEventLines(id, text, payload);
    InvokeLineRead(id, 1);
    SuccessEnds();
    ExitLineRead(id, "success");
    hide Classify, DataLine, InvokeLine, ExitLine, Flatten, Run;
    FourLines(Scanner([], []), InvokeLine(id, 1), text, DataLine(payload), ExitLine(id, "success"), id);
    assert [] + [id] == [id];
  }

  lemma FourLines(s: Scanner, a: string, b: string, c: string, d: string, programId: string)
    ensures Run(s, [a] + [b] + [c] + [d], programId) ==
            Feed(Feed(Feed(Feed(s, Classify(a), programId), Classify(b), programId), Classify(c), programId), Classify(d), programId)
  {
    hide Classify, Feed;
    RunConcat(s, [a] + [b] + [c], [d], programId);
    RunConcat(s, [a] + [b], [c], programId);
    RunConcat(s, [a], [b], programId);
    RunOne(s, a, programId);
    var s1 := Feed(s, Classify(a), programId);
    RunOne(s1, b, programId);
    var s2 := Feed(s1, Classify(b), programId);
    RunOne(s2, c, programId);
    RunOne(Feed(s2, Classify(c), programId), d, programId);
  }

  lemma OneEventLines(id: string, text: string, payload: string)
    ensures Flatten(OneEvent(id, text, payload), 1) ==
            [InvokeLine(id, 1)] + [text] + [DataLine(payload)] + [ExitLine(id, "success")]
  {
    hide DataLine, InvokeLine, ExitLine;
    var items := [Text(text), Emit(payload)];
    assert items[1..] == [Emit(payload)] && items[1..][1..] == [];
    assert FlattenItems(items[1..], 2) == FlattenItem(Emit(payload), 2) + FlattenItems([], 2);
    assert FlattenItems(items[1..], 2) == [DataLine(payload)];
    assert FlattenItems(items, 2) == [text] + [DataLine(payload)];
  }

  lemma SuccessEnds()
    ensures ExitTail(" success") && " " + "success" == " success"
  {
    assert " success"[..8] == " success";
  }

  /** A text is harmless exactly when none of the scanner's patterns matches it. */
  lemma TextHarmlessExactly(text: string)
    ensures TextHarmless(text) <==> Classify(text) == Other
  {
    hide Payloads, Flatten, DataLine, Classify, Feed;
    if Classify(text) == Other {
      forall id, payload {:trigger OneEvent(id, text, payload)} |
        IsToken(id) && Classify(DataLine(payload)) == Data(payload)
        ensures Payloads(Flatten(OneEvent(id, text, payload), 1), id) == [payload]
      {
        OneEventScanned(id, text, payload);
        OnlyOtherIsIgnored(id, Other, payload);
      }
    } else {
      var id, payload := TellingEvent(text);
      OneEventScanned(id, text, payload);
      OnlyOtherIsIgnored(id, Classify(text), payload);
      assert Payloads(Flatten(OneEvent(id, text, payload), 1), id) != [payload];
    }
  }

  lemma TellingEvent(text: string) returns (id: string, payload: string)
    ensures IsToken(id) && Classify(DataLine(payload)) == Data(payload) && Classify(text) != Invoke(id)
  {
    EventPayloadPlain();
    hide Classify, DataLine;
    payload := "QQ==";
    id := if Classify(text) == Invoke("a") then "b" else "a";
  }

  lemma OnlyOtherIsIgnored(id: string, line: Line, payload: string)
    requires line != Invoke(id)
    ensures Feed(Feed(Scanner([id], []), line, id), Data(payload), id).out == [payload] <==> line == Other
  {
  }

  lemma EventPayloadPlain()
    ensures Classify(DataLine("QQ==")) == Data("QQ==")
  {
    DataLineRead("QQ==");
    assert (" QQ==")[1] == 'Q' && " success"[1] == 's' && " failed"[1] == 'f';
  }

  /**
   * The patterns do not tell a program's own message from an outcome line: whatever
   * program logs a line that reads as an outcome loses the event it emits next.
   */
  lemma OutcomeLikeTextHidesEvent(id: string, text: string, payload: string)
    requires IsToken(id) && Classify(DataLine(payload)) == Data(payload) && Classify(text) == Exit
    ensures Payloads(Flatten(OneEvent(id, text, payload), 1), id) == []
  {
    OneEventScanned(id, text, payload);
  }

  /** ... and a message that merely begins with "success" is such a line. */
  lemma SuccessMessageReadsAsOutcome(more: string)
    requires !InvokeTail(" success" + more)
    ensures Classify("Program log: success" + more) == Exit
  {
    var msg := "success" + more;
    LogLineRead(msg);
    hide Classify, InvokeTail;
    assert " " + msg == " success" + more;
    assert (" success" + more)[..8] == " success";
    assert "Program log: " + msg == "Program log: success" + more;
  }

  // ------------------------------------------------------------ whose event it is taken for

  /** Plain, except that `text` may be logged anywhere. */
  predicate PlainBut(f: Frame, text: string)
    decreases f, 1
  {
    IsToken(f.id) && ExitTail(" " + f.ending) && PlainItemsBut(f.body, text)
  }

  predicate PlainItemBut(i: Item, text: string)
    decreases i, 0
  {
    match i
    case Call(f) => PlainBut(f, text)
    case Emit(p) => Classify(DataLine(p)) == Data(p)
    case Text(t) => t == text || Classify(t) == Other
  }

  predicate PlainItemsBut(items: seq<Item>, text: string)
    decreases items, 0
  {
    items == [] || (PlainItemBut(items[0], text) && PlainItemsBut(items[1..], text))
  }

  lemma {:induction false} OtherTextIsPlain(f: Frame, text: string)
    requires Classify(text) == Other && PlainBut(f, text)
    ensures Plain(f)
    decreases f, 1
  {
    OtherTextIsPlainItems(f.body, text);
  }

  lemma {:induction false} OtherTextIsPlainItems(items: seq<Item>, text: string)
    requires Classify(text) == Other && PlainItemsBut(items, text)
    ensures PlainItems(items)
    decreases items, 0
  {
    hide Classify, DataLine, PlainItem, PlainItemBut;
    if items != [] {
      OtherTextIsPlainItem(items[0], text);
      OtherTextIsPlainItems(items[1..], text);
    }
  }

  lemma {:induction false} OtherTextIsPlainItem(i: Item, text: string)
    requires Classify(text) == Other && PlainItemBut(i, text)
    ensures PlainItem(i)
    decreases i, 0
  {
    hide Classify, DataLine;
    match i
    case Call(f) => OtherTextIsPlain(f, text);
    case Emit(p) =>
    case Text(t) =>
  }

  ghost predicate AllPlainBut(frames: seq<Frame>, text: string) {
    forall f <- frames :: PlainBut(f, text)
  }

  /** A program that emitted nothing is credited with something in some tree that logs `text`. */
  ghost predicate Forges(text: string) {
    exists frames, programId :: Forged(frames, text, programId)
  }

  ghost predicate Forged(frames: seq<Frame>, text: string, programId: string) {
    && AllPlainBut(frames, text) && EmittedAll(frames, programId) == []
    && Payloads(FlattenAll(frames), programId) != []
  }

  /** `p` calls `a`, which logs `text` and emits `payload`. */
  function Nested(p: string, a: string, text: string, payload: string): Frame {
    Frame(p, [Call(Frame(a, [Text(text), Emit(payload)], "success"))], "success")
  }

  lemma NestedLines(p: string, a: string, text: string, payload: string)
    ensures FlattenAll([Nested(p, a, text, payload)]) ==
            [InvokeLine(p, 1)] + [InvokeLine(a, 2)] + ([text] + [DataLine(payload)])
            + [ExitLine(a, "success")] + [ExitLine(p, "success")]
  {
    hide DataLine, InvokeLine, ExitLine;
    var inner := Frame(a, [Text(text), Emit(payload)], "success");
    var items := inner.body;
    assert items[1..] == [Emit(payload)] && items[1..][1..] == [];
    assert FlattenItems(items[1..], 3) == FlattenItem(Emit(payload), 3) + FlattenItems([], 3);
    assert FlattenItems(items, 3) == [text] + [DataLine(payload)];
    var outer := Nested(p, a, text, payload);
    assert outer.body[1..] == [];
    assert FlattenItems(outer.body, 2) == Flatten(inner, 2) + FlattenItems([], 2);
    assert [outer][1..] == [];
  }

  lemma NestedScanned(p: string, a: string, text: string, payload: string)
    requires IsToken(p) && IsToken(a) && Classify(DataLine(payload)) == Data(payload)
    ensures Payloads(FlattenAll([Nested(p, a, text, payload)]), p) ==
            Feed(Feed(Scanner([p, a], []), Classify(text), p), Data(payload), p).out
  {
    NestedLines(p, a, text, payload);
    InvokeLineRead(p, 1);
    InvokeLineRead(a, 2);
    SuccessEnds();
    ExitLineRead(a, "success");
    ExitLineRead(p, "success");
    hide Classify, DataLine, InvokeLine, ExitLine, FlattenAll, Run;
    var s := Scanner([], []);
    var i1, i2, inner := [InvokeLine(p, 1)], [InvokeLine(a, 2)], [text] + [DataLine(payload)];
    var e2, e1 := [ExitLine(a, "success")], [ExitLine(p, "success")];
    RunConcat(s, i1 + i2 + inner + e2, e1, p);
    RunConcat(s, i1 + i2 + inner, e2, p);
    RunConcat(s, i1 + i2, inner, p);
    RunConcat(s, i1, i2, p);
    RunOne(s, i1[0], p);
    RunOne(Scanner([p], []), i2[0], p);
    assert [] + [p] == [p] && [p] + [a] == [p, a];
    var t := Scanner([p, a], []);
    RunConcat(t, [text], [DataLine(payload)], p);
    RunOne(t, text, p);
    RunOne(Feed(t, Classify(text), p), DataLine(payload), p);
    var u := Run(t, inner, p);
    RunOne(u, e2[0], p);
    RunOne(Run(u, e2, p), e1[0], p);
  }

  /**
   * The event of a called program is taken for its caller's exactly when the text before it reads
   * as an outcome, or as an invocation of the caller.
   */
  lemma MisattributedExactly(p: string, a: string, text: string, payload: string)
    requires IsToken(p) && IsToken(a) && p != a && Classify(DataLine(payload)) == Data(payload)
    ensures EmittedAll([Nested(p, a, text, payload)], p) == []
    ensures Payloads(FlattenAll([Nested(p, a, text, payload)]), p) == [payload]
            <==> Classify(text) == Exit || Classify(text) == Invoke(p)
  {
    NestedScanned(p, a, text, payload);
    NestedEmits(p, a, text, payload);
    hide Classify, DataLine, FlattenAll, Payloads;
    match Classify(text)
    case Exit => assert [p, a][..1] == [p];
    case Invoke(id) => assert ([p, a] + [id])[2] == id;
    case Data(other) =>
    case Other =>
  }

  lemma NestedEmits(p: string, a: string, text: string, payload: string)
    requires p != a
    ensures EmittedAll([Nested(p, a, text, payload)], p) == []
  {
    var inner := Frame(a, [Text(text), Emit(payload)], "success");
    assert inner.body[1..] == [Emit(payload)] && inner.body[1..][1..] == [];
    assert EmittedItems(inner.body[1..], a, p) == EmittedItem(Emit(payload), a, p) + EmittedItems([], a, p);
    assert EmittedItems(inner.body, a, p) == EmittedItem(inner.body[0], a, p) + EmittedItems(inner.body[1..], a, p);
    assert Emitted(inner, p) == [];
    var outer := Nested(p, a, text, payload);
    assert outer.body[1..] == [];
    assert EmittedItems(outer.body, p, p) == EmittedItem(outer.body[0], p, p) + EmittedItems([], p, p);
    assert [outer][1..] == [];
  }

  /** One frame that only logs `text`. */
  function Logging(id: string, text: string): Frame {
    Frame(id, [Text(text)], "success")
  }

  lemma LoggingScanned(text: string, payload: string)
    requires Classify(text) == Data(payload)
    ensures Payloads(FlattenAll([Logging("a", text)]), "a") == [payload]
  {
    var f := Logging("a", text);
    InvokeLineRead("a", 1);
    SuccessEnds();
    ExitLineRead("a", "success");
    hide Classify, InvokeLine, ExitLine, DataLine, ExitTail;
    var i, e := [InvokeLine("a", 1)], [ExitLine("a", "success")];
    LoggingLines("a", text);
    hide FlattenAll, Run;
    var s := Scanner([], []);
    RunConcat(s, i + [text], e, "a");
    RunConcat(s, i, [text], "a");
    RunOne(s, i[0], "a");
    assert [] + ["a"] == ["a"];
    RunOne(Scanner(["a"], []), text, "a");
    RunOne(Run(Scanner(["a"], []), [text], "a"), e[0], "a");
  }

  lemma LoggingLines(id: string, text: string)
    ensures FlattenAll([Logging(id, text)]) == [InvokeLine(id, 1)] + [text] + [ExitLine(id, "success")]
  {
    hide InvokeLine, ExitLine;
    var f := Logging(id, text);
    assert f.body[1..] == [] && [f][1..] == [];
    assert FlattenItems(f.body, 2) == FlattenItem(f.body[0], 2) + FlattenItems([], 2);
    assert Flatten(f, 1) == [InvokeLine(id, 1)] + [text] + [ExitLine(id, "success")];
    assert FlattenAll([f]) == Flatten(f, 1) + FlattenAll([]);
  }

  lemma DataTextForges(text: string, payload: string)
    requires Classify(text) == Data(payload)
    ensures Forges(text)
  {
    LoggingScanned(text, payload);
    SuccessEnds();
    hide Classify, DataLine, Payloads, FlattenAll, ExitTail;
    var f := Logging("a", text);
    assert f.body[1..] == [] && [f][1..] == [];
    assert EmittedItems(f.body, "a", "a") == EmittedItem(f.body[0], "a", "a") + EmittedItems([], "a", "a");
    assert EmittedAll([f], "a") == Emitted(f, "a") + EmittedAll([], "a");
    assert PlainItemsBut(f.body, text);
    assert PlainBut(f, text);
    assert AllPlainBut([f], text);
    assert Forged([f], text, "a");
  }

  lemma NestedForges(p: string, a: string, text: string)
    requires IsToken(p) && IsToken(a) && p != a && (Classify(text) == Exit || Classify(text) == Invoke(p))
    ensures Forges(text)
  {
    var payload := "QQ==";
    EventPayloadPlain();
    SuccessEnds();
    MisattributedExactly(p, a, text, payload);
    hide Classify, DataLine, FlattenAll, Payloads, EmittedAll, IsToken, ExitTail;
    var f := Nested(p, a, text, payload);
    var inner := f.body[0].frame;
    assert inner.body[1..] == [Emit(payload)] && inner.body[1..][1..] == [] && f.body[1..] == [];
    assert PlainItemBut(Emit(payload), text);
    assert PlainItemsBut(inner.body[1..], text);
    assert PlainItemsBut(inner.body, text);
    assert PlainBut(inner, text);
    assert PlainItemsBut(f.body, text);
    assert AllPlainBut([f], text);
    assert Forged([f], text, p);
  }

  /**
   * Over all call trees: a logged text can make a program be credited with an event it did not
   * emit exactly when one of the scanner's patterns matches it; otherwise every tree it is logged
   * in is scanned exactly.
   */
  lemma ForgesExactly(text: string)
    ensures Forges(text) <==> Classify(text) != Other
    ensures Classify(text) == Other ==>
      forall frames, programId | AllPlainBut(frames, text) ::
        Payloads(FlattenAll(frames), programId) == EmittedAll(frames, programId)
  {
    if Classify(text) == Other {
      forall frames, programId | AllPlainBut(frames, text)
        ensures Payloads(FlattenAll(frames), programId) == EmittedAll(frames, programId)
      {
        forall f <- frames ensures Plain(f) {
          OtherTextIsPlain(f, text);
        }
        ScanRecoversEvents(frames, programId);
      }
    } else {
      hide Classify, Forges;
      match Classify(text)
      case Exit => NestedForges("a", "b", text);
      case Invoke(id) => InvokedIsToken(text); NestedForges(id, if id == "a" then "b" else "a", text);
      case Data(payload) => DataTextForges(text, payload);
    }
  }

  lemma InvokedIsToken(text: string)
    requires Classify(text).Invoke?
    ensures IsToken(Classify(text).id)
  {
  }
}
