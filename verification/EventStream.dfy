/** Reading the agent's event stream (internal/agent/opencode.go): bytes to lines, lines to
    data payloads, and how that compares with section 9.2.6 of the WHATWG HTML Standard. */
module EventStream {
  import opened Text

  // ---- lines ----

  function DropCR(line: string): string {
    if line != "" && line[|line| - 1] == '\r' then line[..|line| - 1] else line
  }

  /** The lines of bufio.ScanLines: a last line without a newline counts too. */
  function Lines(t: string): seq<string>
    decreases |t|
  {
    if t == "" then []
    else
      var n := IndexOf(t, '\n');
      [DropCR(t[..n])] + if n < |t| then Lines(t[n + 1..]) else []
  }

  // ---- payloads ----

  function TrimLeft(s: string): string {
    if s == "" || !IsSpace(s[0]) then s else TrimLeft(s[1..])
  }

  function TrimRight(s: string): string {
    if s == "" || !IsSpace(s[|s| - 1]) then s else TrimRight(s[..|s| - 1])
  }

  function Trim(s: string): string {
    TrimLeft(TrimRight(s))
  }

  predicate IsData(line: string) {
    "data:" <= line
  }

  /** What one line adds to the payload. */
  function Ours(line: string): string {
    if IsData(line) then line[5..] + "\n" else ""
  }

  function Data(block: seq<string>): string {
    if block == [] then "" else Ours(block[0]) + Data(block[1..])
  }

  /** The lines grouped into events: a blank line ends one, and what no blank line ends is
      not an event. `open` holds the lines already read of the first one. */
  function Blocks(lines: seq<string>, open: seq<string>): seq<seq<string>>
    decreases |lines|
  {
    if lines == [] then []
    else if lines[0] == "" then [open] + Blocks(lines[1..], [])
    else Blocks(lines[1..], open + [lines[0]])
  }

  function OneOrNone(p: string): seq<string> {
    if p == "" then [] else [p]
  }

  function Payloads(blocks: seq<seq<string>>): seq<string> {
    if blocks == [] then [] else OneOrNone(Trim(Data(blocks[0]))) + Payloads(blocks[1..])
  }

  /** The payloads that reach the JSON decoder, for a connection that carried these lines. */
  function Delivered(lines: seq<string>): seq<string> {
    Payloads(Blocks(lines, []))
  }

  // ---- trimming ----

  predicate AllSpace(s: string) {
    forall i :: 0 <= i < |s| ==> IsSpace(s[i])
  }

  lemma {:induction false} TrimRightSpace(a: string, w: string)
    requires AllSpace(w)
    ensures TrimRight(a + w) == TrimRight(a)
    decreases |w|
  {
    if w == "" {
      assert a + w == a;
    } else {
      assert (a + w)[..|a + w| - 1] == a + w[..|w| - 1];
      TrimRightSpace(a, w[..|w| - 1]);
    }
  }

  lemma {:induction false} TrimRightSolid(a: string, b: string)
    requires !AllSpace(b)
    ensures TrimRight(a + b) == a + TrimRight(b)
    decreases |b|
  {
    var t := a + b;
    assert t[|t| - 1] == b[|b| - 1] && t[..|t| - 1] == a + b[..|b| - 1];
    if IsSpace(b[|b| - 1]) {
      TrimRightSolid(a, b[..|b| - 1]);
    }
  }

  lemma {:induction false} TrimRightEmpty(s: string)
    ensures TrimRight(s) == "" <==> AllSpace(s)
    ensures !AllSpace(s) ==> !AllSpace(TrimRight(s))
  {
    if s != "" && IsSpace(s[|s| - 1]) {
      TrimRightEmpty(s[..|s| - 1]);
      assert AllSpace(s[..|s| - 1]) ==> AllSpace(s);
    }
  }

  lemma {:induction false} TrimLeftSpace(w: string, b: string)
    requires AllSpace(w)
    ensures TrimLeft(w + b) == TrimLeft(b)
  {
    if w == "" {
      assert w + b == b;
    } else {
      assert (w + b)[1..] == w[1..] + b;
      TrimLeftSpace(w[1..], b);
    }
  }

  lemma {:induction false} TrimLeftSolid(a: string, b: string)
    requires !AllSpace(a)
    ensures TrimLeft(a + b) == TrimLeft(a) + b
  {
    if IsSpace(a[0]) {
      assert (a + b)[1..] == a[1..] + b;
      TrimLeftSolid(a[1..], b);
    }
  }

  lemma {:induction false} TrimLeftEmpty(s: string)
    ensures TrimLeft(s) == "" <==> AllSpace(s)
  {
    if s != "" && IsSpace(s[0]) {
      TrimLeftEmpty(s[1..]);
      assert AllSpace(s[1..]) ==> AllSpace(s);
    }
  }

  lemma TrimEmpty(s: string)
    ensures Trim(s) == "" <==> AllSpace(s)
  {
    TrimRightEmpty(s);
    TrimLeftEmpty(TrimRight(s));
  }

  /** Trimming takes away white space at both ends, all of it, and nothing else. */
  lemma TrimIsCore(s: string) returns (front: string, back: string)
    ensures s == front + Trim(s) + back && AllSpace(front) && AllSpace(back)
    ensures Trim(s) != "" ==> !IsSpace(Trim(s)[0]) && !IsSpace(Trim(s)[|Trim(s)| - 1])
  {
    back := TrimRightCore(s);
    front := TrimLeftCore(TrimRight(s));
    Assoc(front, Trim(s), back);
    assert Trim(s) != "" ==> Trim(s)[|Trim(s)| - 1] == TrimRight(s)[|TrimRight(s)| - 1];
  }

  lemma {:induction false} TrimRightCore(s: string) returns (back: string)
    ensures s == TrimRight(s) + back && AllSpace(back)
    ensures TrimRight(s) != "" ==> !IsSpace(TrimRight(s)[|TrimRight(s)| - 1])
  {
    back := "";
    if s != "" && IsSpace(s[|s| - 1]) {
      var rest := TrimRightCore(s[..|s| - 1]);
      back := rest + [s[|s| - 1]];
    }
  }

  lemma CutFirst(s: string, a: string, b: string)
    requires s != "" && s[1..] == a + b
    ensures s == [s[0]] + a + b
  {
  }

  lemma {:induction false} TrimLeftCore(s: string) returns (front: string)
    ensures s == front + TrimLeft(s) && AllSpace(front)
    ensures TrimLeft(s) != "" ==> !IsSpace(TrimLeft(s)[0])
  {
    front := "";
    if s != "" && IsSpace(s[0]) {
      var rest := TrimLeftCore(s[1..]);
      front := [s[0]] + rest;
      CutFirst(s, rest, TrimLeft(s[1..]));
    }
  }

  /** Leading white space does not show. */
  lemma TrimFront(w: string, s: string)
    requires AllSpace(w)
    ensures Trim(w + s) == Trim(s)
  {
    if AllSpace(s) {
      assert AllSpace(w + s);
      TrimEmpty(s);
      TrimEmpty(w + s);
    } else {
      TrimRightSolid(w, s);
      TrimLeftSpace(w, TrimRight(s));
    }
  }

  // ---- distribution over concatenation ----

  lemma UpToNewline(line: string, rest: string)
    requires '\n' !in line
    ensures Lines(line + "\n" + rest) == [DropCR(line)] + Lines(rest)
  {
    var t := line + "\n" + rest;
    assert t[|line|] == '\n';
    assert IndexOf(t, '\n') == |line|;
    assert t[..|line|] == line && t[|line| + 1..] == rest;
  }

  lemma CutAtNewline(t: string, n: nat)
    requires n < |t| && t[n] == '\n'
    ensures t == t[..n] + "\n" + t[n + 1..]
  {
  }

  lemma LinesJoinStep(line: string, rest: string, b: string)
    requires '\n' !in line && Lines(rest + b) == Lines(rest) + Lines(b)
    ensures Lines(line + "\n" + rest + b) == Lines(line + "\n" + rest) + Lines(b)
  {
    UpToNewline(line, rest);
    Assoc(line + "\n", rest, b);
    UpToNewline(line, rest + b);
    Assoc([DropCR(line)], Lines(rest), Lines(b));
  }

  lemma {:induction false} LinesJoin(a: string, b: string)
    requires a == "" || a[|a| - 1] == '\n'
    ensures Lines(a + b) == Lines(a) + Lines(b)
    decreases |a|
  {
    if a == "" {
      assert a + b == b;
    } else {
      var n := IndexOf(a, '\n');
      CutAtNewline(a, n);
      LinesJoin(a[n + 1..], b);
      LinesJoinStep(a[..n], a[n + 1..], b);
    }
  }

  lemma {:induction false} BlocksJoin(a: seq<string>, b: seq<string>, open: seq<string>)
    requires if a == [] then open == [] else a[|a| - 1] == ""
    ensures Blocks(a + b, open) == Blocks(a, open) + Blocks(b, [])
    decreases |a|
  {
    if a == [] {
      assert a + b == b;
    } else {
      assert (a + b)[1..] == a[1..] + b;
      BlocksJoin(a[1..], b, if a[0] == "" then [] else open + [a[0]]);
    }
  }

  lemma {:induction false} PayloadsJoin(a: seq<seq<string>>, b: seq<seq<string>>)
    ensures Payloads(a + b) == Payloads(a) + Payloads(b)
  {
    if a == [] {
      assert a + b == b;
    } else {
      assert (a + b)[1..] == a[1..] + b;
      PayloadsJoin(a[1..], b);
    }
  }

  lemma {:induction false} NoBlankNoBlock(lines: seq<string>, open: seq<string>)
    requires "" !in lines
    ensures Blocks(lines, open) == []
    decreases |lines|
  {
    if lines != [] {
      NoBlankNoBlock(lines[1..], open + [lines[0]]);
    }
  }

  /** The text ends right after a blank line, or nothing was read. */
  predicate AtBoundary(t: string) {
    t == "" || (t[|t| - 1] == '\n' && var ls := Lines(t); ls[|ls| - 1] == "")
  }

  /** Cutting the stream after an event changes nothing. */
  lemma DeliveredJoin(a: string, b: string)
    requires AtBoundary(a)
    ensures Delivered(Lines(a + b)) == Delivered(Lines(a)) + Delivered(Lines(b))
  {
    LinesJoin(a, b);
    BlocksJoin(Lines(a), Lines(b), []);
    PayloadsJoin(Blocks(Lines(a), []), Blocks(Lines(b), []));
  }

  /** Whatever follows the last blank line is never delivered. */
  lemma UnendedTailIsLost(a: string, tail: string)
    requires AtBoundary(a) && "" !in Lines(tail)
    ensures Delivered(Lines(a + tail)) == Delivered(Lines(a))
  {
    DeliveredJoin(a, tail);
    NoBlankNoBlock(Lines(tail), []);
  }

  // ---- reading back what a server prints ----

  datatype WireLine = WireLine(text: string, crlf: bool)

  /** A line that survives the line reader: no newline inside, and the carriage return that
      the reader drops is not its own. */
  predicate Sendable(w: WireLine) {
    '\n' !in w.text && (w.crlf || DropCR(w.text) == w.text)
  }

  function Ending(crlf: bool): string {
    if crlf then "\r\n" else "\n"
  }

  function Wire(ws: seq<WireLine>): string {
    if ws == [] then "" else ws[0].text + Ending(ws[0].crlf) + Wire(ws[1..])
  }

  function Texts(ws: seq<WireLine>): seq<string> {
    seq(|ws|, i requires 0 <= i < |ws| => ws[i].text)
  }

  lemma FirstLine(w: WireLine, rest: string)
    requires Sendable(w)
    ensures Lines(w.text + Ending(w.crlf) + rest) == [w.text] + Lines(rest)
  {
    if w.crlf {
      UpToNewline(w.text + "\r", rest);
      assert w.text + "\r\n" == (w.text + "\r") + "\n";
      assert (w.text + "\r")[..|w.text|] == w.text;
    } else {
      UpToNewline(w.text, rest);
    }
  }

  lemma TextsShift(ws: seq<WireLine>)
    requires ws != []
    ensures Texts(ws) == [ws[0].text] + Texts(ws[1..])
  {
  }

  lemma {:induction false} LinesReadBack(ws: seq<WireLine>, rest: string)
    requires forall i :: 0 <= i < |ws| ==> Sendable(ws[i])
    ensures Lines(Wire(ws) + rest) == Texts(ws) + Lines(rest)
  {
    if ws == [] {
      assert Wire(ws) + rest == rest;
    } else {
      var first, more := ws[0].text + Ending(ws[0].crlf), Wire(ws[1..]);
      Assoc(first, more, rest);
      FirstLine(ws[0], more + rest);
      LinesReadBack(ws[1..], rest);
      TextsShift(ws);
      Assoc([ws[0].text], Texts(ws[1..]), Lines(rest));
    }
  }

  /** The payload of lines; Split undoes it. */
  function Joined(ls: seq<string>): string {
    if ls == [] then "" else ls[0] + "\n" + Joined(ls[1..])
  }

  lemma JoinedFirst(l: string, ls: seq<string>)
    ensures Joined([l] + ls) == l + "\n" + Joined(ls)
  {
    assert ([l] + ls)[1..] == ls;
  }

  lemma {:induction false} JoinedSplit(p: string)
    ensures Joined(Split(p, '\n')) == p + "\n"
    decreases |p|
  {
    var n := IndexOf(p, '\n');
    if n == |p| {
      JoinedFirst(p, []);
    } else {
      var line, rest := p[..n], p[n + 1..];
      JoinedSplit(rest);
      JoinedFirst(line, Split(rest, '\n'));
      CutAtNewline(p, n);
      Assoc(line + "\n", rest, "\n");
    }
  }

  /** What the data lines of a block carry. */
  function Values(block: seq<string>): seq<string> {
    if block == [] then []
    else (if IsData(block[0]) then [block[0][5..]] else []) + Values(block[1..])
  }

  lemma {:induction false} DataIsJoinedValues(block: seq<string>)
    ensures Data(block) == Joined(Values(block))
  {
    if block != [] {
      DataIsJoinedValues(block[1..]);
      var vs := Values(block[1..]);
      if IsData(block[0]) {
        assert ([block[0][5..]] + vs)[1..] == vs;
      } else {
        assert [] + vs == vs;
        assert "" + Data(block[1..]) == Data(block[1..]);
      }
    }
  }

  /** These lines send this payload: its lines after `data:`, in order, with any other
      non-blank lines (comments, event names, ids) mixed in. */
  predicate Carries(ws: seq<WireLine>, payload: string) {
    && (forall i :: 0 <= i < |ws| ==> Sendable(ws[i]) && ws[i].text != "")
    && Values(Texts(ws)) == Split(payload, '\n')
  }

  datatype Message = Message(payload: string, lines: seq<WireLine>, crlf: bool)

  function Stream(ms: seq<Message>): string {
    if ms == [] then "" else Wire(ms[0].lines + [WireLine("", ms[0].crlf)]) + Stream(ms[1..])
  }

  function Expected(ms: seq<Message>): seq<string> {
    if ms == [] then [] else OneOrNone(Trim(ms[0].payload)) + Expected(ms[1..])
  }

  lemma {:induction false} OneBlock(block: seq<string>, open: seq<string>)
    requires "" !in block
    ensures Blocks(block + [""], open) == [open + block]
    decreases |block|
  {
    if block == [] {
      assert open + block == open;
    } else {
      assert (block + [""])[1..] == block[1..] + [""];
      assert open + block == (open + [block[0]]) + block[1..];
      OneBlock(block[1..], open + [block[0]]);
    }
  }

  /** The payload of the lines that carry it. */
  lemma CarriedPayload(ws: seq<WireLine>, payload: string)
    requires Carries(ws, payload)
    ensures "" !in Texts(ws) && Trim(Data(Texts(ws))) == Trim(payload)
  {
    DataIsJoinedValues(Texts(ws));
    JoinedSplit(payload);
    TrimRightSpace(payload, "\n");
  }

  lemma FirstEvent(block: seq<string>, lines: seq<string>)
    requires "" !in block
    ensures Delivered((block + [""]) + lines) == OneOrNone(Trim(Data(block))) + Delivered(lines)
  {
    BlocksJoin(block + [""], lines, []);
    OneBlock(block, []);
    assert [] + block == block;
    assert ([block] + Blocks(lines, []))[1..] == Blocks(lines, []);
  }

  lemma MessageReadsBack(m: Message, rest: string)
    requires Carries(m.lines, m.payload)
    ensures Delivered(Lines(Wire(m.lines + [WireLine("", m.crlf)]) + rest)) ==
            OneOrNone(Trim(m.payload)) + Delivered(Lines(rest))
  {
    var ws := m.lines + [WireLine("", m.crlf)];
    LinesReadBack(ws, rest);
    assert Texts(ws) == Texts(m.lines) + [""];
    CarriedPayload(m.lines, m.payload);
    FirstEvent(Texts(m.lines), Lines(rest));
  }

  /** A printed list of payloads comes back as that list, up to surrounding white space
      (and a payload of nothing else is skipped). */
  lemma {:induction false} StreamReadsBack(ms: seq<Message>)
    requires forall i :: 0 <= i < |ms| ==> Carries(ms[i].lines, ms[i].payload)
    ensures Delivered(Lines(Stream(ms))) == Expected(ms)
  {
    if ms != [] {
      MessageReadsBack(ms[0], Stream(ms[1..]));
      StreamReadsBack(ms[1..]);
    }
  }

  function Printed(ls: seq<string>): seq<WireLine> {
    seq(|ls|, i requires 0 <= i < |ls| => WireLine("data:" + ls[i], true))
  }

  lemma {:induction false} PrintedValues(ls: seq<string>)
    ensures Values(Texts(Printed(ls))) == ls
  {
    if ls != [] {
      var line := "data:" + ls[0];
      assert Texts(Printed(ls)) == [line] + Texts(Printed(ls[1..]));
      assert line[5..] == ls[0];
      PrintedValues(ls[1..]);
    }
  }

  /** Every payload can be sent, multi-line ones included. */
  lemma EveryPayloadCanBeSent(payload: string)
    ensures Carries(Printed(Split(payload, '\n')), payload)
  {
    PrintedValues(Split(payload, '\n'));
    var ws := Printed(Split(payload, '\n'));
    forall i | 0 <= i < |ws| ensures Sendable(ws[i]) && ws[i].text != "" {
      assert ws[i].text == "data:" + Split(payload, '\n')[i];
    }
  }

  // ---- the standard ----

  function DropSpace(v: string): string {
    if " " <= v then v[1..] else v
  }

  /** Field name and value of a line: one space after the colon is not part of the value,
      and a line without a colon is a name with an empty value. */
  function FieldOf(line: string): (string, string) {
    var n := IndexOf(line, ':');
    if n == |line| then (line, "") else (line[..n], DropSpace(line[n + 1..]))
  }

  function Theirs(line: string): string {
    if FieldOf(line).0 == "data" then FieldOf(line).1 + "\n" else ""
  }

  function StandardData(block: seq<string>): string {
    if block == [] then "" else Theirs(block[0]) + StandardData(block[1..])
  }

  /** The final newline of the buffer is not part of the event's data. */
  function DropNewline(s: string): string {
    if s != "" && s[|s| - 1] == '\n' then s[..|s| - 1] else s
  }

  /** The events of the standard, trimmed, without the empty ones. */
  function StandardPayloads(blocks: seq<seq<string>>): seq<string> {
    if blocks == [] then []
    else OneOrNone(Trim(DropNewline(StandardData(blocks[0])))) + StandardPayloads(blocks[1..])
  }

  // ---- where the code and the standard agree ----

  /** A data line with something other than white space. */
  predicate Solid(line: string) {
    IsData(line) && !AllSpace(line[5..])
  }

  /** A data line the two read differently: an indented one, or one without a colon. */
  predicate Odd(line: string) {
    line == "data" || (IsData(line) && " " <= line[5..])
  }

  /** No odd line follows the first solid line of the event up to its last solid line. */
  predicate Faithful(block: seq<string>) {
    forall i, j, k :: 0 <= i < j <= k < |block| && Solid(block[i]) && Solid(block[k]) ==> !Odd(block[j])
  }

  lemma DataName(line: string)
    ensures IndexOf(line, ':') < |line| && line[..IndexOf(line, ':')] == "data" ==> IsData(line)
    ensures IsData(line) ==> IndexOf(line, ':') == 4 && line[..4] == "data"
  {
    if IndexOf(line, ':') < |line| && line[..IndexOf(line, ':')] == "data" {
      assert line[..5] == line[..4] + [line[4]];
    }
    if IsData(line) {
      assert forall i :: 0 <= i < 5 ==> line[i] == "data:"[i];
      assert line[4] == ':';
    }
  }

  lemma FieldCases(line: string)
    ensures Theirs(line) == if line == "data" then "\n" else if IsData(line) then DropSpace(line[5..]) + "\n" else ""
  {
    DataName(line);
  }

  /** What both sides add for a line that is not solid is white space. */
  lemma NotSolid(line: string)
    requires !Solid(line)
    ensures AllSpace(Ours(line)) && AllSpace(Theirs(line))
  {
    FieldCases(line);
  }

  lemma SolidLine(line: string)
    requires Solid(line)
    ensures line != "data" && Theirs(line) == DropSpace(line[5..]) + "\n"
    ensures !AllSpace(Ours(line)) && !AllSpace(Theirs(line)) && !AllSpace(DropSpace(line[5..]))
  {
    FieldCases(line);
    var v := line[5..];
    var i :| 0 <= i < |v| && !IsSpace(v[i]);
    assert Ours(line)[i] == v[i];
    if " " <= v {
      assert Theirs(line)[i - 1] == v[1..][i - 1] == v[i];
    } else {
      assert Theirs(line)[i] == v[i];
    }
  }

  predicate HasSolid(block: seq<string>) {
    exists i :: 0 <= i < |block| && Solid(block[i])
  }

  /** Both payloads are blank exactly when the event has no solid line. */
  lemma {:induction false} BlankTogether(block: seq<string>)
    ensures AllSpace(Data(block)) <==> !HasSolid(block)
    ensures AllSpace(StandardData(block)) <==> !HasSolid(block)
  {
    if block != [] {
      BlankTogether(block[1..]);
      JoinedSpace(Ours(block[0]), Data(block[1..]));
      JoinedSpace(Theirs(block[0]), StandardData(block[1..]));
      SolidShift(block);
      if Solid(block[0]) {
        SolidLine(block[0]);
      } else {
        NotSolid(block[0]);
      }
    }
  }

  lemma JoinedSpace(a: string, b: string)
    ensures AllSpace(a + b) <==> AllSpace(a) && AllSpace(b)
  {
    assert forall i :: 0 <= i < |a| ==> (a + b)[i] == a[i];
    assert forall i :: 0 <= i < |b| ==> (a + b)[|a| + i] == b[i];
  }

  lemma SolidShift(block: seq<string>)
    requires block != []
    ensures HasSolid(block) <==> Solid(block[0]) || HasSolid(block[1..])
  {
    assert forall i :: 0 <= i < |block[1..]| ==> block[1..][i] == block[i + 1];
    assert forall i :: 1 <= i < |block| ==> block[i] == block[1..][i - 1];
  }

  /** No odd line up to the last solid one. */
  predicate Clean(block: seq<string>) {
    forall j, k :: 0 <= j <= k < |block| && Solid(block[k]) ==> !Odd(block[j])
  }

  lemma CleanShift(block: seq<string>)
    requires block != []
    ensures Clean(block) <==> (HasSolid(block) ==> !Odd(block[0])) && Clean(block[1..])
  {
    assert forall i :: 0 <= i < |block[1..]| ==> block[1..][i] == block[i + 1];
    assert forall i :: 1 <= i < |block| ==> block[i] == block[1..][i - 1];
  }

  function Newlines(s: string): nat {
    if s == "" then 0 else (if s[0] == '\n' then 1 else 0) + Newlines(s[1..])
  }

  lemma {:induction false} NewlinesJoin(a: string, b: string)
    ensures Newlines(a + b) == Newlines(a) + Newlines(b)
  {
    if a == "" {
      assert a + b == b;
    } else {
      assert (a + b)[1..] == a[1..] + b;
      NewlinesJoin(a[1..], b);
    }
  }

  /** The standard's text has more lines, or as many lines and fewer characters. */
  predicate Apart(ours: string, theirs: string) {
    Newlines(ours) < Newlines(theirs) || (Newlines(ours) == Newlines(theirs) && |theirs| < |ours|)
  }

  lemma ApartAfter(c: string, c': string, a: string, b: string)
    requires c == c' || Apart(c, c')
    requires a == b || Apart(a, b)
    requires !(c == c' && a == b)
    ensures Apart(c + a, c' + b)
  {
    NewlinesJoin(c, a);
    NewlinesJoin(c', b);
  }

  lemma LineApart(line: string)
    ensures if Odd(line) then Apart(Ours(line), Theirs(line)) else Ours(line) == Theirs(line)
  {
    FieldCases(line);
    if IsData(line) && " " <= line[5..] {
      assert Ours(line) == " " + Theirs(line);
      NewlinesJoin(" ", Theirs(line));
    }
  }

  lemma KeepsItsSpace(line: string)
    requires Solid(line) && " " <= line[5..]
    ensures Ours(line) == " " + Theirs(line)
  {
    SolidLine(line);
  }

  lemma LastApart(line: string)
    requires Solid(line)
    ensures if Odd(line) then Apart(TrimRight(Ours(line)), TrimRight(Theirs(line)))
            else TrimRight(Ours(line)) == TrimRight(Theirs(line))
  {
    SolidLine(line);
    if " " <= line[5..] {
      KeepsItsSpace(line);
      TrimRightSolid(" ", Theirs(line));
      NewlinesJoin(" ", TrimRight(Theirs(line)));
    }
  }

  lemma {:induction false} RightSame(block: seq<string>)
    requires HasSolid(block)
    ensures if Clean(block) then TrimRight(Data(block)) == TrimRight(StandardData(block))
            else Apart(TrimRight(Data(block)), TrimRight(StandardData(block)))
  {
    var tail := block[1..];
    SolidShift(block);
    CleanShift(block);
    BlankTogether(tail);
    if HasSolid(tail) {
      RightSame(tail);
      LineApart(block[0]);
      TrimRightSolid(Ours(block[0]), Data(tail));
      TrimRightSolid(Theirs(block[0]), StandardData(tail));
      if !Clean(block) {
        ApartAfter(Ours(block[0]), Theirs(block[0]), TrimRight(Data(tail)), TrimRight(StandardData(tail)));
      }
    } else {
      assert Clean(tail);
      LastApart(block[0]);
      TrimRightSpace(Ours(block[0]), Data(tail));
      TrimRightSpace(Theirs(block[0]), StandardData(tail));
    }
  }

  lemma TrimAround(v: string, rest: string)
    requires !AllSpace(v) && !AllSpace(rest)
    ensures Trim((v + "\n") + rest) == TrimLeft(v) + ("\n" + TrimRight(rest))
  {
    TrimRightSolid(v + "\n", rest);
    Assoc(v, "\n", TrimRight(rest));
    TrimLeftSolid(v, "\n" + TrimRight(rest));
  }

  lemma SameTail(v: string, v': string, a: string, b: string)
    requires !AllSpace(v) && !AllSpace(v') && TrimLeft(v) == TrimLeft(v')
    requires !AllSpace(a) && !AllSpace(b)
    ensures Trim((v + "\n") + a) == Trim((v' + "\n") + b) <==> TrimRight(a) == TrimRight(b)
  {
    TrimAround(v, a);
    TrimAround(v', b);
    var h, x, y := TrimLeft(v), "\n" + TrimRight(a), "\n" + TrimRight(b);
    assert (h + x)[|h|..] == x && (h + y)[|h|..] == y;
    assert x[1..] == TrimRight(a) && y[1..] == TrimRight(b);
  }

  lemma NoTail(v: string, v': string, w: string, w': string)
    requires Trim(v) == Trim(v') && AllSpace(w) && AllSpace(w')
    ensures Trim((v + "\n") + w) == Trim((v' + "\n") + w')
  {
    Assoc(v, "\n", w);
    Assoc(v', "\n", w');
    TrimRightSpace(v, "\n" + w);
    TrimRightSpace(v', "\n" + w');
  }

  lemma TrimDropSpace(v: string)
    ensures TrimLeft(v) == TrimLeft(DropSpace(v)) && Trim(v) == Trim(DropSpace(v))
  {
    if " " <= v {
      assert v == " " + DropSpace(v);
      TrimFront(" ", DropSpace(v));
    }
  }

  /** An event whose first line is solid: only what follows that line can differ. */
  lemma FromSolid(block: seq<string>)
    requires block != [] && Solid(block[0])
    ensures Trim(Data(block)) == Trim(StandardData(block)) <==> Clean(block[1..])
  {
    var v, tail := block[0][5..], block[1..];
    SolidLine(block[0]);
    TrimDropSpace(v);
    BlankTogether(tail);
    if HasSolid(tail) {
      RightSame(tail);
      SameTail(v, DropSpace(v), Data(tail), StandardData(tail));
    } else {
      NoTail(v, DropSpace(v), Data(tail), StandardData(tail));
    }
  }

  lemma FaithfulShift(block: seq<string>)
    requires block != []
    ensures Faithful(block) <==> if Solid(block[0]) then Clean(block[1..]) else Faithful(block[1..])
  {
    var tail := block[1..];
    assert forall i :: 1 <= i < |block| ==> block[i] == tail[i - 1];
    assert forall i :: 0 <= i < |tail| ==> tail[i] == block[i + 1];
  }

  lemma {:induction false} EventAsStandard(block: seq<string>)
    ensures Trim(Data(block)) == Trim(StandardData(block)) <==> Faithful(block)
  {
    if block != [] {
      FaithfulShift(block);
      if Solid(block[0]) {
        FromSolid(block);
      } else {
        NotSolid(block[0]);
        TrimFront(Ours(block[0]), Data(block[1..]));
        TrimFront(Theirs(block[0]), StandardData(block[1..]));
        EventAsStandard(block[1..]);
      }
    }
  }

  lemma TrimDropNewline(s: string)
    ensures Trim(DropNewline(s)) == Trim(s)
  {
    if s != "" && s[|s| - 1] == '\n' {
      assert s == DropNewline(s) + "\n";
      TrimRightSpace(DropNewline(s), "\n");
    }
  }

  lemma FirstPayload(block: seq<string>)
    ensures Trim(Data(block)) == Trim(DropNewline(StandardData(block))) <==> Faithful(block)
    ensures Trim(Data(block)) == "" <==> Trim(DropNewline(StandardData(block))) == ""
  {
    EventAsStandard(block);
    TrimDropNewline(StandardData(block));
    BlankTogether(block);
    TrimEmpty(Data(block));
    TrimEmpty(StandardData(block));
  }

  predicate AllFaithful(blocks: seq<seq<string>>) {
    forall i :: 0 <= i < |blocks| ==> Faithful(blocks[i])
  }

  lemma AllShift(blocks: seq<seq<string>>)
    requires blocks != []
    ensures AllFaithful(blocks) <==> Faithful(blocks[0]) && AllFaithful(blocks[1..])
  {
    assert forall i :: 1 <= i < |blocks| ==> blocks[i] == blocks[1..][i - 1];
    assert forall i :: 0 <= i < |blocks[1..]| ==> blocks[1..][i] == blocks[i + 1];
  }

  /** The code delivers what the standard would, up to surrounding white space, for exactly
      those streams whose every event is faithful. */
  lemma {:induction false} DeliveredAsStandard(blocks: seq<seq<string>>)
    ensures Payloads(blocks) == StandardPayloads(blocks) <==> AllFaithful(blocks)
  {
    if blocks != [] {
      var b, rest := blocks[0], blocks[1..];
      DeliveredAsStandard(rest);
      FirstPayload(b);
      AllShift(blocks);
      SameStart(Trim(Data(b)), Trim(DropNewline(StandardData(b))), Payloads(rest), StandardPayloads(rest));
    }
  }

  lemma SameStart(p: string, q: string, ps: seq<string>, qs: seq<string>)
    requires p == "" <==> q == ""
    ensures OneOrNone(p) + ps == OneOrNone(q) + qs <==> p == q && ps == qs
  {
    if p == "" {
      assert [] + ps == ps && [] + qs == qs;
    } else {
      assert ([p] + ps)[1..] == ps && ([q] + qs)[1..] == qs;
      assert ([p] + ps)[0] == p && ([q] + qs)[0] == q;
    }
  }

  lemma SpacedLine(x: string)
    requires !AllSpace(x)
    ensures Solid("data: " + x) && Odd("data: " + x)
  {
    var line := "data: " + x;
    assert line[5..] == " " + x;
    JoinedSpace(" ", x);
    assert line[..5] == "data:";
  }

  /** A payload of two lines, sent with the usual space after `data:`, is not delivered as
      it was sent: the second line comes out indented. */
  lemma SpacedLinesDiffer(x: string, y: string)
    requires !AllSpace(x) && !AllSpace(y)
    ensures Payloads([["data: " + x, "data: " + y]]) != StandardPayloads([["data: " + x, "data: " + y]])
  {
    var block := ["data: " + x, "data: " + y];
    DeliveredAsStandard([block]);
    SpacedLine(x);
    SpacedLine(y);
    assert Solid(block[0]) && Solid(block[1]) && Odd(block[1]);
    assert !Faithful([block][0]);
  }
}
