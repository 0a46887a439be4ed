/** Server-sent events of a chat stream: `data:` lines collected up to a blank line. */
module ChatEvents {
  import opened Wrappers

  /** `readline`: up to and including the next line feed. */
  function LineEnd(s: string): (n: nat)
    requires s != ""
    ensures 0 < n <= |s|
  {
    if s[0] == '\n' || |s| == 1 then 1 else 1 + LineEnd(s[1..])
  }

  function Lines(s: string): seq<string> {
    if s == "" then [] else [s[..LineEnd(s)]] + Lines(s[LineEnd(s)..])
  }

  /** `rstrip("\r\n")` */
  function Chomp(s: string): string {
    if s != "" && (s[|s| - 1] == '\n' || s[|s| - 1] == '\r') then Chomp(s[..|s| - 1]) else s
  }

  /** `lstrip(" ")` */
  function DropSpaces(s: string): string {
    if s != "" && s[0] == ' ' then DropSpaces(s[1..]) else s
  }

  function JoinLines(parts: seq<string>): string {
    if parts == [] then "" else if |parts| == 1 then parts[0] else parts[0] + "\n" + JoinLines(parts[1..])
  }

  /** What a line contributes to the event under way. */
  function DataOf(text: string): Option<string> {
    if "data:" <= text then Some(DropSpaces(text[5..])) else None
  }

  /** The events of the lines, after the pending `data` parts. Comments and other fields are
    * ignored, and a stream that ends without a blank line still delivers what is pending. */
  function EventsOf(lines: seq<string>, pending: seq<string>): seq<string> {
    if lines == [] then if pending == [] then [] else [JoinLines(pending)]
    else
      var text := Chomp(lines[0]);
      if text == "" then (if pending == [] then [] else [JoinLines(pending)]) + EventsOf(lines[1..], [])
      else if text[0] == ':' then EventsOf(lines[1..], pending)
      else EventsOf(lines[1..], if DataOf(text).Some? then pending + [DataOf(text).value] else pending)
  }

  predicate Fits(lines: seq<string>, total: nat, limit: nat) {
    lines == [] || (total + |lines[0]| <= limit && Fits(lines[1..], total + |lines[0]|, limit))
  }

  /** The events that are handed out before the byte limit is exceeded, and whether it never is. */
  function Yielded(lines: seq<string>, pending: seq<string>, total: nat, limit: nat): (seq<string>, bool) {
    if lines == [] then (if pending == [] then [] else [JoinLines(pending)], true)
    else if total + |lines[0]| > limit then ([], false)
    else
      var text := Chomp(lines[0]);
      var ends := text == "" && pending != [];
      var rest := Yielded(
        lines[1..],
        if text == "" then []
        else if text[0] != ':' && DataOf(text).Some? then pending + [DataOf(text).value]
        else pending,
        total + |lines[0]|, limit);
      if ends then ([JoinLines(pending)] + rest.0, rest.1) else rest
  }

  /** Within the limit all events are handed out. */
  lemma {:induction false} YieldsAll(lines: seq<string>, pending: seq<string>, total: nat, limit: nat)
    ensures Yielded(lines, pending, total, limit).1 <==> Fits(lines, total, limit)
    ensures Fits(lines, total, limit) ==> Yielded(lines, pending, total, limit).0 == EventsOf(lines, pending)
  {
    if lines != [] && total + |lines[0]| <= limit {
      var text := Chomp(lines[0]);
      YieldsAll(
        lines[1..],
        if text == "" then []
        else if text[0] != ':' && DataOf(text).Some? then pending + [DataOf(text).value]
        else pending,
        total + |lines[0]|, limit);
    }
  }

  function Size(lines: seq<string>): nat {
    if lines == [] then 0 else |lines[0]| + Size(lines[1..])
  }

  lemma {:induction false} FitsBySize(lines: seq<string>, total: nat, limit: nat)
    ensures Fits(lines, total, limit) <==> total + Size(lines) <= limit || lines == []
  {
    if lines != [] {
      FitsBySize(lines[1..], total + |lines[0]|, limit);
    }
  }

  lemma {:induction false} LinesKeepSize(s: string)
    ensures Size(Lines(s)) == |s|
    decreases |s|
  {
    if s != "" {
      LinesKeepSize(s[LineEnd(s)..]);
    }
  }

  /** The whole stream is read exactly when it is not longer than the limit. */
  lemma FitsExactly(stream: string, limit: nat)
    ensures Fits(Lines(stream), 0, limit) <==> |stream| <= limit
  {
    LinesKeepSize(stream);
    FitsBySize(Lines(stream), 0, limit);
  }

  /** The loop over the lines. It breaks off where the stream exceeds the byte limit. */
  method Events(stream: string, limit: nat) returns (events: seq<string>, ok: bool)
    ensures (events, ok) == Yielded(Lines(stream), [], 0, limit)
    ensures ok <==> |stream| <= limit
    ensures ok ==> events == EventsOf(Lines(stream), [])
  {
    YieldsAll(Lines(stream), [], 0, limit);
    FitsExactly(stream, limit);
    var lines := Lines(stream);
    var pending: seq<string> := [];
    var total: nat := 0;
    events := [];
    for k := 0 to |lines|
      invariant Yielded(lines, [], 0, limit).0 == events + Yielded(lines[k..], pending, total, limit).0
      invariant Yielded(lines, [], 0, limit).1 == Yielded(lines[k..], pending, total, limit).1
    {
      var line := lines[k];
      assert lines[k..] == [line] + lines[k + 1..];
      total := total + |line|;
      if total > limit || |line| > limit {
        assert events + [] == events;
        return events, false;
      }
      var text := Chomp(line);
      if text == "" {
        if pending != [] {
          events := events + [JoinLines(pending)];
          pending := [];
        }
      } else if text[0] == ':' {
      } else if DataOf(text).Some? {
        pending := pending + [DataOf(text).value];
      }
    }
    assert lines[|lines|..] == [] && events + [] == events;
    if pending != [] {
      events := events + [JoinLines(pending)];
    }
    return events, true;
  }

  // ---- Framing ----

  /** One event: a `data:` line for each line of the payload, then a blank line. */
  function FrameLines(payload: seq<string>): string {
    if payload == [] then "\n" else "data: " + payload[0] + "\n" + FrameLines(payload[1..])
  }

  function Frame(payloads: seq<seq<string>>): string {
    if payloads == [] then "" else FrameLines(payloads[0]) + Frame(payloads[1..])
  }

  predicate OneLine(s: string) {
    '\n' !in s && '\r' !in s
  }

  predicate Plain(s: string) {
    OneLine(s) && (s != "" ==> s[0] != ' ')
  }

  lemma {:induction false} LineOf(s: string, rest: string)
    requires '\n' !in s
    ensures LineEnd(s + "\n" + rest) == |s| + 1
  {
    if s != "" {
      LineOf(s[1..], rest);
      assert (s + "\n" + rest)[1..] == s[1..] + "\n" + rest;
      assert s[0] in s && s[0] != '\n';
    }
  }

  lemma FirstLine(s: string, rest: string)
    requires '\n' !in s
    ensures Lines(s + "\n" + rest) == [s + "\n"] + Lines(rest)
  {
    LineOf(s, rest);
    var all := s + "\n" + rest;
    assert all[..|s| + 1] == s + "\n" && all[|s| + 1..] == rest;
  }

  lemma ChompsToItself(s: string)
    requires OneLine(s)
    ensures Chomp(s + "\n") == s
  {
    assert (s + "\n")[..|s|] == s;
    if s != "" {
      assert s[|s| - 1] in s;
    }
  }

  lemma {:induction false} DropSpacesShortens(s: string)
    ensures |DropSpaces(s)| <= |s|
    ensures s != "" && s[0] == ' ' ==> |DropSpaces(s)| < |s|
    ensures DropSpaces(" " + s) == DropSpaces(s)
  {
    assert (" " + s)[1..] == s;
    if s != "" && s[0] == ' ' {
      DropSpacesShortens(s[1..]);
    }
  }

  /** A line survives framing exactly when it does not begin with a space: all leading spaces are
    * dropped, not only the one that framing adds. */
  lemma LineSurvives(line: string)
    ensures DataOf("data: " + line) == Some(line) <==> !(line != "" && line[0] == ' ')
    ensures DataOf("data: " + line).Some?
  {
    var framed := "data: " + line;
    assert framed == "data:" + (" " + line);
    assert framed[..5] == "data:" && framed[5..] == " " + line;
    DropSpacesShortens(line);
  }

  lemma FramedChomps(line: string)
    requires OneLine(line)
    ensures Chomp("data: " + line + "\n") == "data: " + line && '\n' !in "data: " + line
  {
    assert forall c :: c in "data: " ==> c != '\n' && c != '\r';
    ChompsToItself("data: " + line);
  }

  lemma {:induction false} FramedLines(payload: seq<string>, rest: string, pending: seq<string>)
    requires forall line :: line in payload ==> Plain(line)
    requires payload != [] || pending != []
    decreases payload
    ensures EventsOf(Lines(FrameLines(payload) + rest), pending) ==
            [JoinLines(pending + payload)] + EventsOf(Lines(rest), [])
  {
    if payload == [] {
      assert FrameLines(payload) + rest == "" + "\n" + rest;
      FirstLine("", rest);
      ChompsToItself("");
      assert pending + payload == pending;
    } else {
      var line := payload[0];
      var framed := "data: " + line;
      var more := FrameLines(payload[1..]) + rest;
      assert Plain(line);
      assert FrameLines(payload) + rest == framed + "\n" + more;
      FramedChomps(line);
      FirstLine(framed, more);
      LineSurvives(line);
      hide Lines, Chomp, DataOf, Plain;
      FramedLines(payload[1..], rest, pending + [line]);
      assert pending + [line] + payload[1..] == pending + payload;
      assert ([framed + "\n"] + Lines(more))[1..] == Lines(more);
    }
  }

  function Payloads(payloads: seq<seq<string>>): seq<string> {
    seq(|payloads|, i requires 0 <= i < |payloads| => JoinLines(payloads[i]))
  }

  /** Reading inverts framing, for payload lines without leading spaces and line breaks. */
  lemma {:induction false} EventsInvertFraming(payloads: seq<seq<string>>)
    requires forall payload :: payload in payloads ==> payload != []
    requires forall payload, line :: payload in payloads && line in payload ==> Plain(line)
    ensures EventsOf(Lines(Frame(payloads)), []) == Payloads(payloads)
  {
    if payloads != [] {
      assert payloads[0] in payloads;
      forall payload | payload in payloads[1..] ensures payload in payloads {
      }
      EventsInvertFraming(payloads[1..]);
      FramedLines(payloads[0], Frame(payloads[1..]), []);
      assert [] + payloads[0] == payloads[0];
      assert Payloads(payloads) == [JoinLines(payloads[0])] + Payloads(payloads[1..]);
    }
  }
}
