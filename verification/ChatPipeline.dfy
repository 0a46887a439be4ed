/** A chat stream from its bytes to the delivered answer: events, chunks, aggregate. */
module ChatPipeline {
  import opened Wrappers
  import opened Texts
  import opened ChatEvents
  import opened ChatStream

  const END := "[DONE]"

  /** What one event is. `parse` reads the JSON of a chunk, and gives nothing for anything else. */
  function DatumOf(event: string, parse: string -> Option<Chunk>): Datum {
    if Strip(event) == END then Done
    else match parse(event) case None => Bad case Some(chunk) => Data(chunk)
  }

  function Read(events: seq<string>, parse: string -> Option<Chunk>): seq<Datum> {
    seq(|events|, i requires 0 <= i < |events| => DatumOf(events[i], parse))
  }

  /** What the aggregation reads of a stream: a stream over the limit breaks off with an error. */
  function DataIn(stream: string, limit: nat, parse: string -> Option<Chunk>): seq<Datum> {
    var (events, ok) := Yielded(Lines(stream), [], 0, limit);
    Read(events, parse) + if ok then [] else [Bad]
  }

  method AggregateStream(
    stream: string, limit: nat, parse: string -> Option<Chunk>, matches: map<string, string> -> bool)
    returns (r: Option<Completion>)
    ensures var before := Before(DataIn(stream, limit, parse));
            && (r.Some? <==> before.Some? && Complete(before.value, matches))
            && (r.Some? ==> IsCompletion(r.value, before.value))
  {
    var events, ok := Events(stream, limit);
    r := Aggregate(Read(events, parse) + if ok then [] else [Bad], matches);
  }

  // ---- A framed answer comes through ----

  function Wrapped(chunks: seq<Chunk>): seq<Datum> {
    seq(|chunks|, i requires 0 <= i < |chunks| => Data(chunks[i]))
  }

  lemma {:induction false} BeforeTheEnd(chunks: seq<Chunk>, rest: seq<Datum>)
    ensures Before(Wrapped(chunks) + [Done] + rest) == Some(chunks)
  {
    if chunks == [] {
      assert Wrapped(chunks) + [Done] + rest == [Done] + rest;
    } else {
      BeforeTheEnd(chunks[1..], rest);
      var data := Wrapped(chunks) + [Done] + rest;
      assert Wrapped(chunks) == [Data(chunks[0])] + Wrapped(chunks[1..]);
      assert data[0] == Data(chunks[0]) && data[1..] == Wrapped(chunks[1..]) + [Done] + rest;
      assert chunks == [chunks[0]] + chunks[1..];
    }
  }

  /** Reading inverts framing also before a tail of any other lines. */
  lemma {:induction false} FramedThenTail(payloads: seq<seq<string>>, tail: string)
    requires forall payload :: payload in payloads ==> payload != []
    requires forall payload, line :: payload in payloads && line in payload ==> Plain(line)
    ensures EventsOf(Lines(Frame(payloads) + tail), []) == Payloads(payloads) + EventsOf(Lines(tail), [])
  {
    hide EventsOf, Lines, Frame, Plain, JoinLines;
    if payloads == [] {
      NothingFramed(tail);
    } else {
      var first, more := payloads[0], payloads[1..];
      assert payloads == [first] + more;
      assert first in payloads;
      forall payload | payload in more ensures payload in payloads {
      }
      FramedThenTail(more, tail);
      OneFramed(first, more, tail);
      OnePayload(first, more);
    }
  }

  lemma NothingFramed(tail: string)
    ensures Frame([]) + tail == tail && Payloads([]) == []
  {
  }

  lemma OnePayload(first: seq<string>, more: seq<seq<string>>)
    ensures Payloads([first] + more) == [JoinLines(first)] + Payloads(more)
  {
  }

  lemma OneFramed(payload: seq<string>, more: seq<seq<string>>, tail: string)
    requires payload != [] && forall line :: line in payload ==> Plain(line)
    ensures EventsOf(Lines(Frame([payload] + more) + tail), []) ==
            [JoinLines(payload)] + EventsOf(Lines(Frame(more) + tail), [])
  {
    FramedLines(payload, Frame(more) + tail, []);
    var all := [payload] + more;
    assert all[0] == payload && all[1..] == more;
    assert Frame(all) + tail == FrameLines(payload) + (Frame(more) + tail);
    assert [] + payload == payload;
  }

  lemma EndIsPlain()
    ensures Plain(END) && Strip(END) == END
  {
  }

  lemma PlainWithEnd(payloads: seq<seq<string>>)
    requires forall payload :: payload in payloads ==> payload != []
    requires forall payload, line :: payload in payloads && line in payload ==> Plain(line)
    ensures forall payload :: payload in payloads + [[END]] ==> payload != []
    ensures forall payload, line :: payload in payloads + [[END]] && line in payload ==> Plain(line)
  {
    EndIsPlain();
    hide Plain;
    forall payload, line | payload in payloads + [[END]] && line in payload ensures Plain(line) {
      if payload !in payloads {
        assert payload == [END] && line == END;
      }
    }
  }

  /** An upstream that frames its chunks, each in lines without leading spaces and line breaks, and then
    * the end marker, is understood: what is aggregated are those chunks, whatever follows, as long as
    * the stream is within the limit. */
  lemma FramedChunksAreRead(
    payloads: seq<seq<string>>, chunks: seq<Chunk>, tail: string, limit: nat, parse: string -> Option<Chunk>)
    requires |payloads| == |chunks|
    requires forall payload :: payload in payloads ==> payload != []
    requires forall payload, line :: payload in payloads && line in payload ==> Plain(line)
    requires forall i :: 0 <= i < |chunks| ==>
              Strip(JoinLines(payloads[i])) != END && parse(JoinLines(payloads[i])) == Some(chunks[i])
    requires |Frame(payloads + [[END]]) + tail| <= limit
    ensures Before(DataIn(Frame(payloads + [[END]]) + tail, limit, parse)) == Some(chunks)
  {
    var all := payloads + [[END]];
    var stream := Frame(all) + tail;
    PlainWithEnd(payloads);
    EndIsPlain();
    FitsExactly(stream, limit);
    YieldsAll(Lines(stream), [], 0, limit);
    FramedThenTail(all, tail);
    var more := EventsOf(Lines(tail), []);
    hide EventsOf, Lines, Frame, Yielded, Fits, Plain, Strip;
    var data := Wrapped(chunks);
    assert Payloads(all) == Payloads(payloads) + [END];
    assert Read(Payloads(payloads), parse) == data;
    ReadParts(Payloads(payloads), END, more, parse);
    assert DataIn(stream, limit, parse) == Read(Payloads(payloads) + [END] + more, parse);
    BeforeTheEnd(chunks, Read(more, parse));
  }

  lemma ReadParts(events: seq<string>, end: string, more: seq<string>, parse: string -> Option<Chunk>)
    ensures Read(events + [end] + more, parse) == Read(events, parse) + [DatumOf(end, parse)] + Read(more, parse)
  {
    hide DatumOf;
  }
}
