/** Aggregation of a chat-completion stream: chunks of deltas become complete choices. */
module ChatStream {
  import opened Wrappers

  datatype CallDelta = CallDelta(
    index: nat, id: Option<string>, kind: Option<string>, name: Option<string>, arguments: Option<string>)

  datatype Delta = Delta(
    index: nat, role: Option<string>, content: Option<string>, reasoning: Option<string>, refusal: Option<string>,
    calls: seq<CallDelta>, finish: Option<string>, logprobs: Option<string>)

  /** The identity holds the keys that a chunk gives, usage is its usage document. */
  datatype Chunk = Chunk(error: bool, identity: map<string, string>, usage: Option<string>, deltas: seq<Delta>)

  /** One event: the end marker, something that is no proper chunk, or a chunk. */
  datatype Datum = Done | Bad | Data(chunk: Chunk)

  // ---- Buffers ----

  datatype ToolCall = ToolCall(id: string, kind: string, name: string, arguments: seq<string>)

  datatype Choice = Choice(
    role: string, content: seq<string>, reasoning: seq<string>, refusal: seq<string>, calls: map<nat, ToolCall>,
    finish: Option<string>, logprobs: Option<string>)

  const NEW_CALL := ToolCall("", "", "", [])
  const NEW_CHOICE := Choice("assistant", [], [], [], map[], None, None)

  function Or<T>(a: Option<T>, b: T): T {
    if a.Some? then a.value else b
  }

  function OrElse<T>(a: Option<T>, b: Option<T>): Option<T> {
    if a.Some? then a else b
  }

  function Part(a: Option<string>): seq<string> {
    if a.Some? then [a.value] else []
  }

  /** `None` when the id or the type of a call changes. */
  function AddCall(t: ToolCall, d: CallDelta): Option<ToolCall> {
    if d.id.Some? && t.id != "" && d.id.value != t.id then None
    else if d.kind.Some? && t.kind != "" && d.kind.value != t.kind then None
    else Some(ToolCall(Or(d.id, t.id), Or(d.kind, t.kind), t.name + Or(d.name, ""), t.arguments + Part(d.arguments)))
  }

  function Call(calls: map<nat, ToolCall>, index: nat): ToolCall {
    if index in calls then calls[index] else NEW_CALL
  }

  function AddCalls(calls: map<nat, ToolCall>, ds: seq<CallDelta>): Option<map<nat, ToolCall>>
    decreases |ds|
  {
    if ds == [] then Some(calls)
    else
      var t := AddCall(Call(calls, ds[0].index), ds[0]);
      if t.None? then None else AddCalls(calls[ds[0].index := t.value], ds[1..])
  }

  function AddDelta(c: Choice, d: Delta): Option<Choice> {
    var calls := AddCalls(c.calls, d.calls);
    if calls.None? then None
    else
      Some(Choice(
        Or(d.role, c.role), c.content + Part(d.content), c.reasoning + Part(d.reasoning), c.refusal + Part(d.refusal),
        calls.value, OrElse(d.finish, c.finish), OrElse(d.logprobs, c.logprobs)))
  }

  function Joined(parts: seq<string>): string {
    if parts == [] then "" else Joined(parts[..|parts| - 1]) + parts[|parts| - 1]
  }

  function JoinedOrNone(parts: seq<string>): Option<string> {
    if parts == [] then None else Some(Joined(parts))
  }

  // ---- What is delivered ----

  datatype FinalCall = FinalCall(id: string, kind: string, name: string, arguments: string)

  datatype Message = Message(
    role: string, content: Option<string>, reasoning: Option<string>, refusal: Option<string>,
    calls: map<nat, FinalCall>, finish: Option<string>, logprobs: Option<string>)

  function ViewCall(t: ToolCall): FinalCall {
    FinalCall(t.id, t.kind, t.name, Joined(t.arguments))
  }

  function Views(calls: map<nat, ToolCall>): map<nat, FinalCall> {
    map i | i in calls :: ViewCall(calls[i])
  }

  /** A choice with its buffers joined. */
  function View(c: Choice): Message {
    Message(c.role, JoinedOrNone(c.content), JoinedOrNone(c.reasoning), JoinedOrNone(c.refusal),
            Views(c.calls), c.finish, c.logprobs)
  }

  /** A message can be delivered when it has finished and every tool call has an id and a name. */
  predicate Finished(m: Message) {
    m.finish.Some? && forall i :: i in m.calls ==> m.calls[i].id != "" && m.calls[i].name != ""
  }

  /** A call without a type is a function call. */
  function FinishCall(t: FinalCall): FinalCall {
    t.(kind := if t.kind == "" then "function" else t.kind)
  }

  function Finish(m: Message): Message {
    m.(calls := map i | i in m.calls :: FinishCall(m.calls[i]))
  }

  datatype Completion = Completion(identity: map<string, string>, choices: map<nat, Message>, usage: Option<string>)

  // ---- The specification: every choice folds its own deltas ----

  function Fold(ds: seq<Delta>): Option<Choice> {
    if ds == [] then Some(NEW_CHOICE)
    else
      var before := Fold(ds[..|ds| - 1]);
      if before.None? then None else AddDelta(before.value, ds[|ds| - 1])
  }

  function DeltasOf(chunks: seq<Chunk>): seq<Delta> {
    if chunks == [] then [] else DeltasOf(chunks[..|chunks| - 1]) + chunks[|chunks| - 1].deltas
  }

  function Of(ds: seq<Delta>, index: nat): seq<Delta> {
    if ds == [] then []
    else Of(ds[..|ds| - 1], index) + if ds[|ds| - 1].index == index then [ds[|ds| - 1]] else []
  }

  ghost predicate HoldsAt(choices: map<nat, Choice>, ds: seq<Delta>, i: nat) {
    && (i in choices <==> Of(ds, i) != [])
    && (i in choices ==> Fold(Of(ds, i)) == Some(choices[i]))
  }

  /** The choices of a stream, as long as every one of them folds. */
  ghost predicate Holds(choices: map<nat, Choice>, ds: seq<Delta>) {
    forall i: nat :: HoldsAt(choices, ds, i)
  }

  function ChoiceAt(choices: map<nat, Choice>, i: nat): Choice {
    if i in choices then choices[i] else NEW_CHOICE
  }

  lemma OfLonger(ds: seq<Delta>, d: Delta, i: nat)
    ensures Of(ds + [d], i) == Of(ds, i) + if d.index == i then [d] else []
  {
    assert (ds + [d])[..|ds|] == ds;
  }

  lemma FoldLonger(ds: seq<Delta>, d: Delta)
    ensures Fold(ds + [d]) == if Fold(ds).None? then None else AddDelta(Fold(ds).value, d)
  {
    assert (ds + [d])[..|ds|] == ds;
  }

  lemma HoldsOneMore(choices: map<nat, Choice>, ds: seq<Delta>, d: Delta)
    requires HoldsAt(choices, ds, d.index)
    ensures var c := AddDelta(ChoiceAt(choices, d.index), d);
            && (c.Some? ==> HoldsAt(choices[d.index := c.value], ds + [d], d.index))
            && (c.None? ==> Fold(Of(ds + [d], d.index)).None?)
  {
    OfLonger(ds, d, d.index);
    FoldLonger(Of(ds, d.index), d);
    assert Of(ds, d.index) == [] ==> Fold(Of(ds, d.index)) == Some(NEW_CHOICE);
    hide AddDelta, Fold, Of;
  }

  lemma HoldsLonger(choices: map<nat, Choice>, ds: seq<Delta>, d: Delta)
    requires Holds(choices, ds)
    ensures var c := AddDelta(ChoiceAt(choices, d.index), d);
            && (c.Some? ==> Holds(choices[d.index := c.value], ds + [d]))
            && (c.None? ==> Fold(Of(ds + [d], d.index)).None?)
  {
    assert HoldsAt(choices, ds, d.index);
    HoldsOneMore(choices, ds, d);
    var c := AddDelta(ChoiceAt(choices, d.index), d);
    hide AddDelta, Fold, Of, HoldsAt;
    if c.Some? {
      var after, longer := choices[d.index := c.value], ds + [d];
      forall i: nat ensures HoldsAt(after, longer, i) {
        if i != d.index {
          assert HoldsAt(choices, ds, i);
          HoldsElsewhere(choices, ds, d, c.value, i);
        }
      }
    }
  }

  lemma HoldsElsewhere(choices: map<nat, Choice>, ds: seq<Delta>, d: Delta, c: Choice, i: nat)
    requires HoldsAt(choices, ds, i) && i != d.index
    ensures HoldsAt(choices[d.index := c], ds + [d], i)
  {
    OfLonger(ds, d, i);
    hide Of, Fold;
    assert Of(ds + [d], i) == Of(ds, i);
  }

  // ---- The loops ----

  datatype Sum = Sum(identity: map<string, string>, choices: map<nat, Choice>, usage: Option<string>)

  predicate Compatible(a: map<string, string>, b: map<string, string>) {
    forall key :: key in a && key in b ==> a[key] == b[key]
  }

  /** A chunk that raises nothing by itself. */
  predicate Proper(chunk: Chunk, identity: map<string, string>) {
    !chunk.error && Compatible(identity, chunk.identity)
  }

  /** What is known of the stream after some chunks. */
  ghost predicate Sums(sum: Sum, chunks: seq<Chunk>) {
    && Holds(sum.choices, DeltasOf(chunks))
    && sum.identity == Identity(chunks)
    && sum.usage == Usage(chunks)
    && AllProper(chunks)
  }

  function Identity(chunks: seq<Chunk>): map<string, string> {
    if chunks == [] then map[] else Identity(chunks[..|chunks| - 1]) + chunks[|chunks| - 1].identity
  }

  function Usage(chunks: seq<Chunk>): Option<string> {
    if chunks == [] then None else OrElse(chunks[|chunks| - 1].usage, Usage(chunks[..|chunks| - 1]))
  }

  /** No chunk reports an error, and no two disagree on the identity. */
  ghost predicate AllProper(chunks: seq<Chunk>) {
    && (forall c :: c in chunks ==> !c.error)
    && forall c, d :: c in chunks && d in chunks ==> Compatible(c.identity, d.identity)
  }

  /** No choice of the stream breaks off. */
  ghost predicate AllFold(ds: seq<Delta>) {
    forall i: nat :: Fold(Of(ds, i)).Some?
  }

  lemma {:induction false} BreakStays(ds: seq<Delta>, more: seq<Delta>, i: nat)
    requires Fold(Of(ds, i)).None?
    ensures Fold(Of(ds + more, i)).None?
  {
    if more == [] {
      assert ds + more == ds;
    } else {
      var last := |more| - 1;
      BreakStays(ds, more[..last], i);
      assert ds + more == (ds + more[..last]) + [more[last]];
      BreakStaysOnce(ds + more[..last], more[last], i);
    }
  }

  lemma BreakStaysOnce(ds: seq<Delta>, d: Delta, i: nat)
    requires Fold(Of(ds, i)).None?
    ensures Fold(Of(ds + [d], i)).None?
  {
    OfLonger(ds, d, i);
    FoldLonger(Of(ds, i), d);
    assert Of(ds, i) + [] == Of(ds, i);
    hide Of, Fold, AddDelta;
  }

  lemma Broken(ds: seq<Delta>, i: nat)
    requires Fold(Of(ds, i)).None?
    ensures !AllFold(ds)
  {
  }

  /** The loop over the deltas of one chunk. */
  method AddChoices(before: map<nat, Choice>, ghost ds: seq<Delta>, deltas: seq<Delta>)
    returns (choices: map<nat, Choice>, ok: bool)
    requires Holds(before, ds)
    ensures ok ==> Holds(choices, ds + deltas)
    ensures !ok ==> !AllFold(ds + deltas)
  {
    choices := before;
    assert ds + deltas[..0] == ds;
    hide *;
    for k := 0 to |deltas|
      invariant Holds(choices, ds + deltas[..k])
    {
      var d := deltas[k];
      NextDelta(ds, deltas, k);
      HoldsLonger(choices, ds + deltas[..k], d);
      var c := AddDelta(ChoiceAt(choices, d.index), d);
      if c.None? {
        BrokenAt(ds, deltas, k);
        return choices, false;
      }
      choices := choices[d.index := c.value];
    }
    assert deltas[..|deltas|] == deltas;
    ok := true;
  }

  lemma NextDelta(ds: seq<Delta>, deltas: seq<Delta>, k: nat)
    requires k < |deltas|
    ensures ds + deltas[..k + 1] == ds + deltas[..k] + [deltas[k]]
  {
  }

  lemma BrokenAt(ds: seq<Delta>, deltas: seq<Delta>, k: nat)
    requires k < |deltas| && Fold(Of(ds + deltas[..k + 1], deltas[k].index)).None?
    ensures !AllFold(ds + deltas)
  {
    BreakStays(ds + deltas[..k + 1], deltas[k + 1..], deltas[k].index);
    assert ds + deltas == ds + deltas[..k + 1] + deltas[k + 1..];
    Broken(ds + deltas, deltas[k].index);
  }

  lemma ChunkOneMore(chunks: seq<Chunk>, c: Chunk)
    ensures DeltasOf(chunks + [c]) == DeltasOf(chunks) + c.deltas
    ensures Identity(chunks + [c]) == Identity(chunks) + c.identity
    ensures Usage(chunks + [c]) == OrElse(c.usage, Usage(chunks))
    ensures AllProper(chunks + [c]) <==> AllProper(chunks) && !c.error && Compatible(Identity(chunks), c.identity)
  {
    assert (chunks + [c])[..|chunks|] == chunks;
    ProperOneMore(chunks, c);
  }

  lemma ProperOneMore(chunks: seq<Chunk>, c: Chunk)
    ensures AllProper(chunks + [c]) <==> AllProper(chunks) && !c.error && Compatible(Identity(chunks), c.identity)
  {
    IdentityIsGiven(chunks);
    assert c in chunks + [c];
    assert forall b :: b in chunks ==> b in chunks + [c];
    if AllProper(chunks) {
      IdentityHasAll(chunks);
      assert (forall b :: b in chunks ==> Compatible(b.identity, c.identity))
        <==> Compatible(Identity(chunks), c.identity);
    }
  }

  lemma {:induction false} IdentityIsGiven(chunks: seq<Chunk>)
    ensures forall key :: key in Identity(chunks) ==>
              exists c :: c in chunks && key in c.identity && c.identity[key] == Identity(chunks)[key]
    ensures forall c, key :: c in chunks && key in c.identity ==> key in Identity(chunks)
  {
    if chunks != [] {
      var last := |chunks| - 1;
      IdentityIsGiven(chunks[..last]);
      assert chunks == chunks[..last] + [chunks[last]];
    }
  }

  lemma IdentityHasAll(chunks: seq<Chunk>)
    requires AllProper(chunks)
    ensures forall c, key :: c in chunks && key in c.identity ==>
              key in Identity(chunks) && Identity(chunks)[key] == c.identity[key]
  {
    IdentityIsGiven(chunks);
  }

  // ---- The whole stream ----

  /** The chunks before the end marker, if there is one and everything before it is a chunk. */
  function Before(data: seq<Datum>): Option<seq<Chunk>> {
    if data == [] then None
    else
      match data[0]
      case Done => Some([])
      case Bad => None
      case Data(chunk) =>
        var rest := Before(data[1..]);
        if rest.None? then None else Some([chunk] + rest.value)
  }

  function MessageOf(ds: seq<Delta>): Option<Message> {
    var c := Fold(ds);
    if c.None? then None else Some(View(c.value))
  }

  /** When a stream that came to its end marker can be delivered. */
  ghost predicate Complete(chunks: seq<Chunk>, matches: map<string, string> -> bool) {
    && AllProper(chunks)
    && matches(Identity(chunks))
    && DeltasOf(chunks) != []
    && forall i: nat ::
         var m := MessageOf(Of(DeltasOf(chunks), i));
         m.Some? && (Of(DeltasOf(chunks), i) != [] ==> Finished(m.value))
  }

  ghost predicate IsCompletion(r: Completion, chunks: seq<Chunk>) {
    && r.identity == Identity(chunks)
    && r.usage == Usage(chunks)
    && forall i: nat ::
         && (i in r.choices <==> Of(DeltasOf(chunks), i) != [])
         && (i in r.choices ==>
               MessageOf(Of(DeltasOf(chunks), i)).Some?
               && r.choices[i] == Finish(MessageOf(Of(DeltasOf(chunks), i)).value))
  }

  // ---- Splitting a delta ----

  predicate SameView(a: Option<Choice>, b: Option<Choice>) {
    a.Some? == b.Some? && (a.Some? ==> View(a.value) == View(b.value))
  }

  lemma JoinedLonger(parts: seq<string>, part: string)
    ensures Joined(parts + [part]) == Joined(parts) + part
  {
    assert (parts + [part])[..|parts|] == parts;
  }

  lemma JoinedPart(parts: seq<string>, part: Option<string>)
    ensures Joined(parts + Part(part)) == Joined(parts) + Or(part, "")
    ensures JoinedOrNone(parts + Part(part)) ==
            if part.Some? then Some(Or(JoinedOrNone(parts), "") + part.value) else JoinedOrNone(parts)
  {
    if part.Some? {
      JoinedLonger(parts, part.value);
    } else {
      assert parts + [] == parts;
    }
  }

  lemma AddCallRespectsView(a: ToolCall, b: ToolCall, d: CallDelta)
    requires ViewCall(a) == ViewCall(b)
    ensures AddCall(a, d).Some? == AddCall(b, d).Some?
    ensures AddCall(a, d).Some? ==> ViewCall(AddCall(a, d).value) == ViewCall(AddCall(b, d).value)
  {
    JoinedPart(a.arguments, d.arguments);
    JoinedPart(b.arguments, d.arguments);
  }

  lemma {:induction false} AddCallsRespectsView(a: map<nat, ToolCall>, b: map<nat, ToolCall>, ds: seq<CallDelta>)
    requires Views(a) == Views(b)
    ensures AddCalls(a, ds).Some? == AddCalls(b, ds).Some?
    ensures AddCalls(a, ds).Some? ==> Views(AddCalls(a, ds).value) == Views(AddCalls(b, ds).value)
    decreases |ds|
  {
    if ds != [] {
      var i := ds[0].index;
      CallViews(a, b, i);
      AddCallRespectsView(Call(a, i), Call(b, i), ds[0]);
      var x, y := AddCall(Call(a, i), ds[0]), AddCall(Call(b, i), ds[0]);
      if x.Some? {
        ViewsUpdate(a, b, i, x.value, y.value);
        AddCallsRespectsView(a[i := x.value], b[i := y.value], ds[1..]);
      }
    }
  }

  lemma CallViews(a: map<nat, ToolCall>, b: map<nat, ToolCall>, i: nat)
    requires Views(a) == Views(b)
    ensures ViewCall(Call(a, i)) == ViewCall(Call(b, i)) && (i in a <==> i in b)
  {
    assert i in a <==> i in Views(a);
    assert i in b <==> i in Views(b);
    if i in a {
      assert Views(a)[i] == ViewCall(a[i]) && Views(b)[i] == ViewCall(b[i]);
    }
  }

  lemma ViewsUpdate(a: map<nat, ToolCall>, b: map<nat, ToolCall>, i: nat, x: ToolCall, y: ToolCall)
    requires Views(a) == Views(b) && ViewCall(x) == ViewCall(y)
    ensures Views(a[i := x]) == Views(b[i := y])
  {
    var p, q := a[i := x], b[i := y];
    forall j: nat ensures (j in p <==> j in q) && (j in p ==> ViewCall(p[j]) == ViewCall(q[j])) {
      CallViews(a, b, j);
    }
  }

  lemma AddRespectsView(a: Choice, b: Choice, d: Delta)
    requires View(a) == View(b)
    ensures SameView(AddDelta(a, d), AddDelta(b, d))
  {
    assert Views(a.calls) == View(a).calls && Views(b.calls) == View(b).calls;
    AddCallsRespectsView(a.calls, b.calls, d.calls);
    JoinedPart(a.content, d.content);
    JoinedPart(b.content, d.content);
    JoinedPart(a.reasoning, d.reasoning);
    JoinedPart(b.reasoning, d.reasoning);
    JoinedPart(a.refusal, d.refusal);
    JoinedPart(b.refusal, d.refusal);
    hide AddCalls, JoinedOrNone;
  }

  lemma {:induction false} SameViewsContinue(a: seq<Delta>, b: seq<Delta>, more: seq<Delta>)
    requires SameView(Fold(a), Fold(b))
    ensures SameView(Fold(a + more), Fold(b + more))
  {
    if more == [] {
      assert a + more == a && b + more == b;
    } else {
      var last := |more| - 1;
      SameViewsContinue(a, b, more[..last]);
      assert a + more == (a + more[..last]) + [more[last]] && b + more == (b + more[..last]) + [more[last]];
      SameViewOnce(a + more[..last], b + more[..last], more[last]);
    }
  }

  lemma SameViewOnce(a: seq<Delta>, b: seq<Delta>, d: Delta)
    requires SameView(Fold(a), Fold(b))
    ensures SameView(Fold(a + [d]), Fold(b + [d]))
  {
    FoldLonger(a, d);
    FoldLonger(b, d);
    hide Fold, AddDelta, View;
    if Fold(a).Some? {
      AddRespectsView(Fold(a).value, Fold(b).value, d);
    }
  }

  lemma JoinedSplits(parts: seq<string>, s: string, n: nat)
    requires n <= |s|
    ensures Joined(parts + [s[..n]] + [s[n..]]) == Joined(parts + [s])
  {
    hide Joined;
    JoinedLonger(parts, s);
    JoinedLonger(parts, s[..n]);
    JoinedLonger(parts + [s[..n]], s[n..]);
    Regroup(Joined(parts), s, n);
  }

  lemma Regroup(a: string, s: string, n: nat)
    requires n <= |s|
    ensures a + s[..n] + s[n..] == a + s
  {
  }

  const SILENT := Delta(0, None, None, None, None, [], None, None)

  lemma ContentSplits(c: Choice, d: Delta, n: nat)
    requires d.content.Some? && n <= |d.content.value|
    ensures var first := d.(content := Some(d.content.value[..n]));
            var second := SILENT.(index := d.index, content := Some(d.content.value[n..]));
            && AddDelta(c, first).Some? == AddDelta(c, d).Some?
            && (AddDelta(c, d).Some? ==>
                  SameView(AddDelta(AddDelta(c, first).value, second), AddDelta(c, d)))
  {
    var s := d.content.value;
    assert s == s[..n] + s[n..];
    JoinedSplits(c.content, s, n);
    assert c.reasoning + Part(d.reasoning) + [] == c.reasoning + Part(d.reasoning);
    assert c.refusal + Part(d.refusal) + [] == c.refusal + Part(d.refusal);
    var first := d.(content := Some(s[..n]));
    var second := SILENT.(index := d.index, content := Some(s[n..]));
    if AddDelta(c, d).Some? {
      var one := AddDelta(c, first).value;
      assert one.calls == AddDelta(c, d).value.calls && AddCalls(one.calls, second.calls) == Some(one.calls);
      var two := AddDelta(one, second).value;
      assert two.content == c.content + [s[..n]] + [s[n..]];
      assert JoinedOrNone(two.content) == JoinedOrNone(AddDelta(c, d).value.content);
      assert two.reasoning == AddDelta(c, d).value.reasoning && two.refusal == AddDelta(c, d).value.refusal;
    }
    hide Joined, AddCalls;
  }

  /** Splitting the content of one delta in two changes no message of the stream. */
  lemma SplitContentKeepsMessages(before: seq<Delta>, d: Delta, after: seq<Delta>, n: nat, i: nat)
    requires d.content.Some? && n <= |d.content.value|
    ensures var first := d.(content := Some(d.content.value[..n]));
            var second := SILENT.(index := d.index, content := Some(d.content.value[n..]));
            MessageOf(Of(before + [first, second] + after, i)) == MessageOf(Of(before + [d] + after, i))
  {
    var first := d.(content := Some(d.content.value[..n]));
    var second := SILENT.(index := d.index, content := Some(d.content.value[n..]));
    OfThree(before, [first, second], after, i);
    OfThree(before, [d], after, i);
    OfOne(d, i);
    OfTwo(first, second, i);
    hide Of, Fold;
    if d.index == i {
      SplitContentFolds(Of(before, i), d, n);
      SameViewsContinue(Of(before, i) + [first, second], Of(before, i) + [d], Of(after, i));
    }
  }

  lemma SplitContentFolds(head: seq<Delta>, d: Delta, n: nat)
    requires d.content.Some? && n <= |d.content.value|
    ensures var first := d.(content := Some(d.content.value[..n]));
            var second := SILENT.(index := d.index, content := Some(d.content.value[n..]));
            SameView(Fold(head + [first, second]), Fold(head + [d]))
  {
    var first := d.(content := Some(d.content.value[..n]));
    var second := SILENT.(index := d.index, content := Some(d.content.value[n..]));
    FoldLonger(head, d);
    FoldLonger(head, first);
    FoldLonger(head + [first], second);
    assert head + [first, second] == head + [first] + [second];
    if Fold(head).Some? {
      ContentSplits(Fold(head).value, d, n);
    }
    hide AddDelta, Fold, View;
  }

  lemma OfOne(d: Delta, i: nat)
    ensures Of([d], i) == if d.index == i then [d] else []
  {
    OfLonger([], d, i);
    assert [] + [d] == [d];
  }

  lemma OfTwo(d: Delta, e: Delta, i: nat)
    requires d.index == e.index
    ensures Of([d, e], i) == if d.index == i then [d, e] else []
  {
    OfLonger([d], e, i);
    OfOne(d, i);
    assert [d] + [e] == [d, e];
  }

  lemma {:induction false} OfConcat(a: seq<Delta>, b: seq<Delta>, i: nat)
    ensures Of(a + b, i) == Of(a, i) + Of(b, i)
  {
    if b == [] {
      assert a + b == a && Of(a, i) + [] == Of(a, i);
    } else {
      OfConcat(a, b[..|b| - 1], i);
      assert b == b[..|b| - 1] + [b[|b| - 1]];
      OfConcatStep(a, b[..|b| - 1], b[|b| - 1], i);
    }
  }

  lemma OfConcatStep(a: seq<Delta>, b: seq<Delta>, d: Delta, i: nat)
    requires Of(a + b, i) == Of(a, i) + Of(b, i)
    ensures Of(a + (b + [d]), i) == Of(a, i) + Of(b + [d], i)
  {
    hide Of;
    Associative(a, b, [d]);
    OfLonger(a + b, d, i);
    OfLonger(b, d, i);
    Associative(Of(a, i), Of(b, i), if d.index == i then [d] else []);
  }

  lemma OfThree(a: seq<Delta>, b: seq<Delta>, c: seq<Delta>, i: nat)
    ensures Of(a + b + c, i) == Of(a, i) + Of(b, i) + Of(c, i)
  {
    OfConcat(a + b, c, i);
    OfConcat(a, b, i);
  }

  /** Splitting the arguments of one tool call delta changes no view of the calls. */
  lemma ArgumentsSplit(t: ToolCall, d: CallDelta, n: nat)
    requires d.arguments.Some? && n <= |d.arguments.value|
    ensures var first := d.(arguments := Some(d.arguments.value[..n]));
            var second := CallDelta(d.index, None, None, None, Some(d.arguments.value[n..]));
            && AddCall(t, first).Some? == AddCall(t, d).Some?
            && (AddCall(t, d).Some? ==>
                  && AddCall(AddCall(t, first).value, second).Some?
                  && ViewCall(AddCall(AddCall(t, first).value, second).value) == ViewCall(AddCall(t, d).value))
  {
    var s := d.arguments.value;
    assert s == s[..n] + s[n..];
    JoinedSplits(t.arguments, s, n);
    hide Joined;
    var first := d.(arguments := Some(s[..n]));
    if AddCall(t, d).Some? {
      var one := AddCall(t, first).value;
      assert one.arguments == t.arguments + [s[..n]];
      assert one.name + "" == one.name;
    }
  }

  lemma {:induction false} SplitCallsKeepViews(
    calls: map<nat, ToolCall>, before: seq<CallDelta>, d: CallDelta, after: seq<CallDelta>, n: nat)
    requires d.arguments.Some? && n <= |d.arguments.value|
    ensures var first := d.(arguments := Some(d.arguments.value[..n]));
            var second := CallDelta(d.index, None, None, None, Some(d.arguments.value[n..]));
            var split := AddCalls(calls, before + [first, second] + after);
            var whole := AddCalls(calls, before + [d] + after);
            split.Some? == whole.Some? && (whole.Some? ==> Views(split.value) == Views(whole.value))
    decreases |before|
  {
    var first := d.(arguments := Some(d.arguments.value[..n]));
    var second := CallDelta(d.index, None, None, None, Some(d.arguments.value[n..]));
    var split, whole := before + [first, second] + after, before + [d] + after;
    if before == [] {
      var t := Call(calls, d.index);
      ArgumentsSplit(t, d, n);
      assert split[0] == first && split[1..] == [second] + after && ([second] + after)[1..] == after;
      assert whole[0] == d && whole[1..] == after;
      if AddCall(t, d).Some? {
        var x, y := AddCall(AddCall(t, first).value, second).value, AddCall(t, d).value;
        ViewsUpdate(calls, calls, d.index, x, y);
        assert calls[d.index := AddCall(t, first).value][d.index := x] == calls[d.index := x];
        AddCallsRespectsView(calls[d.index := x], calls[d.index := y], after);
      }
    } else {
      assert split[0] == before[0] == whole[0];
      assert split[1..] == before[1..] + [first, second] + after && whole[1..] == before[1..] + [d] + after;
      var t := AddCall(Call(calls, before[0].index), before[0]);
      if t.Some? {
        SplitCallsKeepViews(calls[before[0].index := t.value], before[1..], d, after, n);
      }
    }
  }

  /** Splitting the arguments of one tool call changes no message of the stream. */
  lemma SplitArgumentsKeepsMessages(
    before: seq<Delta>, d: Delta, after: seq<Delta>, callsBefore: seq<CallDelta>, call: CallDelta,
    callsAfter: seq<CallDelta>, n: nat, i: nat)
    requires d.calls == callsBefore + [call] + callsAfter
    requires call.arguments.Some? && n <= |call.arguments.value|
    ensures var first := call.(arguments := Some(call.arguments.value[..n]));
            var second := CallDelta(call.index, None, None, None, Some(call.arguments.value[n..]));
            var split := d.(calls := callsBefore + [first, second] + callsAfter);
            MessageOf(Of(before + [split] + after, i)) == MessageOf(Of(before + [d] + after, i))
  {
    var first := call.(arguments := Some(call.arguments.value[..n]));
    var second := CallDelta(call.index, None, None, None, Some(call.arguments.value[n..]));
    var split := d.(calls := callsBefore + [first, second] + callsAfter);
    OfThree(before, [split], after, i);
    OfThree(before, [d], after, i);
    OfOne(d, i);
    OfOne(split, i);
    if d.index == i {
      var head := Of(before, i);
      FoldLonger(head, d);
      FoldLonger(head, split);
      if Fold(head).Some? {
        SplitCallsKeepViews(Fold(head).value.calls, callsBefore, call, callsAfter, n);
        assert SameView(AddDelta(Fold(head).value, split), AddDelta(Fold(head).value, d)) by {
          hide AddCalls, Fold, Of;
        }
      }
      hide AddDelta, Fold, View, Of;
      SameViewsContinue(head + [split], head + [d], Of(after, i));
    }
  }

  // ---- Swapping chunks ----

  lemma DeltasLonger(chunks: seq<Chunk>, c: Chunk)
    ensures DeltasOf(chunks + [c]) == DeltasOf(chunks) + c.deltas
  {
    assert (chunks + [c])[..|chunks|] == chunks;
  }

  lemma {:induction false} DeltasConcat(a: seq<Chunk>, b: seq<Chunk>)
    ensures DeltasOf(a + b) == DeltasOf(a) + DeltasOf(b)
  {
    if b == [] {
      assert a + b == a;
    } else {
      var rest, c := b[..|b| - 1], b[|b| - 1];
      hide DeltasOf;
      DeltasConcat(a, rest);
      assert b == rest + [c];
      Associative(a, rest, [c]);
      DeltasLonger(a + rest, c);
      DeltasLonger(rest, c);
      Associative(DeltasOf(a), DeltasOf(rest), c.deltas);
    }
  }

  lemma Associative<T>(a: seq<T>, b: seq<T>, c: seq<T>)
    ensures (a + b) + c == a + (b + c)
  {
  }

  lemma {:induction false} NoneOf(ds: seq<Delta>, i: nat)
    requires forall d :: d in ds ==> d.index != i
    ensures Of(ds, i) == []
  {
    if ds != [] {
      NoneOf(ds[..|ds| - 1], i);
    }
  }

  predicate Apart(a: Chunk, b: Chunk) {
    forall d, e :: d in a.deltas && e in b.deltas ==> d.index != e.index
  }

  lemma SwapKeepsDeltas(before: seq<Chunk>, a: Chunk, b: Chunk, after: seq<Chunk>, i: nat)
    requires Apart(a, b)
    ensures Of(DeltasOf(before + [a, b] + after), i) == Of(DeltasOf(before + [b, a] + after), i)
  {
    PairDeltas(before, a, b, after);
    PairDeltas(before, b, a, after);
    OfThree(DeltasOf(before), a.deltas + b.deltas, DeltasOf(after), i);
    OfThree(DeltasOf(before), b.deltas + a.deltas, DeltasOf(after), i);
    OfConcat(a.deltas, b.deltas, i);
    OfConcat(b.deltas, a.deltas, i);
    hide Of, DeltasOf;
    if exists d :: d in a.deltas && d.index == i {
      NoneOf(b.deltas, i);
    } else {
      NoneOf(a.deltas, i);
    }
    assert Of(a.deltas, i) + [] == Of(a.deltas, i) == [] + Of(a.deltas, i);
    assert Of(b.deltas, i) + [] == Of(b.deltas, i) == [] + Of(b.deltas, i);
  }

  lemma PairDeltas(before: seq<Chunk>, a: Chunk, b: Chunk, after: seq<Chunk>)
    ensures DeltasOf(before + [a, b] + after) == DeltasOf(before) + (a.deltas + b.deltas) + DeltasOf(after)
  {
    DeltasConcat(before + [a, b], after);
    DeltasConcat(before, [a, b]);
    DeltasLonger([], a);
    DeltasLonger([a], b);
    assert [] + [a] == [a] && [a] + [b] == [a, b];
    assert [] + a.deltas == a.deltas;
  }

  lemma SameMembers(before: seq<Chunk>, a: Chunk, b: Chunk, after: seq<Chunk>)
    ensures forall c :: c in before + [a, b] + after <==> c in before + [b, a] + after
  {
  }

  /** Chunks that agree on the identity give the same identity in any order. */
  lemma IdentityIgnoresOrder(s: seq<Chunk>, t: seq<Chunk>)
    requires AllProper(s) && forall c :: c in s <==> c in t
    ensures AllProper(t) && Identity(s) == Identity(t)
  {
    IdentityHasAll(s);
    IdentityIsGiven(s);
    IdentityHasAll(t);
    IdentityIsGiven(t);
  }

  lemma {:induction false} UsageOfSwap(before: seq<Chunk>, a: Chunk, b: Chunk, after: seq<Chunk>)
    requires a.usage.None? && b.usage.None?
    ensures Usage(before + [a, b] + after) == Usage(before + [b, a] + after)
  {
    if after == [] {
      UsageOfPair(before, a, b);
      UsageOfPair(before, b, a);
      assert before + [a, b] + after == before + [a] + [b] && before + [b, a] + after == before + [b] + [a];
    } else {
      var last := |after| - 1;
      UsageOfSwap(before, a, b, after[..last]);
      var s, t := before + [a, b] + after, before + [b, a] + after;
      assert s[..|s| - 1] == before + [a, b] + after[..last] && t[..|t| - 1] == before + [b, a] + after[..last];
    }
  }

  lemma UsageOfPair(before: seq<Chunk>, a: Chunk, b: Chunk)
    requires a.usage.None? && b.usage.None?
    ensures Usage(before + [a] + [b]) == Usage(before)
  {
    assert (before + [a] + [b])[..|before| + 1] == before + [a] && (before + [a])[..|before|] == before;
  }

  /** Whether and what is delivered depends on the identity, the usage and the messages only. */
  lemma SameDelivery(s: seq<Chunk>, t: seq<Chunk>, matches: map<string, string> -> bool, r: Completion)
    requires AllProper(s) <==> AllProper(t)
    requires AllProper(s) ==> Identity(s) == Identity(t)
    requires Usage(s) == Usage(t) && (DeltasOf(s) == [] <==> DeltasOf(t) == [])
    requires forall i: nat ::
              && MessageOf(Of(DeltasOf(s), i)) == MessageOf(Of(DeltasOf(t), i))
              && (Of(DeltasOf(s), i) == [] <==> Of(DeltasOf(t), i) == [])
    ensures Complete(s, matches) <==> Complete(t, matches)
    ensures AllProper(s) ==> (IsCompletion(r, s) <==> IsCompletion(r, t))
  {
    hide AllProper, Of, DeltasOf, Identity, Usage, MessageOf, Finished, Finish;
  }

  /** Swapping two adjacent chunks that carry no usage and touch different choices changes neither
    * whether the stream can be delivered nor what is delivered. */
  lemma SwapKeepsCompletion(
    before: seq<Chunk>, a: Chunk, b: Chunk, after: seq<Chunk>, matches: map<string, string> -> bool, r: Completion)
    requires Apart(a, b) && a.usage.None? && b.usage.None?
    ensures Complete(before + [a, b] + after, matches) <==> Complete(before + [b, a] + after, matches)
    ensures Complete(before + [a, b] + after, matches) ==>
              (IsCompletion(r, before + [a, b] + after) <==> IsCompletion(r, before + [b, a] + after))
  {
    var s, t := before + [a, b] + after, before + [b, a] + after;
    forall i: nat ensures Of(DeltasOf(s), i) == Of(DeltasOf(t), i) {
      SwapKeepsDeltas(before, a, b, after, i);
    }
    PairDeltas(before, a, b, after);
    PairDeltas(before, b, a, after);
    assert |DeltasOf(s)| == |DeltasOf(t)|;
    UsageOfSwap(before, a, b, after);
    SameMembers(before, a, b, after);
    if AllProper(s) {
      IdentityIgnoresOrder(s, t);
    }
    if AllProper(t) {
      IdentityIgnoresOrder(t, s);
    }
    hide AllProper, Of, DeltasOf, Identity, Usage, MessageOf, IsCompletion;
    SameDelivery(s, t, matches, r);
  }

  lemma {:induction false} DeltasDoNotIdentify(before: seq<Chunk>, a: Chunk, after: seq<Chunk>, deltas: seq<Delta>)
    ensures var b := a.(deltas := deltas);
            && Identity(before + [a] + after) == Identity(before + [b] + after)
            && Usage(before + [a] + after) == Usage(before + [b] + after)
            && (AllProper(before + [a] + after) <==> AllProper(before + [b] + after))
  {
    var b := a.(deltas := deltas);
    if after == [] {
      assert before + [a] + after == before + [a] && before + [b] + after == before + [b];
      ChunkOneMore(before, a);
      ChunkOneMore(before, b);
    } else {
      var rest, c := after[..|after| - 1], after[|after| - 1];
      DeltasDoNotIdentify(before, a, rest, deltas);
      assert before + [a] + after == before + [a] + rest + [c] && before + [b] + after == before + [b] + rest + [c];
      ChunkOneMore(before + [a] + rest, c);
      ChunkOneMore(before + [b] + rest, c);
    }
    hide Identity, Usage, AllProper, Compatible;
  }

  lemma ChunkDeltas(before: seq<Chunk>, a: Chunk, after: seq<Chunk>)
    ensures DeltasOf(before + [a] + after) == DeltasOf(before) + a.deltas + DeltasOf(after)
  {
    DeltasConcat(before + [a], after);
    DeltasLonger(before, a);
  }

  /** Splitting the content of one delta changes neither whether a stream can be delivered nor what
    * is delivered. */
  lemma SplitKeepsCompletion(
    before: seq<Chunk>, a: Chunk, after: seq<Chunk>, p: seq<Delta>, d: Delta, q: seq<Delta>, n: nat,
    matches: map<string, string> -> bool, r: Completion)
    requires a.deltas == p + [d] + q && d.content.Some? && n <= |d.content.value|
    ensures var first := d.(content := Some(d.content.value[..n]));
            var second := SILENT.(index := d.index, content := Some(d.content.value[n..]));
            var b := a.(deltas := p + [first, second] + q);
            && (Complete(before + [a] + after, matches) <==> Complete(before + [b] + after, matches))
            && (Complete(before + [a] + after, matches) ==>
                  (IsCompletion(r, before + [a] + after) <==> IsCompletion(r, before + [b] + after)))
  {
    var first := d.(content := Some(d.content.value[..n]));
    var second := SILENT.(index := d.index, content := Some(d.content.value[n..]));
    var b := a.(deltas := p + [first, second] + q);
    var s, t := before + [a] + after, before + [b] + after;
    DeltasDoNotIdentify(before, a, after, b.deltas);
    ChunkDeltas(before, a, after);
    ChunkDeltas(before, b, after);
    SplitsApart(DeltasOf(before), p, d, first, second, q, DeltasOf(after));
    var x, y := DeltasOf(before) + p, q + DeltasOf(after);
    hide *;
    forall i: nat
      ensures MessageOf(Of(DeltasOf(s), i)) == MessageOf(Of(DeltasOf(t), i))
      ensures Of(DeltasOf(s), i) == [] <==> Of(DeltasOf(t), i) == []
    {
      SplitContentKeepsMessages(x, d, y, n, i);
      OfThree(x, [first, second], y, i);
      OfThree(x, [d], y, i);
      OfOne(d, i);
      OfTwo(first, second, i);
    }
    SameDelivery(s, t, matches, r);
    if Complete(s, matches) {
      CompleteIsProper(s, matches);
    }
  }

  /** Splitting the arguments of one tool call changes neither whether a stream can be delivered nor
    * what is delivered. */
  lemma SplitArgumentsKeepsCompletion(
    before: seq<Chunk>, a: Chunk, after: seq<Chunk>, p: seq<Delta>, d: Delta, q: seq<Delta>,
    callsBefore: seq<CallDelta>, call: CallDelta, callsAfter: seq<CallDelta>, n: nat,
    matches: map<string, string> -> bool, r: Completion)
    requires a.deltas == p + [d] + q && d.calls == callsBefore + [call] + callsAfter
    requires call.arguments.Some? && n <= |call.arguments.value|
    ensures var first := call.(arguments := Some(call.arguments.value[..n]));
            var second := CallDelta(call.index, None, None, None, Some(call.arguments.value[n..]));
            var b := a.(deltas := p + [d.(calls := callsBefore + [first, second] + callsAfter)] + q);
            && (Complete(before + [a] + after, matches) <==> Complete(before + [b] + after, matches))
            && (Complete(before + [a] + after, matches) ==>
                  (IsCompletion(r, before + [a] + after) <==> IsCompletion(r, before + [b] + after)))
  {
    var first := call.(arguments := Some(call.arguments.value[..n]));
    var second := CallDelta(call.index, None, None, None, Some(call.arguments.value[n..]));
    var split := d.(calls := callsBefore + [first, second] + callsAfter);
    var b := a.(deltas := p + [split] + q);
    var s, t := before + [a] + after, before + [b] + after;
    DeltasDoNotIdentify(before, a, after, b.deltas);
    ChunkDeltas(before, a, after);
    ChunkDeltas(before, b, after);
    var x, y := DeltasOf(before) + p, q + DeltasOf(after);
    Between(DeltasOf(before), p, d, q, DeltasOf(after));
    Between(DeltasOf(before), p, split, q, DeltasOf(after));
    hide *;
    forall i: nat
      ensures MessageOf(Of(DeltasOf(s), i)) == MessageOf(Of(DeltasOf(t), i))
      ensures Of(DeltasOf(s), i) == [] <==> Of(DeltasOf(t), i) == []
    {
      SplitArgumentsKeepsMessages(x, d, y, callsBefore, call, callsAfter, n, i);
      OfThree(x, [split], y, i);
      OfThree(x, [d], y, i);
      OfOne(d, i);
      OfOne(split, i);
    }
    SameDelivery(s, t, matches, r);
    if Complete(s, matches) {
      CompleteIsProper(s, matches);
    }
  }

  lemma Between(before: seq<Delta>, p: seq<Delta>, d: Delta, q: seq<Delta>, after: seq<Delta>)
    ensures before + (p + [d] + q) + after == (before + p) + [d] + (q + after)
  {
  }

  // ---- Splitting a chunk in two ----

  /** A later part of a chunk: no usage, and only what the first part says of the identity. */
  predicate Continues(a: Chunk, b: Chunk) {
    && !b.error && b.usage.None?
    && forall key :: key in b.identity ==> key in a.identity && a.identity[key] == b.identity[key]
  }

  lemma PartsAtTheEnd(before: seq<Chunk>, a: Chunk, first: Chunk, second: Chunk)
    requires first == a.(deltas := first.deltas) && Continues(first, second)
    ensures Identity(before + [first] + [second]) == Identity(before + [a])
    ensures Usage(before + [first] + [second]) == Usage(before + [a])
    ensures AllProper(before + [first] + [second]) <==> AllProper(before + [a])
  {
    ChunkOneMore(before, a);
    ChunkOneMore(before, first);
    ChunkOneMore(before + [first], second);
    hide Identity, Usage, AllProper;
    assert Identity(before + [first]) + second.identity == Identity(before + [first]);
  }

  lemma {:induction false} PartsIdentifyAlike(
    before: seq<Chunk>, a: Chunk, first: Chunk, second: Chunk, after: seq<Chunk>)
    requires first == a.(deltas := first.deltas) && Continues(first, second)
    ensures Identity(before + [first, second] + after) == Identity(before + [a] + after)
    ensures Usage(before + [first, second] + after) == Usage(before + [a] + after)
    ensures AllProper(before + [first, second] + after) <==> AllProper(before + [a] + after)
  {
    var s, t := before + [first, second] + after, before + [a] + after;
    if after == [] {
      assert s == (before + [first]) + [second] && t == before + [a];
      PartsAtTheEnd(before, a, first, second);
    } else {
      hide Continues;
      var rest, c := after[..|after| - 1], after[|after| - 1];
      PartsIdentifyAlike(before, a, first, second, rest);
      assert s == before + [first, second] + rest + [c] && t == before + [a] + rest + [c];
      ChunkOneMore(before + [first, second] + rest, c);
      ChunkOneMore(before + [a] + rest, c);
      hide Identity, Usage, AllProper, Compatible;
    }
  }

  /** Cutting a chunk in two between its deltas changes neither whether a stream can be delivered nor
    * what is delivered. */
  lemma CutKeepsCompletion(
    before: seq<Chunk>, a: Chunk, first: Chunk, second: Chunk, after: seq<Chunk>,
    matches: map<string, string> -> bool, r: Completion)
    requires first == a.(deltas := first.deltas) && Continues(first, second)
    requires a.deltas == first.deltas + second.deltas
    ensures Complete(before + [a] + after, matches) <==> Complete(before + [first, second] + after, matches)
    ensures Complete(before + [a] + after, matches) ==>
              (IsCompletion(r, before + [a] + after) <==> IsCompletion(r, before + [first, second] + after))
  {
    PartsIdentifyAlike(before, a, first, second, after);
    PairDeltas(before, first, second, after);
    ChunkDeltas(before, a, after);
    hide *;
    SameDelivery(before + [a] + after, before + [first, second] + after, matches, r);
    if Complete(before + [a] + after, matches) {
      CompleteIsProper(before + [a] + after, matches);
    }
  }

  /** The second half of a content may also come in a chunk of its own. */
  lemma SplitOverChunksKeepsCompletion(
    before: seq<Chunk>, a: Chunk, second: Chunk, after: seq<Chunk>, p: seq<Delta>, d: Delta, q: seq<Delta>, n: nat,
    matches: map<string, string> -> bool, r: Completion)
    requires a.deltas == p + [d] + q && d.content.Some? && n <= |d.content.value|
    requires Continues(a, second)
    requires second.deltas == [SILENT.(index := d.index, content := Some(d.content.value[n..]))] + q
    ensures var first := a.(deltas := p + [d.(content := Some(d.content.value[..n]))]);
            && (Complete(before + [a] + after, matches) <==> Complete(before + [first, second] + after, matches))
            && (Complete(before + [a] + after, matches) ==>
                  (IsCompletion(r, before + [a] + after) <==> IsCompletion(r, before + [first, second] + after)))
  {
    var one := d.(content := Some(d.content.value[..n]));
    var two := SILENT.(index := d.index, content := Some(d.content.value[n..]));
    var b := a.(deltas := p + [one, two] + q);
    SplitKeepsCompletion(before, a, after, p, d, q, n, matches, r);
    assert b.deltas == (p + [one]) + second.deltas;
    CutKeepsCompletion(before, b, a.(deltas := p + [one]), second, after, matches, r);
  }

  /** So may the second half of the arguments of a tool call, with the calls after it. */
  lemma SplitArgumentsOverChunksKeepsCompletion(
    before: seq<Chunk>, a: Chunk, second: Chunk, after: seq<Chunk>, p: seq<Delta>, d: Delta, q: seq<Delta>,
    calls: seq<CallDelta>, call: CallDelta, n: nat, matches: map<string, string> -> bool, r: Completion)
    requires a.deltas == p + [d] + q && d.calls == calls + [call]
    requires call.arguments.Some? && n <= |call.arguments.value|
    requires Continues(a, second)
    requires second.deltas ==
             [SILENT.(index := d.index, calls := [CallDelta(call.index, None, None, None,
                                                            Some(call.arguments.value[n..]))])] + q
    ensures var first := a.(deltas := p + [d.(calls := calls + [call.(arguments := Some(call.arguments.value[..n]))])]);
            && (Complete(before + [a] + after, matches) <==> Complete(before + [first, second] + after, matches))
            && (Complete(before + [a] + after, matches) ==>
                  (IsCompletion(r, before + [a] + after) <==> IsCompletion(r, before + [first, second] + after)))
  {
    var cut := call.(arguments := Some(call.arguments.value[..n]));
    var rest := CallDelta(call.index, None, None, None, Some(call.arguments.value[n..]));
    var both := d.(calls := calls + [cut, rest]);
    var one, two := d.(calls := calls + [cut]), SILENT.(index := d.index, calls := [rest]);
    var b, c := a.(deltas := p + [both] + q), a.(deltas := p + [one, two] + q);
    assert d.calls == calls + [call] + [] && calls + [cut, rest] + [] == calls + [cut, rest];
    SplitArgumentsKeepsCompletion(before, a, after, p, d, q, calls, call, [], n, matches, r);
    CallsOverDeltasKeepsCompletion(before, b, after, p, both, one, two, q, calls + [cut], [rest], matches, r);
    assert c.deltas == (p + [one]) + second.deltas;
    CutKeepsCompletion(before, c, a.(deltas := p + [one]), second, after, matches, r);
  }

  /** The later calls of a delta may come in a delta of their own. */
  lemma CallsOverDeltasKeepsCompletion(
    before: seq<Chunk>, a: Chunk, after: seq<Chunk>, p: seq<Delta>, d: Delta, one: Delta, two: Delta, q: seq<Delta>,
    calls: seq<CallDelta>, more: seq<CallDelta>, matches: map<string, string> -> bool, r: Completion)
    requires a.deltas == p + [d] + q && d.calls == calls + more
    requires one == d.(calls := calls) && two == SILENT.(index := d.index, calls := more)
    ensures var b := a.(deltas := p + [one, two] + q);
            && (Complete(before + [a] + after, matches) <==> Complete(before + [b] + after, matches))
            && (Complete(before + [a] + after, matches) ==>
                  (IsCompletion(r, before + [a] + after) <==> IsCompletion(r, before + [b] + after)))
  {
    var b := a.(deltas := p + [one, two] + q);
    var s, t := before + [a] + after, before + [b] + after;
    DeltasDoNotIdentify(before, a, after, b.deltas);
    ChunkDeltas(before, a, after);
    ChunkDeltas(before, b, after);
    SplitsApart(DeltasOf(before), p, d, one, two, q, DeltasOf(after));
    var x, y := DeltasOf(before) + p, q + DeltasOf(after);
    hide *;
    forall i: nat
      ensures MessageOf(Of(DeltasOf(s), i)) == MessageOf(Of(DeltasOf(t), i))
      ensures Of(DeltasOf(s), i) == [] <==> Of(DeltasOf(t), i) == []
    {
      OfThree(x, [one, two], y, i);
      OfThree(x, [d], y, i);
      OfOne(d, i);
      OfTwo(one, two, i);
      CallsSplitFold(Of(x, i), d, one, two, Of(y, i), calls, more);
    }
    SameDelivery(s, t, matches, r);
    if Complete(s, matches) {
      CompleteIsProper(s, matches);
    }
  }

  lemma CallsSplitFold(
    head: seq<Delta>, d: Delta, one: Delta, two: Delta, tail: seq<Delta>, calls: seq<CallDelta>, more: seq<CallDelta>)
    requires d.calls == calls + more
    requires one == d.(calls := calls) && two == SILENT.(index := d.index, calls := more)
    ensures MessageOf(head + [one, two] + tail) == MessageOf(head + [d] + tail)
  {
    FoldLonger(head, d);
    FoldLonger(head, one);
    FoldLonger(head + [one], two);
    assert head + [one, two] == head + [one] + [two];
    if Fold(head).Some? {
      DeltaTwice(Fold(head).value, d, one, two, calls, more);
    }
    hide AddDelta, Fold, View;
    assert SameView(Fold(head + [one, two]), Fold(head + [d]));
    SameViewsContinue(head + [one, two], head + [d], tail);
  }

  lemma DeltaTwice(c: Choice, d: Delta, one: Delta, two: Delta, calls: seq<CallDelta>, more: seq<CallDelta>)
    requires d.calls == calls + more
    requires one == d.(calls := calls) && two == SILENT.(index := d.index, calls := more)
    ensures AddDelta(c, d) == if AddDelta(c, one).None? then None else AddDelta(AddDelta(c, one).value, two)
  {
    AddCallsTwice(c.calls, calls, more);
    hide AddCalls;
    if AddDelta(c, one).Some? {
      var half := AddDelta(c, one).value;
      assert half.content + [] == half.content && half.reasoning + [] == half.reasoning;
      assert half.refusal + [] == half.refusal;
    }
  }

  lemma {:induction false} AddCallsTwice(before: map<nat, ToolCall>, calls: seq<CallDelta>, more: seq<CallDelta>)
    ensures AddCalls(before, calls + more) ==
            if AddCalls(before, calls).None? then None else AddCalls(AddCalls(before, calls).value, more)
    decreases |calls|
  {
    if calls == [] {
      assert calls + more == more;
    } else {
      var t := AddCall(Call(before, calls[0].index), calls[0]);
      assert (calls + more)[0] == calls[0] && (calls + more)[1..] == calls[1..] + more;
      if t.Some? {
        AddCallsTwice(before[calls[0].index := t.value], calls[1..], more);
      }
    }
  }

  lemma CompleteIsProper(s: seq<Chunk>, matches: map<string, string> -> bool)
    requires Complete(s, matches)
    ensures AllProper(s)
  {
  }

  lemma SplitsApart(
    before: seq<Delta>, p: seq<Delta>, d: Delta, first: Delta, second: Delta, q: seq<Delta>, after: seq<Delta>)
    ensures before + (p + [d] + q) + after == (before + p) + [d] + (q + after)
    ensures before + (p + [first, second] + q) + after == (before + p) + [first, second] + (q + after)
  {
  }

  // ---- Concatenation ----

  function Contents(ds: seq<Delta>): seq<string> {
    if ds == [] then [] else Contents(ds[..|ds| - 1]) + Part(ds[|ds| - 1].content)
  }

  function ArgumentsIn(calls: seq<CallDelta>, call: nat): seq<string> {
    if calls == [] then []
    else (if calls[0].index == call then Part(calls[0].arguments) else []) + ArgumentsIn(calls[1..], call)
  }

  function ArgumentsOf(ds: seq<Delta>, call: nat): seq<string> {
    if ds == [] then [] else ArgumentsOf(ds[..|ds| - 1], call) + ArgumentsIn(ds[|ds| - 1].calls, call)
  }

  lemma {:induction false} CallsConcatenate(calls: map<nat, ToolCall>, ds: seq<CallDelta>, call: nat)
    requires AddCalls(calls, ds).Some?
    ensures Call(AddCalls(calls, ds).value, call).arguments == Call(calls, call).arguments + ArgumentsIn(ds, call)
    decreases |ds|
  {
    if ds != [] {
      var t := AddCall(Call(calls, ds[0].index), ds[0]).value;
      CallsConcatenate(calls[ds[0].index := t], ds[1..], call);
    }
  }

  /** A choice holds the contents, and each of its tool calls the arguments, of its own deltas in
    * the order of the stream. */
  lemma {:induction false} FoldConcatenates(ds: seq<Delta>, call: nat)
    requires Fold(ds).Some?
    ensures Fold(ds).value.content == Contents(ds)
    ensures Call(Fold(ds).value.calls, call).arguments == ArgumentsOf(ds, call)
  {
    if ds != [] {
      var last := |ds| - 1;
      FoldConcatenates(ds[..last], call);
      CallsConcatenate(Fold(ds[..last]).value.calls, ds[last].calls, call);
    }
  }

  lemma ContentIsConcatenation(chunks: seq<Chunk>, r: Completion, i: nat)
    requires IsCompletion(r, chunks) && i in r.choices
    ensures r.choices[i].content == JoinedOrNone(Contents(Of(DeltasOf(chunks), i)))
    ensures forall call :: call in r.choices[i].calls ==>
              r.choices[i].calls[call].arguments == Joined(ArgumentsOf(Of(DeltasOf(chunks), i), call))
  {
    var ds := Of(DeltasOf(chunks), i);
    var c := Fold(ds).value;
    assert r.choices[i] == Finish(View(c));
    FoldConcatenates(ds, 0);
    forall call: nat | call in c.calls ensures c.calls[call].arguments == ArgumentsOf(ds, call) {
      FoldConcatenates(ds, call);
    }
  }

  // ---- The aggregation loop ----

  ghost predicate Prefixed(data: seq<Datum>, rest: seq<Datum>, chunks: seq<Chunk>) {
    Before(data) == if Before(rest).None? then None else Some(chunks + Before(rest).value)
  }

  lemma PrefixedBy(data: seq<Datum>, first: Datum, rest: seq<Datum>, chunks: seq<Chunk>)
    requires Prefixed(data, [first] + rest, chunks)
    ensures first == Done ==> Before(data) == Some(chunks)
    ensures first == Bad ==> Before(data) == None
    ensures first.Data? ==> Prefixed(data, rest, chunks + [first.chunk])
  {
    assert ([first] + rest)[1..] == rest;
    assert chunks + [] == chunks;
    if first.Data? && Before(rest).Some? {
      assert chunks + ([first.chunk] + Before(rest).value) == chunks + [first.chunk] + Before(rest).value;
    }
  }

  lemma ImproperStays(chunks: seq<Chunk>, more: seq<Chunk>)
    requires !AllProper(chunks)
    ensures !AllProper(chunks + more)
  {
    assert forall c :: c in chunks ==> c in chunks + more;
  }

  lemma BrokenStays(chunks: seq<Chunk>, more: seq<Chunk>, matches: map<string, string> -> bool)
    requires !AllFold(DeltasOf(chunks))
    ensures !Complete(chunks + more, matches)
  {
    var i: nat :| Fold(Of(DeltasOf(chunks), i)).None?;
    DeltasConcat(chunks, more);
    BreakStays(DeltasOf(chunks), DeltasOf(more), i);
    assert MessageOf(Of(DeltasOf(chunks + more), i)).None?;
  }

  /** A fault in the chunks read so far keeps the stream from being delivered. */
  lemma NeverComplete(data: seq<Datum>, rest: seq<Datum>, chunks: seq<Chunk>, matches: map<string, string> -> bool)
    requires Prefixed(data, rest, chunks)
    requires !AllProper(chunks) || !AllFold(DeltasOf(chunks))
    ensures !(Before(data).Some? && Complete(Before(data).value, matches))
  {
    if Before(rest).Some? {
      if !AllProper(chunks) {
        ImproperStays(chunks, Before(rest).value);
      } else {
        BrokenStays(chunks, Before(rest).value, matches);
      }
    }
  }

  lemma SumOneMore(sum: Sum, chunks: seq<Chunk>, chunk: Chunk, choices: map<nat, Choice>)
    requires Sums(sum, chunks) && Proper(chunk, sum.identity)
    requires Holds(choices, DeltasOf(chunks) + chunk.deltas)
    ensures Sums(Sum(sum.identity + chunk.identity, choices, OrElse(chunk.usage, sum.usage)), chunks + [chunk])
  {
    ChunkOneMore(chunks, chunk);
    hide Holds, DeltasOf, Identity, Usage, AllProper;
  }

  lemma {:induction false} OfHas(ds: seq<Delta>, k: nat)
    requires k < |ds|
    ensures Of(ds, ds[k].index) != []
  {
    var last := |ds| - 1;
    if k < last {
      OfHas(ds[..last], k);
    }
  }

  lemma FoldedOrEmpty(choices: map<nat, Choice>, ds: seq<Delta>, i: nat)
    requires Holds(choices, ds)
    ensures Fold(Of(ds, i)) == Some(ChoiceAt(choices, i)) && (i in choices <==> Of(ds, i) != [])
    ensures MessageOf(Of(ds, i)) == Some(View(ChoiceAt(choices, i)))
  {
    assert HoldsAt(choices, ds, i);
  }

  lemma SomeChoice(choices: map<nat, Choice>, ds: seq<Delta>)
    requires Holds(choices, ds)
    ensures choices == map[] <==> ds == []
  {
    if ds != [] {
      OfHas(ds, 0);
      FoldedOrEmpty(choices, ds, ds[0].index);
    } else {
      forall i: nat ensures i !in choices {
        FoldedOrEmpty(choices, ds, i);
      }
    }
  }

  function Deliverable(sum: Sum): Completion {
    Completion(sum.identity, map i | i in sum.choices :: Finish(View(sum.choices[i])), sum.usage)
  }

  lemma DeliveredWhen(sum: Sum, chunks: seq<Chunk>, matches: map<string, string> -> bool)
    requires Sums(sum, chunks)
    ensures Complete(chunks, matches) <==>
              && sum.choices != map[]
              && matches(sum.identity)
              && forall i :: i in sum.choices ==> Finished(View(sum.choices[i]))
    ensures IsCompletion(Deliverable(sum), chunks)
  {
    SomeChoice(sum.choices, DeltasOf(chunks));
    forall i: nat
      ensures MessageOf(Of(DeltasOf(chunks), i)) == Some(View(ChoiceAt(sum.choices, i)))
      ensures i in sum.choices <==> Of(DeltasOf(chunks), i) != []
    {
      FoldedOrEmpty(sum.choices, DeltasOf(chunks), i);
    }
    hide MessageOf, View, Finished, Finish, Of, DeltasOf, Identity, Usage, AllProper, Holds;
  }

  /** The checks after the end marker. */
  method Deliver(sum: Sum, ghost chunks: seq<Chunk>, matches: map<string, string> -> bool)
    returns (r: Option<Completion>)
    requires Sums(sum, chunks)
    ensures r.Some? <==> Complete(chunks, matches)
    ensures r.Some? ==> IsCompletion(r.value, chunks)
  {
    DeliveredWhen(sum, chunks, matches);
    hide *;
    if sum.choices == map[] || !matches(sum.identity) {
      return None;
    }
    if exists i :: i in sum.choices && !Finished(View(sum.choices[i])) {
      return None;
    }
    return Some(Deliverable(sum));
  }

  lemma NothingYet(data: seq<Datum>)
    ensures Sums(Sum(map[], map[], None), []) && Prefixed(data, data, [])
  {
    if Before(data).Some? {
      assert [] + Before(data).value == Before(data).value;
    }
  }

  lemma NeverDone(data: seq<Datum>, chunks: seq<Chunk>)
    requires Prefixed(data, [], chunks)
    ensures Before(data) == None
  {
  }

  lemma ImproperChunk(sum: Sum, chunks: seq<Chunk>, chunk: Chunk)
    requires Sums(sum, chunks) && !Proper(chunk, sum.identity)
    ensures !AllProper(chunks + [chunk])
  {
    ChunkOneMore(chunks, chunk);
  }

  lemma SummedChoices(sum: Sum, chunks: seq<Chunk>, chunk: Chunk)
    requires Sums(sum, chunks)
    ensures Holds(sum.choices, DeltasOf(chunks)) && DeltasOf(chunks + [chunk]) == DeltasOf(chunks) + chunk.deltas
  {
    ChunkOneMore(chunks, chunk);
  }

  /** Aggregates one stream. It delivers exactly the complete ones: the end marker has come, nothing
    * before it is bad, the identity is consistent and matches, and every choice has finished. Where
    * the events break off with an error, no end marker has come. */
  method Aggregate(data: seq<Datum>, matches: map<string, string> -> bool) returns (r: Option<Completion>)
    ensures r.Some? <==> Before(data).Some? && Complete(Before(data).value, matches)
    ensures r.Some? ==> IsCompletion(r.value, Before(data).value)
  {
    var sum := Sum(map[], map[], None);
    ghost var chunks: seq<Chunk> := [];
    NothingYet(data);
    assert data[0..] == data;
    hide *;
    for k := 0 to |data|
      invariant Sums(sum, chunks) && Prefixed(data, data[k..], chunks)
    {
      assert data[k..] == [data[k]] + data[k + 1..];
      PrefixedBy(data, data[k], data[k + 1..], chunks);
      match data[k] {
        case Done =>
          r := Deliver(sum, chunks, matches);
          return;
        case Bad =>
          return None;
        case Data(chunk) =>
          if !Proper(chunk, sum.identity) {
            ImproperChunk(sum, chunks, chunk);
            NeverComplete(data, data[k + 1..], chunks + [chunk], matches);
            return None;
          }
          SummedChoices(sum, chunks, chunk);
          var choices, ok := AddChoices(sum.choices, DeltasOf(chunks), chunk.deltas);
          if !ok {
            NeverComplete(data, data[k + 1..], chunks + [chunk], matches);
            return None;
          }
          SumOneMore(sum, chunks, chunk, choices);
          sum := Sum(sum.identity + chunk.identity, choices, OrElse(chunk.usage, sum.usage));
          chunks := chunks + [chunk];
      }
    }
    assert data[|data|..] == [];
    NeverDone(data, chunks);
    return None;
  }
}
