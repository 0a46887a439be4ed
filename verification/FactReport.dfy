/** The fact report over all observed attempts: identity checks, verdict checks, the final attempt
  * of each task, and the fail-closed task rows. */
module FactReport {
  import opened Wrappers
  import FactCensus
  import opened EvalLedger
  import opened FactIdentity
  import opened FactRows

  /** `root` is where the attempt's ledger is kept. */
  datatype Attempt = Attempt(round: nat, row: Row, root: string)

  type Issues = map<Task, seq<string>>

  function AppendIssue(issues: Issues, task: Task, reason: string): Issues {
    if task !in issues then issues[task := [reason]]
    else if reason in issues[task] then issues
    else issues[task := issues[task] + [reason]]
  }

  function AppendIssues(issues: Issues, task: Task, reasons: seq<string>): Issues {
    if reasons == [] then issues
    else AppendIssue(AppendIssues(issues, task, reasons[..|reasons| - 1]), task, reasons[|reasons| - 1])
  }

  lemma IssueAppended(issues: Issues, task: Task, reason: string)
    ensures AppendIssue(issues, task, reason).Keys == issues.Keys + {task}
  {
  }

  lemma {:induction false} AppendIssuesKeys(issues: Issues, task: Task, reasons: seq<string>)
    ensures AppendIssues(issues, task, reasons).Keys == issues.Keys + if reasons == [] then {} else {task}
  {
    if reasons != [] {
      AppendIssuesKeys(issues, task, reasons[..|reasons| - 1]);
    }
  }

  // ---- Recovered attempts ----

  const RECOVERABLE: set<string> :=
    {"unexpected_generation_status:generation_failed", "missing_trusted_generation_proof"}

  function Reasons(a: Attempt): seq<string> {
    AttemptIntegrity(a.row).reasons
  }

  predicate Supersedes(later: Attempt, a: Attempt) {
    && later.round > a.round
    && later.row.task == a.row.task
    && AttemptIntegrity(later.row).recordId == AttemptIntegrity(a.row).recordId
    && Patch(later.row) == Patch(a.row)
    && later.row.generation.status == "generation_done"
    && EvalSuccess(later.row)
    && AttemptIntegrity(later.row).proven
  }

  /** A pre-evaluation failure that a later verified evaluation of the same candidate supersedes. */
  predicate Recovered(a: Attempt, observed: seq<Attempt>) {
    && a.row.evaluation.count == 0
    && AttemptIntegrity(a.row).recordId != ""
    && Patch(a.row) != ""
    && a.row.evaluation.status == "skipped_generation_not_ready"
    && Reasons(a) != []
    && (forall reason :: reason in Reasons(a) ==> reason in RECOVERABLE)
    && exists later :: later in observed && Supersedes(later, a)
  }

  // ---- The identity of a task over all its attempts ----

  datatype Kind = OfRecord | OfPatch | OfProjection

  type Value = (string, seq<string>)

  /** What an attempt says about the identity of its task. */
  function Fact(a: Attempt, kind: Kind): Option<Value> {
    if !Substantial(a.row) || Patch(a.row) == "" then None
    else
      match kind
      case OfRecord =>
        if AttemptIntegrity(a.row).recordId == "" then None else Some((AttemptIntegrity(a.row).recordId, []))
      case OfPatch => Some((Patch(a.row), []))
      case OfProjection =>
        if Projection(a.row).0 == "" || "missing_trusted_generation_proof" in Reasons(a) then None
        else Some(Projection(a.row))
  }

  /** Everything the attempts of a task say of one kind. */
  function Said(s: seq<Attempt>, task: Task, kind: Kind): set<Value> {
    set a | a in s && a.row.task == task && Fact(a, kind).Some? :: Fact(a, kind).value
  }

  ghost predicate AllSame(values: set<Value>) {
    forall v, w :: v in values && w in values ==> v == w
  }

  /** All attempts of one task that say something of this kind say the same. */
  ghost predicate Agree(s: seq<Attempt>, task: Task, kind: Kind) {
    AllSame(Said(s, task, kind))
  }

  /** The attempt itself raises no issue. */
  predicate InOrder(a: Attempt, observed: seq<Attempt>) {
    && (Reasons(a) == [] || Recovered(a, observed))
    && (Substantial(a.row) ==> Patch(a.row) != "")
  }

  ghost predicate Identified(s: seq<Attempt>, task: Task, observed: seq<Attempt>) {
    && (forall a :: a in s && a.row.task == task ==> InOrder(a, observed))
    && Agree(s, task, OfRecord) && Agree(s, task, OfPatch) && Agree(s, task, OfProjection)
  }

  ghost predicate LatestOf(latest: map<Task, Value>, said: set<Value>, task: Task) {
    (task in latest <==> said != {}) && (task in latest ==> latest[task] in said)
  }

  /** `latest` holds for each task a value that some attempt gave, if any did. */
  ghost predicate Latest(latest: map<Task, Value>, s: seq<Attempt>, kind: Kind) {
    forall task :: LatestOf(latest, Said(s, task, kind), task)
  }

  lemma SaidOneMore(s: seq<Attempt>, a: Attempt, task: Task, kind: Kind)
    ensures Said(s + [a], task, kind) ==
            Said(s, task, kind) + if a.row.task == task && Fact(a, kind).Some? then {Fact(a, kind).value} else {}
  {
    hide Fact;
    var more := if a.row.task == task && Fact(a, kind).Some? then {Fact(a, kind).value} else {};
    forall v ensures v in Said(s + [a], task, kind) <==> v in Said(s, task, kind) + more {
      if v in Said(s, task, kind) {
        var b :| b in s && b.row.task == task && Fact(b, kind) == Some(v);
        assert b in s + [a];
      }
      if v in more {
        assert a in s + [a];
      }
    }
  }

  function Update(latest: map<Task, Value>, a: Attempt, kind: Kind): map<Task, Value> {
    if Fact(a, kind).Some? then latest[a.row.task := Fact(a, kind).value] else latest
  }

  predicate Disagrees(latest: map<Task, Value>, a: Attempt, kind: Kind) {
    Fact(a, kind).Some? && a.row.task in latest && latest[a.row.task] != Fact(a, kind).value
  }

  lemma OneMoreValue(latest: map<Task, Value>, said: set<Value>, task: Task, v: Value)
    requires LatestOf(latest, said, task)
    ensures AllSame(said + {v}) <==> AllSame(said) && !(task in latest && latest[task] != v)
    ensures LatestOf(latest[task := v], said + {v}, task)
  {
    if AllSame(said + {v}) {
      assert forall w :: w in said ==> w in said + {v};
    }
  }

  /** One attempt more disagrees with the latest value exactly when its task agreed and no longer does. */
  lemma OneMoreFact(latest: map<Task, Value>, s: seq<Attempt>, kind: Kind, a: Attempt, task: Task)
    requires LatestOf(latest, Said(s, task, kind), task)
    ensures LatestOf(Update(latest, a, kind), Said(s + [a], task, kind), task)
    ensures Agree(s + [a], task, kind) <==>
              Agree(s, task, kind) && !(a.row.task == task && Disagrees(latest, a, kind))
  {
    SaidOneMore(s, a, task, kind);
    hide Said, Fact, AllSame;
    if a.row.task == task && Fact(a, kind).Some? {
      OneMoreValue(latest, Said(s, task, kind), task, Fact(a, kind).value);
    } else {
      assert Said(s, task, kind) + {} == Said(s, task, kind);
    }
  }

  /** The latest record, source patch and projection of each task. */
  datatype Seen = Seen(records: map<Task, Value>, sources: map<Task, Value>, projections: map<Task, Value>)

  ghost predicate SeenAll(seen: Seen, s: seq<Attempt>) {
    && Latest(seen.records, s, OfRecord)
    && Latest(seen.sources, s, OfPatch)
    && Latest(seen.projections, s, OfProjection)
  }

  function SeenOneMore(seen: Seen, a: Attempt): Seen {
    Seen(Update(seen.records, a, OfRecord), Update(seen.sources, a, OfPatch), Update(seen.projections, a, OfProjection))
  }

  /** Whether the attempt adds an issue to its task. */
  predicate Flagged(seen: Seen, a: Attempt, observed: seq<Attempt>) {
    || !InOrder(a, observed)
    || Disagrees(seen.records, a, OfRecord)
    || Disagrees(seen.sources, a, OfPatch)
    || Disagrees(seen.projections, a, OfProjection)
  }

  lemma InOrderOneMore(s: seq<Attempt>, a: Attempt, task: Task, observed: seq<Attempt>)
    ensures (forall b :: b in s + [a] && b.row.task == task ==> InOrder(b, observed)) <==>
              (forall b :: b in s && b.row.task == task ==> InOrder(b, observed))
              && (a.row.task == task ==> InOrder(a, observed))
  {
    hide InOrder;
    assert a in s + [a];
    assert forall b :: b in s ==> b in s + [a];
  }

  lemma OneMoreAttempt(seen: Seen, s: seq<Attempt>, a: Attempt, observed: seq<Attempt>)
    requires SeenAll(seen, s)
    ensures SeenAll(SeenOneMore(seen, a), s + [a])
    ensures forall task :: Identified(s + [a], task, observed) <==>
              Identified(s, task, observed) && !(a.row.task == task && Flagged(seen, a, observed))
  {
    hide Update, Disagrees, Agree, InOrder, LatestOf, Said;
    forall task
      ensures LatestOf(Update(seen.records, a, OfRecord), Said(s + [a], task, OfRecord), task)
      ensures LatestOf(Update(seen.sources, a, OfPatch), Said(s + [a], task, OfPatch), task)
      ensures LatestOf(Update(seen.projections, a, OfProjection), Said(s + [a], task, OfProjection), task)
      ensures Identified(s + [a], task, observed) <==>
                Identified(s, task, observed) && !(a.row.task == task && Flagged(seen, a, observed))
    {
      OneMoreFact(seen.records, s, OfRecord, a, task);
      OneMoreFact(seen.sources, s, OfPatch, a, task);
      OneMoreFact(seen.projections, s, OfProjection, a, task);
      InOrderOneMore(s, a, task, observed);
    }
  }

  /** The issues that one attempt adds. */
  method CheckIdentity(seen: Seen, a: Attempt, observed: seq<Attempt>, before: Issues) returns (issues: Issues)
    ensures issues.Keys == before.Keys + if Flagged(seen, a, observed) then {a.row.task} else {}
  {
    var task := a.row.task;
    hide Recovered, Substantial, Patch, Reasons;
    issues := before;
    if !Recovered(a, observed) {
      AppendIssuesKeys(issues, task, Reasons(a));
      issues := AppendIssues(issues, task, Reasons(a));
    }
    if Substantial(a.row) {
      if Patch(a.row) != "" {
        if Disagrees(seen.records, a, OfRecord) {
          issues := AppendIssue(issues, task, "candidate_identity_mismatch");
        }
        if Disagrees(seen.sources, a, OfPatch) {
          issues := AppendIssue(issues, task, "candidate_identity_mismatch");
        }
        if Disagrees(seen.projections, a, OfProjection) {
          issues := AppendIssue(issues, task, "candidate_identity_mismatch");
        }
      } else {
        issues := AppendIssue(issues, task, "missing_candidate_identity");
      }
    }
  }

  /** The loop over the observed attempts. A task gets an issue exactly when one of its attempts is
    * out of order, or two of them name different records, patches or projections. */
  method CheckIdentities(observed: seq<Attempt>, earlier: Issues) returns (issues: Issues)
    ensures forall task :: task in issues <==> task in earlier || !Identified(observed, task, observed)
  {
    var seen := Seen(map[], map[], map[]);
    issues := earlier;
    for k := 0 to |observed|
      invariant SeenAll(seen, observed[..k])
      invariant forall task :: task in issues <==> task in earlier || !Identified(observed[..k], task, observed)
    {
      var a := observed[k];
      OneMoreAttempt(seen, observed[..k], a, observed);
      assert observed[..k + 1] == observed[..k] + [a];
      hide SeenAll, SeenOneMore, Identified, Flagged;
      issues := CheckIdentity(seen, a, observed, issues);
      seen := SeenOneMore(seen, a);
    }
    assert observed[..|observed|] == observed;
  }

  // ---- Verdicts ----

  datatype Candidate = Candidate(task: Task, patch: string, projection: Value)

  function CandidateOf(a: Attempt): Candidate {
    Candidate(a.row.task, Patch(a.row), Projection(a.row))
  }

  predicate Judges(a: Attempt, candidate: Candidate, verdict: bool) {
    EvalSuccess(a.row) && Patch(a.row) != "" && CandidateOf(a) == candidate && Resolved(a.row) == Some(verdict)
  }

  ghost predicate Judged(s: seq<Attempt>, candidate: Candidate, verdict: bool) {
    exists a :: a in s && Judges(a, candidate, verdict)
  }

  predicate Found(verdicts: map<Candidate, set<bool>>, candidate: Candidate, verdict: bool) {
    candidate in verdicts && verdict in verdicts[candidate]
  }

  ghost predicate FoundAll(verdicts: map<Candidate, set<bool>>, s: seq<Attempt>) {
    forall candidate, verdict :: Found(verdicts, candidate, verdict) <==> Judged(s, candidate, verdict)
  }

  function AddVerdict(verdicts: map<Candidate, set<bool>>, a: Attempt): map<Candidate, set<bool>> {
    if EvalSuccess(a.row) && Patch(a.row) != "" then
      var c := CandidateOf(a);
      verdicts[c := (if c in verdicts then verdicts[c] else {}) + {Resolved(a.row).value}]
    else verdicts
  }

  lemma FoundAdded(verdicts: map<Candidate, set<bool>>, a: Attempt, candidate: Candidate, verdict: bool)
    ensures Found(AddVerdict(verdicts, a), candidate, verdict) <==>
              Found(verdicts, candidate, verdict) || Judges(a, candidate, verdict)
  {
    hide Patch, CandidateOf, AttemptIntegrity;
  }

  lemma FoundOneMore(verdicts: map<Candidate, set<bool>>, s: seq<Attempt>, a: Attempt)
    requires FoundAll(verdicts, s)
    ensures FoundAll(AddVerdict(verdicts, a), s + [a])
  {
    hide Judged, Judges, Found, AddVerdict;
    forall candidate, verdict
      ensures Found(AddVerdict(verdicts, a), candidate, verdict) <==> Judged(s + [a], candidate, verdict)
    {
      FoundAdded(verdicts, a, candidate, verdict);
      JudgedOneMore(s, a, candidate, verdict);
    }
  }

  method CollectVerdicts(observed: seq<Attempt>) returns (verdicts: map<Candidate, set<bool>>)
    ensures FoundAll(verdicts, observed)
  {
    verdicts := map[];
    for k := 0 to |observed|
      invariant FoundAll(verdicts, observed[..k])
    {
      FoundOneMore(verdicts, observed[..k], observed[k]);
      assert observed[..k + 1] == observed[..k] + [observed[k]];
      verdicts := AddVerdict(verdicts, observed[k]);
    }
    assert observed[..|observed|] == observed;
  }

  lemma JudgedOneMore(s: seq<Attempt>, a: Attempt, candidate: Candidate, verdict: bool)
    ensures Judged(s + [a], candidate, verdict) <==> Judged(s, candidate, verdict) || Judges(a, candidate, verdict)
  {
    hide Judges;
    if Judged(s, candidate, verdict) {
      var b :| b in s && Judges(b, candidate, verdict);
      assert b in s + [a];
    }
    assert a in s + [a];
  }

  ghost predicate Conflict(observed: seq<Attempt>, task: Task) {
    exists candidate: Candidate ::
      candidate.task == task && Judged(observed, candidate, true) && Judged(observed, candidate, false)
  }

  /** Adds an issue to exactly the tasks of which one candidate was judged both ways. */
  method FlagConflicts(observed: seq<Attempt>, before: Issues) returns (issues: Issues)
    ensures forall task :: task in issues <==> task in before || Conflict(observed, task)
  {
    var verdicts := CollectVerdicts(observed);
    issues := before;
    var left := verdicts.Keys;
    hide Judged;
    while left != {}
      invariant left <= verdicts.Keys
      invariant forall task :: task in issues <==>
                  task in before
                  || exists c :: c in verdicts.Keys - left && c.task == task && verdicts[c] == {false, true}
    {
      var c :| c in left;
      if verdicts[c] == {false, true} {
        issues := AppendIssue(issues, c.task, "conflicting_eval_verdicts");
      }
      left := left - {c};
    }
    BothVerdicts(observed, verdicts);
  }

  lemma BothVerdicts(observed: seq<Attempt>, verdicts: map<Candidate, set<bool>>)
    requires FoundAll(verdicts, observed)
    ensures forall task ::
              (exists c :: c in verdicts.Keys && c.task == task && verdicts[c] == {false, true})
              <==> Conflict(observed, task)
  {
    hide Judged;
    forall c
      ensures c in verdicts && verdicts[c] == {false, true} <==> Judged(observed, c, true) && Judged(observed, c, false)
    {
      assert Found(verdicts, c, true) <==> Judged(observed, c, true);
      assert Found(verdicts, c, false) <==> Judged(observed, c, false);
      if c in verdicts {
        TwoVerdicts(verdicts[c]);
      }
    }
  }

  lemma TwoVerdicts(x: set<bool>)
    ensures x == {false, true} <==> false in x && true in x
  {
    if false in x && true in x {
      forall v: bool ensures v in x <==> v in {false, true} {
        if v {
        } else {
        }
      }
    }
  }

  // ---- The final attempt of a task ----

  predicate ScoreAtMost(a: Attempt, b: Attempt) {
    var x, y := Rank(a), Rank(b);
    x < y || (x == y && a.round <= b.round)
  }

  function Rank(a: Attempt): nat {
    if EvalSuccess(a.row) then 3 else if a.row.generation.status == "generation_done" then 2 else 1
  }

  /** The last among a task's attempts with the highest score. */
  ghost predicate IsFinal(s: seq<Attempt>, task: Task, final: Attempt) {
    exists i :: 0 <= i < |s| && s[i] == final && IsBest(s, task, i)
  }

  ghost predicate IsBest(s: seq<Attempt>, task: Task, i: nat)
    requires i < |s|
  {
    && s[i].row.task == task
    && forall j :: 0 <= j < |s| && s[j].row.task == task ==>
         ScoreAtMost(s[j], s[i]) && (j > i ==> !ScoreAtMost(s[i], s[j]))
  }

  ghost predicate HasAttempt(s: seq<Attempt>, task: Task) {
    exists a :: a in s && a.row.task == task
  }

  ghost predicate Finals(s: seq<Attempt>, final: map<Task, Attempt>) {
    forall task ::
      && (task in final <==> task != "" && HasAttempt(s, task))
      && (task in final ==> IsFinal(s, task, final[task]))
  }

  lemma FinalOneMore(s: seq<Attempt>, final: map<Task, Attempt>, a: Attempt)
    requires Finals(s, final)
    ensures Finals(s + [a],
      if a.row.task == "" || (a.row.task in final && !ScoreAtMost(final[a.row.task], a)) then final
      else final[a.row.task := a])
  {
    var longer := s + [a];
    var task := a.row.task;
    var after := if task == "" || (task in final && !ScoreAtMost(final[task], a)) then final else final[task := a];
    assert a in longer;
    forall other ensures (other in after <==> other != "" && HasAttempt(longer, other)) {
      if HasAttempt(s, other) {
        var b :| b in s && b.row.task == other;
        assert b in longer;
      }
    }
    forall other | other in after ensures IsFinal(longer, other, after[other]) {
      if other == task && after[other] == a && !(other in final && !ScoreAtMost(final[task], a)) {
        NewIsBest(s, final, a);
      } else {
        OldStaysBest(s, other, final[other], a);
      }
    }
  }

  lemma NewIsBest(s: seq<Attempt>, final: map<Task, Attempt>, a: Attempt)
    requires Finals(s, final) && a.row.task != ""
    requires a.row.task in final ==> ScoreAtMost(final[a.row.task], a)
    ensures IsFinal(s + [a], a.row.task, a)
  {
    hide ScoreAtMost;
    var longer, task := s + [a], a.row.task;
    forall j | 0 <= j < |longer| && longer[j].row.task == task ensures ScoreAtMost(longer[j], a) {
      if j < |s| {
        assert longer[j] in s && HasAttempt(s, task);
        assert IsFinal(s, task, final[task]);
        ScoreChains(longer[j], final[task], a);
      } else {
        ScoreChains(a, a, a);
      }
    }
    assert longer[|s|] == a && IsBest(longer, task, |s|);
  }

  lemma ScoreChains(a: Attempt, b: Attempt, c: Attempt)
    ensures ScoreAtMost(a, b) && ScoreAtMost(b, c) ==> ScoreAtMost(a, c)
    ensures ScoreAtMost(a, a)
    ensures ScoreAtMost(a, b) || ScoreAtMost(b, a)
  {
  }

  lemma OldStaysBest(s: seq<Attempt>, task: Task, final: Attempt, a: Attempt)
    requires IsFinal(s, task, final) && (a.row.task == task ==> !ScoreAtMost(final, a))
    ensures IsFinal(s + [a], task, final)
  {
    hide ScoreAtMost;
    var i :| 0 <= i < |s| && s[i] == final && IsBest(s, task, i);
    ScoreChains(final, a, a);
    assert (s + [a])[i] == final && IsBest(s + [a], task, i);
  }

  method FinalByTask(accepted: seq<Attempt>) returns (final: map<Task, Attempt>)
    ensures Finals(accepted, final)
  {
    final := map[];
    hide ScoreAtMost;
    for k := 0 to |accepted|
      invariant Finals(accepted[..k], final)
    {
      var a := accepted[k];
      FinalOneMore(accepted[..k], final, a);
      assert accepted[..k + 1] == accepted[..k] + [a];
      hide Finals;
      if a.row.task != "" {
        if a.row.task !in final || ScoreAtMost(final[a.row.task], a) {
          final := final[a.row.task := a];
        }
      }
    }
    assert accepted[..|accepted|] == accepted;
  }

  // ---- The task rows ----

  function CountedOf(observed: seq<Attempt>): seq<Counted> {
    seq(|observed|, i requires 0 <= i < |observed| =>
      Counted(Ledger(observed[i].row.task, observed[i].root), observed[i].row.evaluation.count))
  }

  function EvalAttempts(attempts: seq<Attempt>, task: Task): nat {
    Total(OfTask(CountedOf(attempts), task))
  }

  function Select(observed: seq<Attempt>, chosen: seq<bool>): (r: seq<Attempt>)
    requires |chosen| == |observed|
    ensures forall a :: a in r ==> a in observed
  {
    if observed == [] then []
    else
      var last := |observed| - 1;
      Select(observed[..last], chosen[..last]) + if chosen[last] then [observed[last]] else []
  }

  function RowOf(final: Attempt, evalAttempts: nat): TaskRow {
    TaskRow(
      final.row.task, final.row.index, final.row.generation.status, EvalStatus(final.row), EvalSuccess(final.row),
      EvalPending(final.row), Resolved(final.row), TechnicalFailed(final.row), Reasons(final), None, evalAttempts)
  }

  /** What the row of a task must rest on to carry a verdict. */
  ghost predicate Trustworthy(observed: seq<Attempt>, row: TaskRow) {
    && Identified(observed, row.task, observed)
    && !Conflict(observed, row.task)
    && exists final :: final in observed && final.row.task == row.task && final.row.index == row.index
                       && EvalSuccess(final.row) && row.resolved == Resolved(final.row)
  }

  ghost predicate SoundRow(observed: seq<Attempt>, row: TaskRow) {
    Consistent(row) && (row.evalSuccess ==> Trustworthy(observed, row))
  }

  /** Fail closed: over budget first, then every issue of its task. */
  function TaskRecord(final: Attempt, evalAttempts: nat, overBudget: bool, issues: Issues): TaskRow {
    var row := RowOf(final, evalAttempts);
    var within := if overBudget then OverBudget(row) else row;
    if final.row.task in issues then MarkTechnical(within, issues[final.row.task]) else within
  }

  lemma RecordIsSound(observed: seq<Attempt>, final: Attempt, evalAttempts: nat, overBudget: bool, issues: Issues)
    requires final in observed
    requires !Identified(observed, final.row.task, observed) || Conflict(observed, final.row.task) ==>
               final.row.task in issues
    ensures SoundRow(observed, TaskRecord(final, evalAttempts, overBudget, issues))
    ensures var row := TaskRecord(final, evalAttempts, overBudget, issues);
            row.task == final.row.task && row.index == final.row.index
  {
    hide Identified, Conflict;
    var row := RowOf(final, evalAttempts);
    if EvalSuccess(final.row) {
      SuccessIsIdentified(final.row);
    }
    assert Consistent(row) by {
      hide AttemptIntegrity;
    }
    MarkedIsConsistent(row, []);
    MarkedIsConsistent(OverBudget(row), if final.row.task in issues then issues[final.row.task] else []);
    MarkedIsConsistent(row, if final.row.task in issues then issues[final.row.task] else []);
    hide EvalSuccess, Resolved, Consistent, MarkTechnical, OverBudget;
  }

  // ---- Which row a task gets ----

  /** Something stands against the task: an earlier issue, an unsettled identity or two verdicts. */
  ghost predicate Blamed(observed: seq<Attempt>, earlier: Issues, task: Task) {
    task in earlier || !Identified(observed, task, observed) || Conflict(observed, task)
  }

  /** The row is that of the task's final accepted attempt, closed exactly when the task is over
    * budget or blamed. */
  ghost predicate RowFits(
    observed: seq<Attempt>, accepted: seq<Attempt>, overBudget: set<Task>, earlier: Issues, row: TaskRow)
  {
    exists final ::
      IsFinal(accepted, row.task, final) && RowOfFinal(observed, accepted, overBudget, earlier, row, final)
  }

  ghost predicate RowOfFinal(
    observed: seq<Attempt>, accepted: seq<Attempt>, overBudget: set<Task>, earlier: Issues, row: TaskRow,
    final: Attempt)
  {
    var plain := RowOf(final, EvalAttempts(accepted, row.task));
    var within := if row.task in overBudget then OverBudget(plain) else plain;
    if Blamed(observed, earlier, row.task) then exists reasons :: row == MarkTechnical(within, reasons)
    else row == within
  }

  lemma RecordFits(
    observed: seq<Attempt>, accepted: seq<Attempt>, overBudget: set<Task>, earlier: Issues, issues: Issues,
    final: Attempt)
    requires IsFinal(accepted, final.row.task, final)
    requires final.row.task in issues <==> Blamed(observed, earlier, final.row.task)
    ensures var task := final.row.task;
            RowFits(
              observed, accepted, overBudget, earlier,
              TaskRecord(final, EvalAttempts(accepted, task), task in overBudget, issues))
  {
    var task := final.row.task;
    var row := TaskRecord(final, EvalAttempts(accepted, task), task in overBudget, issues);
    assert row.task == task;
    hide IsFinal, Blamed, EvalStatus, EvalSuccess, EvalPending, Resolved, TechnicalFailed, Reasons, EvalAttempts;
    assert RowOfFinal(observed, accepted, overBudget, earlier, row, final);
  }

  lemma FinalIsUnique(s: seq<Attempt>, task: Task, a: Attempt, b: Attempt)
    requires IsFinal(s, task, a) && IsFinal(s, task, b)
    ensures a == b
  {
    hide ScoreAtMost;
    var i :| 0 <= i < |s| && s[i] == a && IsBest(s, task, i);
    var j :| 0 <= j < |s| && s[j] == b && IsBest(s, task, j);
    assert s[i].row.task == s[j].row.task;
  }

  /** The fail-closed rule, in both directions: a row carries a verdict exactly when its final
    * attempt succeeded, its task is within the budget and nothing stands against it. */
  lemma VerdictKeptExactly(
    observed: seq<Attempt>, accepted: seq<Attempt>, overBudget: set<Task>, earlier: Issues, row: TaskRow,
    final: Attempt)
    requires RowFits(observed, accepted, overBudget, earlier, row) && IsFinal(accepted, row.task, final)
    ensures row.evalSuccess <==>
              EvalSuccess(final.row) && row.task !in overBudget && !Blamed(observed, earlier, row.task)
    ensures row.evalSuccess ==> row.resolved == Resolved(final.row) && row.resolved.Some?
    ensures !row.evalSuccess ==> row.resolved.None?
    ensures row.task in overBudget || Blamed(observed, earlier, row.task) ==> row.technicalFailed && !row.evalPending
  {
    var own :| IsFinal(accepted, row.task, own) && RowOfFinal(observed, accepted, overBudget, earlier, row, own);
    FinalIsUnique(accepted, row.task, own, final);
    hide IsFinal, Blamed, EvalStatus, EvalPending, TechnicalFailed, Reasons, EvalAttempts;
  }

  /** One row for every named task with an accepted attempt, and no other row. */
  ghost predicate RowsFit(
    observed: seq<Attempt>, accepted: seq<Attempt>, overBudget: set<Task>, earlier: Issues, rows: seq<TaskRow>)
  {
    && (forall row :: row in rows ==> RowFits(observed, accepted, overBudget, earlier, row))
    && (forall task :: HasRow(rows, task) <==> task != "" && HasAttempt(accepted, task))
    && forall i, j :: 0 <= i < j < |rows| ==> rows[i].task != rows[j].task
  }

  // ---- The budget over the attempts ----

  function Exhausted(observed: seq<Attempt>, budget: nat): set<Task> {
    set a | a in observed && EvalAttempts(observed, a.row.task) > budget :: a.row.task
  }

  function RoundsOf(observed: seq<Attempt>): seq<nat> {
    seq(|observed|, i requires 0 <= i < |observed| => observed[i].round)
  }

  function RejectedTasks(observed: seq<Attempt>, chosen: seq<bool>, exhausted: set<Task>): set<Task>
    requires |chosen| == |observed|
  {
    set i | 0 <= i < |observed| && !chosen[i] && observed[i].row.task in exhausted :: observed[i].row.task
  }

  /** The rows rest on the attempts that the budget and the round limit let through. */
  ghost predicate TasksFit(
    observed: seq<Attempt>, maxRounds: nat, budget: nat, earlier: Issues, rows: seq<TaskRow>, chosen: seq<bool>)
  {
    && |chosen| == |observed|
    && var exhausted := Exhausted(observed, budget);
       && Chosen(CountedOf(observed), RoundsOf(observed), chosen, exhausted, budget, maxRounds)
       && RowsFit(
            observed, Select(observed, chosen), RejectedTasks(observed, chosen, exhausted), earlier, rows)
  }

  lemma ChosenByRound(observed: seq<Attempt>, chosen: seq<bool>, budget: nat, maxRounds: nat)
    requires |chosen| == |observed|
    requires forall i :: 0 <= i < |observed| ==> chosen[i] == (observed[i].round <= maxRounds)
    ensures Chosen(CountedOf(observed), RoundsOf(observed), chosen, {}, budget, maxRounds)
  {
    var s, rounds := CountedOf(observed), RoundsOf(observed);
    forall i: nat | i < |chosen| ensures RightlyChosen(s, rounds, chosen, {}, budget, maxRounds, i) {
      assert rounds[i] == observed[i].round;
    }
  }

  /** From the observed attempts to one row per task, or the refusal of the tasks over budget. */
  method BuildTasks(
    observed: seq<Attempt>, maxRounds: nat, maxEvalAttempts: nat, allowOverBudget: bool, earlier: Issues)
    returns (r: Result<seq<TaskRow>, set<Task>>)
    ensures r.Failure? <==> !allowOverBudget && Exhausted(observed, maxEvalAttempts) != {}
    ensures r.Failure? ==> r.error == Exhausted(observed, maxEvalAttempts)
    ensures r.Success? ==>
              && SoundRows(observed, r.value)
              && exists chosen :: TasksFit(observed, maxRounds, maxEvalAttempts, earlier, r.value, chosen)
  {
    var issues := CheckIdentities(observed, earlier);
    issues := FlagConflicts(observed, issues);
    assert forall task :: task in issues <==> Blamed(observed, earlier, task);
    hide Blamed, Identified, Conflict, EvalAttempts, Chosen;
    var exhausted := Exhausted(observed, maxEvalAttempts);
    if exhausted != {} && !allowOverBudget {
      return Failure(exhausted);
    }
    var chosen := seq(|observed|, i requires 0 <= i < |observed| => observed[i].round <= maxRounds);
    if exhausted != {} {
      var rejected;
      chosen, rejected := AcceptWithinBudget(
        CountedOf(observed), RoundsOf(observed), exhausted, maxEvalAttempts, maxRounds);
    } else {
      ChosenByRound(observed, chosen, maxEvalAttempts, maxRounds);
    }
    var rows := BuildRows(
      observed, Select(observed, chosen), RejectedTasks(observed, chosen, exhausted), issues, earlier);
    assert TasksFit(observed, maxRounds, maxEvalAttempts, earlier, rows, chosen);
    return Success(rows);
  }

  ghost predicate HasRow(rows: seq<TaskRow>, task: Task) {
    exists row :: row in rows && row.task == task
  }

  ghost predicate SoundRows(observed: seq<Attempt>, rows: seq<TaskRow>) {
    forall row :: row in rows ==> SoundRow(observed, row)
  }

  lemma OneMoreRow(observed: seq<Attempt>, rows: seq<TaskRow>, row: TaskRow)
    requires SoundRows(observed, rows) && SoundRow(observed, row)
    ensures SoundRows(observed, rows + [row]) && HasRow(rows + [row], row.task)
    ensures forall task :: HasRow(rows, task) ==> HasRow(rows + [row], task)
  {
    hide SoundRow;
    assert row in rows + [row];
    assert forall other :: other in rows ==> other in rows + [row];
  }

  lemma FinalIsObserved(observed: seq<Attempt>, accepted: seq<Attempt>, final: map<Task, Attempt>, task: Task)
    requires (forall a :: a in accepted ==> a in observed) && Finals(accepted, final) && task in final
    ensures final[task] in observed && final[task].row.task == task && IsFinal(accepted, task, final[task])
  {
    assert IsFinal(accepted, task, final[task]);
  }

  lemma OneMoreRowFits(
    observed: seq<Attempt>, accepted: seq<Attempt>, overBudget: set<Task>, earlier: Issues, rows: seq<TaskRow>,
    row: TaskRow)
    requires forall other :: other in rows ==> RowFits(observed, accepted, overBudget, earlier, other)
    requires RowFits(observed, accepted, overBudget, earlier, row)
    requires (forall i, j :: 0 <= i < j < |rows| ==> rows[i].task != rows[j].task) && !HasRow(rows, row.task)
    ensures forall other :: other in rows + [row] ==> RowFits(observed, accepted, overBudget, earlier, other)
    ensures forall i, j :: 0 <= i < j < |rows + [row]| ==> (rows + [row])[i].task != (rows + [row])[j].task
    ensures forall task :: HasRow(rows + [row], task) <==> HasRow(rows, task) || task == row.task
  {
    hide RowFits;
    var longer := rows + [row];
    assert row in longer;
    assert forall other :: other in rows ==> other in longer;
    forall i, j | 0 <= i < j < |longer| ensures longer[i].task != longer[j].task {
      if j == |rows| {
        assert rows[i] in rows;
      }
    }
  }

  /** The rows of the tasks in `done` are there. */
  ghost predicate Building(
    observed: seq<Attempt>, accepted: seq<Attempt>, overBudget: set<Task>, earlier: Issues, done: set<Task>,
    rows: seq<TaskRow>)
  {
    && SoundRows(observed, rows)
    && (forall row :: row in rows ==> RowFits(observed, accepted, overBudget, earlier, row))
    && (forall i, j :: 0 <= i < j < |rows| ==> rows[i].task != rows[j].task)
    && forall task :: HasRow(rows, task) <==> task in done
  }

  lemma NothingBuilt(observed: seq<Attempt>, accepted: seq<Attempt>, overBudget: set<Task>, earlier: Issues)
    ensures Building(observed, accepted, overBudget, earlier, {}, [])
  {
    hide SoundRow, RowFits;
  }

  lemma BuildOne(
    observed: seq<Attempt>, accepted: seq<Attempt>, overBudget: set<Task>, earlier: Issues, done: set<Task>,
    rows: seq<TaskRow>, issues: Issues, final: Attempt)
    requires Building(observed, accepted, overBudget, earlier, done, rows)
    requires final in observed && final.row.task !in done && IsFinal(accepted, final.row.task, final)
    requires final.row.task in issues <==> Blamed(observed, earlier, final.row.task)
    ensures var task := final.row.task;
            Building(
              observed, accepted, overBudget, earlier, done + {task},
              rows + [TaskRecord(final, EvalAttempts(accepted, task), task in overBudget, issues)])
  {
    var task := final.row.task;
    assert !Identified(observed, task, observed) || Conflict(observed, task) ==> task in issues;
    hide *;
    RecordIsSound(observed, final, EvalAttempts(accepted, task), task in overBudget, issues);
    RecordFits(observed, accepted, overBudget, earlier, issues, final);
    var row := TaskRecord(final, EvalAttempts(accepted, task), task in overBudget, issues);
    AddRow(observed, accepted, overBudget, earlier, done, rows, row);
  }

  lemma AddRow(
    observed: seq<Attempt>, accepted: seq<Attempt>, overBudget: set<Task>, earlier: Issues, done: set<Task>,
    rows: seq<TaskRow>, row: TaskRow)
    requires Building(observed, accepted, overBudget, earlier, done, rows) && row.task !in done
    requires SoundRow(observed, row) && RowFits(observed, accepted, overBudget, earlier, row)
    ensures Building(observed, accepted, overBudget, earlier, done + {row.task}, rows + [row])
  {
    hide RowFits, SoundRow, HasRow;
    OneMoreRow(observed, rows, row);
    OneMoreRowFits(observed, accepted, overBudget, earlier, rows, row);
  }

  method BuildRows(
    observed: seq<Attempt>, accepted: seq<Attempt>, overBudget: set<Task>, issues: Issues, earlier: Issues)
    returns (rows: seq<TaskRow>)
    requires forall a :: a in accepted ==> a in observed
    requires forall task :: task in issues <==> Blamed(observed, earlier, task)
    ensures SoundRows(observed, rows)
    ensures RowsFit(observed, accepted, overBudget, earlier, rows)
  {
    var final := FinalByTask(accepted);
    var left := final.Keys;
    rows := [];
    NothingBuilt(observed, accepted, overBudget, earlier);
    hide *;
    assert final.Keys - left == {};
    while left != {}
      invariant left <= final.Keys && Building(observed, accepted, overBudget, earlier, final.Keys - left, rows)
    {
      var task :| task in left;
      FinalIsObserved(observed, accepted, final, task);
      BuildOne(observed, accepted, overBudget, earlier, final.Keys - left, rows, issues, final[task]);
      rows := rows + [TaskRecord(final[task], EvalAttempts(accepted, task), task in overBudget, issues)];
      assert final.Keys - (left - {task}) == final.Keys - left + {task};
      left := left - {task};
    }
    assert final.Keys - left == final.Keys;
    AllRowsFit(observed, accepted, overBudget, earlier, final, rows);
  }

  lemma AllRowsFit(
    observed: seq<Attempt>, accepted: seq<Attempt>, overBudget: set<Task>, earlier: Issues,
    final: map<Task, Attempt>, rows: seq<TaskRow>)
    requires Finals(accepted, final) && Building(observed, accepted, overBudget, earlier, final.Keys, rows)
    ensures SoundRows(observed, rows) && RowsFit(observed, accepted, overBudget, earlier, rows)
  {
    hide SoundRows, RowFits, HasRow, IsFinal, HasAttempt;
  }

  // ---- What a verdict means ----

  lemma OnePatch(observed: seq<Attempt>, a: Attempt, b: Attempt)
    requires Identified(observed, a.row.task, observed) && a in observed && b in observed
    requires a.row.task == b.row.task && Substantial(a.row) && Substantial(b.row)
    ensures Patch(a.row) == Patch(b.row) != ""
  {
    assert InOrder(a, observed) && InOrder(b, observed);
    hide Substantial, Patch, Reasons, Recovered;
    var said := Said(observed, a.row.task, OfPatch);
    assert Fact(a, OfPatch).value in said && Fact(b, OfPatch).value in said;
  }

  lemma OneCandidate(observed: seq<Attempt>, a: Attempt, b: Attempt)
    requires Identified(observed, a.row.task, observed) && a in observed && b in observed
    requires a.row.task == b.row.task && EvalSuccess(a.row) && EvalSuccess(b.row)
    ensures CandidateOf(a) == CandidateOf(b)
  {
    SuccessIsIdentified(a.row);
    SuccessIsIdentified(b.row);
    assert Reasons(a) == [] && Reasons(b) == [];
    OnePatch(observed, a, b);
    assert Agree(observed, a.row.task, OfProjection);
    hide Substantial, Patch, Reasons, Projection, Identified, EvalSuccess;
    var said := Said(observed, a.row.task, OfProjection);
    assert Fact(a, OfProjection).value in said && Fact(b, OfProjection).value in said;
  }

  lemma OneVerdict(observed: seq<Attempt>, a: Attempt, b: Attempt)
    requires Identified(observed, a.row.task, observed) && !Conflict(observed, a.row.task)
    requires a in observed && b in observed
    requires a.row.task == b.row.task && EvalSuccess(a.row) && EvalSuccess(b.row)
    ensures Resolved(a.row) == Resolved(b.row)
  {
    SuccessIsIdentified(a.row);
    SuccessIsIdentified(b.row);
    OneCandidate(observed, a, b);
    var c := CandidateOf(a);
    assert c.task == a.row.task;
    assert Judges(a, c, Resolved(a.row).value) && Judges(b, c, Resolved(b.row).value);
    assert Judged(observed, c, Resolved(a.row).value) && Judged(observed, c, Resolved(b.row).value);
  }

  /** A row that keeps its verdict speaks for all substantial attempts of its task: they name one
    * source patch, and every successful evaluation among them came to this verdict. */
  lemma VerdictIsUnanimous(observed: seq<Attempt>, row: TaskRow, a: Attempt, b: Attempt)
    requires SoundRow(observed, row) && row.evalSuccess
    requires a in observed && a.row.task == row.task && b in observed && b.row.task == row.task
    ensures Substantial(a.row) && Substantial(b.row) ==> Patch(a.row) == Patch(b.row) != ""
    ensures EvalSuccess(a.row) ==> Resolved(a.row) == row.resolved
  {
    if Substantial(a.row) && Substantial(b.row) {
      OnePatch(observed, a, b);
    }
    var final :| final in observed && final.row.task == row.task && EvalSuccess(final.row)
                 && row.resolved == Resolved(final.row);
    if EvalSuccess(a.row) {
      OneVerdict(observed, a, final);
    }
  }

  /** Two reports over the same rows, in whatever order and however numbered, that both keep a
    * verdict for a task keep the same verdict. */
  lemma OrderDoesNotMatter(first: seq<Attempt>, second: seq<Attempt>, one: TaskRow, two: TaskRow)
    requires forall a :: a in first ==> exists b :: b in second && b.row == a.row
    requires SoundRow(first, one) && one.evalSuccess && SoundRow(second, two) && two.evalSuccess
    requires one.task == two.task
    ensures one.resolved == two.resolved
  {
    hide Identified, Conflict, EvalSuccess;
    var final :| final in first && final.row.task == one.task && EvalSuccess(final.row)
                 && one.resolved == Resolved(final.row);
    var same :| same in second && same.row == final.row;
    VerdictIsUnanimous(second, two, same, same);
  }

  /** The report rows are the census over the rows of the tasks, or these rows when nothing is expected. */
  ghost predicate Assembled(
    tasks: seq<TaskRow>, expected: seq<int>, indexIssues: FactCensus.IndexIssues, globalIssues: seq<string>,
    rows: seq<TaskRow>)
  {
    var global :=
      if FactCensus.HasUnexpected(tasks, expected) && "unexpected_task_index" !in globalIssues
      then globalIssues + ["unexpected_task_index"] else globalIssues;
    if expected == [] then rows == tasks
    else
      && |rows| == |expected|
      && forall k :: 0 <= k < |expected| ==>
           FactCensus.RightRow(tasks, expected[k], FactCensus.ReasonsAgainst(expected[k], indexIssues, global), rows[k])
  }

  ghost predicate ReportFits(
    observed: seq<Attempt>, maxRounds: nat, budget: nat, earlier: Issues, expected: seq<int>,
    indexIssues: FactCensus.IndexIssues, globalIssues: seq<string>, rows: seq<TaskRow>)
  {
    exists tasks, chosen ::
      && TasksFit(observed, maxRounds, budget, earlier, tasks, chosen)
      && Assembled(tasks, expected, indexIssues, globalIssues, rows)
  }

  /** The whole report. With a census its consumer can object only to pending rows or to
    * an incomplete clean run, and every row that keeps a verdict rests on all observed attempts. */
  method BuildReport(
    observed: seq<Attempt>, maxRounds: nat, maxEvalAttempts: nat, allowOverBudget: bool, earlier: Issues,
    expected: seq<int>, indexIssues: FactCensus.IndexIssues, globalIssues: seq<string>, names: int -> string)
    returns (r: Result<FactCensus.Report, set<Task>>)
    ensures r.Failure? <==> !allowOverBudget && Exhausted(observed, maxEvalAttempts) != {}
    ensures r.Success? ==>
              ReportFits(
                observed, maxRounds, maxEvalAttempts, earlier, expected, indexIssues, globalIssues, r.value.tasks)
    ensures r.Success? ==>
              && r.value.expected == expected
              && (expected != [] ==> FactCensus.Censused(r.value.tasks, expected))
              && r.value.counts == FactCensus.CountsOf(r.value.tasks)
              && forall row :: row in r.value.tasks && row.evalSuccess ==> Trustworthy(observed, row)
    ensures r.Success? && expected != [] ==>
              forall reason :: reason in FactCensus.ValidateFactReport(r.value, expected) ==>
                reason in {"fact_report_has_pending_tasks", "fact_report_clean_completion_conflict"}
  {
    var tasks :- BuildTasks(observed, maxRounds, maxEvalAttempts, allowOverBudget, earlier);
    hide Exhausted, TasksFit, SoundRows, FactCensus.RightRow, FactCensus.HasUnexpected;
    ghost var chosen :| TasksFit(observed, maxRounds, maxEvalAttempts, earlier, tasks, chosen);
    var rows, global := FactCensus.ApplyExpectedCensus(tasks, expected, indexIssues, globalIssues, names);
    var counts := FactCensus.Tally(rows);
    var report := FactCensus.Report(expected, counts, rows);
    assert Assembled(tasks, expected, indexIssues, globalIssues, rows);
    if expected == [] {
      SoundIsTrustworthy(observed, rows);
      return Success(report);
    }
    CensusIsTrustworthy(observed, tasks, expected, indexIssues, global, rows);
    hide *;
    forall reason | reason in FactCensus.ValidateFactReport(report, expected)
      ensures reason in {"fact_report_has_pending_tasks", "fact_report_clean_completion_conflict"}
    {
      FactCensus.BuiltReportIsAccepted(rows, expected, reason);
    }
    return Success(report);
  }

  lemma SoundIsTrustworthy(observed: seq<Attempt>, rows: seq<TaskRow>)
    requires SoundRows(observed, rows)
    ensures forall row :: row in rows && row.evalSuccess ==> Trustworthy(observed, row)
  {
    hide Trustworthy;
  }

  lemma CensusIsTrustworthy(
    observed: seq<Attempt>, tasks: seq<TaskRow>, expected: seq<int>, indexIssues: FactCensus.IndexIssues,
    global: seq<string>, rows: seq<TaskRow>)
    requires SoundRows(observed, tasks) && |rows| == |expected|
    requires forall k :: 0 <= k < |expected| ==>
              FactCensus.RightRow(
                tasks, expected[k], FactCensus.ReasonsAgainst(expected[k], indexIssues, global), rows[k])
    ensures FactCensus.Censused(rows, expected)
    ensures forall row :: row in rows && row.evalSuccess ==> Trustworthy(observed, row)
  {
    hide Trustworthy, FactCensus.RightRow;
    var reasons := seq(|expected|, k requires 0 <= k < |expected| =>
      FactCensus.ReasonsAgainst(expected[k], indexIssues, global));
    FactCensus.CensusKeepsVerdicts(tasks, expected, reasons, rows);
    forall k | 0 <= k < |rows| && rows[k].evalSuccess ensures Trustworthy(observed, rows[k]) {
      assert rows[k] in FactCensus.At(tasks, expected[k]);
      assert SoundRow(observed, rows[k]);
    }
  }
}
