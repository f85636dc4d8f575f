/** Applies and clears whose transactions overlap. Each begins by deleting the rows committed by then,
    and shows its own row only when it commits. */
module ChaosOverlap {
  import opened Wrappers
  import opened ChaosLifecycle

  /** A transaction under way: the rows it has deleted, and the scenario it applies, if it is no clear. */
  datatype Transaction = Transaction(seen: set<nat>, applies: Option<Scenario>)

  /** What is remembered of a transaction: when it began, when it committed, what it applied. */
  datatype Past = Past(began: nat, committed: Option<nat>, applies: Option<Scenario>)

  datatype State = State(rows: seq<Row>, open: map<nat, Transaction>, history: map<nat, Past>, clock: nat)

  datatype Event = Begin(tx: nat, applies: Option<Scenario>) | Commit(tx: nat) | Rollback(tx: nat)

  const START := State([], map[], map[], 0)

  function Ids(rows: seq<Row>): set<nat> {
    set row | row in rows :: row.id
  }

  /** The rows that a deletion of the rows `seen` leaves. */
  function Without(rows: seq<Row>, seen: set<nat>): (r: seq<Row>)
    ensures forall row :: row in r <==> row in rows && row.id !in seen
  {
    if rows == [] then []
    else
      var front, last := Without(rows[..|rows| - 1], seen), rows[|rows| - 1];
      assert rows == rows[..|rows| - 1] + [last];
      if last.id in seen then front else front + [last]
  }

  function OwnRow(tx: nat, applies: Option<Scenario>): seq<Row> {
    if applies.Some? then [RowOf(tx, applies.value)] else []
  }

  /** The state after an event; an event that cannot happen only passes time. */
  function Do(s: State, e: Event): State {
    var t := s.(clock := s.clock + 1);
    match e
    case Begin(tx, applies) =>
      if tx in s.history then t
      else t.(open := s.open[tx := Transaction(Ids(s.rows), applies)],
              history := s.history[tx := Past(s.clock, None, applies)])
    case Commit(tx) =>
      if tx !in s.open || tx !in s.history then t
      else t.(rows := Without(s.rows, s.open[tx].seen) + OwnRow(tx, s.open[tx].applies), open := s.open - {tx},
              history := s.history[tx := s.history[tx].(committed := Some(s.clock))])
    case Rollback(tx) => t.(open := s.open - {tx})
  }

  function Execute(events: seq<Event>): State {
    if events == [] then START else Do(Execute(events[..|events| - 1]), events[|events| - 1])
  }

  // ---------------------------------------------------------------- which rows are left

  /** The transaction was an apply, and it committed. */
  predicate Applied(h: map<nat, Past>, tx: nat) {
    tx in h && h[tx].committed.Some? && h[tx].applies.Some?
  }

  /** No transaction that committed had begun after this one's commit. */
  predicate Untouched(h: map<nat, Past>, tx: nat)
    requires Applied(h, tx)
  {
    forall u :: u in h && h[u].committed.Some? ==> h[u].began < h[tx].committed.value
  }

  predicate Left(h: map<nat, Past>, tx: nat) {
    Applied(h, tx) && Untouched(h, tx)
  }

  /** Each of the two began before the other committed. */
  predicate Overlap(h: map<nat, Past>, a: nat, b: nat)
    requires Applied(h, a) && Applied(h, b)
  {
    h[a].began < h[b].committed.value && h[b].began < h[a].committed.value
  }

  predicate Clocked(s: State) {
    && (forall tx :: tx in s.history ==> s.history[tx].began < s.clock)
    && (forall tx :: tx in s.history && s.history[tx].committed.Some? ==>
          s.history[tx].began < s.history[tx].committed.value < s.clock)
  }

  predicate Distinct(rows: seq<Row>) {
    forall i, j :: 0 <= i < j < |rows| ==> rows[i].id != rows[j].id
  }

  ghost predicate RowsRight(s: State) {
    && Distinct(s.rows)
    && (forall row :: row in s.rows ==>
          Left(s.history, row.id) && row == RowOf(row.id, s.history[row.id].applies.value))
    && (forall tx :: Left(s.history, tx) ==> RowOf(tx, s.history[tx].applies.value) in s.rows)
  }

  /** The row was committed before the deletion and is deleted, or after it and is not. */
  predicate Seen(seen: set<nat>, id: nat, committed: nat, began: nat) {
    if id in seen then committed < began else began < committed
  }

  /** A transaction under way has deleted exactly the rows that had been committed when it began. */
  ghost predicate OpenRight(s: State, tx: nat)
    requires tx in s.open
  {
    && tx in s.history && s.history[tx].committed.None? && s.history[tx].applies == s.open[tx].applies
    && (forall id :: id in s.open[tx].seen ==> Applied(s.history, id))
    && (forall row :: row in s.rows && Applied(s.history, row.id) ==>
          Seen(s.open[tx].seen, row.id, s.history[row.id].committed.value, s.history[tx].began))
  }

  ghost predicate AllOpenRight(s: State) {
    forall tx :: tx in s.open ==> OpenRight(s, tx)
  }

  ghost predicate Inv(s: State) {
    Clocked(s) && RowsRight(s) && AllOpenRight(s)
  }

  lemma {:induction false} WithoutDistinct(rows: seq<Row>, seen: set<nat>)
    requires Distinct(rows)
    ensures Distinct(Without(rows, seen))
  {
    if rows != [] {
      var front, last := rows[..|rows| - 1], rows[|rows| - 1];
      WithoutDistinct(front, seen);
      var r := Without(front, seen);
      forall i | 0 <= i < |r|
        ensures r[i].id != last.id
      {
        assert r[i] in front;
      }
    }
  }

  /** A transaction that has not committed touches nothing. */
  lemma LeftWithout(h: map<nat, Past>, tx: nat, past: Past, u: nat)
    requires past.committed.None? && (tx in h ==> h[tx].committed.None?)
    ensures Left(h[tx := past], u) <==> Left(h, u)
  {
    var g := h[tx := past];
    if Left(h, u) {
      assert Untouched(g, u);
    }
    if Left(g, u) {
      forall v | v in h && h[v].committed.Some?
        ensures h[v].began < h[u].committed.value
      {
        assert g[v] == h[v];
      }
    }
  }

  lemma BeginKeepsRows(s: State, tx: nat, applies: Option<Scenario>)
    requires Inv(s) && tx !in s.history
    ensures RowsRight(Do(s, Begin(tx, applies)))
  {
    var t := Do(s, Begin(tx, applies));
    forall u
      ensures Left(t.history, u) <==> Left(s.history, u)
    {
      LeftWithout(s.history, tx, Past(s.clock, None, applies), u);
    }
  }

  /** Rows and transactions that are committed stay as they are. */
  ghost predicate CommittedStays(s: State, t: State) {
    forall id :: id in s.history && s.history[id].committed.Some? ==> id in t.history && t.history[id] == s.history[id]
  }

  /** A transaction under way still has deleted the right rows when the rows it has not seen come later. */
  lemma OpenStays(s: State, t: State, u: nat)
    requires u in s.open && u in t.open && t.open[u] == s.open[u] && OpenRight(s, u)
    requires u in t.history && t.history[u] == s.history[u] && CommittedStays(s, t)
    requires forall row :: row in t.rows && Applied(t.history, row.id) ==>
               (row in s.rows && Applied(s.history, row.id))
               || (row.id !in s.open[u].seen && s.history[u].began < t.history[row.id].committed.value)
    ensures OpenRight(t, u)
  {
  }

  lemma BegunIsRight(s: State, tx: nat, applies: Option<Scenario>)
    requires Inv(s) && tx !in s.history
    ensures OpenRight(Do(s, Begin(tx, applies)), tx)
  {
    assert forall row :: row in s.rows ==> Left(s.history, row.id) && row.id in Ids(s.rows);
  }

  lemma BeginKeeps(s: State, tx: nat, applies: Option<Scenario>)
    requires Inv(s)
    ensures Inv(Do(s, Begin(tx, applies)))
  {
    var t := Do(s, Begin(tx, applies));
    if tx !in s.history {
      BeginKeepsRows(s, tx, applies);
      BegunIsRight(s, tx, applies);
      forall u | u in t.open
        ensures OpenRight(t, u)
      {
        if u != tx { OpenStays(s, t, u); }
      }
    }
  }

  lemma RollbackKeeps(s: State, tx: nat)
    requires Inv(s)
    ensures Inv(Do(s, Rollback(tx)))
  {
  }

  lemma CommittedLeft(s: State, tx: nat)
    requires Inv(s) && tx in s.open
    ensures Left(Do(s, Commit(tx)).history, tx) <==> s.open[tx].applies.Some?
  {
  }

  /** A commit takes away what its transaction had deleted. */
  lemma LeftAfterCommit(s: State, tx: nat, u: nat)
    requires Inv(s) && tx in s.open && u != tx
    ensures Left(Do(s, Commit(tx)).history, u)
       <==> Left(s.history, u) && s.history[tx].began < s.history[u].committed.value
  {
    var h, g := s.history, Do(s, Commit(tx)).history;
    if Left(g, u) {
      assert g[tx].committed.Some? && g[tx].began == h[tx].began;
      forall v | v in h && h[v].committed.Some?
        ensures h[v].began < h[u].committed.value
      {
        assert g[v] == h[v];
      }
    }
  }

  lemma KeptRowIsLeft(s: State, tx: nat, row: Row)
    requires Inv(s) && tx in s.open && row in s.rows && row.id !in s.open[tx].seen
    ensures var t := Do(s, Commit(tx));
            row.id != tx && Left(t.history, row.id) && row == RowOf(row.id, t.history[row.id].applies.value)
  {
    assert OpenRight(s, tx) && Left(s.history, row.id);
    LeftAfterCommit(s, tx, row.id);
  }

  lemma LeftRowIsKept(s: State, tx: nat, u: nat)
    requires Inv(s) && tx in s.open && u != tx && Left(Do(s, Commit(tx)).history, u)
    ensures u in s.history && s.history[u].applies.Some? && u !in s.open[tx].seen
    ensures RowOf(u, s.history[u].applies.value) in s.rows
  {
    assert OpenRight(s, tx);
    LeftAfterCommit(s, tx, u);
  }

  lemma RowsAfterCommit(s: State, tx: nat)
    requires Inv(s) && tx in s.open
    ensures var t := Do(s, Commit(tx));
            && Distinct(t.rows)
            && forall row :: row in t.rows ==>
                 Left(t.history, row.id) && row == RowOf(row.id, t.history[row.id].applies.value)
  {
    var t := Do(s, Commit(tx));
    var kept := Without(s.rows, s.open[tx].seen);
    WithoutDistinct(s.rows, s.open[tx].seen);
    forall row | row in t.rows
      ensures Left(t.history, row.id) && row == RowOf(row.id, t.history[row.id].applies.value)
      ensures row in kept ==> row.id != tx
    {
      if row in kept {
        KeptRowIsLeft(s, tx, row);
      } else {
        CommittedLeft(s, tx);
      }
    }
  }

  lemma RowOfLeft(s: State, tx: nat, u: nat)
    requires Inv(s) && tx in s.open && Left(Do(s, Commit(tx)).history, u)
    ensures RowOf(u, Do(s, Commit(tx)).history[u].applies.value) in Do(s, Commit(tx)).rows
  {
    var kept := Without(s.rows, s.open[tx].seen);
    if u != tx {
      LeftRowIsKept(s, tx, u);
      assert RowOf(u, s.history[u].applies.value) in kept;
    } else {
      assert OpenRight(s, tx);
      assert Do(s, Commit(tx)).rows[|kept|] == RowOf(u, Do(s, Commit(tx)).history[u].applies.value);
    }
  }

  lemma CommitKeepsRows(s: State, tx: nat)
    requires Inv(s) && tx in s.open
    ensures RowsRight(Do(s, Commit(tx)))
  {
    RowsAfterCommit(s, tx);
    forall u | Left(Do(s, Commit(tx)).history, u)
      ensures RowOf(u, Do(s, Commit(tx)).history[u].applies.value) in Do(s, Commit(tx)).rows
    {
      RowOfLeft(s, tx, u);
    }
  }

  lemma CommitKeepsOpen(s: State, t: State, tx: nat, u: nat)
    requires Clocked(s) && RowsRight(s) && tx in s.open && OpenRight(s, tx)
    requires t == Do(s, Commit(tx)) && u in t.open && OpenRight(s, u)
    ensures OpenRight(t, u)
  {
    forall row | row in t.rows && Applied(t.history, row.id)
      ensures (row in s.rows && Applied(s.history, row.id))
              || (row.id !in s.open[u].seen && s.history[u].began < t.history[row.id].committed.value)
    {
      if row in s.rows {
        assert Left(s.history, row.id);
      }
    }
    OpenStays(s, t, u);
  }

  lemma {:induction false} Always(events: seq<Event>)
    ensures Inv(Execute(events))
  {
    if events == [] {
    } else {
      var s := Execute(events[..|events| - 1]);
      Always(events[..|events| - 1]);
      match events[|events| - 1]
      case Begin(tx, applies) => BeginKeeps(s, tx, applies);
      case Rollback(tx) => RollbackKeeps(s, tx);
      case Commit(tx) =>
        if tx in s.open {
          CommitKeepsRows(s, tx);
          forall u | u in Do(s, Commit(tx)).open
            ensures OpenRight(Do(s, Commit(tx)), u)
          {
            assert OpenRight(s, u) && OpenRight(s, tx);
            CommitKeepsOpen(s, Do(s, Commit(tx)), tx, u);
          }
        }
    }
  }

  // ---------------------------------------------------------------- the theorems

  /** In every state of every run the table holds exactly the rows of the committed applies after
      whose commit no transaction began that has committed since, each once and as it was applied. */
  lemma TableExact(events: seq<Event>, tx: nat)
    ensures var s := Execute(events);
            && Distinct(s.rows)
            && ((exists row :: row in s.rows && row.id == tx) <==> Left(s.history, tx))
            && (forall row :: row in s.rows && row.id == tx ==> row == RowOf(tx, s.history[tx].applies.value))
  {
    Always(events);
    var s := Execute(events);
    if Left(s.history, tx) {
      assert RowOf(tx, s.history[tx].applies.value) in s.rows;
    }
  }

  /** Two committed applies, neither deleted since. */
  ghost predicate TwoLeft(h: map<nat, Past>) {
    exists a, b :: a != b && Left(h, a) && Left(h, b)
  }

  lemma TwoRowsLeft(s: State)
    requires RowsRight(s) && |s.rows| > 1
    ensures TwoLeft(s.history)
  {
    var a, b := s.rows[0], s.rows[1];
    assert a in s.rows && b in s.rows && a.id != b.id;
    assert Left(s.history, a.id) && Left(s.history, b.id);
  }

  lemma LeftHaveRows(s: State)
    requires RowsRight(s) && TwoLeft(s.history)
    ensures |s.rows| > 1
  {
    var a, b :| a != b && Left(s.history, a) && Left(s.history, b);
    var x, y := RowOf(a, s.history[a].applies.value), RowOf(b, s.history[b].applies.value);
    assert x in s.rows && y in s.rows && x.id != y.id;
  }

  /** There is more than one row exactly when no transaction that committed had begun after the commit of
      either of two applies, which therefore overlapped. */
  lemma OneRowExact(events: seq<Event>)
    ensures |Execute(events).rows| <= 1 <==> !TwoLeft(Execute(events).history)
    ensures var h := Execute(events).history;
            forall a, b :: Left(h, a) && Left(h, b) ==> Overlap(h, a, b)
  {
    Always(events);
    if |Execute(events).rows| > 1 { TwoRowsLeft(Execute(events)); }
    if TwoLeft(Execute(events).history) { LeftHaveRows(Execute(events)); }
  }

  /** So one row is guaranteed as long as no two applies overlap, whatever clears do. */
  lemma OneRowWithoutOverlap(events: seq<Event>)
    requires forall a, b :: a != b && Applied(Execute(events).history, a) && Applied(Execute(events).history, b) ==>
               !Overlap(Execute(events).history, a, b)
    ensures |Execute(events).rows| <= 1
  {
    OneRowExact(events);
  }

  lemma {:induction false} WithoutAll(rows: seq<Row>, seen: set<nat>)
    requires forall row :: row in rows ==> row.id in seen
    ensures Without(rows, seen) == []
  {
    if rows != [] {
      WithoutAll(rows[..|rows| - 1], seen);
    }
  }

  /** A transaction that nothing overlaps does what the serial history says. */
  lemma SerialTransaction(s: State, tx: nat, applies: Option<Scenario>)
    requires tx !in s.history
    ensures Do(Do(s, Begin(tx, applies)), Commit(tx)).rows
         == Perform(s.rows, if applies.Some? then Apply(tx, applies.value, true) else Clear(true))
  {
    assert forall row :: row in s.rows ==> row.id in Ids(s.rows);
    WithoutAll(s.rows, Ids(s.rows));
  }

  /** Two applies on an empty table, each begun before the other commits. */
  function TwoApplies(a: nat, b: nat, first: Scenario, second: Scenario): seq<Event> {
    [Begin(a, Some(first))] + [Begin(b, Some(second))] + [Commit(a)] + [Commit(b)]
  }

  lemma Extend(events: seq<Event>, e: Event)
    ensures Execute(events + [e]) == Do(Execute(events), e)
  {
    assert (events + [e])[..|events|] == events;
  }

  lemma TwoAppliesLeaveTwoRows(a: nat, b: nat, first: Scenario, second: Scenario)
    requires a != b
    ensures Execute(TwoApplies(a, b, first, second)).rows == [RowOf(a, first), RowOf(b, second)]
  {
    assert Execute([]) == START && [] + [Begin(a, Some(first))] == [Begin(a, Some(first))];
    Extend([], Begin(a, Some(first)));
    Extend([Begin(a, Some(first))], Begin(b, Some(second)));
    Extend([Begin(a, Some(first))] + [Begin(b, Some(second))], Commit(a));
    Extend([Begin(a, Some(first))] + [Begin(b, Some(second))] + [Commit(a)], Commit(b));
    var begun := Execute([Begin(a, Some(first))] + [Begin(b, Some(second))]);
    assert begun.open[a] == Transaction({}, Some(first)) && begun.open[b] == Transaction({}, Some(second));
    var once := Do(begun, Commit(a));
    assert once.rows == [RowOf(a, first)];
    assert Without(once.rows, {}) == once.rows by { WithoutNothing(once.rows); }
  }

  lemma {:induction false} WithoutNothing(rows: seq<Row>)
    ensures Without(rows, {}) == rows
  {
    if rows != [] {
      WithoutNothing(rows[..|rows| - 1]);
    }
  }

  /** After such a run the reader gives the scenario applied later, and once that has expired the one
      it was meant to replace. */
  lemma ReplacedScenarioReturns(c: Conversions, a: nat, b: nat, first: Scenario, second: Scenario, now: real)
    requires a != b && first.appliedAt < second.appliedAt < second.expiresAt <= now < first.expiresAt
    ensures var rows := Execute(TwoApplies(a, b, first, second)).rows;
            && Active(c, rows, true, true, second.appliedAt, second.appliedAt) == Some(second)
            && Active(c, rows, true, true, now, now) == Some(first)
  {
    TwoAppliesLeaveTwoRows(a, b, first, second);
    var rows := [RowOf(a, first), RowOf(b, second)];
    PayloadRoundTrip(c, first, now);
    PayloadRoundTrip(c, second, second.appliedAt);
    assert rows[0] in rows && rows[1] in rows;
    assert Latest(rows, now) == Some(rows[0]);
    assert Latest(rows, second.appliedAt) == Some(rows[1]);
  }
}
