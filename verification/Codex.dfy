/** Codex session discovery: fold an append-only index into a map, then demand a unique match. */
module Codex {
  import opened Base
  import opened State
  import Phases

  // ---- the lexicographic order of freshness keys ----

  predicate LexLeq(a: string, b: string)
  {
    a == "" || (b != "" && (a[0] < b[0] || (a[0] == b[0] && LexLeq(a[1..], b[1..]))))
  }

  lemma {:induction false} LexTotal(a: string, b: string)
    ensures LexLeq(a, b) || LexLeq(b, a)
    ensures LexLeq(a, b) && LexLeq(b, a) ==> a == b
    ensures LexLeq(a, a)
  {
    if a != "" {
      LexTotal(a[1..], a[1..]);
    }
    if a != "" && b != "" && a[0] == b[0] {
      LexTotal(a[1..], b[1..]);
      assert a == [a[0]] + a[1..] && b == [b[0]] + b[1..];
    }
  }

  lemma {:induction false} LexTransitive(a: string, b: string, c: string)
    requires LexLeq(a, b) && LexLeq(b, c)
    ensures LexLeq(a, c)
  {
    if a != "" && b != "" && c != "" && a[0] == b[0] && b[0] == c[0] {
      LexTransitive(a[1..], b[1..], c[1..]);
    }
  }

  /** At index k the strings first differ, and a has the smaller character. */
  predicate FirstSmaller(a: string, b: string, k: nat)
  {
    k < |a| && k < |b| && a[k] < b[k] && forall i :: 0 <= i < k ==> a[i] == b[i]
  }

  /** The order is the lexicographic one: a prefix, or smaller at the first difference. */
  lemma {:induction false} LexExact(a: string, b: string)
    ensures LexLeq(a, b) <==> a <= b || exists k: nat :: FirstSmaller(a, b, k)
  {
    if a == "" || b == "" {
    } else if a[0] != b[0] {
      if LexLeq(a, b) {
        assert FirstSmaller(a, b, 0);
      }
    } else {
      var c, d := a[1..], b[1..];
      LexExact(c, d);
      assert a == [a[0]] + c && b == [b[0]] + d;
      if k: nat :| FirstSmaller(c, d, k) {
        assert FirstSmaller(a, b, k + 1);
      }
      if k: nat :| FirstSmaller(a, b, k) {
        assert FirstSmaller(c, d, k - 1);
      }
    }
  }

  // ---- the index ----

  datatype Row = Row(id: string, threadName: string, updatedAt: string)

  datatype Line = Blank | Listed(row: Row) | Malformed

  /** What is looked for: a thread name in a workspace, given the directory each session was started in. */
  datatype Query = Query(threadName: string, workspaceRoot: string, cwdOf: string -> Option<string>)

  predicate Parses(lines: seq<Line>)
  {
    forall k :: 0 <= k < |lines| ==> !lines[k].Malformed?
  }

  predicate RowOf(lines: seq<Line>, k: nat, id: string)
  {
    k < |lines| && lines[k].Listed? && lines[k].row.id == id
  }

  /** Row k is the session's row with the greatest freshness key, the first of those that tie. */
  ghost predicate IsLatest(lines: seq<Line>, k: nat, id: string)
  {
    && RowOf(lines, k, id)
    && forall j: nat :: RowOf(lines, j, id)
         ==> Yields(lines[j].row, lines[k].row) && (j < k ==> Older(lines[j].row, lines[k].row))
  }

  predicate Yields(r: Row, s: Row)
  {
    LexLeq(r.updatedAt, s.updatedAt)
  }

  predicate Older(r: Row, s: Row)
  {
    Yields(r, s) && r.updatedAt != s.updatedAt
  }

  predicate Eligible(q: Query, r: Row)
  {
    r.threadName == q.threadName && q.cwdOf(r.id) == Some(q.workspaceRoot)
  }

  /** Row k is the session's latest, and it has the name, and the session was started in the workspace. */
  ghost predicate MatchesAt(lines: seq<Line>, q: Query, id: string, k: nat)
  {
    && IsLatest(lines, k, id)
    && lines[k].row.threadName == q.threadName && q.cwdOf(id) == Some(q.workspaceRoot)
  }

  ghost predicate Matches(lines: seq<Line>, q: Query, id: string)
  {
    exists k: nat :: MatchesAt(lines, q, id, k)
  }

  /** The session a name stands for: the only one whose latest row matches. */
  ghost predicate Denotes(lines: seq<Line>, q: Query, id: string)
  {
    && Parses(lines) && Matches(lines, q, id)
    && forall other :: Matches(lines, q, other) ==> other == id
  }

  // ---- facts about latest rows ----

  lemma LatestUnique(lines: seq<Line>, j: nat, k: nat, id: string)
    requires IsLatest(lines, j, id) && IsLatest(lines, k, id)
    ensures j == k
  {
    LexTotal(lines[j].row.updatedAt, lines[k].row.updatedAt);
  }

  // ---- discovery ----

  ghost predicate Holds(latest: map<string, Row>, lines: seq<Line>, n: nat, id: string)
    requires n <= |lines|
  {
    if id in latest then
      exists k: nat :: IsLatest(lines[..n], k, id) && lines[k].row == latest[id]
    else
      forall k: nat :: !RowOf(lines[..n], k, id)
  }

  /** The map keeps the latest row of every session among the first n lines. */
  ghost predicate Folded(latest: map<string, Row>, lines: seq<Line>, n: nat)
    requires n <= |lines|
  {
    forall id :: Holds(latest, lines, n, id)
  }

  /** One more line: its row replaces the kept one exactly when it is strictly fresher. */
  lemma FoldStep(latest: map<string, Row>, lines: seq<Line>, n: nat, latest': map<string, Row>)
    requires n < |lines| && Folded(latest, lines, n) && !lines[n].Malformed?
    requires latest' ==
             if lines[n].Blank? then latest
             else
               var row := lines[n].row;
               if row.id in latest && LexLeq(row.updatedAt, latest[row.id].updatedAt) then latest
               else latest[row.id := row]
    ensures Folded(latest', lines, n + 1)
  {
    var m := n + 1;
    forall id ensures Holds(latest', lines, m, id) {
      assert Holds(latest, lines, n, id);
      FoldStepFor(latest, lines, n, latest', id);
    }
  }

  lemma FoldStepFor(latest: map<string, Row>, lines: seq<Line>, n: nat, latest': map<string, Row>, id: string)
    requires n < |lines| && Holds(latest, lines, n, id) && !lines[n].Malformed?
    requires latest' ==
             if lines[n].Blank? then latest
             else
               var row := lines[n].row;
               if row.id in latest && LexLeq(row.updatedAt, latest[row.id].updatedAt) then latest
               else latest[row.id := row]
    ensures Holds(latest', lines, n + 1, id)
  {
    var before, after := lines[..n], lines[..n + 1];
    assert forall k: nat :: k < n ==> before[k] == after[k];
    assert forall k: nat :: RowOf(after, k, id) <==> RowOf(before, k, id) || (k == n && RowOf(after, n, id));
    if id in latest {
      var k: nat :| IsLatest(before, k, id) && lines[k].row == latest[id];
      if !RowOf(after, n, id) {
        assert IsLatest(after, k, id);
      } else {
        LexTotal(lines[n].row.updatedAt, latest[id].updatedAt);
        if LexLeq(lines[n].row.updatedAt, latest[id].updatedAt) {
          assert IsLatest(after, k, id);
        } else {
          NewestIsLatest(lines, n, k, id);
        }
      }
    } else if RowOf(after, n, id) {
      LexTotal(lines[n].row.updatedAt, lines[n].row.updatedAt);
      assert IsLatest(after, n, id);
    }
  }

  lemma NewestIsLatest(lines: seq<Line>, n: nat, k: nat, id: string)
    requires n < |lines| && IsLatest(lines[..n], k, id) && RowOf(lines, n, id)
    requires Older(lines[k].row, lines[n].row)
    ensures IsLatest(lines[..n + 1], n, id)
  {
    var after := lines[..n + 1];
    LexTotal(lines[n].row.updatedAt, lines[n].row.updatedAt);
    forall j: nat | RowOf(after, j, id) && j < n ensures Older(after[j].row, after[n].row) {
      assert RowOf(lines[..n], j, id);
      LexTransitive(lines[j].row.updatedAt, lines[k].row.updatedAt, lines[n].row.updatedAt);
      LexTotal(lines[k].row.updatedAt, lines[n].row.updatedAt);
    }
  }

  /** Every listed session has a latest row. */
  lemma {:induction false} LatestExists(lines: seq<Line>, j: nat, id: string) returns (k: nat)
    requires RowOf(lines, j, id)
    ensures IsLatest(lines, k, id)
  {
    var last := |lines| - 1;
    var before := lines[..last];
    assert lines == lines[..last + 1];
    assert forall i: nat :: RowOf(lines, i, id) && i < last ==> RowOf(before, i, id);
    if i: nat :| RowOf(before, i, id) {
      k := LatestExists(before, i, id);
      if RowOf(lines, last, id) {
        LexTotal(lines[last].row.updatedAt, lines[k].row.updatedAt);
        if !LexLeq(lines[last].row.updatedAt, lines[k].row.updatedAt) {
          NewestIsLatest(lines, last, k, id);
          k := last;
        }
      }
    } else {
      assert j == last;
      LexTotal(lines[last].row.updatedAt, lines[last].row.updatedAt);
      k := last;
    }
  }

  /** The kept rows that match are exactly the matching sessions. */
  lemma FoldedMatches(latest: map<string, Row>, lines: seq<Line>, q: Query, id: string)
    requires Folded(latest, lines, |lines|)
    ensures Matches(lines, q, id) <==> id in latest && Eligible(q, latest[id])
  {
    assert lines[..|lines|] == lines;
    assert Holds(latest, lines, |lines|, id);
    if id in latest {
      var k: nat :| IsLatest(lines, k, id) && lines[k].row == latest[id];
      assert Eligible(q, latest[id]) ==> MatchesAt(lines, q, id, k);
      if Matches(lines, q, id) {
        var j: nat :| MatchesAt(lines, q, id, j);
        LatestUnique(lines, j, k, id);
      }
    }
  }

  /** Keep the latest row of every session; the first malformed line fails the whole index. */
  method ReadIndex(lines: seq<Line>) returns (latest: Option<map<string, Row>>)
    ensures latest.Some? <==> Parses(lines)
    ensures latest.Some? ==> Folded(latest.value, lines, |lines|)
  {
    var kept: map<string, Row> := map[];
    var n := 0;
    while n < |lines|
      invariant n <= |lines|
      invariant forall k :: 0 <= k < n ==> !lines[k].Malformed?
      invariant Folded(kept, lines, n)
    {
      ghost var before := kept;
      match lines[n] {
        case Blank =>
        case Malformed => return None;
        case Listed(row) =>
          if !(row.id in kept && LexLeq(row.updatedAt, kept[row.id].updatedAt)) {
            kept := kept[row.id := row];
          }
      }
      FoldStep(before, lines, n, kept);
      n := n + 1;
    }
    return Some(kept);
  }

  /**
   * Discovery by thread name. The rows are visited in an arbitrary order; the answer is the session
   * that the name denotes, and an unreadable or malformed index, no match and several matches all
   * fail the binding.
   */
  method Discover(index: Option<seq<Line>>, q: Query) returns (r: Result<string>)
    ensures forall id :: r == Ok(id) <==> index.Some? && Denotes(index.value, q, id)
    ensures r.Err? ==> r.error == SessionBindFailed
  {
    if index.None? {
      return Err(SessionBindFailed);
    }
    var kept := ReadIndex(index.value);
    if kept.None? {
      return Err(SessionBindFailed);
    }
    var latest := kept.value;
    var pending := latest.Keys;
    var rows: seq<string> := [];
    while pending != {}
      invariant pending <= latest.Keys
      invariant forall id :: id in rows <==> id in latest && id !in pending && Eligible(q, latest[id])
      invariant forall i, j :: 0 <= i < j < |rows| ==> rows[i] != rows[j]
      decreases |pending|
    {
      var id :| id in pending;
      if Eligible(q, latest[id]) {
        rows := rows + [id];
      }
      pending := pending - {id};
    }
    forall id ensures Matches(index.value, q, id) <==> id in rows {
      FoldedMatches(latest, index.value, q, id);
    }
    if |rows| != 1 {
      if |rows| > 1 {
        assert rows[0] in rows && rows[1] in rows && rows[0] != rows[1];
      }
      return Err(SessionBindFailed);
    }
    assert rows[0] in rows;
    return Ok(rows[0]);
  }

  // ---- what follows for the sessions that get bound ----

  /** Two results that meet the contract of discovery are equal: the order of iteration cannot show. */
  lemma DiscoveryDetermined(index: Option<seq<Line>>, q: Query, r: Result<string>, s: Result<string>)
    requires forall id :: r == Ok(id) <==> index.Some? && Denotes(index.value, q, id)
    requires forall id :: s == Ok(id) <==> index.Some? && Denotes(index.value, q, id)
    requires r.Err? ==> r.error == SessionBindFailed
    requires s.Err? ==> s.error == SessionBindFailed
    ensures r == s
  {
    if r.Ok? {
      assert index.Some? && Denotes(index.value, q, r.value);
    } else if s.Ok? {
      assert index.Some? && Denotes(index.value, q, s.value);
    }
  }

  function Insert(lines: seq<Line>, at: nat, row: Row): seq<Line>
    requires at <= |lines|
  {
    lines[..at] + [Listed(row)] + lines[at..]
  }

  /** Where a line of the old index stands in the new one. */
  function Shift(at: nat, k: nat): nat
  {
    if k < at then k else k + 1
  }

  lemma InsertRows(lines: seq<Line>, at: nat, row: Row, id: string, k: nat)
    requires at <= |lines|
    ensures RowOf(lines, k, id) <==> RowOf(Insert(lines, at, row), Shift(at, k), id)
    ensures k < |lines| ==> Insert(lines, at, row)[Shift(at, k)] == lines[k]
    ensures k <= |lines| && k != at ==> Insert(lines, at, row)[k] == lines[if k < at then k else k - 1]
  {
  }

  lemma InsertLatest(lines: seq<Line>, at: nat, row: Row, id: string, m: nat, k: nat)
    requires at <= |lines| && IsLatest(lines, m, row.id) && Older(row, lines[m].row)
    ensures IsLatest(lines, k, id) ==> IsLatest(Insert(lines, at, row), Shift(at, k), id)
  {
    if IsLatest(lines, k, id) {
      var longer := Insert(lines, at, row);
      InsertRows(lines, at, row, id, k);
      if id == row.id {
        LatestUnique(lines, m, k, id);
      }
      forall j: nat | RowOf(longer, j, id)
        ensures Yields(longer[j].row, longer[Shift(at, k)].row)
        ensures j < Shift(at, k) ==> Older(longer[j].row, longer[Shift(at, k)].row)
      {
        if j != at {
          var i := if j < at then j else j - 1;
          InsertRows(lines, at, row, id, i);
          assert RowOf(lines, i, id);
        }
      }
    }
  }

  lemma InsertLatestBack(lines: seq<Line>, at: nat, row: Row, id: string, m: nat, k: nat) returns (j: nat)
    requires at <= |lines| && IsLatest(lines, m, row.id) && Older(row, lines[m].row)
    requires IsLatest(Insert(lines, at, row), k, id)
    ensures k == Shift(at, j) && IsLatest(lines, j, id)
  {
    var longer := Insert(lines, at, row);
    InsertLatest(lines, at, row, row.id, m, m);
    if k == at {
      LatestUnique(longer, k, Shift(at, m), id);
      assert false;
    }
    j := if k < at then k else k - 1;
    InsertRows(lines, at, row, id, j);
    forall i: nat | RowOf(lines, i, id)
      ensures Yields(lines[i].row, lines[j].row) && (i < j ==> Older(lines[i].row, lines[j].row))
    {
      InsertRows(lines, at, row, id, i);
      assert RowOf(longer, Shift(at, i), id);
    }
  }

  /** A row strictly older than the latest one of its session, inserted anywhere, changes no answer. */
  lemma OlderRowIgnored(lines: seq<Line>, at: nat, row: Row, m: nat, q: Query, id: string)
    requires at <= |lines| && IsLatest(lines, m, row.id) && Older(row, lines[m].row)
    ensures Denotes(Insert(lines, at, row), q, id) <==> Denotes(lines, q, id)
  {
    var longer := Insert(lines, at, row);
    forall other ensures Matches(longer, q, other) <==> Matches(lines, q, other) {
      InsertKeepsMatches(lines, at, row, m, q, other);
    }
    InsertParses(lines, at, row);
  }

  lemma InsertKeepsMatches(lines: seq<Line>, at: nat, row: Row, m: nat, q: Query, id: string)
    requires at <= |lines| && IsLatest(lines, m, row.id) && Older(row, lines[m].row)
    ensures Matches(Insert(lines, at, row), q, id) <==> Matches(lines, q, id)
  {
    var longer := Insert(lines, at, row);
    if Matches(lines, q, id) {
      var k: nat :| MatchesAt(lines, q, id, k);
      InsertLatest(lines, at, row, id, m, k);
      InsertRows(lines, at, row, id, k);
      assert MatchesAt(longer, q, id, Shift(at, k));
    }
    if Matches(longer, q, id) {
      var k: nat :| MatchesAt(longer, q, id, k);
      var j := InsertLatestBack(lines, at, row, id, m, k);
      InsertRows(lines, at, row, id, j);
      assert MatchesAt(lines, q, id, j);
    }
  }

  lemma InsertParses(lines: seq<Line>, at: nat, row: Row)
    requires at <= |lines|
    ensures Parses(Insert(lines, at, row)) <==> Parses(lines)
  {
    var longer := Insert(lines, at, row);
    forall k: nat | 0 <= k < |lines| ensures longer[Shift(at, k)] == lines[k] {
    }
    if Parses(longer) {
      forall k | 0 <= k < |lines| ensures !lines[k].Malformed? {
        assert longer[Shift(at, k)] == lines[k];
      }
    }
  }

  /** Over one index, one session never answers to two names. */
  lemma DistinctNames(lines: seq<Line>, q: Query, r: Query, id: string)
    requires Denotes(lines, q, id) && Denotes(lines, r, id)
    ensures q.threadName == r.threadName
  {
    var j: nat :| MatchesAt(lines, q, id, j);
    var k: nat :| MatchesAt(lines, r, id, k);
    LatestUnique(lines, j, k, id);
  }

  /** Hence two Codex roles with distinct thread names bind, whenever both names are found. */
  lemma DistinctNamesBind(lines: seq<Line>, q: Query, r: Query, c: Phases.Ctx, w: Phases.World, x: string, y: string)
    requires Denotes(lines, q, x) && Denotes(lines, r, y) && q.threadName != r.threadName
    ensures Phases.DoSessionBind(c, w, Phases.Found(x), Phases.Found(y)).error == None
    ensures Phases.DoSessionBind(c, w, Phases.Found(x), Phases.Found(y)).ctx.runState == ExecutorDispatch
  {
    if x == y {
      DistinctNames(lines, q, r, x);
    }
  }
}
