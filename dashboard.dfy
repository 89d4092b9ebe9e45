/**
 * The dashboard step of `main`: the processed table's rows are put in the
 * order High, then Medium, then Low (a fixed rank, not alphabetical order)
 * by sorting in place. The sort the code uses does not promise to keep rows
 * of equal priority in their original order, and neither does this one.
 */
module Dashboard {
  import opened Wrappers
  import opened Classifier
  import opened Pipeline

  /** One row of the processed table: the loaded fields and the derived ones. */
  datatype Row = Row(email: Email, info: Derived)

  /** Why `main` stops before showing anything. */
  datatype DashboardError = MissingColumn(name: string)

  /** Position of a priority in the dashboard order High < Medium < Low. */
  function Rank(p: Priority): (r: nat)
    ensures r < 3
    ensures p == High <==> r == 0
    ensures p == Low <==> r == 2
  {
    match p
    case High => 0
    case Medium => 1
    case Low => 2
  }

  /** Every row ranks no later than every row after it. */
  predicate SortedByPriority(rows: seq<Row>)
  {
    forall i, j :: 0 <= i < j < |rows| ==> Rank(rows[i].info.priority) <= Rank(rows[j].info.priority)
  }

  /** The priority column of a sequence of rows. */
  function Priorities(rows: seq<Row>): (r: seq<Priority>)
    ensures |r| == |rows|
    ensures forall i :: 0 <= i < |rows| ==> r[i] == rows[i].info.priority
  {
    seq(|rows|, i requires 0 <= i < |rows| => rows[i].info.priority)
  }

  /** The table's rows with their derived columns; `None` when the frame has none. */
  function TableRows(f: Frame): (r: Option<seq<Row>>)
    requires f.Valid()
    ensures r.Some? <==> f.derived.Some?
    ensures r.Some? ==> |r.value| == |f.emails|
    ensures r.Some? ==> forall i :: 0 <= i < |f.emails| ==> r.value[i] == Row(f.emails[i], f.derived.value[i])
  {
    match f.derived
    case None => None
    case Some(derived) =>
      Some(seq(|f.emails|, i requires 0 <= i < |f.emails| => Row(f.emails[i], derived[i])))
  }

  /**
   * Sorts the rows in place by priority rank: a three-way partition that keeps
   * a High block, a Medium block, an unexamined middle and a Low block.
   */
  method SortByPriority(a: array<Row>)
    modifies a
    ensures SortedByPriority(a[..])
    ensures multiset(a[..]) == old(multiset(a[..]))
  {
    var high, mid, low := 0, 0, a.Length;
    while mid < low
      invariant 0 <= high <= mid <= low <= a.Length
      invariant forall k :: 0 <= k < high ==> a[k].info.priority == High
      invariant forall k :: high <= k < mid ==> a[k].info.priority == Medium
      invariant forall k :: low <= k < a.Length ==> a[k].info.priority == Low
      invariant multiset(a[..]) == old(multiset(a[..]))
      decreases low - mid
    {
      match a[mid].info.priority
      case High =>
        Exchange(a, high, mid);
        high, mid := high + 1, mid + 1;
      case Medium =>
        mid := mid + 1;
      case Low =>
        low := low - 1;
        Exchange(a, mid, low);
    }
  }

  /** Exchanges two rows of the table. */
  method Exchange(a: array<Row>, i: nat, j: nat)
    requires i < a.Length && j < a.Length
    modifies a
    ensures a[i] == old(a[j]) && a[j] == old(a[i])
    ensures forall k :: 0 <= k < a.Length && k != i && k != j ==> a[k] == old(a[k])
    ensures multiset(a[..]) == old(multiset(a[..]))
  {
    a[i], a[j] := a[j], a[i];
  }

  /**
   * `main` as written: it reads the priority column of whatever
   * `process_emails` returned. When the table was empty, `process_emails`
   * returned it without derived columns, and the column lookup fails.
   */
  function DashboardInputAsWritten(f: Frame): (r: Result<seq<Row>, DashboardError>)
    requires f.Valid()
    ensures r.Err? <==> f.derived.None?
    ensures r.Ok? ==> r.value == TableRows(f).value
  {
    match TableRows(f)
    case None => Err(MissingColumn("priority"))
    case Some(rows) => Ok(rows)
  }

  /** Loading an empty table and processing it leaves `main` without a priority column. */
  lemma EmptyTableHasNoPriorityColumn(gen: Generator)
    ensures DashboardInputAsWritten(Processed(Frame([], None), gen)) == Err(MissingColumn("priority"))
  {
  }

  /** The dashboard input as evidently intended: a table without derived columns has no rows to show. */
  function DashboardInput(f: Frame): (r: seq<Row>)
    requires f.Valid()
    ensures f.derived.None? ==> r == []
    ensures f.derived.Some? ==> Some(r) == TableRows(f)
  {
    match TableRows(f)
    case None => []
    case Some(rows) => rows
  }

  /** Every loaded row reaches the dashboard, enriched, in table order, and an empty table yields an empty dashboard. */
  lemma DashboardInputComplete(loaded: seq<Email>, gen: Generator)
    ensures var rows := DashboardInput(Processed(Frame(loaded, None), gen));
            |rows| == |loaded|
            && forall i :: 0 <= i < |loaded| ==> rows[i] == Row(loaded[i], Enrich(loaded, gen)[i])
  {
  }

  /** The dashboard step as evidently intended: the rows of the processed table,
      High first, then Medium, then Low, and no rows when there is no
      priority column. */
  method ShowDashboard(f: Frame) returns (rows: seq<Row>)
    requires f.Valid()
    ensures SortedByPriority(rows)
    ensures multiset(rows) == multiset(DashboardInput(f))
  {
    var a := new Row[|DashboardInput(f)|](i requires 0 <= i < |DashboardInput(f)| => DashboardInput(f)[i]);
    assert a[..] == DashboardInput(f);
    SortByPriority(a);
    rows := a[..];
  }

  /**
   * `main` without the loading and the printing: the assistant is built on the
   * loaded table and processes it; reading the priority column then fails for
   * an empty table, and otherwise the rows are put in dashboard order.
   */
  method RunAssistant(loaded: seq<Email>, gen: Generator) returns (r: Result<seq<Row>, DashboardError>)
    ensures r.Err? <==> loaded == []
    ensures r.Err? ==> r.error == MissingColumn("priority")
    ensures r.Ok? ==> SortedByPriority(r.value)
    ensures r.Ok? ==> multiset(r.value) == multiset(DashboardInput(Processed(Frame(loaded, None), gen)))
  {
    var assistant := new EmailAssistant(loaded);
    var processed := assistant.ProcessEmails(gen);
    match DashboardInputAsWritten(processed)
    case Err(e) =>
      r := Err(e);
    case Ok(_) =>
      var rows := ShowDashboard(processed);
      r := Ok(rows);
  }

  /** A sequence of `n` copies of `p`. */
  function Repeat(p: Priority, n: nat): (r: seq<Priority>)
    ensures |r| == n
    ensures forall i :: 0 <= i < n ==> r[i] == p
  {
    seq(n, i => p)
  }

  /** The only order of a multiset of priorities that respects the rank: all High, all Medium, all Low. */
  function Blocks(m: multiset<Priority>): seq<Priority>
  {
    Repeat(High, m[High]) + Repeat(Medium, m[Medium]) + Repeat(Low, m[Low])
  }

  /** Putting a priority in front of a block sequence whose entries all rank no
      earlier gives the block sequence of the enlarged multiset. */
  lemma BlocksPrepend(p: Priority, m: multiset<Priority>)
    requires forall x :: x in m ==> Rank(p) <= Rank(x)
    ensures Blocks(multiset{p} + m) == [p] + Blocks(m)
  {
    var m' := multiset{p} + m;
    match p
    case High =>
      assert m'[High] == m[High] + 1 && m'[Medium] == m[Medium] && m'[Low] == m[Low];
      assert Repeat(High, m[High] + 1) == [High] + Repeat(High, m[High]);
    case Medium =>
      assert High !in m;
      assert m'[High] == 0 && m'[Medium] == m[Medium] + 1 && m'[Low] == m[Low];
      assert Repeat(Medium, m[Medium] + 1) == [Medium] + Repeat(Medium, m[Medium]);
    case Low =>
      assert High !in m && Medium !in m;
      assert m'[High] == 0 && m'[Medium] == 0 && m'[Low] == m[Low] + 1;
      assert Repeat(Low, m[Low] + 1) == [Low] + Repeat(Low, m[Low]);
  }

  /** A rank-sorted priority column is the block sequence of its own multiset. */
  lemma {:induction false} SortedIsBlocks(q: seq<Priority>)
    requires forall i, j :: 0 <= i < j < |q| ==> Rank(q[i]) <= Rank(q[j])
    ensures q == Blocks(multiset(q))
  {
    if q == [] {
      assert multiset(q) == multiset{};
    } else {
      var rest := q[1..];
      assert q == [q[0]] + rest;
      SortedIsBlocks(rest);
      forall x | x in multiset(rest)
        ensures Rank(q[0]) <= Rank(x)
      {
        var j :| 0 <= j < |rest| && rest[j] == x;
        assert q[j + 1] == x;
      }
      assert multiset(q) == multiset{q[0]} + multiset(rest);
      BlocksPrepend(q[0], multiset(rest));
    }
  }

  /** Taking out the row at `j`: the rows, and their priority column, lose exactly that row's contribution. */
  lemma RemoveAt(t: seq<Row>, j: nat)
    requires j < |t|
    ensures multiset(t) == multiset(t[..j] + t[j + 1..]) + multiset{t[j]}
    ensures multiset(Priorities(t)) == multiset(Priorities(t[..j] + t[j + 1..])) + multiset{t[j].info.priority}
  {
    assert t == t[..j] + [t[j]] + t[j + 1..];
    assert Priorities(t) == Priorities(t[..j]) + [t[j].info.priority] + Priorities(t[j + 1..]);
    assert Priorities(t[..j] + t[j + 1..]) == Priorities(t[..j]) + Priorities(t[j + 1..]);
  }

  /** Adding the same row to two multisets of rows keeps them apart if they differ. */
  lemma Cancel(a: multiset<Row>, b: multiset<Row>, x: Row)
    requires a + multiset{x} == b + multiset{x}
    ensures a == b
  {
    forall y ensures a[y] == b[y] {
      assert (a + multiset{x})[y] == (b + multiset{x})[y];
    }
  }

  /** The first row of `s` sits somewhere in any rearrangement `t`; without it both have the same rows. */
  lemma MatchFirst(s: seq<Row>, t: seq<Row>) returns (j: nat)
    requires |s| > 0 && multiset(s) == multiset(t)
    ensures j < |t| && t[j] == s[0]
    ensures multiset(s[1..]) == multiset(t[..j] + t[j + 1..])
  {
    assert s[0] in multiset(t);
    j :| 0 <= j < |t| && t[j] == s[0];
    RemoveAt(s, 0);
    RemoveAt(t, j);
    assert s[..0] + s[1..] == s[1..];
    Cancel(multiset(s[1..]), multiset(t[..j] + t[j + 1..]), s[0]);
  }

  /** Rearranging rows rearranges their priority column the same way. */
  lemma {:induction false} PermutedPriorities(s: seq<Row>, t: seq<Row>)
    requires multiset(s) == multiset(t)
    ensures multiset(Priorities(s)) == multiset(Priorities(t))
    decreases |s|
  {
    if s == [] {
      assert |t| == |multiset(t)| == 0;
    } else {
      var j := MatchFirst(s, t);
      var s', t' := s[1..], t[..j] + t[j + 1..];
      PermutedPriorities(s', t');
      var p := s[0].info.priority;
      assert multiset(Priorities(t)) == multiset(Priorities(t')) + multiset{p} by {
        RemoveAt(t, j);
      }
      assert multiset(Priorities(s)) == multiset(Priorities(s')) + multiset{p} by {
        assert Priorities(s) == [p] + Priorities(s');
      }
    }
  }

  /**
   * Although the sort may order rows of equal priority either way, the
   * priority column it produces is fully determined: any two rank-sorted
   * rearrangements of the same rows agree on it.
   */
  lemma SortedPriorityColumnUnique(s: seq<Row>, t: seq<Row>)
    requires SortedByPriority(s) && SortedByPriority(t)
    requires multiset(s) == multiset(t)
    ensures Priorities(s) == Priorities(t)
  {
    PermutedPriorities(s, t);
    SortedIsBlocks(Priorities(s));
    SortedIsBlocks(Priorities(t));
  }
}
