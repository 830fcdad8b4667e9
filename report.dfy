/** `create_wide_report`: the long list of signal records of one analysis, pivoted
    into one wide row per stock and sorted by score. */
module Report {
  import opened Wrappers
  import opened Texts
  import opened Rules

  /** One long-format record: a check with the bar time and the stock it was made for. */
  datatype SignalRecord = SignalRecord(check: SignalCheck, timeStamp: string, stock: string)

  /** The four "Indicator i" columns of a wide row. */
  datatype Indicator = Indicator(name: Text, status: string, threshold: Text, current: Text)

  /** One wide row: `Timestamp`, `Stock`, `TradeType`, `All Signals Met`,
      `Signals Score` and the indicator columns in record order. */
  datatype WideRow = WideRow(timestamp: string, stock: string, tradeType: string, allMet: bool,
                             score: string, indicators: seq<Indicator>)

  predicate Occurs(raw: seq<SignalRecord>, stock: string)
  {
    exists k :: 0 <= k < |raw| && raw[k].stock == stock
  }

  /** The distinct stocks of the records, in order of first appearance. */
  function Stocks(raw: seq<SignalRecord>): (stocks: seq<string>)
    ensures forall i, j :: 0 <= i < j < |stocks| ==> stocks[i] != stocks[j]
  {
    if raw == [] then []
    else
      var prev := Stocks(raw[..|raw| - 1]);
      if raw[|raw| - 1].stock in prev then prev else prev + [raw[|raw| - 1].stock]
  }

  lemma {:induction false} StocksSpec(raw: seq<SignalRecord>, stock: string)
    ensures stock in Stocks(raw) <==> Occurs(raw, stock)
  {
    if raw != [] {
      var init := raw[..|raw| - 1];
      StocksSpec(init, stock);
      if Occurs(init, stock) {
        var k :| 0 <= k < |init| && init[k].stock == stock;
        assert raw[k].stock == stock;
      }
      if Occurs(raw, stock) && raw[|raw| - 1].stock != stock {
        var k :| 0 <= k < |raw| && raw[k].stock == stock;
        assert init[k].stock == stock;
      }
    }
  }

  /** The records of one stock, in input order (`groupby('Stock')`). */
  function Group(raw: seq<SignalRecord>, stock: string): (g: seq<SignalRecord>)
    ensures forall k :: 0 <= k < |g| ==> g[k].stock == stock
    ensures forall r :: r in g <==> r in raw && r.stock == stock
  {
    if raw == [] then []
    else
      var prev := Group(raw[..|raw| - 1], stock);
      assert raw == raw[..|raw| - 1] + [raw[|raw| - 1]];
      if raw[|raw| - 1].stock == stock then prev + [raw[|raw| - 1]] else prev
  }

  /** The positions of the records of `stock`, in increasing order. */
  function GroupIndices(raw: seq<SignalRecord>, stock: string): seq<nat>
  {
    if raw == [] then []
    else
      var n := |raw| - 1;
      GroupIndices(raw[..n], stock) + (if raw[n].stock == stock then [n] else [])
  }

  /** The k-th record of a group is the input record at the k-th position of its stock. */
  lemma {:induction false} GroupAtIndices(raw: seq<SignalRecord>, stock: string)
    ensures |Group(raw, stock)| == |GroupIndices(raw, stock)|
    ensures forall k :: 0 <= k < |GroupIndices(raw, stock)| ==>
      GroupIndices(raw, stock)[k] < |raw| && Group(raw, stock)[k] == raw[GroupIndices(raw, stock)[k]]
  {
    if raw != [] {
      var n := |raw| - 1;
      GroupAtIndices(raw[..n], stock);
    }
  }

  /** The positions of a stock are increasing and are exactly those of its records. */
  lemma {:induction false} IndicesOfStock(raw: seq<SignalRecord>, stock: string)
    ensures var idx := GroupIndices(raw, stock);
      && (forall k :: 0 <= k < |idx| ==> idx[k] < |raw|)
      && (forall k, l :: 0 <= k < l < |idx| ==> idx[k] < idx[l])
      && (forall i :: 0 <= i < |raw| ==> (i in idx <==> raw[i].stock == stock))
  {
    if raw != [] {
      var n := |raw| - 1;
      var init := raw[..n];
      IndicesOfStock(init, stock);
      var extra := if raw[n].stock == stock then [n] else [];
      assert GroupIndices(raw, stock) == GroupIndices(init, stock) + extra;
      assert forall i :: 0 <= i < n ==> init[i] == raw[i];
      assert forall i :: i in GroupIndices(raw, stock) <==> i in GroupIndices(init, stock) || i in extra;
    }
  }

  /** A group is the subsequence of the input at exactly the positions of its stock:
      input order and repeated records are kept, so its size is the number of those records. */
  lemma GroupSpec(raw: seq<SignalRecord>, stock: string)
    ensures var g := Group(raw, stock);
      var idx := GroupIndices(raw, stock);
      && |g| == |idx|
      && (forall k :: 0 <= k < |idx| ==> idx[k] < |raw| && g[k] == raw[idx[k]])
      && (forall k, l :: 0 <= k < l < |idx| ==> idx[k] < idx[l])
      && (forall i :: 0 <= i < |raw| ==> (i in idx <==> raw[i].stock == stock))
  {
    GroupAtIndices(raw, stock);
    IndicesOfStock(raw, stock);
  }

  /** The group's first record is the stock's first record in the input. */
  lemma {:induction false} GroupFirst(raw: seq<SignalRecord>, stock: string, k: nat)
    requires k < |raw| && raw[k].stock == stock
    requires forall j :: 0 <= j < k ==> raw[j].stock != stock
    ensures |Group(raw, stock)| > 0 && Group(raw, stock)[0] == raw[k]
  {
    if k < |raw| - 1 {
      GroupFirst(raw[..|raw| - 1], stock, k);
    } else {
      var g := Group(raw[..k], stock);
      assert forall r :: r in raw[..k] ==> r.stock != stock;
    }
  }

  /** `int(group['SignalBool'].sum())`: how many checks of the group passed. */
  function MetCount(group: seq<SignalRecord>): (met: nat)
    ensures met <= |group|
    ensures met == |group| <==> forall k :: 0 <= k < |group| ==> group[k].check.signal
  {
    if group == [] then 0
    else MetCount(group[..|group| - 1]) + (if group[|group| - 1].check.signal then 1 else 0)
  }

  function Status(signal: bool): string
  {
    if signal then "TRUE" else "FALSE"
  }

  function IndicatorOf(r: SignalRecord): Indicator
  {
    Indicator(r.check.criteria, Status(r.check.signal), r.check.threshold, r.check.current)
  }

  /** The wide row of one non-empty group. */
  function PivotRow(group: seq<SignalRecord>, stock: string, name: string): WideRow
    requires group != []
  {
    var met := MetCount(group);
    WideRow(group[0].timeStamp, stock, name, met == |group|, ScoreText(met, |group|),
            seq(|group|, i requires 0 <= i < |group| => IndicatorOf(group[i])))
  }

  /** The summary fields of a wide row: its score reads back as the met count,
      which is at most the group size, "all met" holds exactly when every check of
      the group passed, and the i-th indicator has the i-th record's name and status. */
  lemma PivotRowFields(group: seq<SignalRecord>, stock: string, name: string)
    requires group != []
    ensures var row := PivotRow(group, stock, name);
      && ScoreKey(row.score) == Some(MetCount(group))
      && MetCount(group) <= |group|
      && (row.allMet <==> forall k :: 0 <= k < |group| ==> group[k].check.signal)
      && |row.indicators| == |group|
      && forall i :: 0 <= i < |group| ==>
           && row.indicators[i].name == group[i].check.criteria
           && (row.indicators[i].status == "TRUE" <==> group[i].check.signal)
           && (row.indicators[i].status == "FALSE" <==> !group[i].check.signal)
  {
    ScoreKeyRoundTrip(MetCount(group), |group|);
  }

  /** The fields a wide row copies: the timestamp of the group's first record, the
      stock, the analysis name as trade type, and the i-th record's threshold and
      current value as the i-th indicator's. */
  lemma PivotRowCopies(group: seq<SignalRecord>, stock: string, name: string)
    requires group != []
    ensures var row := PivotRow(group, stock, name);
      && row.timestamp == group[0].timeStamp
      && row.stock == stock
      && row.tradeType == name
      && |row.indicators| == |group|
      && forall i :: 0 <= i < |group| ==>
           && row.indicators[i].threshold == group[i].check.threshold
           && row.indicators[i].current == group[i].check.current
  {
  }

  /** The sort key of a row: its parsed score, or 0 for every row when some score
      does not parse, which leaves the Stock order alone. */
  function SortKey(row: WideRow, fallback: bool): nat
  {
    if fallback then 0
    else match ScoreKey(row.score)
      case Some(k) => k
      case None => 0
  }

  /** `sort_values(by=['sort_key', 'Stock'], ascending=[False, True])`: a higher key
      first, then the lexicographically smaller stock. */
  predicate Precedes(a: WideRow, b: WideRow, fallback: bool)
  {
    SortKey(a, fallback) > SortKey(b, fallback)
    || (SortKey(a, fallback) == SortKey(b, fallback) && !StringLess(b.stock, a.stock))
  }

  predicate SortedBy(rows: seq<WideRow>, fallback: bool)
  {
    forall i, j :: 0 <= i < j < |rows| ==> Precedes(rows[i], rows[j], fallback)
  }

  lemma PrecedesTotal(a: WideRow, b: WideRow, fallback: bool)
    ensures Precedes(a, b, fallback) || Precedes(b, a, fallback)
  {
    StringLessAsymmetric(a.stock, b.stock);
  }

  lemma PrecedesTransitive(a: WideRow, b: WideRow, c: WideRow, fallback: bool)
    requires Precedes(a, b, fallback) && Precedes(b, c, fallback)
    ensures Precedes(a, c, fallback)
  {
    StringLessTotal(a.stock, b.stock);
    StringLessTransitive(c.stock, a.stock, b.stock);
  }

  /** Inserts a row into a sorted table at its place. */
  function Insert(x: WideRow, rows: seq<WideRow>, fallback: bool): (r: seq<WideRow>)
    requires SortedBy(rows, fallback)
    ensures multiset(r) == multiset(rows) + multiset{x}
    ensures SortedBy(r, fallback)
  {
    if rows == [] then [x]
    else if Precedes(x, rows[0], fallback) then
      InsertFront(x, rows, fallback);
      [x] + rows
    else
      var rest := Insert(x, rows[1..], fallback);
      InsertBehind(x, rows, rest, fallback);
      assert rows == [rows[0]] + rows[1..];
      [rows[0]] + rest
  }

  lemma InsertFront(x: WideRow, rows: seq<WideRow>, fallback: bool)
    requires rows != [] && SortedBy(rows, fallback) && Precedes(x, rows[0], fallback)
    ensures SortedBy([x] + rows, fallback)
  {
    forall j | 0 <= j < |rows|
      ensures Precedes(x, rows[j], fallback)
    {
      if j > 0 { PrecedesTransitive(x, rows[0], rows[j], fallback); }
    }
  }

  lemma InsertBehind(x: WideRow, rows: seq<WideRow>, rest: seq<WideRow>, fallback: bool)
    requires rows != [] && SortedBy(rows, fallback) && !Precedes(x, rows[0], fallback)
    requires SortedBy(rest, fallback) && multiset(rest) == multiset(rows[1..]) + multiset{x}
    ensures SortedBy([rows[0]] + rest, fallback)
  {
    PrecedesTotal(x, rows[0], fallback);
    forall j | 0 <= j < |rest|
      ensures Precedes(rows[0], rest[j], fallback)
    {
      assert rest[j] in multiset(rest);
      if rest[j] != x {
        assert rest[j] in multiset(rows[1..]);
        var k :| 0 <= k < |rows[1..]| && rows[1..][k] == rest[j];
        assert rows[k + 1] == rest[j];
      }
    }
  }

  /** The sort of the wide table: insertion of each row into the sorted prefix. */
  method SortRows(rows: seq<WideRow>, fallback: bool) returns (sorted: seq<WideRow>)
    ensures multiset(sorted) == multiset(rows)
    ensures SortedBy(sorted, fallback)
  {
    sorted := [];
    for i := 0 to |rows|
      invariant multiset(sorted) == multiset(rows[..i])
      invariant SortedBy(sorted, fallback)
    {
      sorted := Insert(rows[i], sorted, fallback);
      assert rows[..i + 1] == rows[..i] + [rows[i]];
    }
    assert rows[..|rows|] == rows;
  }

  predicate DistinctStocks(rows: seq<WideRow>)
  {
    forall i, j :: 0 <= i < j < |rows| ==> rows[i].stock != rows[j].stock
  }

  lemma {:induction false} DistinctOnce(rows: seq<WideRow>, x: WideRow)
    requires DistinctStocks(rows)
    ensures multiset(rows)[x] <= 1
  {
    if rows != [] {
      var init := rows[..|rows| - 1];
      assert rows == init + [rows[|rows| - 1]];
      DistinctOnce(init, x);
    }
  }

  lemma RepeatedTwice(rows: seq<WideRow>, i: nat, j: nat)
    requires i < j < |rows| && rows[i] == rows[j]
    ensures multiset(rows)[rows[i]] >= 2
  {
    assert rows == rows[..j] + [rows[j]] + rows[j + 1..];
    assert rows[..j][i] == rows[i];
  }

  /** Reordering rows with distinct stocks keeps them distinct. */
  lemma PermutationKeepsDistinct(a: seq<WideRow>, b: seq<WideRow>)
    requires multiset(a) == multiset(b) && DistinctStocks(a)
    ensures DistinctStocks(b)
  {
    forall i, j | 0 <= i < j < |b|
      ensures b[i].stock != b[j].stock
    {
      assert b[i] in multiset(a) && b[j] in multiset(a);
      var p :| 0 <= p < |a| && a[p] == b[i];
      var q :| 0 <= q < |a| && a[q] == b[j];
      if b[i].stock == b[j].stock {
        assert p == q;
        RepeatedTwice(b, i, j);
        DistinctOnce(a, b[i]);
      }
    }
  }

  lemma SortedHeadsAgree(a: seq<WideRow>, b: seq<WideRow>, fallback: bool)
    requires a != [] && b != [] && a[0] in multiset(b) && b[0] in multiset(a) && DistinctStocks(a)
    requires SortedBy(a, fallback) && SortedBy(b, fallback)
    ensures a[0] == b[0]
  {
    var p :| 0 <= p < |b| && b[p] == a[0];
    var q :| 0 <= q < |a| && a[q] == b[0];
    if q != 0 {
      assert Precedes(a[0], a[q], fallback);
      if p != 0 {
        assert Precedes(b[0], b[p], fallback);
      }
      StringLessTotal(a[0].stock, a[q].stock);
      assert a[0].stock != a[q].stock;
    }
  }

  lemma TailsPermuted(a: seq<WideRow>, b: seq<WideRow>)
    requires a != [] && b != [] && a[0] == b[0] && multiset(a) == multiset(b)
    ensures multiset(a[1..]) == multiset(b[1..])
  {
    assert a == [a[0]] + a[1..] && b == [b[0]] + b[1..];
    assert multiset(a[1..]) == multiset(a) - multiset{a[0]};
    assert multiset(b[1..]) == multiset(b) - multiset{b[0]};
  }

  /** With distinct stocks the sort order is total: two sorted arrangements of the
      same rows are the same table. */
  lemma {:induction false} SortedUnique(a: seq<WideRow>, b: seq<WideRow>, fallback: bool)
    requires multiset(a) == multiset(b) && DistinctStocks(a)
    requires SortedBy(a, fallback) && SortedBy(b, fallback)
    ensures a == b
  {
    assert |b| == |a| by { assert |multiset(a)| == |multiset(b)|; }
    if a != [] {
      assert a[0] in multiset(b) && b[0] in multiset(a);
      SortedHeadsAgree(a, b, fallback);
      TailsPermuted(a, b);
      SortedUnique(a[1..], b[1..], fallback);
    }
  }

  /** The inner loop of the pivot: the indicator columns of one group, record by record. */
  method PivotIndicators(group: seq<SignalRecord>) returns (indicators: seq<Indicator>)
    ensures |indicators| == |group|
    ensures forall k :: 0 <= k < |group| ==> indicators[k] == IndicatorOf(group[k])
  {
    indicators := [];
    for i := 0 to |group|
      invariant |indicators| == i
      invariant forall k :: 0 <= k < i ==> indicators[k] == IndicatorOf(group[k])
    {
      indicators := indicators + [IndicatorOf(group[i])];
    }
  }

  /** The body of the outer loop: the record of one stock. */
  method PivotStock(raw: seq<SignalRecord>, stock: string, name: string) returns (row: WideRow)
    requires Occurs(raw, stock)
    ensures Group(raw, stock) != [] && row == PivotRow(Group(raw, stock), stock, name)
  {
    var group := Group(raw, stock);
    var j :| 0 <= j < |raw| && raw[j].stock == stock;
    assert raw[j] in group;
    var met := MetCount(group);
    var indicators := PivotIndicators(group);
    row := WideRow(group[0].timeStamp, stock, name, met == |group|, ScoreText(met, |group|), indicators);
  }

  /** The outer loop of the pivot: one wide row per stock, in order of first appearance. */
  method PivotGroups(raw: seq<SignalRecord>, name: string) returns (pivoted: seq<WideRow>)
    ensures |pivoted| == |Stocks(raw)|
    ensures forall k :: 0 <= k < |pivoted| ==>
      && pivoted[k].stock == Stocks(raw)[k] && Occurs(raw, pivoted[k].stock)
      && pivoted[k] == PivotRow(Group(raw, pivoted[k].stock), pivoted[k].stock, name)
  {
    var stocks := Stocks(raw);
    pivoted := [];
    for n := 0 to |stocks|
      invariant |pivoted| == n
      invariant forall k :: 0 <= k < n ==>
        && pivoted[k].stock == stocks[k] && Occurs(raw, stocks[k])
        && pivoted[k] == PivotRow(Group(raw, stocks[k]), stocks[k], name)
    {
      StocksSpec(raw, stocks[n]);
      var row := PivotStock(raw, stocks[n], name);
      pivoted := pivoted + [row];
    }
  }

  /** `create_wide_report`: no rows for no records; otherwise the pivoted rows,
      sorted by score with the Stock order as fallback. */
  method CreateWideReport(raw: seq<SignalRecord>, name: string) returns (report: seq<WideRow>)
    ensures raw == [] ==> report == []
    ensures |report| == |Stocks(raw)|
    ensures DistinctStocks(report)
    ensures forall stock :: Occurs(raw, stock) <==> exists k :: 0 <= k < |report| && report[k].stock == stock
    ensures forall k :: 0 <= k < |report| ==>
      && Occurs(raw, report[k].stock)
      && report[k] == PivotRow(Group(raw, report[k].stock), report[k].stock, name)
    ensures SortedBy(report, false)
  {
    if raw == [] {
      return [];
    }
    var pivoted := PivotGroups(raw, name);
    ScoresParse(raw, name, pivoted);
    var fallback := exists k | 0 <= k < |pivoted| :: ScoreKey(pivoted[k].score).None?;
    assert !fallback;
    report := SortRows(pivoted, fallback);
    assert SortedBy(report, false);
    ReportShape(raw, name, pivoted, report);
  }

  /** Every pivoted score parses, so the sort takes its primary branch. */
  lemma ScoresParse(raw: seq<SignalRecord>, name: string, pivoted: seq<WideRow>)
    requires forall k :: 0 <= k < |pivoted| ==>
      && Occurs(raw, pivoted[k].stock)
      && pivoted[k] == PivotRow(Group(raw, pivoted[k].stock), pivoted[k].stock, name)
    ensures forall k :: 0 <= k < |pivoted| ==> ScoreKey(pivoted[k].score).Some?
  {
    forall k | 0 <= k < |pivoted|
      ensures ScoreKey(pivoted[k].score).Some?
    {
      PivotRowFields(Group(raw, pivoted[k].stock), pivoted[k].stock, name);
    }
  }

  lemma ReportShape(raw: seq<SignalRecord>, name: string, pivoted: seq<WideRow>, report: seq<WideRow>)
    requires |pivoted| == |Stocks(raw)|
    requires forall k :: 0 <= k < |pivoted| ==>
      && pivoted[k].stock == Stocks(raw)[k] && Occurs(raw, pivoted[k].stock)
      && pivoted[k] == PivotRow(Group(raw, pivoted[k].stock), pivoted[k].stock, name)
    requires multiset(report) == multiset(pivoted)
    ensures |report| == |Stocks(raw)|
    ensures DistinctStocks(report)
    ensures forall stock :: Occurs(raw, stock) <==> exists k :: 0 <= k < |report| && report[k].stock == stock
    ensures forall k :: 0 <= k < |report| ==>
      && Occurs(raw, report[k].stock)
      && report[k] == PivotRow(Group(raw, report[k].stock), report[k].stock, name)
  {
    var stocks := Stocks(raw);
    assert DistinctStocks(pivoted);
    PermutationKeepsDistinct(pivoted, report);
    assert |report| == |pivoted| by {
      assert |multiset(report)| == |multiset(pivoted)|;
    }
    forall k | 0 <= k < |report|
      ensures Occurs(raw, report[k].stock)
      ensures report[k] == PivotRow(Group(raw, report[k].stock), report[k].stock, name)
    {
      assert report[k] in multiset(pivoted);
      var n :| 0 <= n < |pivoted| && pivoted[n] == report[k];
    }
    forall stock | Occurs(raw, stock)
      ensures exists k :: 0 <= k < |report| && report[k].stock == stock
    {
      StocksSpec(raw, stock);
      var n :| 0 <= n < |stocks| && stocks[n] == stock;
      assert pivoted[n] in multiset(report);
      var k :| 0 <= k < |report| && report[k] == pivoted[n];
    }
  }
}
