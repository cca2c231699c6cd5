/** The analytics view: the frequency count of each category present in the
    record set (`value_counts`), ranked by count; the most frequent category
    (`mode`); and the summary table with its human-readable category label
    and its two-level risk label. */
module Analytics {
  import opened Common
  import opened Text

  /** How many of `types` equal c. */
  function Occurrences(types: seq<string>, c: string): nat
  {
    if types == [] then 0
    else Occurrences(types[..|types| - 1], c) + (if types[|types| - 1] == c then 1 else 0)
  }

  lemma OccurrencesSnoc(types: seq<string>, x: string, c: string)
    ensures Occurrences(types + [x], c) == Occurrences(types, c) + (if x == c then 1 else 0)
  {
    assert (types + [x])[..|types|] == types;
  }

  /** A category occurs at least once exactly when it is present. */
  lemma {:induction false} OccurrencesPositive(types: seq<string>, c: string)
    ensures Occurrences(types, c) > 0 <==> c in types
  {
    if types != [] {
      var p := types[..|types| - 1];
      assert types == p + [types[|types| - 1]];
      OccurrencesPositive(p, c);
    }
  }

  predicate NoDuplicates(s: seq<string>)
  {
    forall i, j :: 0 <= i < j < |s| ==> s[i] != s[j]
  }

  /** The categories present, each once, in order of first appearance. */
  function Distinct(types: seq<string>): (d: seq<string>)
    ensures NoDuplicates(d)
    ensures forall c :: c in d <==> c in types
  {
    if types == [] then []
    else
      var p := types[..|types| - 1];
      var x := types[|types| - 1];
      assert types == p + [x];
      var d := Distinct(p);
      if x in d then d else d + [x]
  }

  /** One count row per category of d. */
  function TallyRows(d: seq<string>, types: seq<string>): (rows: seq<Tally>)
    ensures |rows| == |d|
    ensures forall i :: 0 <= i < |d| ==> rows[i] == Tally(d[i], Occurrences(types, d[i]))
  {
    if d == [] then [] else [Tally(d[0], Occurrences(types, d[0]))] + TallyRows(d[1..], types)
  }

  function SumCounts(rows: seq<Tally>): nat
  {
    if rows == [] then 0 else rows[0].count + SumCounts(rows[1..])
  }

  lemma {:induction false} SumCountsAppend(a: seq<Tally>, b: seq<Tally>)
    ensures SumCounts(a + b) == SumCounts(a) + SumCounts(b)
  {
    if a != [] {
      assert (a + b)[1..] == a[1..] + b;
      SumCountsAppend(a[1..], b);
    } else {
      assert a + b == b;
    }
  }

  /** A count table is ranked when no row has a larger count than a row before it. */
  predicate Ranked(rows: seq<Tally>)
  {
    forall i, j :: 0 <= i < j < |rows| ==> rows[i].count >= rows[j].count
  }

  /** Places t after every row whose count is at least t's. */
  function Insert(t: Tally, rows: seq<Tally>): (r: seq<Tally>)
    requires Ranked(rows)
    ensures Ranked(r)
    ensures |r| == |rows| + 1
    ensures r[0] == t || (rows != [] && r[0] == rows[0])
  {
    if rows == [] || t.count > rows[0].count then [t] + rows
    else
      var rest := Insert(t, rows[1..]);
      RankedCons(rows[0], rest);
      [rows[0]] + rest
  }

  /** Inserting a row adds exactly that row, and its count to the total. */
  lemma {:induction false} InsertContents(t: Tally, rows: seq<Tally>)
    requires Ranked(rows)
    ensures multiset(Insert(t, rows)) == multiset(rows) + multiset{t}
    ensures SumCounts(Insert(t, rows)) == SumCounts(rows) + t.count
  {
    if rows != [] && t.count <= rows[0].count {
      var rest := Insert(t, rows[1..]);
      InsertContents(t, rows[1..]);
      assert rows == [rows[0]] + rows[1..];
      assert Insert(t, rows)[1..] == rest;
    }
  }

  /** A row with a count no smaller than the head of a ranked table can head it. */
  lemma RankedCons(h: Tally, rest: seq<Tally>)
    requires Ranked(rest)
    requires rest == [] || rest[0].count <= h.count
    ensures Ranked([h] + rest)
  {
  }

  /** The count rows ordered by decreasing count; rows of equal count keep their order. */
  function Rank(rows: seq<Tally>): (r: seq<Tally>)
    ensures Ranked(r)
    ensures multiset(r) == multiset(rows)
    ensures |r| == |rows|
    ensures SumCounts(r) == SumCounts(rows)
  {
    if rows == [] then []
    else
      var p := rows[..|rows| - 1];
      var x := rows[|rows| - 1];
      assert rows == p + [x];
      SumCountsAppend(p, [x]);
      InsertContents(x, Rank(p));
      Insert(x, Rank(p))
  }

  /** `df['type'].value_counts()`: one row per category present, ranked by count. */
  function ValueCounts(types: seq<string>): seq<Tally>
  {
    Rank(TallyRows(Distinct(types), types))
  }

  lemma {:induction false} TallyRowsSnocType(d: seq<string>, types: seq<string>, x: string)
    requires NoDuplicates(d)
    ensures SumCounts(TallyRows(d, types + [x])) == SumCounts(TallyRows(d, types)) + (if x in d then 1 else 0)
  {
    if d != [] {
      OccurrencesSnoc(types, x, d[0]);
      TallyRowsSnocType(d[1..], types, x);
      assert x in d <==> x == d[0] || x in d[1..];
      assert d[0] == x ==> x !in d[1..];
    }
  }

  lemma {:induction false} TallyRowsSnocCategory(d: seq<string>, x: string, types: seq<string>)
    ensures SumCounts(TallyRows(d + [x], types)) == SumCounts(TallyRows(d, types)) + Occurrences(types, x)
  {
    assert TallyRows(d + [x], types) == TallyRows(d, types) + [Tally(x, Occurrences(types, x))];
    SumCountsAppend(TallyRows(d, types), [Tally(x, Occurrences(types, x))]);
  }

  /** The per-category counts add up to the number of records. */
  lemma {:induction false} TallySum(types: seq<string>)
    ensures SumCounts(TallyRows(Distinct(types), types)) == |types|
  {
    if types != [] {
      var p := types[..|types| - 1];
      var x := types[|types| - 1];
      assert types == p + [x];
      TallySum(p);
      var d := Distinct(p);
      TallyRowsSnocType(d, p, x);
      if x !in d {
        TallyRowsSnocCategory(d, x, types);
        OccurrencesPositive(p, x);
        OccurrencesSnoc(p, x, x);
      }
    }
  }

  /** The facts the analytics page relies on: the count table is ranked, has one
      row per category present and only those, each row's count is that
      category's positive number of occurrences, and the counts sum to the
      number of records. */
  lemma ValueCountsFacts(types: seq<string>)
    ensures var vc := ValueCounts(types);
      && Ranked(vc)
      && |vc| == |Distinct(types)|
      && (forall t :: t in vc <==> t.category in types && t.count == Occurrences(types, t.category))
      && (forall i :: 0 <= i < |vc| ==> vc[i].count > 0)
      && SumCounts(vc) == |types|
  {
    var d := Distinct(types);
    var rows := TallyRows(d, types);
    var vc := ValueCounts(types);
    assert multiset(vc) == multiset(rows);
    forall t
      ensures t in vc <==> t.category in types && t.count == Occurrences(types, t.category)
    {
      assert t in vc <==> t in multiset(rows);
      if t.category in types && t.count == Occurrences(types, t.category) {
        var k :| 0 <= k < |d| && d[k] == t.category;
        assert rows[k] == t;
      }
    }
    forall i | 0 <= i < |vc|
      ensures vc[i].count > 0
    {
      assert vc[i] in vc;
      OccurrencesPositive(types, vc[i].category);
    }
    TallySum(types);
  }

  /** `df['type'].mode()[0]`: the category heading the ranked counts. */
  function Mode(types: seq<string>): (m: string)
    requires |types| > 0
    ensures m in types
  {
    ValueCountsFacts(types);
    var vc := ValueCounts(types);
    assert Tally(types[0], Occurrences(types, types[0])) in vc;
    assert vc[0] in vc;
    vc[0].category
  }

  /** No category occurs more often than the mode. */
  lemma ModeIsMostFrequent(types: seq<string>)
    requires |types| > 0
    ensures forall c :: Occurrences(types, c) <= Occurrences(types, Mode(types))
  {
    ValueCountsFacts(types);
    var vc := ValueCounts(types);
    var m := Mode(types);
    assert vc[0] in vc;
    forall c
      ensures Occurrences(types, c) <= Occurrences(types, m)
    {
      if c in types {
        var t := Tally(c, Occurrences(types, c));
        assert t in vc;
        var k :| 0 <= k < |vc| && vc[k] == t;
        assert k == 0 || vc[0].count >= vc[k].count;
      } else {
        OccurrencesPositive(types, c);
      }
    }
  }

  // ---------------------------------------------------------------------------
  // The summary table.

  const CriticalLabel := "CRITICAL"
  const HighLabel := "High"

  /** The risk label of a category: CRITICAL above three occurrences, High otherwise. */
  function RiskLabel(count: nat): (r: string)
    ensures r == CriticalLabel <==> count > 3
    ensures r == HighLabel <==> count <= 3
  {
    if count > 3 then CriticalLabel else HighLabel
  }

  /** The threshold is exclusive: four is CRITICAL, three is High; a larger count
      never has a lower label. */
  lemma RiskBoundary(a: nat, b: nat)
    ensures RiskLabel(4) == CriticalLabel && RiskLabel(3) == HighLabel
    ensures a <= b && RiskLabel(a) == CriticalLabel ==> RiskLabel(b) == CriticalLabel
  {
  }

  const TableHeader: seq<string> := ["Violation Category", "Count", "Risk Level"]

  function TableRow(t: Tally): seq<string>
  {
    [Humanize(t.category), NatToString(t.count), RiskLabel(t.count)]
  }

  /** The header row followed by one row per count, in the counts' order. */
  function SummaryTable(counts: seq<Tally>): seq<seq<string>>
  {
    [TableHeader] + seq(|counts|, i requires 0 <= i < |counts| => TableRow(counts[i]))
  }

  /** The loop that fills the table, one appended row per count (report.py:231-234). */
  method BuildSummaryTable(counts: seq<Tally>) returns (table: seq<seq<string>>)
    ensures table == SummaryTable(counts)
  {
    table := [TableHeader];
    var i := 0;
    while i < |counts|
      invariant 0 <= i <= |counts|
      invariant |table| == i + 1 && table[0] == TableHeader
      invariant forall k :: 0 <= k < i ==> table[k + 1] == TableRow(counts[k])
    {
      var t := counts[i];
      var risk := if t.count > 3 then CriticalLabel else HighLabel;
      table := table + [[Humanize(t.category), NatToString(t.count), risk]];
      i := i + 1;
    }
  }

  /** A table row shows the humanised category, the count in decimal, and
      CRITICAL exactly when the count exceeds three. */
  lemma TableRowShows(t: Tally)
    ensures var row := TableRow(t);
      && |row| == 3
      && row[0] == Humanize(t.category)
      && (forall k :: 0 <= k < |row[1]| ==> '0' <= row[1][k] <= '9')
      && DecimalValue(row[1]) == t.count
      && (row[2] == CriticalLabel <==> t.count > 3)
  {
    DecimalRoundTrip(t.count);
  }

  /** The analytics table of a record set: a header plus one row per distinct
      category present, in ranked order; each row is the table row of that
      category's positive number of occurrences; the counts shown sum to the
      number of records. */
  lemma AnalyticsTable(types: seq<string>)
    ensures var vc := ValueCounts(types); var table := SummaryTable(vc);
      && |table| == |Distinct(types)| + 1
      && table[0] == TableHeader
      && (forall c :: c in types ==> exists i :: 0 <= i < |vc| && vc[i].category == c)
      && (forall i :: 0 <= i < |vc| ==>
            && vc[i].category in types
            && vc[i].count == Occurrences(types, vc[i].category) > 0
            && table[i + 1] == TableRow(vc[i]))
      && SumCounts(vc) == |types|
  {
    ValueCountsFacts(types);
    var vc := ValueCounts(types);
    var table := SummaryTable(vc);
    assert |table| == |vc| + 1;
    forall c | c in types
      ensures exists i :: 0 <= i < |vc| && vc[i].category == c
    {
      assert Tally(c, Occurrences(types, c)) in vc;
    }
    forall i | 0 <= i < |vc|
      ensures vc[i].category in types
      ensures vc[i].count == Occurrences(types, vc[i].category)
    {
      assert vc[i] in vc;
    }
  }
}
