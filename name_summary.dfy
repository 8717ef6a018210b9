/**
 * Birth-registration name ranking (backend/korean_girls_name_summary.py):
 * each spreadsheet of "top registered names" is cleaned of blank and
 * summary rows and tagged with the year range read from its file name;
 * the combined rows are then summed per name into one overall ranking and
 * one ranking per year range.
 *
 * Counts are natural numbers; the percentage column is not modelled.
 */
module NameSummary {
  import opened Wrappers
  import opened Text

  // ---------------------------------------------------------------------
  // extract_year_from_filename
  // ---------------------------------------------------------------------

  const UNKNOWN: string := "Unknown"

  predicate DigitsAt(s: string, i: nat, n: nat) {
    i + n <= |s| && forall k :: i <= k < i + n ==> IsDigit(s[k])
  }

  /** The pattern `\((\d{4})[~\-](\d{4})\)` matches at position i. */
  predicate ParenRangeAt(s: string, i: nat) {
    && i + 11 <= |s|
    && s[i] == '('
    && DigitsAt(s, i + 1, 4)
    && (s[i + 5] == '~' || s[i + 5] == '-')
    && DigitsAt(s, i + 6, 4)
    && s[i + 10] == ')'
  }

  /** The pattern `(\d{4})(\d{4})` matches at position i. */
  predicate EightDigitsAt(s: string, i: nat) {
    DigitsAt(s, i, 8)
  }

  /** `re.search` finds the match at i: it matches there and nowhere to the left. */
  predicate LeftmostParenRange(s: string, i: nat) {
    ParenRangeAt(s, i) && forall j: nat :: j < i ==> !ParenRangeAt(s, j)
  }

  predicate LeftmostEightDigits(s: string, i: nat) {
    EightDigitsAt(s, i) && forall j: nat :: j < i ==> !EightDigitsAt(s, j)
  }

  function FindParenRange(s: string, from: nat): (r: Option<nat>)
    ensures r.Some? ==> from <= r.value && ParenRangeAt(s, r.value)
    ensures r.Some? ==> forall j: nat :: from <= j < r.value ==> !ParenRangeAt(s, j)
    ensures r.None? ==> forall j: nat :: from <= j ==> !ParenRangeAt(s, j)
    decreases |s| - from
  {
    if from + 11 > |s| then None
    else if ParenRangeAt(s, from) then Some(from)
    else FindParenRange(s, from + 1)
  }

  function FindEightDigits(s: string, from: nat): (r: Option<nat>)
    ensures r.Some? ==> from <= r.value && EightDigitsAt(s, r.value)
    ensures r.Some? ==> forall j: nat :: from <= j < r.value ==> !EightDigitsAt(s, j)
    ensures r.None? ==> forall j: nat :: from <= j ==> !EightDigitsAt(s, j)
    decreases |s| - from
  {
    if from + 8 > |s| then None
    else if EightDigitsAt(s, from) then Some(from)
    else FindEightDigits(s, from + 1)
  }

  /** Nine characters: four digits, a hyphen, four digits. */
  predicate IsYearRange(r: string) {
    |r| == 9 && r[4] == '-' && forall k :: 0 <= k < 9 && k != 4 ==> IsDigit(r[k])
  }

  /**
   * extract_year_from_filename: "YYYY-YYYY" from the leftmost
   * "(YYYY~YYYY)" or "(YYYY-YYYY)"; failing that, from the leftmost run of
   * eight digits; failing that, "Unknown".
   */
  function ExtractYearFromFilename(filename: string): (r: string)
    ensures r == UNKNOWN || IsYearRange(r)
    ensures forall i: nat :: LeftmostParenRange(filename, i) ==>
      r == filename[i + 1..i + 5] + "-" + filename[i + 6..i + 10]
    ensures (forall i: nat :: !ParenRangeAt(filename, i)) ==>
      forall i: nat :: LeftmostEightDigits(filename, i) ==> r == filename[i..i + 4] + "-" + filename[i + 4..i + 8]
    ensures r == UNKNOWN <==> forall i: nat :: !ParenRangeAt(filename, i) && !EightDigitsAt(filename, i)
  {
    match FindParenRange(filename, 0)
    case Some(i) => filename[i + 1..i + 5] + "-" + filename[i + 6..i + 10]
    case None =>
      match FindEightDigits(filename, 0)
      case Some(i) => filename[i..i + 4] + "-" + filename[i + 4..i + 8]
      case None => UNKNOWN
  }

  predicate FourDigits(y: string) {
    |y| == 4 && forall k :: 0 <= k < 4 ==> IsDigit(y[k])
  }

  /**
   * A file name whose first '(' opens "(YYYY~YYYY)" or "(YYYY-YYYY)" gives
   * that range with a hyphen, whatever follows it.
   */
  lemma {:induction false} ExtractYearParenthesised(prefix: string, y1: string, sep: char, y2: string, suffix: string)
    requires '(' !in prefix
    requires FourDigits(y1) && FourDigits(y2) && (sep == '~' || sep == '-')
    ensures ExtractYearFromFilename(prefix + "(" + y1 + [sep] + y2 + ")" + suffix) == y1 + "-" + y2
  {
    var s := prefix + "(" + y1 + [sep] + y2 + ")" + suffix;
    var i := |prefix|;
    assert s[i] == '(';
    assert s[i + 1..i + 5] == y1;
    assert s[i + 5] == sep;
    assert s[i + 6..i + 10] == y2;
    assert s[i + 10] == ')';
    assert DigitsAt(s, i + 1, 4) by {
      forall k | i + 1 <= k < i + 5 ensures IsDigit(s[k]) {
        assert s[k] == y1[k - i - 1];
      }
    }
    assert DigitsAt(s, i + 6, 4) by {
      forall k | i + 6 <= k < i + 10 ensures IsDigit(s[k]) {
        assert s[k] == y2[k - i - 6];
      }
    }
    assert ParenRangeAt(s, i);
    forall j: nat | j < i ensures !ParenRangeAt(s, j) {
      assert s[j] == prefix[j];
    }
    assert LeftmostParenRange(s, i);
  }

  /** How the file name below splits around its year range. */
  lemma ShippedFileNameParts()
    ensures "상위 출생신고이름현황(2008~2009) 여.xls" == "상위 출생신고이름현황" + "(" + "2008" + ['~'] + "2009" + ")" + " 여.xls"
    ensures '(' !in "상위 출생신고이름현황"
  {
  }

  /** The spreadsheets the analyser lists are named like this one, which yields "2008-2009". */
  lemma ExtractYearShippedFileName()
    ensures ExtractYearFromFilename("상위 출생신고이름현황(2008~2009) 여.xls") == "2008-2009"
  {
    ShippedFileNameParts();
    ExtractYearParenthesised("상위 출생신고이름현황", "2008", '~', "2009", " 여.xls");
  }

  /** With no '(' anywhere, the first run of eight digits is read as two years. */
  lemma {:induction false} ExtractYearEightDigits(prefix: string, y1: string, y2: string, suffix: string)
    requires '(' !in prefix && '(' !in suffix
    requires forall k :: 0 <= k < |prefix| ==> !IsDigit(prefix[k])
    requires FourDigits(y1) && FourDigits(y2)
    ensures ExtractYearFromFilename(prefix + y1 + y2 + suffix) == y1 + "-" + y2
  {
    var s := prefix + y1 + y2 + suffix;
    var i := |prefix|;
    forall j: nat ensures !ParenRangeAt(s, j) {
      if j + 11 <= |s| {
        if j < i {
          assert s[j] == prefix[j];
        } else if j < i + 8 {
          assert s[j] == (y1 + y2)[j - i];
        } else {
          assert s[j] == suffix[j - i - 8];
        }
      }
    }
    assert s[i..i + 4] == y1;
    assert s[i + 4..i + 8] == y2;
    assert EightDigitsAt(s, i) by {
      forall k | i <= k < i + 8 ensures IsDigit(s[k]) {
        if k < i + 4 {
          assert s[k] == y1[k - i];
        } else {
          assert s[k] == y2[k - i - 4];
        }
      }
    }
    forall j: nat | j < i ensures !EightDigitsAt(s, j) {
      assert s[j] == prefix[j];
    }
    assert LeftmostEightDigits(s, i);
  }

  /** A file name without a single digit gives "Unknown". */
  lemma ExtractYearNoDigits(filename: string)
    requires forall k :: 0 <= k < |filename| ==> !IsDigit(filename[k])
    ensures ExtractYearFromFilename(filename) == UNKNOWN
  {
    forall j: nat ensures !ParenRangeAt(filename, j) && !EightDigitsAt(filename, j) {
      if j + 1 < |filename| {
        assert !IsDigit(filename[j + 1]);
        assert !IsDigit(filename[j]);
      }
    }
  }

  // ---------------------------------------------------------------------
  // clean_data
  // ---------------------------------------------------------------------

  /** A spreadsheet cell as pandas reads it: empty (NaN), a number, or text. */
  datatype Cell = Blank | Number(n: nat) | Str(s: string)

  /** A spreadsheet row: 순위 (rank), 이름 (name), 건수 (count). */
  datatype SheetRow = SheetRow(rank: Cell, name: Option<string>, count: Cell)

  predicate IsDigitString(s: string) {
    |s| > 0 && forall k :: 0 <= k < |s| ==> IsDigit(s[k])
  }

  function DigitsValue(s: string): nat
    requires forall k :: 0 <= k < |s| ==> IsDigit(s[k])
  {
    if s == [] then 0
    else
      assert IsDigit(s[|s| - 1]);
      DigitsValue(s[..|s| - 1]) * 10 + (s[|s| - 1] as int - '0' as int)
  }

  /** `pd.to_numeric(cell, errors='coerce')`: a number, or NaN (Blank) when the cell does not read as one. */
  function ToNumeric(c: Cell): (r: Cell)
    ensures r.Blank? || r.Number?
    ensures c.Number? ==> r == c
    ensures c.Blank? ==> r.Blank?
    ensures c.Str? ==> (r.Number? <==> IsDigitString(c.s))
    ensures c.Str? && r.Number? ==> r.n == DigitsValue(c.s)
  {
    match c
    case Blank => Blank
    case Number(n) => Number(n)
    case Str(s) => if IsDigitString(s) then Number(DigitsValue(s)) else Blank
  }

  predicate ContainsAt(s: string, sub: string, i: nat) {
    i + |sub| <= |s| && s[i..i + |sub|] == sub
  }

  predicate Contains(s: string, sub: string) {
    exists i: nat | i <= |s| :: ContainsAt(s, sub, i)
  }

  /** `str.contains('기타|합계|전체')`: the name of an "other", "total" or "all" summary row. */
  predicate IsSummaryName(name: string) {
    Contains(name, "기타") || Contains(name, "합계") || Contains(name, "전체")
  }

  predicate HasName(row: SheetRow) { row.name.Some? }

  predicate IsNotSummary(row: SheetRow) { row.name.Some? ==> !IsSummaryName(row.name.value) }

  predicate HasNumericRank(row: SheetRow) { ToNumeric(row.rank).Number? }

  /** What the three filters of clean_data demand of a row together. */
  predicate KeepRow(row: SheetRow) {
    HasName(row) && IsNotSummary(row) && HasNumericRank(row)
  }

  /** `df[mask]`: the rows satisfying `keep`, in their original order. */
  function Filter(rows: seq<SheetRow>, keep: SheetRow -> bool): (r: seq<SheetRow>)
    ensures |r| <= |rows|
    ensures forall x :: x in r <==> x in rows && keep(x)
  {
    if rows == [] then []
    else (if keep(rows[0]) then [rows[0]] else []) + Filter(rows[1..], keep)
  }

  /** A row passing the test is kept as often as it occurs, any other row never. */
  lemma {:induction false} FilterCounts(rows: seq<SheetRow>, keep: SheetRow -> bool)
    ensures forall x :: multiset(Filter(rows, keep))[x] == if keep(x) then multiset(rows)[x] else 0
  {
    if rows != [] {
      FilterCounts(rows[1..], keep);
      assert rows == [rows[0]] + rows[1..];
    }
  }

  /** `a` is `b` with some rows removed, the rest in their original order. */
  ghost predicate IsSubsequence<T>(a: seq<T>, b: seq<T>)
    decreases |b|
  {
    if a == [] then true
    else if b == [] then false
    else (a[0] == b[0] && IsSubsequence(a[1..], b[1..])) || IsSubsequence(a, b[1..])
  }

  /** Appending an element to the longer sequence, or to both, keeps a subsequence one. */
  lemma {:induction false} SubsequenceSnoc<T>(a: seq<T>, b: seq<T>, x: T)
    requires IsSubsequence(a, b)
    ensures IsSubsequence(a, b + [x]) && IsSubsequence(a + [x], b + [x])
    decreases |b|
  {
    if b == [] {
      assert a == [];
      assert ([x] + [])[1..] == [];
    } else if a == [] {
      SubsequenceSnoc(a, b[1..], x);
      assert (b + [x])[1..] == b[1..] + [x];
    } else {
      assert (b + [x])[1..] == b[1..] + [x];
      assert (a + [x])[1..] == a[1..] + [x];
      if a[0] == b[0] && IsSubsequence(a[1..], b[1..]) {
        SubsequenceSnoc(a[1..], b[1..], x);
      } else {
        SubsequenceSnoc(a, b[1..], x);
      }
    }
  }

  function WithNumericCount(row: SheetRow): SheetRow {
    row.(count := ToNumeric(row.count))
  }

  function ConvertCounts(rows: seq<SheetRow>): (r: seq<SheetRow>)
    ensures |r| == |rows| && forall i :: 0 <= i < |rows| ==> r[i] == WithNumericCount(rows[i])
  {
    seq(|rows|, i requires 0 <= i < |rows| => WithNumericCount(rows[i]))
  }

  /**
   * clean_data: drop rows without a name, rows whose name marks a summary
   * row, and rows whose rank is not numeric; then read the counts as numbers.
   */
  function CleanData(rows: seq<SheetRow>): (cleaned: seq<SheetRow>)
    ensures |cleaned| <= |rows|
    ensures forall i :: 0 <= i < |cleaned| ==> KeepRow(cleaned[i])
    ensures forall i :: 0 <= i < |cleaned| ==> cleaned[i].count.Number? || cleaned[i].count.Blank?
  {
    var named := Filter(rows, HasName);
    var genuine := Filter(named, IsNotSummary);
    var ranked := Filter(genuine, HasNumericRank);
    assert forall i :: 0 <= i < |ranked| ==> ranked[i] in ranked;
    ConvertCounts(ranked)
  }

  /** The three successive filters of clean_data keep exactly the rows `KeepRow` accepts. */
  lemma {:induction false} ThreeFiltersAreOne(rows: seq<SheetRow>)
    ensures Filter(Filter(Filter(rows, HasName), IsNotSummary), HasNumericRank) == Filter(rows, KeepRow)
  {
    if rows != [] {
      ThreeFiltersAreOne(rows[1..]);
      var x := rows[0];
      var f1 := Filter(rows, HasName);
      if HasName(x) {
        assert f1 == [x] + Filter(rows[1..], HasName);
        assert f1[1..] == Filter(rows[1..], HasName);
        var f2 := Filter(f1, IsNotSummary);
        if IsNotSummary(x) {
          assert f2 == [x] + Filter(Filter(rows[1..], HasName), IsNotSummary);
          assert f2[1..] == Filter(Filter(rows[1..], HasName), IsNotSummary);
        } else {
          assert f2 == Filter(Filter(rows[1..], HasName), IsNotSummary);
        }
      } else {
        assert f1 == Filter(rows[1..], HasName);
      }
    }
  }

  lemma {:induction false} FilterIsSubsequence(rows: seq<SheetRow>, keep: SheetRow -> bool)
    ensures IsSubsequence(Filter(rows, keep), rows)
  {
    if rows != [] {
      FilterIsSubsequence(rows[1..], keep);
      var rest := Filter(rows[1..], keep);
      if keep(rows[0]) {
        assert Filter(rows, keep) == [rows[0]] + rest;
        assert ([rows[0]] + rest)[1..] == rest;
      } else {
        assert Filter(rows, keep) == rest;
        if rest != [] {
          assert IsSubsequence(rest, rows[1..]);
        }
      }
    }
  }

  lemma {:induction false} FilterAllKept(rows: seq<SheetRow>, keep: SheetRow -> bool)
    requires forall i :: 0 <= i < |rows| ==> keep(rows[i])
    ensures Filter(rows, keep) == rows
  {
    if rows != [] {
      FilterAllKept(rows[1..], keep);
    }
  }

  /**
   * The cleaned rows are the input rows that pass all three filters, in
   * their original order, each with its count read as a number.
   */
  lemma CleanDataKeepsOrderedSubsequence(rows: seq<SheetRow>)
    ensures IsSubsequence(Filter(rows, KeepRow), rows)
    ensures CleanData(rows) == ConvertCounts(Filter(rows, KeepRow))
  {
    FilterIsSubsequence(rows, KeepRow);
    ThreeFiltersAreOne(rows);
  }

  /** Cleaning already cleaned rows changes nothing. */
  lemma CleanDataIdempotent(rows: seq<SheetRow>)
    ensures CleanData(CleanData(rows)) == CleanData(rows)
  {
    var c := CleanData(rows);
    FilterAllKept(c, HasName);
    FilterAllKept(c, IsNotSummary);
    FilterAllKept(c, HasNumericRank);
  }

  // ---------------------------------------------------------------------
  // Tagging with the year range (read_excel_file, after clean_data)
  // ---------------------------------------------------------------------

  /** A row of the combined data: 이름, 건수 and 연도범위. */
  datatype Record = Record(name: string, count: Cell, period: string)

  function ToRecords(cleaned: seq<SheetRow>, period: string): (r: seq<Record>)
    requires forall i :: 0 <= i < |cleaned| ==> cleaned[i].name.Some?
    ensures |r| == |cleaned|
    ensures forall i :: 0 <= i < |r| ==>
      r[i] == Record(cleaned[i].name.value, cleaned[i].count, period)
  {
    if cleaned == [] then []
    else [Record(cleaned[0].name.value, cleaned[0].count, period)] + ToRecords(cleaned[1..], period)
  }

  /** The cleaned rows of one spreadsheet, each tagged with the year range of its file name. */
  function SheetRecords(filename: string, rows: seq<SheetRow>): (r: seq<Record>)
    ensures |r| == |CleanData(rows)| <= |rows|
    ensures forall i :: 0 <= i < |r| ==>
      r[i].name == CleanData(rows)[i].name.value && r[i].count == CleanData(rows)[i].count
    ensures forall i :: 0 <= i < |r| ==> r[i].period == ExtractYearFromFilename(filename)
    ensures forall i :: 0 <= i < |r| ==> !IsSummaryName(r[i].name)
  {
    var cleaned := CleanData(rows);
    ToRecords(cleaned, ExtractYearFromFilename(filename))
  }

  // ---------------------------------------------------------------------
  // groupby('이름')['건수'].sum()
  // ---------------------------------------------------------------------

  /** A count as pandas sums it: NaN is skipped. */
  function CountValue(c: Cell): nat {
    if c.Number? then c.n else 0
  }

  /** The sum of the counts of the rows named `name`. */
  function TotalOf(rows: seq<Record>, name: string): nat {
    if rows == [] then 0
    else TotalOf(rows[..|rows| - 1], name)
         + (if rows[|rows| - 1].name == name then CountValue(rows[|rows| - 1].count) else 0)
  }

  /** The distinct strings of `xs`, in order of first appearance. */
  function Unique(xs: seq<string>): (u: seq<string>)
    ensures forall a, b :: 0 <= a < b < |u| ==> u[a] != u[b]
    ensures forall x :: x in u <==> x in xs
  {
    if xs == [] then []
    else
      var prev := Unique(xs[..|xs| - 1]);
      assert forall x :: x in xs <==> x in xs[..|xs| - 1] || x == xs[|xs| - 1];
      if xs[|xs| - 1] in prev then prev else prev + [xs[|xs| - 1]]
  }

  function NamesOf(rows: seq<Record>): (names: seq<string>)
    ensures |names| == |rows| && forall i :: 0 <= i < |rows| ==> names[i] == rows[i].name
  {
    seq(|rows|, i requires 0 <= i < |rows| => rows[i].name)
  }

  datatype NameTotal = NameTotal(name: string, total: nat)

  predicate DistinctNames(g: seq<NameTotal>) {
    forall a, b :: 0 <= a < b < |g| ==> g[a].name != g[b].name
  }

  predicate NonIncreasing(g: seq<NameTotal>) {
    forall a, b :: 0 <= a < b < |g| ==> g[a].total >= g[b].total
  }

  function NameSet(rows: seq<Record>): set<string> {
    set i | 0 <= i < |rows| :: rows[i].name
  }

  function TotalNames(g: seq<NameTotal>): set<string> {
    set i | 0 <= i < |g| :: g[i].name
  }

  /** `groupby('이름')['건수'].sum()`: one row per distinct name, holding that name's total count. */
  function GroupByName(rows: seq<Record>): (g: seq<NameTotal>)
    ensures DistinctNames(g)
    ensures TotalNames(g) == NameSet(rows)
    ensures forall i :: 0 <= i < |g| ==> g[i].total == TotalOf(rows, g[i].name)
  {
    var names := Unique(NamesOf(rows));
    var g := seq(|names|, i requires 0 <= i < |names| => NameTotal(names[i], TotalOf(rows, names[i])));
    assert forall n :: n in TotalNames(g) <==> n in names by {
      forall n ensures n in TotalNames(g) <==> n in names {
        if n in names {
          var i :| 0 <= i < |names| && names[i] == n;
          assert g[i].name == n;
        }
      }
    }
    assert forall n :: n in NameSet(rows) <==> n in NamesOf(rows) by {
      forall n ensures n in NameSet(rows) <==> n in NamesOf(rows) {
        if n in NamesOf(rows) {
          var i :| 0 <= i < |rows| && NamesOf(rows)[i] == n;
          assert rows[i].name == n;
        }
      }
    }
    g
  }

  // ---------------------------------------------------------------------
  // sort_values('건수', ascending=False)
  // ---------------------------------------------------------------------

  /** Putting an entry no smaller than the head in front of a descending table keeps it descending. */
  lemma ConsNonIncreasing(h: NameTotal, t: seq<NameTotal>)
    requires NonIncreasing(t)
    requires t == [] || h.total >= t[0].total
    ensures NonIncreasing([h] + t)
  {
    var r := [h] + t;
    forall a, b | 0 <= a < b < |r| ensures r[a].total >= r[b].total {
      if a == 0 {
        assert r[b] == t[b - 1];
      } else {
        assert r[a] == t[a - 1] && r[b] == t[b - 1];
      }
    }
  }

  /** Insert `x` into a descending table in front of the first entry it is not smaller than. */
  function InsertDesc(x: NameTotal, s: seq<NameTotal>): (r: seq<NameTotal>)
    requires NonIncreasing(s)
    ensures |r| == |s| + 1
    ensures multiset(r) == multiset(s) + multiset{x}
    ensures NonIncreasing(r)
    ensures r[0] == x || (s != [] && r[0] == s[0])
  {
    if s == [] || x.total >= s[0].total then
      ConsNonIncreasing(x, s);
      [x] + s
    else
      assert s == [s[0]] + s[1..];
      var rest := InsertDesc(x, s[1..]);
      ConsNonIncreasing(s[0], rest);
      [s[0]] + rest
  }

  /**
   * A descending sort by total.  pandas' default sort is not stable, so
   * the order among equal totals is not part of the contract.
   */
  function SortDesc(s: seq<NameTotal>): (r: seq<NameTotal>)
    ensures |r| == |s|
    ensures multiset(r) == multiset(s)
    ensures NonIncreasing(r)
  {
    if s == [] then []
    else
      assert s == [s[0]] + s[1..];
      InsertDesc(s[0], SortDesc(s[1..]))
  }

  lemma {:induction false} InsertDescKeepsDistinctNames(x: NameTotal, s: seq<NameTotal>)
    requires NonIncreasing(s) && DistinctNames(s)
    requires forall i :: 0 <= i < |s| ==> s[i].name != x.name
    ensures DistinctNames(InsertDesc(x, s))
  {
    if s != [] && x.total < s[0].total {
      InsertDescKeepsDistinctNames(x, s[1..]);
      var rest := InsertDesc(x, s[1..]);
      forall t | 0 <= t < |rest| ensures rest[t].name != s[0].name {
        assert rest[t] in multiset(s[1..]) + multiset{x};
        if rest[t] != x {
          var q :| 0 <= q < |s[1..]| && s[1..][q] == rest[t];
        }
      }
    }
  }

  /** Sorting a table whose names are distinct keeps them distinct. */
  lemma {:induction false} SortDescKeepsDistinctNames(s: seq<NameTotal>)
    requires DistinctNames(s)
    ensures DistinctNames(SortDesc(s))
  {
    if s != [] {
      SortDescKeepsDistinctNames(s[1..]);
      var sorted := SortDesc(s[1..]);
      forall i | 0 <= i < |sorted| ensures sorted[i].name != s[0].name {
        assert sorted[i] in multiset(s[1..]);
        var q :| 0 <= q < |s[1..]| && s[1..][q] == sorted[i];
      }
      InsertDescKeepsDistinctNames(s[0], sorted);
    }
  }

  /** A permutation has the same elements, hence the same names. */
  lemma SameElementsSameNames(a: seq<NameTotal>, b: seq<NameTotal>)
    requires multiset(a) == multiset(b)
    ensures TotalNames(a) == TotalNames(b)
    ensures forall i :: 0 <= i < |b| ==> b[i] in a
  {
    forall n | n in TotalNames(a) ensures n in TotalNames(b) {
      var i :| 0 <= i < |a| && a[i].name == n;
      assert a[i] in multiset(b);
      var j :| 0 <= j < |b| && b[j] == a[i];
    }
    forall n | n in TotalNames(b) ensures n in TotalNames(a) {
      var i :| 0 <= i < |b| && b[i].name == n;
      assert b[i] in multiset(a);
      var j :| 0 <= j < |a| && a[j] == b[i];
    }
    forall i | 0 <= i < |b| ensures b[i] in a {
      assert b[i] in multiset(a);
    }
  }

  /** The per-name totals of `rows`, largest first. */
  function RankedTotals(rows: seq<Record>): (r: seq<NameTotal>)
    ensures DistinctNames(r) && NonIncreasing(r)
    ensures TotalNames(r) == NameSet(rows)
    ensures forall i :: 0 <= i < |r| ==> r[i].total == TotalOf(rows, r[i].name)
  {
    var g := GroupByName(rows);
    var sorted := SortDesc(g);
    SortDescKeepsDistinctNames(g);
    SameElementsSameNames(g, sorted);
    assert forall i :: 0 <= i < |sorted| ==> sorted[i] in g;
    sorted
  }

  // ---------------------------------------------------------------------
  // create_overall_ranking and create_period_analysis
  // ---------------------------------------------------------------------

  /** A row of the overall ranking: 이름, 건수 and 전체순위. */
  datatype RankedName = RankedName(name: string, total: nat, rank: nat)

  function RankedNames(r: seq<RankedName>): set<string> {
    set i | 0 <= i < |r| :: r[i].name
  }

  /**
   * create_overall_ranking: one row per distinct name holding the sum of
   * its counts over all rows, largest first, ranked 1, 2, ..., n in row order.
   */
  function OverallRanking(rows: seq<Record>): (r: seq<RankedName>)
    ensures forall a, b :: 0 <= a < b < |r| ==> r[a].name != r[b].name
    ensures RankedNames(r) == NameSet(rows)
    ensures forall i :: 0 <= i < |r| ==> r[i].total == TotalOf(rows, r[i].name)
    ensures forall a, b :: 0 <= a < b < |r| ==> r[a].total >= r[b].total
    ensures forall i :: 0 <= i < |r| ==> r[i].rank == i + 1
  {
    var totals := RankedTotals(rows);
    var r := seq(|totals|, i requires 0 <= i < |totals| => RankedName(totals[i].name, totals[i].total, i + 1));
    assert forall i :: 0 <= i < |r| ==> r[i].name == totals[i].name && r[i].total == totals[i].total;
    assert RankedNames(r) == TotalNames(totals) by {
      forall n | n in TotalNames(totals) ensures n in RankedNames(r) {
        var i :| 0 <= i < |totals| && totals[i].name == n;
        assert r[i].name == n;
      }
    }
    r
  }

  /** `combined_data[combined_data['연도범위'] == period]` */
  function PeriodRows(rows: seq<Record>, period: string): (r: seq<Record>)
    ensures forall i :: 0 <= i < |r| ==> r[i].period == period
    ensures forall x :: x in r <==> x in rows && x.period == period
  {
    if rows == [] then []
    else PeriodRows(rows[..|rows| - 1], period)
         + (if rows[|rows| - 1].period == period then [rows[|rows| - 1]] else [])
  }

  /** A row of the period is kept as often as it occurs, a row of another period never. */
  lemma {:induction false} PeriodRowsCounts(rows: seq<Record>, period: string)
    ensures forall x :: multiset(PeriodRows(rows, period))[x] == if x.period == period then multiset(rows)[x] else 0
  {
    if rows != [] {
      PeriodRowsCounts(rows[..|rows| - 1], period);
      assert rows == rows[..|rows| - 1] + [rows[|rows| - 1]];
    }
  }

  /** The rows of a period keep the order they have in the combined data. */
  lemma {:induction false} PeriodRowsInOrder(rows: seq<Record>, period: string)
    ensures IsSubsequence(PeriodRows(rows, period), rows)
  {
    if rows != [] {
      var init := rows[..|rows| - 1];
      var last := rows[|rows| - 1];
      PeriodRowsInOrder(init, period);
      SubsequenceSnoc(PeriodRows(init, period), init, last);
      assert init + [last] == rows;
      if last.period == period {
        assert PeriodRows(rows, period) == PeriodRows(init, period) + [last];
      } else {
        assert PeriodRows(rows, period) == PeriodRows(init, period);
      }
    }
  }

  /** The sum of the counts of the rows with this name and this year range, summed directly. */
  function PeriodTotalOf(rows: seq<Record>, period: string, name: string): nat {
    if rows == [] then 0
    else
      var last := rows[|rows| - 1];
      PeriodTotalOf(rows[..|rows| - 1], period, name)
      + (if last.name == name && last.period == period then CountValue(last.count) else 0)
  }

  /** A period's total for a name counts exactly that period's rows with that name. */
  lemma {:induction false} PeriodTotalOnlyThatPeriod(rows: seq<Record>, period: string, name: string)
    ensures TotalOf(PeriodRows(rows, period), name) == PeriodTotalOf(rows, period, name)
  {
    if rows != [] {
      var init := rows[..|rows| - 1];
      var last := rows[|rows| - 1];
      PeriodTotalOnlyThatPeriod(init, period, name);
      var pr := PeriodRows(rows, period);
      if last.period == period {
        assert pr == PeriodRows(init, period) + [last];
        assert pr[..|pr| - 1] == PeriodRows(init, period);
      } else {
        assert pr == PeriodRows(init, period);
      }
    }
  }

  /**
   * One entry of create_period_analysis: the rows of one year range summed
   * per name, largest first.
   */
  function PeriodRanking(rows: seq<Record>, period: string): (r: seq<NameTotal>)
    ensures DistinctNames(r) && NonIncreasing(r)
    ensures TotalNames(r) == NameSet(PeriodRows(rows, period))
    ensures forall i :: 0 <= i < |r| ==> r[i].total == TotalOf(PeriodRows(rows, period), r[i].name)
  {
    RankedTotals(PeriodRows(rows, period))
  }

  /** The year ranges occurring in the rows. */
  function PeriodSet(rows: seq<Record>): set<string> {
    set i | 0 <= i < |rows| :: rows[i].period
  }

  /** `combined_data['연도범위'].unique()` lists exactly the year ranges occurring in the rows. */
  lemma PeriodSetMembers(rows: seq<Record>)
    ensures forall p :: p in PeriodSet(rows) <==> p in Unique(PeriodsOf(rows))
  {
    forall p | p in PeriodsOf(rows) ensures p in PeriodSet(rows) {
      var i :| 0 <= i < |rows| && PeriodsOf(rows)[i] == p;
    }
  }

  function PeriodsOf(rows: seq<Record>): (periods: seq<string>)
    ensures |periods| == |rows| && forall i :: 0 <= i < |rows| ==> periods[i] == rows[i].period
  {
    seq(|rows|, i requires 0 <= i < |rows| => rows[i].period)
  }

  /** The dictionary filled for the year ranges `periods`, taken in order: each mapped to its ranking. */
  function PeriodRankings(rows: seq<Record>, periods: seq<string>): map<string, seq<NameTotal>> {
    if periods == [] then map[]
    else
      var last := periods[|periods| - 1];
      PeriodRankings(rows, periods[..|periods| - 1])[last := PeriodRanking(rows, last)]
  }

  /** Its keys are the periods listed, each mapped to that period's ranking. */
  lemma {:induction false} PeriodRankingsSpec(rows: seq<Record>, periods: seq<string>)
    ensures forall p :: p in PeriodRankings(rows, periods) <==> p in periods
    ensures forall p :: p in PeriodRankings(rows, periods) ==> PeriodRankings(rows, periods)[p] == PeriodRanking(rows, p)
  {
    if periods != [] {
      var init := periods[..|periods| - 1];
      PeriodRankingsSpec(rows, init);
      assert periods == init + [periods[|periods| - 1]];
    }
  }

  /**
   * The loop of create_period_analysis over the year ranges `periods`: the
   * ranking of each range's rows is stored in the dictionary under the range.
   */
  method FillRankings(rows: seq<Record>, periods: seq<string>) returns (rankings: map<string, seq<NameTotal>>)
    ensures rankings == PeriodRankings(rows, periods)
  {
    rankings := map[];
    for i := 0 to |periods|
      invariant rankings == PeriodRankings(rows, periods[..i])
    {
      assert periods[..i + 1][..i] == periods[..i];
      rankings := rankings[periods[i] := PeriodRanking(rows, periods[i])];
    }
    assert periods[..|periods|] == periods;
  }

  /**
   * create_period_analysis's dictionary: for each distinct year range, in
   * order of first appearance, the ranking of that range's rows.
   */
  method RankPeriods(rows: seq<Record>) returns (rankings: map<string, seq<NameTotal>>)
    ensures rankings.Keys == PeriodSet(rows)
    ensures forall p :: p in rankings ==> rankings[p] == PeriodRanking(rows, p)
  {
    var periods := Unique(PeriodsOf(rows));
    rankings := FillRankings(rows, periods);
    PeriodRankingsSpec(rows, periods);
    PeriodSetMembers(rows);
  }

  /**
   * KoreanGirlsNamesAnalyzer after its files are loaded: the combined
   * rows, and the two results it keeps in fields.
   */
  class NamesAnalyzer {
    var combinedData: seq<Record>
    var overallRanking: seq<RankedName>
    var periodRankings: map<string, seq<NameTotal>>

    /** The analyser once load_all_files has concatenated the cleaned, tagged rows. */
    constructor (combined: seq<Record>)
      ensures combinedData == combined && overallRanking == [] && periodRankings == map[]
    {
      combinedData := combined;
      overallRanking := [];
      periodRankings := map[];
    }

    /** create_overall_ranking: computes the overall ranking and keeps it in `overallRanking`. */
    method CreateOverallRanking() returns (ranking: seq<RankedName>)
      modifies this`overallRanking
      ensures ranking == OverallRanking(combinedData)
      ensures overallRanking == ranking
    {
      ranking := OverallRanking(combinedData);
      overallRanking := ranking;
    }

    /**
     * create_period_analysis: one ranking per distinct year range of the
     * combined rows, kept in `periodRankings`.
     */
    method CreatePeriodAnalysis() returns (rankings: map<string, seq<NameTotal>>)
      modifies this`periodRankings
      ensures rankings.Keys == PeriodSet(combinedData)
      ensures forall p :: p in rankings ==> rankings[p] == PeriodRanking(combinedData, p)
      ensures periodRankings == rankings
    {
      rankings := RankPeriods(combinedData);
      periodRankings := rankings;
    }
  }
}
