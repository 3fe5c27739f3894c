/** The database data set: it turns a statement's result into the ordered
    sequence of (key, value) pairs a chart draws.

    Which columns give the key and the value is either inferred from the
    number of result columns (no mapping) or named by a mapping whose KEY slot
    is optional. Without a key column the keys are the row positions 0, 1, 2, ...
    Every failure is detected before a data set exists. */
module GraphDatabase {
  import opened Wrappers
  import opened ResultCursor

  /** The optional column definition passed next to the statement. */
  datatype Mapping = Automatic | Explicit(key: Option<string>, value: Option<string>)

  /** A key of the data set: a row position or the value of the key column. */
  datatype Key = Index(i: nat) | Col(v: Value)

  datatype Pair = Pair(key: Key, value: Value)

  datatype Error = NotExecuted | TooManyColumns | MissingColumn

  /** Where the key of each pair comes from once the mapping has been validated. */
  datatype KeySource = RowIndex | Column(name: string)

  datatype Plan = Plan(key: KeySource, value: string)

  /** The plan's columns are among the given ones. */
  predicate Covers(plan: Plan, columns: seq<string>) {
    plan.value in columns && (plan.key.Column? ==> plan.key.name in columns)
  }

  /** The row carries the columns the plan reads. */
  predicate Fits(plan: Plan, row: Row) {
    plan.value in row && (plan.key.Column? ==> plan.key.name in row)
  }

  /** Validation: the statement must have been executed; without a mapping the
      result must have one or two columns; with a mapping the value column must
      be named and present, and so must the key column when one is named.
      Execution is checked first, before any column is looked at, and that is
      stated (NotExecutedRejected). VALUE is checked before KEY, which cannot be
      observed, since both faults give MissingColumn. */
  function Choose(c: Cursor, m: Mapping): (r: Result<Plan, Error>)
    ensures r.Ok? ==> c.executed && Covers(r.value, c.columns)
    ensures r.Ok? && m.Explicit? ==> r.value.key.RowIndex? == m.key.None?
    ensures r.Ok? && m.Automatic? ==> r.value.key.RowIndex? == (|c.columns| == 1)
  {
    if !c.executed then Err(NotExecuted)
    else match m
      case Automatic =>
        if |c.columns| == 1 then Ok(Plan(RowIndex, c.columns[0]))
        else if |c.columns| == 2 then Ok(Plan(Column(c.columns[0]), c.columns[1]))
        else Err(TooManyColumns)
      case Explicit(key, value) =>
        if value.None? || value.value !in c.columns then Err(MissingColumn)
        else if key.Some? && key.value !in c.columns then Err(MissingColumn)
        else Ok(Plan(if key.Some? then Column(key.value) else RowIndex, value.value))
  }

  /** The pair resolved from the row at position `index`: keyed by the position
      when the plan names no key column, otherwise by that column's value, and
      valued by the value column; every other column of the row is ignored. */
  function RowPair(row: Row, index: nat, plan: Plan): Pair
    requires Fits(plan, row)
  {
    Pair(if plan.key.RowIndex? then Index(index) else Col(row[plan.key.name]), row[plan.value])
  }

  /** Two rows that agree on the plan's columns give the same pair at the same
      position, whatever else they hold: every other column is ignored. */
  lemma RowPairIgnoresOtherColumns(r1: Row, r2: Row, index: nat, plan: Plan)
    requires Fits(plan, r1) && Fits(plan, r2)
    requires r1[plan.value] == r2[plan.value]
    requires plan.key.Column? ==> r1[plan.key.name] == r2[plan.key.name]
    ensures RowPair(r1, index, plan) == RowPair(r2, index, plan)
  {
  }

  /** The pairs of all rows, in row order; each row extends the ones before it. */
  function Apply(rows: seq<Row>, plan: Plan): (ps: seq<Pair>)
    requires forall i :: 0 <= i < |rows| ==> Fits(plan, rows[i])
    ensures |ps| == |rows|
  {
    if rows == [] then []
    else Apply(rows[..|rows| - 1], plan) + [RowPair(rows[|rows| - 1], |rows| - 1, plan)]
  }

  lemma {:induction false} ApplyAt(rows: seq<Row>, plan: Plan, i: nat)
    requires forall j :: 0 <= j < |rows| ==> Fits(plan, rows[j])
    requires i < |rows|
    ensures Apply(rows, plan)[i] == RowPair(rows[i], i, plan)
  {
    var n := |rows| - 1;
    if i < n {
      ApplyAt(rows[..n], plan, i);
    }
  }

  /** The whole construction: validate, then resolve every row. */
  function Resolve(c: Cursor, m: Mapping): (r: Result<seq<Pair>, Error>)
    requires c.WellFormed()
    ensures r.Ok? <==> Choose(c, m).Ok?
    ensures r.Err? ==> r.error == Choose(c, m).error
    ensures r.Ok? ==> |r.value| == |c.rows|
  {
    match Choose(c, m)
    case Err(e) => Err(e)
    case Ok(plan) => Ok(Apply(c.rows, plan))
  }

  /** Every successful construction pairs row i with the key and value the plan names. */
  lemma ResolvedPairs(c: Cursor, m: Mapping)
    requires c.WellFormed() && Choose(c, m).Ok?
    ensures Resolve(c, m).Ok? && |Resolve(c, m).value| == |c.rows|
    ensures forall i :: 0 <= i < |c.rows| ==>
      Fits(Choose(c, m).value, c.rows[i]) &&
      Resolve(c, m).value[i] == RowPair(c.rows[i], i, Choose(c, m).value)
  {
    var plan := Choose(c, m).value;
    forall i | 0 <= i < |c.rows|
      ensures Fits(plan, c.rows[i]) && Resolve(c, m).value[i] == RowPair(c.rows[i], i, plan)
    {
      ApplyAt(c.rows, plan, i);
    }
  }

  /** No mapping, two columns: the first column is the key, the second the value. */
  lemma AutomaticTwoColumns(c: Cursor)
    requires c.WellFormed() && c.executed && |c.columns| == 2
    ensures Resolve(c, Automatic).Ok?
    ensures |Resolve(c, Automatic).value| == |c.rows|
    ensures forall i :: 0 <= i < |c.rows| ==>
      c.columns[0] in c.rows[i] && c.columns[1] in c.rows[i] &&
      Resolve(c, Automatic).value[i] == Pair(Col(c.rows[i][c.columns[0]]), c.rows[i][c.columns[1]])
  {
    ResolvedPairs(c, Automatic);
  }

  /** No mapping, one column: the keys are the row positions, the values that column. */
  lemma AutomaticSingleColumn(c: Cursor)
    requires c.WellFormed() && c.executed && |c.columns| == 1
    ensures Resolve(c, Automatic).Ok?
    ensures |Resolve(c, Automatic).value| == |c.rows|
    ensures forall i :: 0 <= i < |c.rows| ==>
      c.columns[0] in c.rows[i] &&
      Resolve(c, Automatic).value[i] == Pair(Index(i), c.rows[i][c.columns[0]])
  {
    ResolvedPairs(c, Automatic);
  }

  /** No mapping and three or more columns: the key and value cannot be inferred. */
  lemma AutomaticTooManyColumns(c: Cursor)
    requires c.WellFormed() && c.executed && |c.columns| >= 3
    ensures Resolve(c, Automatic) == Err(TooManyColumns)
  {
  }

  /** KEY and VALUE both named and present: the pairs read exactly those two
      columns of each row, whatever other columns the result has. */
  lemma SpecifiedKeyValue(c: Cursor, key: string, value: string)
    requires c.WellFormed() && c.executed && key in c.columns && value in c.columns
    ensures Resolve(c, Explicit(Some(key), Some(value))).Ok?
    ensures |Resolve(c, Explicit(Some(key), Some(value))).value| == |c.rows|
    ensures forall i :: 0 <= i < |c.rows| ==>
      key in c.rows[i] && value in c.rows[i] &&
      Resolve(c, Explicit(Some(key), Some(value))).value[i] == Pair(Col(c.rows[i][key]), c.rows[i][value])
  {
    ResolvedPairs(c, Explicit(Some(key), Some(value)));
  }

  /** Only VALUE named and present: the keys are the row positions. */
  lemma SpecifiedValueOnly(c: Cursor, value: string)
    requires c.WellFormed() && c.executed && value in c.columns
    ensures Resolve(c, Explicit(None, Some(value))).Ok?
    ensures |Resolve(c, Explicit(None, Some(value))).value| == |c.rows|
    ensures forall i :: 0 <= i < |c.rows| ==>
      value in c.rows[i] &&
      Resolve(c, Explicit(None, Some(value))).value[i] == Pair(Index(i), c.rows[i][value])
  {
    ResolvedPairs(c, Explicit(None, Some(value)));
  }

  /** A named KEY column the result lacks is a missing column, whatever VALUE says. */
  lemma MissingKeyColumn(c: Cursor, key: string, value: Option<string>)
    requires c.WellFormed() && c.executed && key !in c.columns
    ensures Resolve(c, Explicit(Some(key), value)) == Err(MissingColumn)
  {
  }

  /** A VALUE column that is not named, or that the result lacks, is a missing column. */
  lemma MissingValueColumn(c: Cursor, key: Option<string>, value: Option<string>)
    requires c.WellFormed() && c.executed && (value.None? || value.value !in c.columns)
    ensures Resolve(c, Explicit(key, value)) == Err(MissingColumn)
  {
  }

  /** A statement that was only prepared is refused before anything else is looked at. */
  lemma NotExecutedRejected(c: Cursor, m: Mapping)
    requires c.WellFormed() && !c.executed
    ensures Resolve(c, m) == Err(NotExecuted)
  {
  }

  /** The data set: the pairs are buffered once, when it is built, and never change. */
  class DataSet {
    const pairs: seq<Pair>
    /** The statement and validated plan the pairs were resolved from. */
    ghost const statement: Cursor
    ghost const plan: Plan

    /** The data set's invariant: only an executed statement and a plan that reads
        columns it has can give a data set, and the pairs are that plan applied to
        every row of the statement. */
    ghost predicate Valid() {
      statement.WellFormed() && statement.executed && Covers(plan, statement.columns) &&
      (forall j :: 0 <= j < |statement.rows| ==> Fits(plan, statement.rows[j])) &&
      pairs == Apply(statement.rows, plan)
    }

    /** Drains the rows in order, appending one resolved pair per row. */
    constructor (c: Cursor, p: Plan)
      requires c.WellFormed() && c.executed && Covers(p, c.columns)
      ensures Valid() && statement == c && plan == p
      ensures pairs == Apply(c.rows, p)
      ensures Count() == |c.rows|
    {
      var buffer := [];
      var i := 0;
      while i < |c.rows|
        invariant 0 <= i <= |c.rows|
        invariant forall j :: 0 <= j < |c.rows| ==> Fits(p, c.rows[j])
        invariant buffer == Apply(c.rows[..i], p)
      {
        assert c.rows[..i + 1][..i] == c.rows[..i];
        buffer := buffer + [RowPair(c.rows[i], i, p)];
        i := i + 1;
      }
      assert c.rows[..i] == c.rows;
      pairs, statement, plan := buffer, c, p;
    }

    /** Building the data set from a statement and an optional mapping: either one
        of the three errors, and no data set, or a new data set holding the
        resolved pairs. */
    static method Create(c: Cursor, m: Mapping) returns (r: Result<DataSet, Error>)
      requires c.WellFormed()
      ensures r.Err? <==> Resolve(c, m).Err?
      ensures r.Err? ==> r.error == Resolve(c, m).error
      ensures r.Ok? ==> fresh(r.value) && r.value.Valid() && r.value.statement == c
      ensures r.Ok? ==> r.value.pairs == Resolve(c, m).value
    {
      var plan := Choose(c, m);
      if plan.Err? {
        return Err(plan.error);
      }
      var ds := new DataSet(c, plan.value);
      return Ok(ds);
    }

    /** The number of buffered pairs, which is the number of rows the statement yielded. */
    function Count(): (n: nat)
      requires Valid()
      ensures n == |statement.rows|
    {
      |pairs|
    }

    /** Walks the data set in order beside an expected list, counting the pairs
        and comparing each with the next expected one; it matches when every pair
        agreed and the expected list is used up. */
    method Traverse(expected: seq<Pair>) returns (count: nat, matches: bool)
      requires Valid()
      ensures count == Count()
      ensures matches <==> pairs == expected
    {
      count, matches := 0, true;
      while count < |pairs|
        invariant count <= |pairs|
        invariant matches <==> count <= |expected| && pairs[..count] == expected[..count]
      {
        if count >= |expected| || pairs[count] != expected[count] {
          matches := false;
        }
        assert pairs[..count + 1] == pairs[..count] + [pairs[count]];
        assert count < |expected| ==> expected[..count + 1] == expected[..count] + [expected[count]];
        count := count + 1;
      }
      assert pairs[..count] == pairs;
      matches := matches && count == |expected|;
    }
  }
}
