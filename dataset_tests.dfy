/** The data set's test suite: a table graph_pdo_test(id, browser, hits) holding
    six rows, read through different selects and mappings. Each test method
    builds the data set the way the suite does and returns what the suite
    looks at: the error raised, or the count and the outcome of comparing
    the traversal with the expected pairs. */
module DataSetTests {
  import opened Wrappers
  import opened ResultCursor
  import opened GraphDatabase

  function TableRow(browser: string, hits: int): Row {
    map["id" := Int(0), "browser" := Str(browser), "hits" := Int(hits)]
  }

  function BrowserHitsRow(browser: string, hits: int): Row {
    map["browser" := Str(browser), "hits" := Int(hits)]
  }

  function HitsRow(hits: int): Row {
    map["hits" := Int(hits)]
  }

  /** SELECT * FROM graph_pdo_test */
  function SelectAll(): Cursor {
    Cursor(true, ["id", "browser", "hits"],
      [TableRow("Firefox", 2567), TableRow("Opera", 543), TableRow("Safari", 23),
       TableRow("Konquror", 812), TableRow("Lynx", 431), TableRow("wget", 912)])
  }

  /** SELECT browser, hits FROM graph_pdo_test */
  function SelectBrowserHits(): Cursor {
    Cursor(true, ["browser", "hits"],
      [BrowserHitsRow("Firefox", 2567), BrowserHitsRow("Opera", 543), BrowserHitsRow("Safari", 23),
       BrowserHitsRow("Konquror", 812), BrowserHitsRow("Lynx", 431), BrowserHitsRow("wget", 912)])
  }

  /** SELECT hits FROM graph_pdo_test */
  function SelectHits(): Cursor {
    Cursor(true, ["hits"],
      [HitsRow(2567), HitsRow(543), HitsRow(23), HitsRow(812), HitsRow(431), HitsRow(912)])
  }

  /** SELECT browser, hits FROM graph_pdo_test, prepared but never executed. */
  function PreparedBrowserHits(): Cursor {
    Cursor(false, ["browser", "hits"], [])
  }

  /** The expected pairs keyed by browser name. */
  function ByBrowser(): seq<Pair> {
    [Pair(Col(Str("Firefox")), Int(2567)), Pair(Col(Str("Opera")), Int(543)),
     Pair(Col(Str("Safari")), Int(23)), Pair(Col(Str("Konquror")), Int(812)),
     Pair(Col(Str("Lynx")), Int(431)), Pair(Col(Str("wget")), Int(912))]
  }

  /** The expected pairs keyed by row position. */
  function ByPosition(): seq<Pair> {
    [Pair(Index(0), Int(2567)), Pair(Index(1), Int(543)), Pair(Index(2), Int(23)),
     Pair(Index(3), Int(812)), Pair(Index(4), Int(431)), Pair(Index(5), Int(912))]
  }

  lemma BrowserHitsAutomatic()
    ensures SelectBrowserHits().WellFormed()
    ensures Resolve(SelectBrowserHits(), Automatic) == Ok(ByBrowser())
  {
    AutomaticTwoColumns(SelectBrowserHits());
    var ps := Resolve(SelectBrowserHits(), Automatic).value;
    assert ps == ByBrowser() by {
      assert ps[0] == ByBrowser()[0] && ps[1] == ByBrowser()[1] && ps[2] == ByBrowser()[2];
      assert ps[3] == ByBrowser()[3] && ps[4] == ByBrowser()[4] && ps[5] == ByBrowser()[5];
    }
  }

  lemma HitsAutomatic()
    ensures SelectHits().WellFormed()
    ensures Resolve(SelectHits(), Automatic) == Ok(ByPosition())
  {
    AutomaticSingleColumn(SelectHits());
    var ps := Resolve(SelectHits(), Automatic).value;
    assert ps == ByPosition() by {
      assert ps[0] == ByPosition()[0] && ps[1] == ByPosition()[1] && ps[2] == ByPosition()[2];
      assert ps[3] == ByPosition()[3] && ps[4] == ByPosition()[4] && ps[5] == ByPosition()[5];
    }
  }

  /** Mapping KEY browser, VALUE hits over all three columns: the id column is ignored. */
  lemma AllSpecifiedKeyValue()
    ensures SelectAll().WellFormed()
    ensures Resolve(SelectAll(), Explicit(Some("browser"), Some("hits"))) == Ok(ByBrowser())
  {
    SpecifiedKeyValue(SelectAll(), "browser", "hits");
    var ps := Resolve(SelectAll(), Explicit(Some("browser"), Some("hits"))).value;
    assert ps == ByBrowser() by {
      assert ps[0] == ByBrowser()[0] && ps[1] == ByBrowser()[1] && ps[2] == ByBrowser()[2];
      assert ps[3] == ByBrowser()[3] && ps[4] == ByBrowser()[4] && ps[5] == ByBrowser()[5];
    }
  }

  lemma AllSpecifiedValueOnly()
    ensures SelectAll().WellFormed()
    ensures Resolve(SelectAll(), Explicit(None, Some("hits"))) == Ok(ByPosition())
  {
    SpecifiedValueOnly(SelectAll(), "hits");
    var ps := Resolve(SelectAll(), Explicit(None, Some("hits"))).value;
    assert ps == ByPosition() by {
      assert ps[0] == ByPosition()[0] && ps[1] == ByPosition()[1] && ps[2] == ByPosition()[2];
      assert ps[3] == ByPosition()[3] && ps[4] == ByPosition()[4] && ps[5] == ByPosition()[5];
    }
  }

  method TestAutomaticDataSetUsage() returns (count: nat, matches: bool)
    ensures count == 6 && matches
  {
    BrowserHitsAutomatic();
    var r := DataSet.Create(SelectBrowserHits(), Automatic);
    assert r.Ok?;
    count, matches := r.value.Traverse(ByBrowser());
  }

  method TestAutomaticDataSetUsageSingleColumn() returns (count: nat, matches: bool)
    ensures count == 6 && matches
  {
    HitsAutomatic();
    var r := DataSet.Create(SelectHits(), Automatic);
    assert r.Ok?;
    count, matches := r.value.Traverse(ByPosition());
  }

  method TestAutomaticDataSetUsageTooManyRows() returns (e: Error)
    ensures e == TooManyColumns
  {
    AutomaticTooManyColumns(SelectAll());
    var r := DataSet.Create(SelectAll(), Automatic);
    e := r.error;
  }

  method TestSpecifiedDataSetUsage() returns (count: nat, matches: bool)
    ensures count == 6 && matches
  {
    AllSpecifiedKeyValue();
    var r := DataSet.Create(SelectAll(), Explicit(Some("browser"), Some("hits")));
    assert r.Ok?;
    count, matches := r.value.Traverse(ByBrowser());
  }

  method TestSpecifiedDataSetUsageSingleColumn() returns (count: nat, matches: bool)
    ensures count == 6 && matches
  {
    AllSpecifiedValueOnly();
    var r := DataSet.Create(SelectAll(), Explicit(None, Some("hits")));
    assert r.Ok?;
    count, matches := r.value.Traverse(ByPosition());
  }

  method TestSpecifiedDataSetUsageBrokenKey() returns (e: Error)
    ensures e == MissingColumn
  {
    MissingKeyColumn(SelectAll(), "nonexistant", Some("hits"));
    var r := DataSet.Create(SelectAll(), Explicit(Some("nonexistant"), Some("hits")));
    e := r.error;
  }

  method TestSpecifiedDataSetUsageBrokenValue() returns (e: Error)
    ensures e == MissingColumn
  {
    MissingValueColumn(SelectAll(), None, Some("nonexistant"));
    var r := DataSet.Create(SelectAll(), Explicit(None, Some("nonexistant")));
    e := r.error;
  }

  method TestNonExceutedQuery() returns (e: Error)
    ensures e == NotExecuted
  {
    NotExecutedRejected(PreparedBrowserHits(), Automatic);
    var r := DataSet.Create(PreparedBrowserHits(), Automatic);
    e := r.error;
  }

  method TestDataSetCount() returns (count: nat)
    ensures count == 6
  {
    AllSpecifiedValueOnly();
    var r := DataSet.Create(SelectAll(), Explicit(None, Some("hits")));
    assert r.Ok?;
    count := r.value.Count();
  }
}
