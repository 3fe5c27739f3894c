# Database data set for ezcGraph charts

This is a Dafny model of `ezcGraphDatabaseDataSet`, from the Graph/Database tie-in of the Zeta Components. The class takes a PDO statement and an optional column definition with `ezcGraph::KEY` and `ezcGraph::VALUE` slots. From them it builds the ordered, countable list of (key, value) pairs that a chart draws. The class's own source is not part of this model. What is modelled is the behaviour that its test suite, `tests/dataset_pdo_test.php`, pins down.

- `ResultCursor` (cursor.dfy) models the statement as a value. It has three parts:
  - whether the statement has been executed;
  - its result column names, in select order;
  - its rows, each a map from column name to a `Value`.
  
  `WellFormed` states the driver's guarantee that every row carries every listed column.
- `GraphDatabase` (dataset.dfy) holds the data set itself:
  - `Choose` validates the statement and the mapping, and yields a `Plan` that says which column gives the key and which gives the value. Execution is checked first, before any column is looked at, and `NotExecutedRejected` states this for every mapping. In explicit mode VALUE is checked before KEY. That order is the model's choice and cannot be observed, since both faults give `MissingColumn`.
  - `Apply` resolves the rows into pairs.
  - `Resolve` combines the two.
  - The `DataSet` class buffers the pairs. Its constructor accepts only an executed statement and a plan over its columns. It drains the rows one at a time into a buffer, which becomes the immutable `pairs` field. `Valid` ties `pairs` to the statement and plan it was built from.
  - `DataSet.Create` is `new ezcGraphDatabaseDataSet(...)`. It returns one of the three errors and no data set, or a new data set.
  - `Traverse` is the suite's `foreach` loop. It counts the pairs and compares each one with the next expected pair.
- `DataSetTests` (dataset_tests.dfy) models the six-row table `graph_pdo_test(id, browser, hits)` and the selects the suite runs on it. There is one method per test method. Each returns what its test asserts on.
- `Wrappers` (wrappers.dfy) holds the `Option` and `Result` values.

Without a mapping:
- a one-column result is keyed by row position 0, 1, 2, …;
- a two-column result is keyed by its first column and valued by its second;
- any other width fails with `TooManyColumns`.

With a mapping:
- the VALUE column must be named and present, or construction fails with `MissingColumn`;
- a named KEY column must be present, or construction fails with `MissingColumn`;
- without a KEY column the keys are row positions;
- all other columns are ignored.

A statement that was prepared but never executed fails with `NotExecuted`, whatever the mapping says.

## Model

| member | source | states |
|---|---|---|
| `GraphDatabase.Choose` | tests/dataset_pdo_test.php:188-371 | A plan is produced only for an executed statement, and it reads only columns the result has. The key is the row position exactly when no KEY is named (explicit mode) or the result has one column (automatic mode). |
| `GraphDatabase.RowPairIgnoresOtherColumns` | tests/dataset_pdo_test.php:207-247 | `RowPair`, the definition of the pair made from one row, is the subject here. Two rows that agree on the key and value columns give the same pair at the same position, so every other column (such as `id`) is ignored. |
| `GraphDatabase.Apply` | tests/dataset_pdo_test.php:128-135 | Resolving the rows yields exactly one pair per row. |
| `GraphDatabase.ApplyAt` | tests/dataset_pdo_test.php:109-129 | The i-th pair is resolved from the i-th row, with position i, so the cursor order is kept. |
| `GraphDatabase.Resolve` | tests/dataset_pdo_test.php:374-393 | Construction succeeds exactly when validation does. It fails with the error validation found. On success there are as many pairs as the statement has rows. |
| `GraphDatabase.ResolvedPairs` | tests/dataset_pdo_test.php:203-305 | For every valid statement and mapping, pair i is the pair the plan makes from row i. |
| `GraphDatabase.AutomaticTwoColumns` | tests/dataset_pdo_test.php:95-129 | With no mapping and two columns, construction succeeds. Pair i is (row i's first column, row i's second column), one pair per row. |
| `GraphDatabase.AutomaticSingleColumn` | tests/dataset_pdo_test.php:142-175 | With no mapping and one column, construction succeeds. Pair i is (position i, row i's column). |
| `GraphDatabase.AutomaticTooManyColumns` | tests/dataset_pdo_test.php:188-200 | With no mapping and three or more columns, construction fails with `TooManyColumns`. |
| `GraphDatabase.SpecifiedKeyValue` | tests/dataset_pdo_test.php:207-247 | With KEY and VALUE naming present columns, pair i is (row i's KEY column, row i's VALUE column), whatever else the result holds. |
| `GraphDatabase.SpecifiedValueOnly` | tests/dataset_pdo_test.php:260-298 | With only VALUE named and present, pair i is (position i, row i's VALUE column). |
| `GraphDatabase.MissingKeyColumn` | tests/dataset_pdo_test.php:314-329 | A KEY column the result lacks makes construction fail with `MissingColumn`. |
| `GraphDatabase.MissingValueColumn` | tests/dataset_pdo_test.php:339-353 | A VALUE column that is absent from the mapping or from the result makes construction fail with `MissingColumn`. |
| `GraphDatabase.NotExecutedRejected` | tests/dataset_pdo_test.php:360-371 | A statement that was never executed fails with `NotExecuted`, for every mapping. |
| `GraphDatabase.DataSet.constructor` | tests/dataset_pdo_test.php:98 | Only an executed statement and a plan over its columns give a data set. Draining the rows one at a time leaves the buffer equal to the resolved pairs of all rows, and the count equal to the number of rows. |
| `GraphDatabase.DataSet.Count` | tests/dataset_pdo_test.php:388-392 | The count of a data set is the number of rows of the statement it was built from. |
| `GraphDatabase.DataSet.Create` | tests/dataset_pdo_test.php:191-200 | An error is returned exactly when construction fails, and it is the error validation found. Otherwise the result is a new data set that holds the resolved pairs. |
| `GraphDatabase.DataSet.Traverse` | tests/dataset_pdo_test.php:109-135 | Iterating counts every buffered pair. The comparison succeeds exactly when the pairs equal the expected list, element by element and in length. |
| `DataSetTests.BrowserHitsAutomatic` | tests/dataset_pdo_test.php:95-107 | `SELECT browser, hits` with no mapping gives Firefox→2567, Opera→543, Safari→23, Konquror→812, Lynx→431, wget→912, in that order. |
| `DataSetTests.HitsAutomatic` | tests/dataset_pdo_test.php:142-154 | `SELECT hits` with no mapping gives 0→2567 … 5→912. |
| `DataSetTests.AllSpecifiedKeyValue` | tests/dataset_pdo_test.php:207-225 | `SELECT *` with KEY browser and VALUE hits gives the browser-keyed pairs, so the `id` column is ignored. |
| `DataSetTests.AllSpecifiedValueOnly` | tests/dataset_pdo_test.php:260-277 | `SELECT *` with only VALUE hits gives 0→2567 … 5→912. |
| `DataSetTests.TestAutomaticDataSetUsage` | tests/dataset_pdo_test.php:91-136 | The traversal matches the browser-keyed pairs and counts 6. |
| `DataSetTests.TestAutomaticDataSetUsageSingleColumn` | tests/dataset_pdo_test.php:138-182 | The traversal matches the position-keyed pairs and counts 6. |
| `DataSetTests.TestAutomaticDataSetUsageTooManyRows` | tests/dataset_pdo_test.php:184-201 | `SELECT *` with no mapping raises `TooManyColumns`. |
| `DataSetTests.TestSpecifiedDataSetUsage` | tests/dataset_pdo_test.php:203-254 | The traversal matches the browser-keyed pairs and counts 6. |
| `DataSetTests.TestSpecifiedDataSetUsageSingleColumn` | tests/dataset_pdo_test.php:256-305 | The traversal matches the position-keyed pairs and counts 6. |
| `DataSetTests.TestSpecifiedDataSetUsageBrokenKey` | tests/dataset_pdo_test.php:307-330 | KEY `nonexistant` raises `MissingColumn`. |
| `DataSetTests.TestSpecifiedDataSetUsageBrokenValue` | tests/dataset_pdo_test.php:332-354 | VALUE `nonexistant` raises `MissingColumn`. |
| `DataSetTests.TestNonExceutedQuery` | tests/dataset_pdo_test.php:356-372 | A prepared but unexecuted statement raises `NotExecuted`. |
| `DataSetTests.TestDataSetCount` | tests/dataset_pdo_test.php:374-393 | The data set built from `SELECT *` with VALUE hits has count 6. |

## Left out

- The database: the connection (`ezcDbInstance::get`), table creation, inserts, drops, `prepare` and `execute` are not modelled. The statement is a value with an executed flag, column names and rows.
- Forward-only reading: the rows are a value, so the model does not capture that draining a cursor consumes it.
- The temporary directory and the PHPUnit suite, skip and teardown mechanics are not part of this model.
- Automatic mode with zero columns: the model folds it into `TooManyColumns`, as for three or more columns. No test exercises this case and no lemma claims it.
- Duplicate keys: the model keeps every pair, duplicates included, as a sequence. The length and count claims (`Resolve`, `AutomaticTwoColumns`, `SpecifiedKeyValue`, `DataSet.Count`) therefore also hold for a result whose key column repeats a value. That is this model's choice: the tests' fixture keys are distinct, and a PHP associative array that let a later pair overwrite an earlier one with the same key would count fewer pairs.
- Iterator mechanics (`rewind`, `valid`, `current`, `key`, `next`) are not modelled, and neither is the cost of `count`. Iteration is `Traverse` over the buffer. Nothing is claimed about iterating more than once.
- PHP's loose `assertEquals` between driver strings and integers is not modelled. Values compare by Dafny equality, and the fixture's `id` and `hits` columns hold integers.
- The message and payload of each exception are not modelled. Only its kind (`NotExecuted`, `TooManyColumns`, `MissingColumn`) is kept.
