# httpstatus-rust in Dafny

A model of `httpstatus`, a command-line program that prints the HTTP status
codes and their reason phrases as a table. The whole program lives in
`src/main.rs`:

- `get_status_codes` fills a `BTreeMap<u16, &'static str>` with 62 inserts,
  grouped by class (1xx, 2xx, 3xx, 4xx, 5xx; there is no 306).
- `main` creates a table, sets the header `Code` / `Description`, and adds one
  row per map entry in the map's iteration order. The code cell is the code's
  `to_string`; the description cell is the reason phrase.

The project has four modules, in four files:

- `Decimal` (`decimal.dfy`) models `u16::to_string` as `ToDecimal`. It adds a
  parser `ParseDecimal` and the round trip in both directions.
- `OrderedMap` (`ordered_map.dfy`) holds the class `CodeMap`, which models the
  `BTreeMap`:
  - A field `entries: seq<Entry>` lists the key/value pairs in iteration
    order. Its invariant `Valid()` says the codes strictly ascend.
  - `Insert` finds the insertion point with a loop and then splices or
    replaces. It is proved against the specification function `Inserted` and
    returns the previous value, as `BTreeMap::insert` does.
  - `Lookup` gives the map view of a pair list.
- `StatusCodes` (`status_codes.dfy`) holds the 62 pairs of `get_status_codes`
  as five constant blocks, one per class, concatenated into `StatusTable`.
  - `BuildStatusCodes` inserts them one by one into a fresh `CodeMap`.
  - Lemmas state what the finished map is: its size, its order, per-class
    counts, code range, non-empty phrases, known entries and known absences.
- `Render` (`render.dfy`) holds the class `TextTable`, which models the
  `comfy_table::Table` that `main` fills (header line and body rows).
  - `RenderTable` is the header-and-row loop of `main`.
  - Lemmas relate the rows back to the map.

The code inserts 62 entries: 4 + 10 + 8 + 29 + 11, with no 306.

## Model

| member | source | states |
|---|---|---|
| Decimal.ToDecimal | src/main.rs:95 | `code.to_string()`: at least one decimal digit; a leading '0' occurs only for zero |
| Decimal.ParseToDecimal | src/main.rs:95 | reading the rendered text back gives the number rendered |
| Decimal.ToDecimalParse | src/main.rs:95 | every non-empty digit string without a leading zero is the rendering of its value |
| Decimal.ToDecimalInjective | src/main.rs:95 | two numbers render to the same text if and only if they are equal |
| Decimal.ThreeDigits | src/main.rs:95 | a code in [100, 999] renders as exactly three digits, the first being its class |
| OrderedMap.LookupSpec | src/main.rs:5-6 | a map lookup fails exactly when no pair has the code, and otherwise finds a stored pair |
| OrderedMap.LookupAppend | src/main.rs:5-6 | looking up in a joined pair list looks in the first part, then in the second |
| OrderedMap.LookupAt | src/main.rs:5-6 | with unique ascending keys, every stored pair is what a lookup of its code finds |
| OrderedMap.AscendingFreshKey | src/main.rs:5-6 | with unique ascending keys, no pair's code occurs among the pairs before it |
| OrderedMap.Inserted | src/main.rs:9 | the pair list after `map.insert(code, reason)`: it grows by at most one pair and never shrinks; its meaning as a map is given by the lemmas below |
| OrderedMap.InsertedFrom | src/main.rs:9 | the pair list after an insert holds only the new pair and pairs that were already there |
| OrderedMap.LookupInserted | src/main.rs:9 | after `insert(code, reason)`, `code` maps to `reason` and every other code maps to what it did before |
| OrderedMap.AscendingInserted | src/main.rs:9 | an insert keeps the keys unique and ascending |
| OrderedMap.InsertedLength | src/main.rs:9 | an insert adds one pair exactly when the code was absent, and otherwise keeps the size |
| OrderedMap.InsertedAtEnd | src/main.rs:9 | inserting a code above every present one appends the pair at the end |
| OrderedMap.InsertedReplaces | src/main.rs:9 | inserting a present code replaces the value of its pair in place, at the first position whose code is not below it |
| OrderedMap.InsertedSplices | src/main.rs:9 | inserting an absent code puts the new pair just before the first larger code, or at the end |
| OrderedMap.CodeMap.constructor | src/main.rs:6 | `BTreeMap::new()` is the empty map, which is trivially ascending |
| OrderedMap.CodeMap.Insert | src/main.rs:9 | `map.insert`: keeps the keys ascending; the new contents are `Inserted` of the old; returns the previous value under the code; a code above all present ones is appended |
| StatusCodes.BuildStatusCodes | src/main.rs:5-81 | `get_status_codes`: inserts into a fresh map the 62 source pairs in insert order (the constant `StatusTable`, made of the class blocks `Informational` (lines 9-12), `Successful` (15-24), `Redirection` (27-34), `ClientError` (37-65) and `ServerError` (68-78)); the result is an ascending map holding exactly those 62 pairs, in ascending code order |
| StatusCodes.NoOverwrite | src/main.rs:9-78 | no insert of `get_status_codes` finds its code already present in the map |
| StatusCodes.ClassCount | src/main.rs:8-78 | counting the pairs of one class never exceeds the number of pairs |
| StatusCodes.ClassCountAppend | src/main.rs:8-78 | per-class counts add up over joined pair lists |
| StatusCodes.ClassCountOfClass | src/main.rs:8-78 | a run of pairs all in one class counts fully in that class and nowhere else |
| StatusCodes.LookupOutsideRun | src/main.rs:8-78 | a code of another class is not found in a run of one class |
| StatusCodes.ClassCountFiveClasses | src/main.rs:8-78 | joining one run per class 1xx to 5xx, each class counts exactly its own run and every other class counts zero |
| StatusCodes.LookupFiveClasses | src/main.rs:8-78 | joining one run per class, a code is found only in the run of its own class |
| StatusCodes.FiveClassesInRange | src/main.rs:8-78 | joining one run per class, every code is in [100, 599] with a non-empty phrase |
| StatusCodes.InformationalInClass | src/main.rs:8-12 | every 1xx insert has a code in [100, 199] and a non-empty phrase |
| StatusCodes.SuccessfulInClass | src/main.rs:14-24 | every 2xx insert has a code in [200, 299] and a non-empty phrase |
| StatusCodes.RedirectionInClass | src/main.rs:26-34 | every 3xx insert has a code in [300, 399] and a non-empty phrase |
| StatusCodes.ClientErrorInClass | src/main.rs:36-65 | every 4xx insert has a code in [400, 499] and a non-empty phrase |
| StatusCodes.ServerErrorInClass | src/main.rs:67-78 | every 5xx insert has a code in [500, 599] and a non-empty phrase |
| StatusCodes.TableInClasses | src/main.rs:8-78 | the five blocks of inserts each stay inside their own class |
| StatusCodes.BlocksAscending | src/main.rs:8-78 | within each block the inserted codes strictly ascend |
| StatusCodes.StatusTableAscending | src/main.rs:9-78 | the 62 inserted codes strictly ascend over the whole table, so none repeats |
| StatusCodes.StatusTableWellFormed | src/main.rs:9-78 | the table has 62 pairs; every code is in [100, 599]; every reason phrase is non-empty |
| StatusCodes.ClassCounts | src/main.rs:8-78 | class counts are 1xx = 4, 2xx = 10, 3xx = 8, 4xx = 29, 5xx = 11, and 0 for every other class |
| StatusCodes.LookupByClass | src/main.rs:8-78 | looking a code up in the table gives what its class's block gives, and None outside 1xx to 5xx |
| StatusCodes.LookupOnlyInRange | src/main.rs:9-78 | only codes in [100, 599] are found |
| StatusCodes.FixedPointOk | src/main.rs:15 | 200 maps to "OK" |
| StatusCodes.FixedPointFound | src/main.rs:29 | 302 maps to "Found" |
| StatusCodes.FixedPointNotFound | src/main.rs:41 | 404 maps to "Not Found" |
| StatusCodes.FixedPointTeapot | src/main.rs:55 | 418 maps to "I'm a teapot" |
| StatusCodes.Absent306 | src/main.rs:32-33 | 306 is absent: the inserts go from 305 straight to 307 |
| StatusCodes.AbsentOutOfRange | src/main.rs:9-78 | codes below 100 or above 599, such as 666 and 999, are absent |
| Render.TextTable.constructor | src/main.rs:86 | `Table::new()` has no header and no rows |
| Render.TextTable.SetHeader | src/main.rs:88-91 | `set_header` replaces the header line and keeps the rows |
| Render.TextTable.AddRow | src/main.rs:94-97 | `add_row` appends one row after the existing ones and keeps the header |
| Render.RenderTable | src/main.rs:86-98 | the table's header is the constant `Header`, [`Code`, `Description`] (lines 88-91), followed by exactly one row per map entry in iteration order, each row being [decimal text of the code, reason phrase] |
| Render.ShowStatusCodes | src/main.rs:84-98 | the table that `main` prints has the header and 62 rows, one per status code; every row has two cells, and the code texts, read back, strictly ascend |
| Render.EntryRow | src/main.rs:94-97 | the row added for one entry has two cells: the code's decimal digits, which read back as the code, then the reason phrase |
| Render.RowsInCodeOrder | src/main.rs:93-97 | rows produced from an ascending map have codes that, read back, strictly increase |
| Render.RowsCarryMap | src/main.rs:93-97 | a row [decimal text of `code`, `reason`] is present if and only if the map binds `code` to `reason` |
| Render.StatusRowsThreeDigits | src/main.rs:93-97 | each of the 62 status rows starts with a three-digit code text whose first digit is the class and which reads back as the code |

## Left out

- Table styling is not modelled: the `UTF8_BORDERS_ONLY` preset (src/main.rs:87), the cell colours and the border drawing. `TextTable` keeps only the cell texts.
- Printing the table to standard output (src/main.rs:100) is I/O and is not modelled.
- The balanced-tree layout of `BTreeMap` is not modelled. The map is a sorted list of pairs, which has the same lookups, inserts and iteration order.
- StatusCodes.BuildStatusCodes: the 62 separate `map.insert` statements are modelled as one loop that inserts the pairs of the constant `StatusTable` in the same order. `StatusTable` lists exactly the source's pairs, grouped by class as the source groups them. Each insert is checked against the same `CodeMap.Insert` contract as it would be in straight-line form.
- OrderedMap.CodeMap.Insert: the value that `BTreeMap::insert` returns is modelled, although `get_status_codes` discards it. `NoOverwrite` shows that it is always None there.
- Decimal.ToDecimal: `to_string` is modelled for any natural number; codes are `u16`, so they never exceed 65535.
- A JSON output mode and a `--json` switch do not exist in `src/main.rs`. There is no argument parsing or external pretty-printer either, so none of these are modelled.
