# fintrack, modelled in Dafny

This project models the bookkeeping core of fintrack, a small personal
finance tracker:

- **Records** (`records.dfy`): a transaction with an amount, a description,
  a timestamp and a uid. Each field is normalised once at construction.
  Records are ordered by timestamp only.
- **Amount parsing** (`amounts.dfy`): `parse_amount` drops every character
  that cannot be part of an amount, turns the configured decimal separator
  into '.', and reads what is left as an exact decimal literal.
- **Row projection** (`rows.dfy`): `get_columns` finds an object's column
  names through a fall-back chain. `asrow` lists the object's values in that
  order.
- **Sheets** (`books.dfy`): a `Sheet` keeps the records of its declared class
  sorted by timestamp as they are added. It can be filled from other sheets
  and summed with another sheet. A `BalancedSheet` shows a sheet's rows with
  a running "balance" column right after "amount".
- **The older container** (`recorders.dfy`): `Records`, a list that keeps
  its own `Record` dataclass sorted as `bisect.insort` inserts into it.
- **Sorted insertion** (`ordering.dfy`): what both containers share.
  `insort_right` and `SortedList.add` put a new element after every element
  whose key is not greater, so records with equal timestamps keep their
  insertion order.
- **Planned records** (`plans.dfy`): a planned record has an amount, a
  description and a schedule. `take` expands it into one Record per
  occurrence of the schedule.
- **The Tracker** (`tracker.dfy`): a registry of named sheets and an active
  sheet. The operations are:
  - `config`, which derives the configuration;
  - `load`, which merges the loaded sheets with empty defaults;
  - `sheet(name)`, which selects a sheet;
  - `balanced`, `future` and `overview`, which build sheets;
  - `add` and `slurp`, which fill the current sheet;
  - length, iteration and indexing, which look at the current sheet.

Values are modelled as follows:

- Amounts are exact `real` numbers.
- Timestamps are `int` instants.
- Python's dynamically typed arguments are one `Value` datatype.
- Every exception is an `Error` of a `Result` or an `Outcome`.

The code outside the core is passed in as parameters:

- the clock, and the uid generator (a function from the position of a call
  to a fresh uid);
- the date parser (`Records.Env`);
- the schedule parser, the recurrence enumeration, the uid template
  formatter and `humanize.naturalday` (`Plans.Calendar`);
- `datetime.isoformat` and `str` (parameters of `Recorders.GetItem`);
- each plan's `take` (a function parameter of the Tracker operations);
- the registry of sheet types (a parameter of the Tracker's constructor).

The classes whose fields the source updates in place are Dafny classes:

- `Books.Sheet` and `Books.BalancedSheet`;
- `Recorders.RecordList`;
- `Tracker.Tracker`.

Their methods are proved against specification functions on sequences and
maps. `Ordering.InsortRight`, `Ordering.InsertAll`, `Books.Updated`,
`Recorders.Extended`, `Tracker.LoadSpec`, `Tracker.Composed` and
`Tracker.Slurped` are such functions. The lemmas about them state the
promised properties: sortedness, permutation, lengths and error propagation.

Where the code and its documentation disagree, the model follows the code:

- `PlannedRecord` does not derive from `RecordLike`.
  - So `Sheet(cls=PlannedRecord)` raises TypeError
    (`Books.SheetOf`, `Books.EmptySheetOf`).
  - So `load` with the registry {"records": Record, "plans": PlannedRecord}
    always fails while creating the default "plans" sheet
    (`Tracker.SourceRegistryLoadFails`).
  - The Tracker is therefore modelled over any registry. Its other
    properties are stated for registries whose sheets can be built.
- Only `Record` declares `columns`. A sheet of `RecordLike` itself fails
  with AttributeError when its balanced view is built, unless adding its
  initial elements fails first (`Books.RecordLikeFailure`).
- A recurring planned record without a uid template passes None as the uid of each
  Record it makes. Each Record then gets a fresh uid of its own, not the
  plan's uid.
- `asrow` returns None for an empty dict, as it does for an object that is
  neither a dict nor a dataclass.
- A `BalancedSheet` forwards unknown attributes to its sheet through
  `__getattr__`. Python looks special methods up on the class instead, so
  `len`, iteration and indexing of a Tracker whose active sheet is balanced
  raise TypeError (`Tracker.Tracker.Len`, `Iter`, `GetItem`). `add`
  reaches the underlying sheet (`Tracker.Tracker.Target`).

## Model

| member | source | states |
|---|---|---|
| Amounts.ParseAmount | fintrack/utils.py:38-45 | A Decimal or other number is returned unchanged, without filtering. A string succeeds exactly when its filtered residue is a decimal literal, and then yields that literal's value; otherwise InvalidOperation. Any other value raises TypeError. |
| Amounts.Residue | fintrack/utils.py:41-44 | The filtered text is no longer than the input and holds only digits, '.' and '-'. |
| Amounts.ResidueSplits | fintrack/utils.py:41-44 | Filtering works character by character: the residue of a text is the residue of any prefix followed by the residue of the rest. |
| Amounts.ResidueIsFilterThenReplace | fintrack/utils.py:40-44 | The residue is the character-class filter followed by replacing each separator with '.'. With separator '.' it is the filter alone, the only substitution the source then makes. |
| Amounts.FracValue | fintrack/utils.py:45 | The digits after a decimal point stand for a value in [0, 1). |
| Amounts.ParseUnsigned | fintrack/utils.py:45 | An unsigned literal is non-empty, holds no minus sign, and denotes a non-negative value. |
| Amounts.ParseDecimal | fintrack/utils.py:45 | A decimal literal is non-empty and has at most a leading minus sign. With the sign its value is not positive, without it not negative. |
| Amounts.ResidueOfCents | fintrack/utils.py:44 | With a separator that is neither a digit nor '-', an amount written with that separator filters to the same amount written with '.'. |
| Amounts.ParseCents | fintrack/utils.py:45 | `Decimal` of an amount in cents written as [-]units.dd gives back the exact amount. |
| Amounts.CentsRoundTrip | fintrack/utils.py:43-45 | Round trip: any amount in cents, written with the separator and surrounded by characters the filter drops, parses back to that exact amount. |
| Amounts.NegatedLiteral | fintrack/utils.py:45 | A leading '-' negates the value of an unsigned literal. |
| Amounts.DetachedSignRoundTrip | fintrack/utils.py:43-45 | A minus sign separated from the digits by dropped characters, as in "-€ 32,34", still negates the amount. |
| Amounts.EmptyResidueRejected | fintrack/utils.py:45 | A text whose residue is empty does not parse: InvalidOperation. |
| Amounts.DoubleMinusRejected | fintrack/utils.py:45 | A residue beginning with "--" is not a decimal literal. |
| Amounts.SlurpExamplePositive | tests/test_tracker.py:91 | With the default separator ',', "600,21" parses to 600.21. |
| Amounts.SlurpExampleNegative | tests/test_tracker.py:92 | With the default separator ',', "-€ 32,34" parses to -32.34. |
| Records.Columns | fintrack/records.py:39 | The columns are exactly timestamp, amount, description, uid, in that order, and are distinct. |
| Records.Bind | fintrack/records.py:24-36 | Binding `Record(*pos, **kw)` succeeds exactly when there are at most four positional arguments, every keyword is a field, no field is given twice, and amount and description are given. Every failure is TypeError. Each of the four bound fields is, for every number of positional arguments, the positional argument at its place, else the keyword argument, else absent. |
| Records.NormaliseAmount | fintrack/records.py:45-46 | A Decimal amount is kept; any other amount is replaced by `parse_amount` of it. |
| Records.NormaliseTimestamp | fintrack/records.py:47-48 | A datetime is kept. A string succeeds exactly when the date parser reads it, and then yields its result. Any other value is TypeError. |
| Records.NormaliseUid | fintrack/records.py:49-52 | None becomes the fresh uid, a UUID its string form, anything else is kept; the result is never None or a UUID. |
| Records.Normalised | fintrack/records.py:41-52 | Normalisation succeeds exactly when the amount and the timestamp normalise. It fails with the amount's error first. On success the record holds the normalised amount, timestamp and uid, and the description as given. |
| Records.PostInit | fintrack/records.py:41-52 | The step-by-step reassignment of amount, timestamp and uid ends in the state Normalised describes, or raises its error. |
| Records.NormalisedSteps | fintrack/records.py:41-52 | The fields are normalised in order: an amount error wins, then a timestamp error, else all three fields are normalised. |
| Records.NewRecord | fintrack/records.py:31-52 | Construction is binding, then the defaults (the current time, a fresh uid), then normalisation; a binding failure is TypeError. |
| Records.Less | fintrack/records.py:57-58 | `r1 < r2` compares the timestamps only; its properties are those of Records.LessIsStrictWeakOrder. |
| Records.LessIsStrictWeakOrder | fintrack/records.py:57-58 | `<` is irreflexive and transitive and agrees with the timestamp. Records with equal timestamps are incomparable, and incomparability is transitive. |
| Records.ProvidedTimestampAndUidKept | fintrack/records.py:47-52 | A datetime timestamp and a string uid given at construction are kept unchanged. |
| Records.DefaultsApplied | fintrack/records.py:35-36 | When omitted, the timestamp is the current time and the uid is the freshly generated one. |
| Records.FourPositional | fintrack/records.py:41-52 | A record built positionally from a datetime and a uid can fail only on its amount, and otherwise holds the given timestamp and the normalised uid. |
| Records.UidNormalised | fintrack/records.py:49-52 | A None uid becomes the fresh uid; a UUID uid becomes its string form. |
| Records.MissingDescriptionRejected | tests/test_books.py:21-26 | `Record("blah")`, missing a description, raises TypeError. |
| Records.BadAmountRejected | fintrack/records.py:45-46 | A text amount that does not parse makes construction fail with InvalidOperation. |
| Rows.GetColumns | fintrack/utils.py:76-92 | A record gives its declared columns, a dataclass its field names in order, a dict its keys in order, anything else no columns. |
| Rows.Names | fintrack/utils.py:83 | The names of an entry list, one per entry, in order. |
| Rows.RecordFields | fintrack/utils.py:107 | `asdict` of a record has the four dataclass fields, in declaration order. |
| Rows.LookupFinds | fintrack/utils.py:112 | `d[key]` finds a value exactly when key is one of the dictionary's keys, and that value is stored under the key. |
| Rows.Humanized | fintrack/utils.py:94-99 | A datetime becomes its natural-day text, a Decimal a number, and any other value is kept. |
| Rows.Project | fintrack/utils.py:112 | One value per column: the humanized value stored under that column. |
| Rows.AsRow | fintrack/utils.py:101-113 | There is a row exactly when the object is a dict or a dataclass with a non-empty dictionary. The row has one entry per column of `get_columns`, and each entry is the humanized value stored under that column. |
| Rows.RecordLookups | fintrack/utils.py:107-112 | Each column of a record is found among its fields, with that field's value. |
| Rows.RecordColumnsFound | fintrack/utils.py:112 | No column of a record is missing from `asdict` of it. |
| Rows.RecordRow | fintrack/utils.py:101-113 | A record's row is its natural-day timestamp, its amount as a number, its humanized description and its humanized uid. |
| Rows.LookupDistinct | fintrack/utils.py:112 | In a dictionary without repeated keys, `d[key]` for the key of any entry is that entry's value. |
| Rows.DictRow | fintrack/utils.py:101-113 | For every dict: an empty one has no row, and otherwise the row has one entry per key, the humanized values in insertion order. |
| Ordering.InsortRight | fintrack/recorders.py:74 | Insertion adds exactly one element. |
| Ordering.InsertAll | fintrack/books.py:88-90 | Inserting a sequence adds exactly its length. |
| Ordering.InsortRightPermutes | fintrack/recorders.py:74 | Insertion keeps every element and adds only the new one (a permutation of the old elements and the new one). |
| Ordering.InsertAllPermutes | fintrack/books.py:96-97 | Repeated insertion ends in a permutation of the old elements and the inserted ones. |
| Ordering.InsortRightSorted | fintrack/books.py:73 | Inserting into a sorted sequence keeps it sorted. |
| Ordering.InsertAllSorted | fintrack/books.py:88-90 | Repeated insertion into a sorted sequence keeps it sorted. |
| Ordering.InsortRightBetween | fintrack/recorders.py:74 | The new element goes after every element with a key not greater than its own and before every element with a greater key. |
| Ordering.InsortRightAt | fintrack/recorders.py:74 | Inserting at the index a binary search finds is the same sequence as the reference insertion. |
| Ordering.Insort | fintrack/recorders.py:74 | Binary search for the insertion point, then splice. The result is the reference insertion and is sorted. Keys before the index are not greater than the new key; keys from the index on are greater. |
| Ordering.InsortRightAtEnd | fintrack/recorders.py:74 | An element whose key is not smaller than any other key is appended. |
| Ordering.InsertAllInOrder | fintrack/books.py:96 | Copying a sorted sheet into an empty one reproduces it exactly. |
| Books.ClassColumns | fintrack/books.py:76-78 | Only Record declares columns, and they include "amount". |
| Books.Constructed | fintrack/books.py:67-72 | A single record is inserted as it is. A single dict is used as keyword arguments. Anything else goes to the constructor as positional and keyword arguments. |
| Books.StringArgumentRejected | tests/test_books.py:21-26 | `Sheet().add("blah")` raises TypeError. |
| Books.Updated | fintrack/books.py:88-90 | Repeated add that completes adds one record per element, and keeps a sorted sheet sorted. |
| Books.UpdatedWithRecords | fintrack/books.py:88-90 | Adding existing records never fails and is repeated sorted insertion. |
| Books.Sheet.Empty | fintrack/books.py:45-53 | A new Record sheet is valid and empty. |
| Books.Sheet.Length | fintrack/books.py:104-105 | `len` is the number of records. |
| Books.Sheet.GetItem | fintrack/books.py:107-108 | Indexing follows Python lists: non-negative and negative indices in range give the record there, and any other integer raises IndexError. |
| Books.Sheet.Columns | fintrack/books.py:76-78 | A sheet's columns are Record's columns. |
| Books.Sheet.Rows | fintrack/books.py:80-86 | One row per record, in sorted order, each being `asrow` of that record. |
| Books.Sheet.Add | fintrack/books.py:59-74 | Returns the record Constructed gives, or its error. A failing construction changes nothing. On success the records become the sorted insertion of the new one, one longer, the old records plus it as a multiset, still sorted. |
| Books.Sheet.Update | fintrack/books.py:88-90 | The loop of adds ends in the state and outcome of Updated, keeping the sheet sorted. |
| Books.Sheet.Plus | fintrack/books.py:92-98 | A new sorted sheet of the same class holding both sheets' records as a multiset, with both lengths added. Neither operand changes. |
| Books.RecordLikeFailure | fintrack/books.py:45-74 | A RecordLike sheet always fails, with AttributeError or TypeError. With no elements, or only Records, it is AttributeError from the missing `columns`. A first element that is neither a record nor a dict is TypeError from the constructor. A plain instance compared with what the sheet holds is TypeError. |
| Books.SheetOf | fintrack/books.py:45-53 | A class that is not RecordLike raises TypeError. RecordLike itself adds the initial elements first and fails as RecordLikeFailure says: AttributeError for none or only Records, TypeError when the first element is neither a record nor a dict. A Record sheet succeeds exactly when adding the initial records does, and then holds them sorted, one per element. |
| Books.EmptySheetOf | fintrack/books.py:45-53 | An empty sheet can be made of Record only: RecordLike gives AttributeError, anything else TypeError. |
| Books.NewSheet | fintrack/books.py:45-53 | Constructing a sheet succeeds exactly when SheetOf does, with its error or its records. |
| Books.IndexOf | fintrack/books.py:12 | `index("amount")` is the first position of "amount". |
| Books.InsertAtCells | fintrack/books.py:37 | `list.insert` keeps what comes before the index, puts the value at the index and shifts the rest by one. |
| Books.BalancedSheet.constructor | fintrack/books.py:10-12 | The view records the first position of "amount" among the sheet's columns. |
| Books.BalancedSheet.Columns | fintrack/books.py:20-27 | The sheet's columns with "balance" immediately after "amount": one longer, equal before and after the insertion point. |
| Books.BalancedSheet.Rows | fintrack/books.py:29-38 | One row per record. Each row is the sheet's row with, right after the amount, the sum of the amounts of this and all earlier records, starting from zero. |
| Books.AmountIsSecondColumn | fintrack/records.py:39 | "amount" is the second of Record's columns. |
| Books.WithRunningBalance | fintrack/books.py:34-38 | The loop inserts after each row's amount cell the running total of the amount cells up to and including that row. |
| Books.AmountCells | fintrack/books.py:35-36 | The amount cell of a record's row is its amount as a number. |
| Books.RunningBalanceOfRecords | fintrack/books.py:34-38 | The running totals of the amount column are those of the records' amounts. |
| Books.CellSumIsAmountSum | fintrack/books.py:34-36 | Summing the amount column of record rows sums the records' amounts. |
| Books.BalanceStep | fintrack/books.py:36 | Each balance is the previous balance plus this row's amount. |
| Books.BalanceExample | fintrack/books.py:34-38 | Amounts 125, -125, -125 have balances 125, 0, -125. |
| Recorders.NewRecord | fintrack/recorders.py:28-47 | The older record binds like the newer one. It keeps amount, description and uid as given, and defaults a missing uid to the fresh one and a missing timestamp to now. After binding it succeeds exactly when the timestamp normalises, holds that timestamp, and otherwise raises the parser's error. |
| Recorders.AgreesWithNewerRecord | fintrack/recorders.py:43-47 | Whenever the newer record can be built and the two date parsers read its text timestamp, if any, alike, the older one can be built from the same arguments, with the same description and timestamp. The newer record's uid is the older one's, normalised. |
| Recorders.TextTimestampParsed | fintrack/recorders.py:43-47 | A text timestamp becomes what the parser reads from it, with everything else as given. Text the parser cannot read raises ValueError. |
| Recorders.Less | fintrack/recorders.py:49-50 | `r1 < r2` compares the timestamps only; its properties are those of Recorders.LessIsKeyOrder. |
| Recorders.LessIsKeyOrder | fintrack/recorders.py:49-50 | `<`, which `insort` uses, is the order of the timestamps. It is irreflexive and transitive, and two records are incomparable exactly when their timestamps are equal. |
| Recorders.GetItem | fintrack/recorders.py:40-61 | `record["timestamp"]` is its ISO text and `record["uid"]` its string form. The other fields come as stored, and `record["columns"]` is the class's column list. It succeeds exactly for these five names and raises AttributeError for any other. |
| Recorders.RecordPrefix | fintrack/recorders.py:76-78 | The records before the first non-record, in order. |
| Recorders.Extended | fintrack/recorders.py:76-78 | `extend` inserts one record per element before the first non-record and all of them when it completes. It fails only with TypeError, at a non-record. |
| Recorders.ExtendedSortedPermutation | fintrack/recorders.py:76-78 | `extend` keeps the data sorted and inserts exactly the records before the first non-record (a permutation). It completes exactly when every element is a record. |
| Recorders.RecordList.constructor | fintrack/recorders.py:63-66 | A new list is empty and sorted. |
| Recorders.RecordList.Copy | fintrack/recorders.py:81 | `copy()` holds the same records. |
| Recorders.RecordList.Elements | fintrack/recorders.py:67-69 | Iteration yields the stored records in stored order. |
| Recorders.RecordList.Append | fintrack/recorders.py:71-74 | A non-record raises TypeError and changes nothing. A record is spliced in at one index by insort_right, keeping the list sorted. |
| Recorders.RecordList.Extend | fintrack/recorders.py:76-78 | The loop of appends ends in the state and outcome Extended gives, keeping the list sorted. |
| Recorders.RecordList.Plus | fintrack/recorders.py:80-83 | A new sorted list with the records of both sides; this list does not change; a non-record raises TypeError. |
| Plans.Normalised | fintrack/plans.py:29-37 | Construction succeeds exactly when a string amount parses and the schedule is recognised. On success only a string amount is replaced, by its parsed value; otherwise ValueError. |
| Plans.PostInit | fintrack/plans.py:29-37 | The step-by-step reassignment ends in Normalised's result. |
| Plans.NewPlannedRecord | fintrack/plans.py:17-37 | The fields are kept, a missing uid defaults to a fresh one, and construction fails exactly as Normalised says. |
| Plans.OccurrenceUid | fintrack/plans.py:53 | With a non-empty template the uid is the formatted template; otherwise None. |
| Plans.Occurrence | fintrack/plans.py:51-54 | An occurrence's Record can be built exactly when the plan's amount normalises, with that error otherwise. It holds the normalised amount, the plan's description and the occurrence as timestamp. |
| Plans.ExpandWith | fintrack/plans.py:50-56 | A successful expansion has one item per occurrence. |
| Plans.ExpandWithOk | fintrack/plans.py:50-56 | Expansion succeeds exactly when every occurrence's item can be made. |
| Plans.ExpandWithElements | fintrack/plans.py:50-56 | The k-th item of a successful expansion is the one made for the k-th occurrence with index k. |
| Plans.Expand | fintrack/plans.py:50-56 | A plan's successful expansion has one Record per occurrence. |
| Plans.ExpandOk | fintrack/plans.py:50-56 | A plan's expansion fails exactly when one of its occurrences' Records does. |
| Plans.Take | fintrack/plans.py:39-60 | From `start`, or now when omitted: a recurring schedule yields its expansion or its error. A fixed instant yields one Record with the plan's uid. An unparseable schedule raises ValueError. Any other event returns None. |
| Plans.OccurrenceRecord | fintrack/plans.py:51-54 | With a numeric amount every occurrence's Record can be built, and it is the one PlannedRecordAt describes. |
| Plans.PlannedRecordAt | fintrack/plans.py:51-54 | An occurrence's Record carries the plan's amount and description and the occurrence as timestamp. |
| Plans.ExpandRecords | fintrack/plans.py:50-56 | A plan with a numeric amount expands successfully, one Record per occurrence, each as PlannedRecordAt describes. |
| Plans.RecurringTake | fintrack/plans.py:49-56 | A recurring plan with a numeric amount yields one Record per enumerated occurrence, in enumeration order. Each Record carries the plan's amount, its description, the occurrence as timestamp, and the templated or a fresh uid. |
| Plans.RecurringTakeOrdered | tests/test_plans.py:12-17 | With ascending occurrences the Records are sorted by timestamp, and never more than `count` when the enumeration respects the bound. |
| Plans.FixedTake | fintrack/plans.py:57-58 | A fixed-instant plan yields exactly one Record at that instant with the plan's own uid, whatever the start. |
| Tracker.LookupType | fintrack/tracker.py:161 | `types[name]` is found exactly when the name is registered, and names a registered pair. |
| Tracker.TypeNames | fintrack/tracker.py:54 | The inverse registry has every registered type, each mapped to a name registered for it. |
| Tracker.ConfigOf | fintrack/tracker.py:50-57 | The configuration has every sheet's name mapped to a registered name of its type. It fails with KeyError exactly when some sheet's type is unregistered. |
| Tracker.ConfigRoundTrip | fintrack/tracker.py:50-57 | Looking up a sheet's configured type name gives back the sheet's type, so the configuration inverts the registry. |
| Tracker.LookupIndex | fintrack/tracker.py:161 | With distinct names, looking up a registered name finds its own type. |
| Tracker.LoadConfigured | fintrack/tracker.py:157-165 | The loop over `config["sheets"]`: a successful load keeps every sheet loaded so far. Its full content is stated by Tracker.LoadConfiguredLoads. |
| Tracker.LoadConfiguredLoads | fintrack/tracker.py:157-165 | A successful load has a sheet for every sheet loaded so far and for every configured name whose file exists, and for no other name. A sheet loaded earlier and not configured again is kept. Every configured type name is registered, with or without a file. |
| Tracker.LoadConfiguredContents | fintrack/tracker.py:159-163 | With distinct configured names, a name whose file exists holds its decoded contents made into a sheet of its configured type, and that sheet could be built. |
| Tracker.Names | fintrack/tracker.py:169 | Every registered name is among the registry's names. |
| Tracker.Defaults | fintrack/tracker.py:168-169 | The empty defaults are built exactly when every registered type is Record. They hold the earlier sheets plus one empty sheet per registered name. |
| Tracker.DefaultsStep | fintrack/tracker.py:169 | One default sheet is created per registered Record type, in registry order. |
| Tracker.DefaultsStop | fintrack/tracker.py:169 | Creating the defaults stops at the first type that is not Record, with its constructor's error. |
| Tracker.LoadSpec | fintrack/tracker.py:157-172 | A successful load has a "records" sheet, and every registered type is Record with a sheet under its name. When the configured sheets load and the defaults are built, the only remaining failure is a missing "records": KeyError. |
| Tracker.LoadKeepsDefaults | fintrack/tracker.py:167-170 | After a successful load every registered name and "records" have a sheet. A loaded sheet replaces the empty default, and every other sheet is empty. |
| Tracker.SourceRegistryLoadFails | fintrack/tracker.py:23-26 | With the registry {"records": Record, "plans": PlannedRecord} a load never succeeds. |
| Tracker.Composed | fintrack/tracker.py:79-92 | Composing never loses a base record. When the first take fails, nothing is merged and its error is raised. |
| Tracker.ComposedHoldsTaken | fintrack/tracker.py:90-92 | Composing succeeds exactly when every take does and fails with the first failing take's error. The result stays sorted. On success it holds the base records and every taken Record (a multiset), with the lengths added. |
| Tracker.LeftEndSpaces | fintrack/tracker.py:191 | Everything before the start of the text is whitespace, and the text starts with a non-whitespace character. |
| Tracker.RightEndSpaces | fintrack/tracker.py:191 | Everything after the end of the text is whitespace, and the text ends with a non-whitespace character. |
| Tracker.Strip | fintrack/tracker.py:191 | `strip` is never longer than the line, and a non-empty result neither starts nor ends with whitespace. |
| Tracker.StripTrims | fintrack/tracker.py:191 | `strip` is empty exactly when the line is all whitespace. Otherwise it is a slice of the line that neither starts nor ends with whitespace, with only whitespace outside it. |
| Tracker.Split | fintrack/tracker.py:194 | `split` gives at least one piece, and no piece holds the separator. |
| Tracker.JoinSplit | fintrack/tracker.py:194 | Joining the pieces of `split` gives the line back. |
| Tracker.SplitJoin | fintrack/tracker.py:194 | Pieces without separators, joined, split back into the same pieces. |
| Tracker.FirstBlank | fintrack/tracker.py:190-193 | The stopping point never passes the number of lines. |
| Tracker.FirstBlankIsFirst | fintrack/tracker.py:190-193 | Every line before the stopping point has text, and the line at it is blank. |
| Tracker.FirstBlankAt | fintrack/tracker.py:190-193 | A blank line after lines with text is the stopping point. |
| Tracker.SlurpCalls | fintrack/tracker.py:190-194 | One `add` per line before the first blank one, with the fields of the stripped line split at tabs. |
| Tracker.SlurpStopsAtEmptyLine | fintrack/tracker.py:192-193 | Lines after the first blank line are never read. |
| Tracker.StrArgs | fintrack/tracker.py:194 | Each field is passed as a string argument, in order. |
| Tracker.Slurped | fintrack/tracker.py:190-194 | Repeated add that completes adds one record per call, and keeps a sorted sheet sorted. |
| Tracker.LoadSheets | fintrack/tracker.py:157-165 | The loop over the configured sheets fails exactly when LoadConfigured does, with its error. Otherwise it yields a valid sheet for each loaded name, holding LoadConfigured's records. |
| Tracker.MergedSheets | fintrack/tracker.py:168-170 | `defaults \| sheets` merges the sheets' contents as it merges the maps, and keeps every sheet valid. |
| Tracker.NewEmptySheet | fintrack/tracker.py:169 | `Sheet(cls=type)` succeeds exactly for Record, with an empty sheet; otherwise AttributeError or TypeError. |
| Tracker.DefaultSheets | fintrack/tracker.py:168-169 | The comprehension of defaults fails exactly when Defaults does, with its error. Otherwise it yields an empty valid sheet for each registered name. |
| Tracker.BuildSheets | fintrack/tracker.py:157-172 | The sheets of `load` are those of LoadSpec, with the same errors. "records" is always among them. |
| Tracker.SheetOfRecords | fintrack/tracker.py:81 | `Sheet(records)` is a new valid sheet holding the records sorted. |
| Tracker.Compose | fintrack/tracker.py:90-92 | The loop of sums ends in Composed's records and outcome. The result is the base sheet itself until the first sum and a new sheet after it, so no stored sheet is modified. |
| Tracker.Tracker.constructor | fintrack/tracker.py:20-26 | A new Tracker has its registry, no sheets and no active sheet. |
| Tracker.Tracker.Classes | fintrack/tracker.py:55 | Every sheet's declared type, by name. |
| Tracker.Tracker.Config | fintrack/tracker.py:44-57 | The configuration is ConfigOf the registry and the sheets' types. |
| Tracker.Tracker.SelectSheet | fintrack/tracker.py:66-72 | A known name becomes active. An unknown name raises KeyError and changes nothing. The sheets never change. |
| Tracker.Tracker.Load | fintrack/tracker.py:144-173 | Load succeeds exactly when LoadSpec does, with its error otherwise. On success the sheets are LoadSpec's and "records" is active. On failure the sheets and the active sheet are unchanged. |
| Tracker.Tracker.Install | fintrack/tracker.py:168-172 | The merged sheets replace the old ones and "records" becomes active. |
| Tracker.Tracker.MakeBalanced | fintrack/tracker.py:95-101 | The balanced view of the current sheet becomes active, and the sheets do not change. |
| Tracker.Tracker.Future | fintrack/tracker.py:74-82 | A new sheet becomes active. Without "plans" it stays empty and KeyError is raised. Otherwise it holds Composed from no records and the plans' takes. The stored sheets do not change. |
| Tracker.Tracker.Overview | fintrack/tracker.py:84-93 | A missing "records" raises KeyError and changes nothing. A missing "plans" raises KeyError with "records" active. Otherwise the active sheet holds Composed from the records and the plans' takes. With no plans, or when the first take fails, it is the "records" sheet itself. The stored sheets never change. |
| Tracker.Tracker.Len | fintrack/tracker.py:202-203 | `len` is the current sheet's number of records; a balanced view raises TypeError. |
| Tracker.Tracker.Iter | fintrack/tracker.py:198-200 | Iteration yields the current sheet's records in order; a balanced view raises TypeError. |
| Tracker.Tracker.GetItem | fintrack/tracker.py:205-206 | Indexing with an integer is the current sheet's indexing; a balanced view raises TypeError. |
| Tracker.Tracker.ViewsAgree | fintrack/tracker.py:198-206 | Length, iteration and indexing agree. The length is the number of iterated records. Indexing at k and at k minus the length gives the k-th record. A view that cannot be iterated cannot be indexed either. |
| Tracker.Tracker.Add | fintrack/tracker.py:177-183 | `add` on the current sheet, or through a balanced view on its sheet. The source returns None and logs the record the sheet's `add` returned; the model's result is that record, Constructed's result, or its error. The record is inserted sorted. A failure changes nothing. The registry and the active sheet do not change. |
| Tracker.Tracker.Slurp | fintrack/tracker.py:185-194 | The loop over the lines ends in Slurped's records and outcome for the calls SlurpCalls gives. Lines after the first blank one are not read, and the first failing add stops it. |

## Left out

- Files and formats are not modelled. This covers reading and writing
  `config.yaml` and the sheet files, the JSON encoders and decoders, `use`
  and `save`. `Tracker.Tracker.Load` receives the configured (name, type
  name) list and the decoded contents of every sheet file that exists.
- `Tracker.Tracker.Add` does not save after adding.
- Foreign libraries are parameters, not models. This covers the date
  parsers (`dateparser`, `dateutil`), the clock, uuid generation,
  `RecurringEvent` and `rrulestr(...).xafter`, the uid template's
  `str.format`, `humanize.naturalday`, `isoformat` and `str`.
- `Tracker.Tracker.Future` and `Tracker.Tracker.Overview` take each plan's
  `take` as a parameter. In the source they call `plan.take(until=...)`,
  but `PlannedRecord.take(count, start)` has no `until`, so that call is not
  modelled.
- The properties of a successful compose (`Tracker.ComposedHoldsTaken`,
  `Future`, `Overview`) describe a `take` the source never reaches. A
  registry whose load succeeds holds only Record sheets, so its "plans"
  sheet holds Records, which have no `take`; with the source's registry the
  load always fails.
- Plans.Take: fintrack/plans.py imports `Records` from fintrack/records.py,
  which defines no such name. The model wraps the Records in a plain
  sequence.
- Plans.Normalised: the string amount is filtered as fintrack/util.py's
  `parse_amount` does, then read as an exact number rather than a binary
  `float`. fintrack/util.py is not part of this model.
- Floating point is not modelled. `humanized` turns a Decimal into a float
  and `BalancedSheet` therefore sums floats; the model keeps exact reals. The
  global `getcontext().prec = 2` in fintrack/records.py is not modelled
  either.
- Rows.Humanized: `humanized` becomes a number of the same exact value, not
  a rounded float.
- Records.NormaliseTimestamp: when `dateparser` returns None for text it
  cannot read, the model raises ValueError at construction. The source would
  store None as the timestamp and fail later, when the record is compared.
- Amounts.Residue: the filter's `\d` keeps every Unicode decimal digit. The
  model keeps only the ASCII digits '0' to '9', so a text with other digits
  has a different residue.
- Amounts.ParseAmount: `Decimal` reads every Unicode decimal digit. The
  model reads ASCII digits only, so text whose digits are of another script
  is rejected with InvalidOperation although the source parses it.
- Recorders.GetItem: any other attribute of the record (a method, a
  special attribute) is returned by `getattr` in the source. The model
  raises AttributeError for every name but the four fields and `columns`.
- Books.SheetOf: a RecordLike sheet is never built, so the model computes
  only the error that stops it, not the instances inserted before. A plain
  RecordLike instance handed over as an element is not distinguished from
  other values: the model raises TypeError where the source inserts it.
- Books.NewSheet: the same as Books.SheetOf for a RecordLike sheet.
- Tracker.Strip and Tracker.StripTrims: `str.strip` removes every Unicode whitespace
  character. The model removes ASCII whitespace and the separators
  U+001C to U+001F.
- Books.Sheet.GetItem: only integer indices are modelled. A slice, which
  `SortedList` answers with a list of records, and a non-integer key, which
  raises TypeError, are not.
- Tracker.Tracker.GetItem: the same as Books.Sheet.GetItem.
- The `DECIMAL_POINT` environment variable is a separator parameter of a
  single character. An empty value, with which every text amount fails, and
  a longer value, whose characters the filter keeps one by one while only
  the whole string is replaced, are not modelled. Nor is its use as a
  regular expression: a separator that is a regular expression
  metacharacter other than '.' is treated literally.
- Tracker.Tracker.Load: on failure the model leaves the previous sheets in
  place, and the source does not. When a configured sheet fails to load,
  `_sheets` already holds the sheets loaded before it. When creating a
  default sheet fails, it holds every loaded sheet. When "records" is
  missing after the merge, it holds the merged sheets.
- `current_sheet` with no active sheet logs and calls `sys.exit`. This
  becomes a precondition of `Tracker.Tracker.Add`, `Slurp`, `MakeBalanced`,
  `Len`, `Iter` and `GetItem`.
- Tracker.Tracker.Load: it does not state that the loaded and default
  sheets are new objects.
- Tracker.Tracker.Overview: with no plans, or when the first take fails,
  the active sheet is the stored "records" sheet itself. So a later `add` on
  the Tracker changes that stored sheet, as in the source. The model states
  this aliasing but proves nothing further about later calls.
- Not modelled, because they are rendering, logging, the command line or
  packaging:
  - the `table` property and fintrack/ui/tabular.py;
  - `Records.show`;
  - `version` and `using`;
  - fintrack/__main__.py and setup.py.
- `all_subclasses` uses reflection and is not used by the modelled code.
  `Sheet.type` and the unused `book` argument of `Sheet` are left out too.
- Code that only the tests mention is not part of this model:
  `Sheet.take`, `SheetExtract`, `CombinedSheet`, `PlannedSheet` and
  `rows(with_balance=...)`.
