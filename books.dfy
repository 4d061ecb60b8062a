/**
 * Sheets of fintrack/books.py: a `Sheet` keeps records of its declared
 * class sorted by timestamp as they are added, and a `BalancedSheet`
 * shows a sheet's rows with a running "balance" column after "amount".
 */
module Books {
  import opened Wrappers
  import opened Values
  import opened Ordering
  import Records
  import RowView = Rows

  type Record = Records.Record

  /** The classes a sheet can be declared over. */
  datatype Class =
    | RecordClass                 // fintrack.records.Record
    | RecordLikeClass             // fintrack.records.RecordLike itself
    | PlannedRecordClass          // fintrack.plans.PlannedRecord, which does not derive from RecordLike
    | ForeignClass(name: string)  // any other class

  /** `issubclass(cls, RecordLike)`. */
  predicate IsRecordLike(c: Class) {
    c == RecordClass || c == RecordLikeClass
  }

  /** The class attribute `columns`: only Record declares one. */
  function ClassColumns(c: Class): (cols: Option<seq<string>>)
    ensures cols.Some? <==> c == RecordClass
    ensures cols.Some? ==> "amount" in cols.value
  {
    if c == RecordClass then Some(Records.Columns()) else None
  }

  /** An argument handed to `add`, or an element of what `update` iterates. */
  datatype Arg = RecordArg(r: Record) | ValueArg(v: Value)

  /** An argument as a constructor field value: a record instance is just some object there. */
  function AsValue(a: Arg): Value {
    match a
    case RecordArg(_) => OtherV("Record")
    case ValueArg(v) => v
  }

  function AsValues(args: seq<Arg>): (vs: seq<Value>)
    ensures |vs| == |args| && forall i :: 0 <= i < |args| ==> vs[i] == AsValue(args[i])
  {
    if args == [] then [] else [AsValue(args[0])] + AsValues(args[1..])
  }

  /**
   * The record `add(*args, **kwargs)` inserts into a Record sheet: a single
   * Record is taken as it is, a single dict is used as keyword arguments,
   * anything else is handed to the constructor.
   */
  function Constructed(args: seq<Arg>, kw: map<string, Value>, env: Records.Env, newUid: string): (r: Result<Record>)
    ensures |args| == 1 && args[0].RecordArg? ==> r == Ok(args[0].r)
    ensures |args| == 1 && args[0].ValueArg? && args[0].v.DictV? ==>
              r == Records.NewRecord([], args[0].v.entries, env, newUid)
    ensures !(|args| == 1 && (args[0].RecordArg? || args[0].v.DictV?)) ==>
              r == Records.NewRecord(AsValues(args), kw, env, newUid)
  {
    if |args| == 1 && args[0].RecordArg? then Ok(args[0].r)
    else if |args| == 1 && args[0].v.DictV? then Records.NewRecord([], args[0].v.entries, env, newUid)
    else Records.NewRecord(AsValues(args), kw, env, newUid)
  }

  /** `Sheet().add("blah")`: a lone string does not construct a record. */
  lemma StringArgumentRejected(s: string, env: Records.Env, newUid: string)
    ensures Constructed([ValueArg(StrV(s))], map[], env, newUid) == Err(TypeError)
  {
    Records.MissingDescriptionRejected(s, env, newUid);
  }

  /**
   * `update(others)` as repeated single-argument `add`, stopping at the first
   * failure; the `from`-th fresh uid goes to the first element.
   */
  function Updated(rs: seq<Record>, others: seq<Arg>, env: Records.Env, uids: nat -> string, from: nat): (u: (seq<Record>, Outcome))
    ensures u.1 == Pass ==> |u.0| == |rs| + |others|
    ensures SortedBy(rs, Records.Key) ==> SortedBy(u.0, Records.Key)
    decreases others
  {
    if others == [] then (rs, Pass)
    else
      match Constructed([others[0]], map[], env, uids(from))
      case Err(e) => (rs, Fail(e))
      case Ok(r) =>
        var next := InsortRight(rs, r, Records.Key);
        assert SortedBy(rs, Records.Key) ==> SortedBy(next, Records.Key) by {
          if SortedBy(rs, Records.Key) { InsortRightSorted(rs, r, Records.Key); }
        }
        Updated(next, others[1..], env, uids, from + 1)
  }

  function RecordArgs(rs: seq<Record>): (args: seq<Arg>)
    ensures |args| == |rs| && forall i :: 0 <= i < |rs| ==> args[i] == RecordArg(rs[i])
  {
    if rs == [] then [] else [RecordArg(rs[0])] + RecordArgs(rs[1..])
  }

  /** Adding existing records never fails: `update` with records is InsertAll. */
  lemma {:induction false} UpdatedWithRecords(rs: seq<Record>, xs: seq<Record>, env: Records.Env, uids: nat -> string, from: nat)
    ensures Updated(rs, RecordArgs(xs), env, uids, from) == (InsertAll(rs, xs, Records.Key), Pass)
    decreases xs
  {
    if xs != [] {
      assert RecordArgs(xs)[1..] == RecordArgs(xs[1..]);
      UpdatedWithRecords(InsortRight(rs, xs[0], Records.Key), xs[1..], env, uids, from + 1);
    }
  }

  /** A sheet of records, sorted by timestamp. */
  class Sheet {
    const cls: Class
    var records: seq<Record>

    predicate Valid()
      reads this
    {
      cls == RecordClass && SortedBy(records, Records.Key)
    }

    constructor Empty()
      ensures Valid() && records == []
    {
      cls := RecordClass;
      records := [];
    }

    /** `__len__`. */
    function Length(): (n: nat)
      reads this
      ensures n == |records|
    {
      |records|
    }

    /** `__getitem__`, with Python's negative indices. */
    function GetItem(index: int): (r: Result<Record>)
      reads this
      ensures 0 <= index < |records| ==> r == Ok(records[index])
      ensures -|records| <= index < 0 ==> r == Ok(records[|records| + index])
      ensures (index < -|records| || |records| <= index) ==> r == Err(IndexError)
    {
      if 0 <= index < |records| then Ok(records[index])
      else if -|records| <= index < 0 then Ok(records[|records| + index])
      else Err(IndexError)
    }

    /** `columns`: the declared class's columns. */
    function Columns(): (cols: seq<string>)
      reads this
      requires Valid()
      ensures cols == Records.Columns()
    {
      ClassColumns(cls).value
    }

    /** `rows`: `asrow` of every record, in sorted order. */
    function Rows(naturalDay: int -> string): (rows: seq<seq<Value>>)
      reads this
      ensures |rows| == |records|
      ensures forall k :: 0 <= k < |records| ==> Some(rows[k]) == RowView.AsRow(RowView.RecordObj(records[k]), naturalDay)
    {
      seq(|records|, k reads this requires 0 <= k < |records| =>
        RowView.RecordRow(records[k], naturalDay);
        RowView.AsRow(RowView.RecordObj(records[k]), naturalDay).value)
    }

    /**
     * `add`: the record is constructed as Constructed says and inserted after
     * every record with a timestamp not later than its own; a failing
     * construction raises before anything is inserted.
     */
    method Add(args: seq<Arg>, kw: map<string, Value>, env: Records.Env, newUid: string) returns (r: Result<Record>)
      requires Valid()
      modifies this
      ensures Valid()
      ensures r == Constructed(args, kw, env, newUid)
      ensures r.Err? ==> records == old(records)
      ensures r.Ok? ==> records == InsortRight(old(records), r.value, Records.Key)
      ensures r.Ok? ==> |records| == |old(records)| + 1
      ensures r.Ok? ==> multiset(records) == multiset(old(records)) + multiset{r.value}
    {
      r := Constructed(args, kw, env, newUid);
      if r.Ok? {
        var i;
        InsortRightPermutes(records, r.value, Records.Key);
        records, i := Insort(records, r.value, Records.Key);
      }
    }

    /** `update(others)`: `add(obj)` for every element in turn. */
    method Update(others: seq<Arg>, env: Records.Env, uids: nat -> string) returns (outcome: Outcome)
      requires Valid()
      modifies this
      ensures Valid()
      ensures (records, outcome) == Updated(old(records), others, env, uids, 0)
    {
      var i := 0;
      while i < |others|
        invariant 0 <= i <= |others|
        invariant Valid()
        invariant Updated(old(records), others, env, uids, 0) == Updated(records, others[i..], env, uids, i)
      {
        var r := Add([others[i]], map[], env, uids(i));
        if r.Err? {
          return Fail(r.error);
        }
        assert others[i..][1..] == others[i + 1..];
        i := i + 1;
      }
      outcome := Pass;
    }

    /**
     * `self + other`: a new sheet of this sheet's class holding both sheets'
     * records, sorted; neither operand is modified.
     */
    method Plus(other: Sheet, env: Records.Env, uids: nat -> string) returns (sum: Sheet)
      requires Valid() && other.Valid()
      ensures fresh(sum) && sum.Valid() && sum.cls == cls
      ensures unchanged(this) && unchanged(other)
      ensures sum.records == InsertAll(records, other.records, Records.Key)
      ensures multiset(sum.records) == multiset(records) + multiset(other.records)
      ensures |sum.records| == |records| + |other.records|
    {
      var mine, theirs := records, other.records;
      sum := new Sheet.Empty();
      UpdatedWithRecords([], mine, env, uids, 0);
      assert [] + mine == mine;
      InsertAllInOrder([], mine, Records.Key);
      var copied := sum.Update(RecordArgs(mine), env, uids);
      assert sum.records == mine;
      UpdatedWithRecords(mine, theirs, env, uids, 0);
      InsertAllPermutes(mine, theirs, Records.Key);
      var merged := sum.Update(RecordArgs(theirs), env, uids);
    }
  }

  /**
   * The error that stops `Sheet(initial, cls=RecordLike)`, adding one element
   * at a time as `update` does. A Record is a RecordLike and is taken as it
   * is; a dict must bind exactly `amount` and `description`, and any other
   * single argument lacks `description` (TypeError). The sorted list
   * compares a new element with one it holds: a plain RecordLike instance
   * has no `<` (TypeError), and a Record compared with one reads its missing
   * timestamp (AttributeError). Records among records compare fine. When
   * every element is in, building the balanced view reads the class's
   * missing `columns` (AttributeError). `holdsRecords` says whether Records
   * are already held, `holdsPlain` whether a plain instance is.
   */
  function RecordLikeFailure(initial: seq<Arg>, holdsRecords: bool, holdsPlain: bool): (e: Error)
    ensures e == AttributeError || e == TypeError
    ensures initial == [] ==> e == AttributeError
    ensures !holdsPlain && (forall i :: 0 <= i < |initial| ==> initial[i].RecordArg?) ==> e == AttributeError
    ensures initial != [] && initial[0].ValueArg? && !initial[0].v.DictV? ==> e == TypeError
    ensures initial != [] && initial[0].ValueArg? && (holdsRecords || holdsPlain) ==> e == TypeError
    decreases |initial|
  {
    if initial == [] then AttributeError
    else match initial[0]
      case RecordArg(_) =>
        if holdsPlain then AttributeError
        else RecordLikeFailure(initial[1..], true, false)
      case ValueArg(v) =>
        if !(v.DictV? && v.entries.Keys == {"amount", "description"}) then TypeError
        else if holdsRecords || holdsPlain then TypeError
        else RecordLikeFailure(initial[1..], false, true)
  }

  /**
   * The records of `Sheet(records, cls)`: a class that is not RecordLike
   * raises TypeError; the initial records are added as by `update`; building
   * the balanced view then needs the class's `columns`, which only Record has.
   */
  function SheetOf(initial: seq<Arg>, cls: Class, env: Records.Env, uids: nat -> string): (r: Result<seq<Record>>)
    ensures !IsRecordLike(cls) ==> r == Err(TypeError)
    ensures cls == RecordLikeClass ==> r == Err(RecordLikeFailure(initial, false, false))
    ensures cls == RecordLikeClass && (forall i :: 0 <= i < |initial| ==> initial[i].RecordArg?) ==> r == Err(AttributeError)
    ensures cls == RecordLikeClass && initial != [] && initial[0].ValueArg? && !initial[0].v.DictV? ==> r == Err(TypeError)
    ensures r.Ok? ==> cls == RecordClass && SortedBy(r.value, Records.Key)
    ensures cls == RecordClass ==>
      (r.Ok? <==> Updated([], initial, env, uids, 0).1 == Pass) &&
      (r.Ok? ==> r.value == Updated([], initial, env, uids, 0).0 && |r.value| == |initial|) &&
      (r.Err? ==> Fail(r.error) == Updated([], initial, env, uids, 0).1)
  {
    if !IsRecordLike(cls) then Err(TypeError)
    else if cls != RecordClass then Err(RecordLikeFailure(initial, false, false))
    else
      var (rs, outcome) := Updated([], initial, env, uids, 0);
      if outcome.Fail? then Err(outcome.error) else Ok(rs)
  }

  /** An empty sheet can be made of Record only: `Sheet(cls=PlannedRecord)` raises TypeError. */
  lemma {:induction false} EmptySheetOf(cls: Class, env: Records.Env, uids: nat -> string)
    ensures SheetOf([], cls, env, uids) == (if cls == RecordClass then Ok([])
                                           else if cls == RecordLikeClass then Err(AttributeError)
                                           else Err(TypeError))
  {
    assert Updated([], [], env, uids, 0) == ([], Pass);
  }

  /** `Sheet(records, cls)`: a new sheet holding the records SheetOf describes. */
  method NewSheet(initial: seq<Arg>, cls: Class, env: Records.Env, uids: nat -> string) returns (r: Result<Sheet>)
    ensures r.Ok? <==> SheetOf(initial, cls, env, uids).Ok?
    ensures r.Err? ==> r.error == SheetOf(initial, cls, env, uids).error
    ensures r.Ok? ==> fresh(r.value) && r.value.Valid() && r.value.records == SheetOf(initial, cls, env, uids).value
  {
    if !IsRecordLike(cls) {
      return Err(TypeError);
    }
    if cls != RecordClass {
      return Err(RecordLikeFailure(initial, false, false));
    }
    var sheet := new Sheet.Empty();
    var outcome := sheet.Update(initial, env, uids);
    if outcome.Fail? {
      return Err(outcome.error);
    }
    r := Ok(sheet);
  }

  // ---------------------------------------------------------------------
  // The balanced view

  /** Position of the first occurrence of `x`. */
  function IndexOf(s: seq<string>, x: string): (i: nat)
    requires x in s
    ensures i < |s| && s[i] == x && x !in s[..i]
  {
    if s[0] == x then 0 else assert s[1..] + [] == s[1..]; assert x in s[1..]; 1 + IndexOf(s[1..], x)
  }

  /** The amounts of a sequence of records. */
  function Amounts(rs: seq<Record>): (a: seq<real>)
    ensures |a| == |rs| && forall i :: 0 <= i < |rs| ==> a[i] == rs[i].amount
  {
    if rs == [] then [] else [rs[0].amount] + Amounts(rs[1..])
  }

  function Sum(a: seq<real>): real {
    if a == [] then 0.0 else Sum(a[..|a| - 1]) + a[|a| - 1]
  }

  /** `s` with `x` inserted at index `i`, as `list.insert` does. */
  function InsertAt<T>(s: seq<T>, i: nat, x: T): seq<T>
    requires i <= |s|
  {
    s[..i] + [x] + s[i..]
  }

  /** InsertAt keeps what comes before `i`, puts `x` at `i` and shifts the rest by one. */
  lemma InsertAtCells<T>(s: seq<T>, i: nat, x: T)
    requires i <= |s|
    ensures |InsertAt(s, i, x)| == |s| + 1 && InsertAt(s, i, x)[i] == x
    ensures InsertAt(s, i, x)[..i] == s[..i] && InsertAt(s, i, x)[i + 1..] == s[i..]
  {
    var r := InsertAt(s, i, x);
    assert r[..i] == s[..i];
    assert r[i + 1..] == s[i..];
  }

  /** A view of a record sheet that adds a running balance after the amount. */
  class BalancedSheet {
    const sheet: Sheet
    const amountIndex: nat

    /** `BalancedSheet(sheet)`: remembers where "amount" is among the sheet's columns. */
    constructor (sheet: Sheet)
      requires sheet.Valid()
      ensures this.sheet == sheet
      ensures amountIndex < |sheet.Columns()| && sheet.Columns()[amountIndex] == "amount"
      ensures "amount" !in sheet.Columns()[..amountIndex]
      ensures Valid()
    {
      this.sheet := sheet;
      this.amountIndex := IndexOf(sheet.Columns(), "amount");
    }

    predicate Valid()
      reads this, sheet
    {
      sheet.Valid() && amountIndex < |sheet.Columns()| && sheet.Columns()[amountIndex] == "amount"
    }

    /** `columns`: the sheet's columns with "balance" right after "amount". */
    function Columns(): (cols: seq<string>)
      reads this, sheet
      requires Valid()
      ensures |cols| == |sheet.Columns()| + 1
      ensures cols[amountIndex] == "amount" && cols[amountIndex + 1] == "balance"
      ensures cols[..amountIndex + 1] == sheet.Columns()[..amountIndex + 1]
      ensures cols[amountIndex + 2..] == sheet.Columns()[amountIndex + 1..]
    {
      InsertAtCells(sheet.Columns(), amountIndex + 1, "balance");
      InsertAt(sheet.Columns(), amountIndex + 1, "balance")
    }

    /**
     * `rows`: each row of the sheet with, right after its amount, the sum of
     * the amounts of this and all earlier rows, starting from zero.
     */
    method Rows(naturalDay: int -> string) returns (rows: seq<seq<Value>>)
      requires Valid()
      ensures |rows| == |sheet.records|
      ensures forall k :: 0 <= k < |rows| ==>
        rows[k] == InsertAt(sheet.Rows(naturalDay)[k], amountIndex + 1,
                            NumberV(Sum(Amounts(sheet.records[..k + 1]))))
    {
      var base := sheet.Rows(naturalDay);
      ghost var rs := sheet.records;
      AmountIsSecondColumn(amountIndex);
      AmountCells(rs, base, naturalDay);
      rows := WithRunningBalance(base, 1);
      RunningBalanceOfRecords(rs, base, rows);
    }
  }

  /** "amount" is the second of Record's columns. */
  lemma AmountIsSecondColumn(i: nat)
    requires i < |Records.Columns()| && Records.Columns()[i] == "amount"
    ensures i == 1
  {
    var cols := Records.Columns();
    assert cols[0][0] != 'a' && cols[2][0] != 'a' && cols[3][0] != 'a';
  }

  /** Every row has a number in column `idx`. */
  predicate NumberColumn(rows: seq<seq<Value>>, idx: nat) {
    forall k :: 0 <= k < |rows| ==> idx < |rows[k]| && rows[k][idx].NumberV?
  }

  /** The sum of column `idx` over `rows`. */
  function CellSum(rows: seq<seq<Value>>, idx: nat): real
    requires NumberColumn(rows, idx)
  {
    if rows == [] then 0.0 else CellSum(rows[..|rows| - 1], idx) + rows[|rows| - 1][idx].x
  }

  /** The loop of `rows`: a running total of column `idx`, inserted after it. */
  method WithRunningBalance(base: seq<seq<Value>>, idx: nat) returns (rows: seq<seq<Value>>)
    requires NumberColumn(base, idx)
    ensures |rows| == |base|
    ensures forall k :: 0 <= k < |base| ==>
      rows[k] == InsertAt(base[k], idx + 1, NumberV(CellSum(base[..k + 1], idx)))
  {
    var balance: real := 0.0;
    rows := [];
    for k := 0 to |base|
      invariant |rows| == k
      invariant balance == CellSum(base[..k], idx)
      invariant forall j :: 0 <= j < k ==>
        rows[j] == InsertAt(base[j], idx + 1, NumberV(CellSum(base[..j + 1], idx)))
    {
      var row := base[k];
      assert base[..k + 1][..k] == base[..k];
      balance := balance + row[idx].x;
      rows := rows + [InsertAt(row, idx + 1, NumberV(balance))];
    }
  }

  /** The amount cell of a record's row is its amount. */
  lemma AmountCells(rs: seq<Record>, rows: seq<seq<Value>>, naturalDay: int -> string)
    requires |rows| == |rs|
    requires forall k :: 0 <= k < |rs| ==> Some(rows[k]) == RowView.AsRow(RowView.RecordObj(rs[k]), naturalDay)
    ensures forall k :: 0 <= k < |rs| ==> |rows[k]| == 4 && rows[k][1] == NumberV(rs[k].amount)
    ensures NumberColumn(rows, 1)
  {
    forall k | 0 <= k < |rs| ensures |rows[k]| == 4 && rows[k][1] == NumberV(rs[k].amount) {
      RowView.RecordRow(rs[k], naturalDay);
    }
  }

  /** The running totals of the amount column are the running totals of the records' amounts. */
  lemma RunningBalanceOfRecords(rs: seq<Record>, base: seq<seq<Value>>, rows: seq<seq<Value>>)
    requires |base| == |rs| == |rows|
    requires forall k :: 0 <= k < |rs| ==> |base[k]| == 4 && base[k][1] == NumberV(rs[k].amount)
    requires NumberColumn(base, 1)
    requires forall k :: 0 <= k < |base| ==> rows[k] == InsertAt(base[k], 2, NumberV(CellSum(base[..k + 1], 1)))
    ensures forall k :: 0 <= k < |rows| ==> rows[k] == InsertAt(base[k], 2, NumberV(Sum(Amounts(rs[..k + 1]))))
  {
    forall k | 0 <= k < |rows|
      ensures rows[k] == InsertAt(base[k], 2, NumberV(Sum(Amounts(rs[..k + 1]))))
    {
      CellSumIsAmountSum(rs[..k + 1], base[..k + 1]);
    }
  }

  /** Summing the amount column of record rows sums the records' amounts. */
  lemma {:induction false} CellSumIsAmountSum(rs: seq<Record>, rows: seq<seq<Value>>)
    requires |rows| == |rs|
    requires forall k :: 0 <= k < |rs| ==> |rows[k]| == 4 && rows[k][1] == NumberV(rs[k].amount)
    ensures NumberColumn(rows, 1) && CellSum(rows, 1) == Sum(Amounts(rs))
    decreases |rs|
  {
    if rs != [] {
      var n := |rs| - 1;
      CellSumIsAmountSum(rs[..n], rows[..n]);
      assert Amounts(rs)[..n] == Amounts(rs[..n]);
    }
  }

  /** Each balance is the previous one plus the row's amount; the first is the first amount. */
  lemma BalanceStep(rs: seq<Record>, k: nat)
    requires 0 < k <= |rs|
    ensures Sum(Amounts(rs[..k])) == Sum(Amounts(rs[..k - 1])) + rs[k - 1].amount
  {
    assert Amounts(rs[..k])[..k - 1] == Amounts(rs[..k - 1]);
  }

  /** The running balances of amounts 125, -125, -125 are 125, 0, -125. */
  lemma BalanceExample(r1: Record, r2: Record, r3: Record)
    requires r1.amount == 125.0 && r2.amount == -125.0 && r3.amount == -125.0
    ensures Sum(Amounts([r1, r2, r3][..1])) == 125.0
    ensures Sum(Amounts([r1, r2, r3][..2])) == 0.0
    ensures Sum(Amounts([r1, r2, r3][..3])) == -125.0
  {
    var rs := [r1, r2, r3];
    BalanceStep(rs, 1);
    BalanceStep(rs, 2);
    BalanceStep(rs, 3);
    assert rs[..0] == [];
  }
}
