/**
 * Row projection of fintrack/utils.py: `get_columns` finds an object's
 * column names through a fall-back chain and `asrow` lists the object's
 * values in that order, each passed through `humanized`.
 */
module Rows {
  import opened Wrappers
  import opened Values
  import Records

  /** The kinds of object the projection distinguishes. */
  datatype Obj =
    | RecordObj(r: Records.Record)                 // exposes `columns`
    | DataclassObj(fields: seq<(string, Value)>)   // a dataclass without `columns`
    | DictObj(entries: seq<(string, Value)>)       // a dict, in insertion order
    | OtherObj                                     // anything else

  function Names(entries: seq<(string, Value)>): (names: seq<string>)
    ensures |names| == |entries|
    ensures forall i :: 0 <= i < |entries| ==> names[i] == entries[i].0
  {
    if entries == [] then [] else [entries[0].0] + Names(entries[1..])
  }

  /**
   * `get_columns`: the object's `columns`, else its dataclass field names,
   * else its dict keys, else no columns.
   */
  function GetColumns(obj: Obj): (cols: seq<string>)
    ensures obj.RecordObj? ==> cols == Records.Columns()
    ensures obj.DataclassObj? ==> |cols| == |obj.fields| && forall i :: 0 <= i < |cols| ==> cols[i] == obj.fields[i].0
    ensures obj.DictObj? ==> |cols| == |obj.entries| && forall i :: 0 <= i < |cols| ==> cols[i] == obj.entries[i].0
    ensures obj.OtherObj? ==> cols == []
  {
    match obj
    case RecordObj(_) => Records.Columns()
    case DataclassObj(fs) => Names(fs)
    case DictObj(es) => Names(es)
    case OtherObj => []
  }

  /** `asdict(record)`: the dataclass fields and their values, in declaration order. */
  function RecordFields(r: Records.Record): (fs: seq<(string, Value)>)
    ensures |fs| == 4 && Names(fs) == Records.FieldNames
  {
    [("amount", DecimalV(r.amount)), ("description", r.description),
     ("timestamp", DateTimeV(r.timestamp)), ("uid", r.uid)]
  }

  /** The dictionary `asrow` builds: a copy of a dict, `asdict` of a dataclass, nothing otherwise. */
  function AsDict(obj: Obj): Option<seq<(string, Value)>> {
    match obj
    case RecordObj(r) => Some(RecordFields(r))
    case DataclassObj(fs) => Some(fs)
    case DictObj(es) => Some(es)
    case OtherObj => None
  }

  /** Dictionary lookup in an entry list: the first entry with that key. */
  function Lookup(entries: seq<(string, Value)>, key: string): Option<Value> {
    if entries == [] then None
    else if entries[0].0 == key then Some(entries[0].1)
    else Lookup(entries[1..], key)
  }

  /** Lookup finds exactly the keys of the entries, with a value stored under that key. */
  lemma {:induction false} LookupFinds(entries: seq<(string, Value)>, key: string)
    ensures Lookup(entries, key).Some? <==> key in Names(entries)
    ensures Lookup(entries, key).Some? ==> (key, Lookup(entries, key).value) in entries
    decreases |entries|
  {
    if entries != [] && entries[0].0 != key {
      var rest := entries[1..];
      LookupFinds(rest, key);
      assert Lookup(entries, key) == Lookup(rest, key);
      assert Names(entries) == [entries[0].0] + Names(rest);
      if Lookup(rest, key).Some? {
        var i :| 0 <= i < |rest| && rest[i] == (key, Lookup(rest, key).value);
        assert entries[i + 1] == rest[i];
      }
    }
  }

  /** `humanized`: a datetime becomes its natural-day text, a Decimal a number, anything else is kept. */
  function Humanized(v: Value, naturalDay: int -> string): (h: Value)
    ensures v.DateTimeV? ==> h == StrV(naturalDay(v.t))
    ensures v.DecimalV? ==> h == NumberV(v.d)
    ensures !v.DateTimeV? && !v.DecimalV? ==> h == v
  {
    match v
    case DateTimeV(t) => StrV(naturalDay(t))
    case DecimalV(d) => NumberV(d)
    case _ => v
  }

  /** `[humanized(d[key]) for key in cols]` for keys that are all present. */
  function Project(d: seq<(string, Value)>, cols: seq<string>, naturalDay: int -> string): (row: seq<Value>)
    requires forall k :: 0 <= k < |cols| ==> Lookup(d, cols[k]).Some?
    ensures |row| == |cols|
    ensures forall k :: 0 <= k < |cols| ==> row[k] == Humanized(Lookup(d, cols[k]).value, naturalDay)
  {
    if cols == [] then []
    else [Humanized(Lookup(d, cols[0]).value, naturalDay)] + Project(d, cols[1..], naturalDay)
  }

  /**
   * `asrow(obj)`: one humanized value per column of `get_columns`, or None
   * for an object that is neither dict nor dataclass and for an empty dictionary.
   */
  function AsRow(obj: Obj, naturalDay: int -> string): (row: Option<seq<Value>>)
    ensures row.Some? <==> AsDict(obj).Some? && AsDict(obj).value != []
    ensures row.Some? ==> |row.value| == |GetColumns(obj)|
    ensures row.Some? ==> forall k :: 0 <= k < |row.value| ==>
              Lookup(AsDict(obj).value, GetColumns(obj)[k]).Some? &&
              row.value[k] == Humanized(Lookup(AsDict(obj).value, GetColumns(obj)[k]).value, naturalDay)
  {
    match AsDict(obj)
    case None => None
    case Some(d) =>
      if d == [] then None
      else
        var cols := GetColumns(obj);
        assert forall k :: 0 <= k < |cols| ==> Lookup(d, cols[k]).Some? by {
          if obj.RecordObj? {
            RecordColumnsFound(obj.r);
          } else {
            forall k | 0 <= k < |cols| ensures Lookup(d, cols[k]).Some? {
              assert Names(d)[k] == cols[k];
              LookupFinds(d, cols[k]);
            }
          }
        }
        Some(Project(d, cols, naturalDay))
  }

  /** Looking up each column of a record's fields finds that field's value. */
  lemma RecordLookups(r: Records.Record)
    ensures Lookup(RecordFields(r), "timestamp") == Some(DateTimeV(r.timestamp))
    ensures Lookup(RecordFields(r), "amount") == Some(DecimalV(r.amount))
    ensures Lookup(RecordFields(r), "description") == Some(r.description)
    ensures Lookup(RecordFields(r), "uid") == Some(r.uid)
  {
    var d := RecordFields(r);
    assert d[1..] == [("description", r.description), ("timestamp", DateTimeV(r.timestamp)), ("uid", r.uid)];
    assert d[1..][1..] == [("timestamp", DateTimeV(r.timestamp)), ("uid", r.uid)];
    assert d[1..][1..][1..] == [("uid", r.uid)];
    assert "amount"[0] != "timestamp"[0] && "description"[0] != "timestamp"[0];
    assert "amount"[0] != "uid"[0] && "description"[0] != "uid"[0] && "timestamp"[0] != "uid"[0];
    assert Lookup(d, "timestamp") == Lookup(d[1..], "timestamp") == Lookup(d[1..][1..], "timestamp");
    assert Lookup(d, "uid") == Lookup(d[1..], "uid") == Lookup(d[1..][1..], "uid") == Lookup(d[1..][1..][1..], "uid");
  }

  /** Every column of Record is a field of the record. */
  lemma RecordColumnsFound(r: Records.Record)
    ensures forall k :: 0 <= k < |Records.Columns()| ==> Lookup(RecordFields(r), Records.Columns()[k]).Some?
  {
    RecordLookups(r);
    var cols := Records.Columns();
    forall k | 0 <= k < |cols| ensures Lookup(RecordFields(r), cols[k]).Some? {
      assert k == 0 || k == 1 || k == 2 || k == 3;
    }
  }

  /**
   * A record's row is its natural-day timestamp, its amount as a number,
   * its description and its uid, in column order.
   */
  lemma {:induction false} RecordRow(r: Records.Record, naturalDay: int -> string)
    ensures AsRow(RecordObj(r), naturalDay) ==
      Some([StrV(naturalDay(r.timestamp)), NumberV(r.amount),
            Humanized(r.description, naturalDay), Humanized(r.uid, naturalDay)])
  {
    RecordLookups(r);
    RecordColumnsFound(r);
    var row := AsRow(RecordObj(r), naturalDay).value;
    assert |row| == 4;
    assert row[0] == StrV(naturalDay(r.timestamp)) && row[1] == NumberV(r.amount);
    assert row[2] == Humanized(r.description, naturalDay) && row[3] == Humanized(r.uid, naturalDay);
    assert row == [StrV(naturalDay(r.timestamp)), NumberV(r.amount),
                   Humanized(r.description, naturalDay), Humanized(r.uid, naturalDay)];
  }

  /** No key occurs twice, as in a Python dict. */
  predicate DistinctKeys(entries: seq<(string, Value)>) {
    forall i, j :: 0 <= i < j < |entries| ==> entries[i].0 != entries[j].0
  }

  /** With distinct keys, looking up the key of any entry finds that entry's value. */
  lemma {:induction false} LookupDistinct(entries: seq<(string, Value)>, k: nat)
    requires DistinctKeys(entries) && k < |entries|
    ensures Lookup(entries, entries[k].0) == Some(entries[k].1)
    decreases k
  {
    if k > 0 {
      var rest := entries[1..];
      assert entries[0].0 != entries[k].0;
      assert DistinctKeys(rest) by {
        forall i, j | 0 <= i < j < |rest| ensures rest[i].0 != rest[j].0 {
          assert rest[i] == entries[i + 1] && rest[j] == entries[j + 1];
        }
      }
      assert rest[k - 1] == entries[k];
      LookupDistinct(rest, k - 1);
    }
  }

  /**
   * A dict's row lists its values in insertion order, each humanized; an
   * empty dict has no row.
   */
  lemma DictRow(entries: seq<(string, Value)>, naturalDay: int -> string)
    requires DistinctKeys(entries)
    ensures entries == [] ==> AsRow(DictObj(entries), naturalDay) == None
    ensures entries != [] ==> AsRow(DictObj(entries), naturalDay).Some?
    ensures entries != [] ==> |AsRow(DictObj(entries), naturalDay).value| == |entries|
    ensures entries != [] ==> forall k :: 0 <= k < |entries| ==>
              AsRow(DictObj(entries), naturalDay).value[k] == Humanized(entries[k].1, naturalDay)
  {
    forall k | 0 <= k < |entries| ensures Lookup(entries, entries[k].0) == Some(entries[k].1) {
      LookupDistinct(entries, k);
    }
  }
}
