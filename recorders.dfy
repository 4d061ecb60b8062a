/**
 * The older container of fintrack/recorders.py: `Records`, a list of
 * records kept sorted by timestamp as `bisect.insort` inserts into it, and
 * its own `Record` dataclass, which only parses its timestamp.
 */
module Recorders {
  import opened Wrappers
  import opened Values
  import opened Ordering
  import Records

  /** A recorders `Record`: amount, description and uid are kept as given. */
  datatype Record = Record(amount: Value, description: Value, timestamp: int, uid: Value)

  function Key(r: Record): int { r.timestamp }

  /** `r1 < r2`: by timestamp only. */
  predicate Less(a: Record, b: Record) { a.timestamp < b.timestamp }

  /**
   * `<`, which `bisect.insort` uses, is the order of Key, and a strict weak
   * order: irreflexive, transitive, and records with equal timestamps are
   * incomparable, so an insort of either order places them alike.
   */
  lemma LessIsKeyOrder(a: Record, b: Record, c: Record)
    ensures Less(a, b) <==> Key(a) < Key(b)
    ensures !Less(a, a)
    ensures Less(a, b) && Less(b, c) ==> Less(a, c)
    ensures !Less(a, b) && !Less(b, a) <==> Key(a) == Key(b)
  {
  }

  /**
   * `Record(*pos, **kw)`: the same four fields and defaults as the newer
   * record; `__post_init__` parses a timestamp that is not a datetime
   * (the parser raises ValueError on text it cannot read) and nothing else.
   */
  function NewRecord(pos: seq<Value>, kw: map<string, Value>, now: int,
                     parseDate: string -> Option<int>, newUid: string): (r: Result<Record>)
    ensures Records.Bind(pos, kw).Err? ==> r == Err(TypeError)
    ensures r.Ok? ==> r.value.amount == Records.Bind(pos, kw).value.amount
    ensures r.Ok? ==> r.value.description == Records.Bind(pos, kw).value.description
    ensures r.Ok? ==> r.value.uid == Records.Bind(pos, kw).value.uid.GetOr(StrV(newUid))
    ensures Records.Bind(pos, kw).Ok? && Records.Bind(pos, kw).value.timestamp.None? ==>
              r.Ok? && r.value.timestamp == now
    ensures Records.Bind(pos, kw).Ok? ==>
              var t := Records.NormaliseTimestamp(Records.Bind(pos, kw).value.timestamp.GetOr(DateTimeV(now)), parseDate);
              (r.Ok? <==> t.Ok?) && (r.Ok? ==> r.value.timestamp == t.value) && (r.Err? ==> r.error == t.error)
  {
    match Records.Bind(pos, kw)
    case Err(e) => Err(e)
    case Ok(b) =>
      match Records.NormaliseTimestamp(b.timestamp.GetOr(DateTimeV(now)), parseDate)
      case Err(e) => Err(e)
      case Ok(t) => Ok(Record(b.amount, b.description, t, b.uid.GetOr(StrV(newUid))))
  }

  /**
   * The two records read text timestamps with different parsers: the newer
   * one with dateparser, this one with dateutil. They agree on the arguments
   * `pos` and `kw` when a text timestamp among them, if any, reads the same
   * with both.
   */
  predicate ParsersAgreeOn(pos: seq<Value>, kw: map<string, Value>,
                           parseOld: string -> Option<int>, parseNew: string -> Option<int>) {
    Records.Bind(pos, kw).Ok? && Records.Bind(pos, kw).value.timestamp.Some? &&
    Records.Bind(pos, kw).value.timestamp.value.StrV? ==>
      var text := Records.Bind(pos, kw).value.timestamp.value.s;
      parseOld(text) == parseNew(text)
  }

  /**
   * Both record types bind their arguments alike: whenever the newer record
   * can be built and the two date parsers agree on its timestamp text, this
   * one can be built too, with the same description and timestamp, and a
   * uid the newer record keeps unless it is None or a UUID. Where the
   * parsers disagree (dateparser reads "yesterday", dateutil does not),
   * TextTimestampParsed gives this record's outcome.
   */
  lemma AgreesWithNewerRecord(pos: seq<Value>, kw: map<string, Value>, env: Records.Env,
                              parseOld: string -> Option<int>, newUid: string)
    requires Records.NewRecord(pos, kw, env, newUid).Ok?
    requires ParsersAgreeOn(pos, kw, parseOld, env.parseDate)
    ensures NewRecord(pos, kw, env.now, parseOld, newUid).Ok?
    ensures NewRecord(pos, kw, env.now, parseOld, newUid).value.timestamp ==
            Records.NewRecord(pos, kw, env, newUid).value.timestamp
    ensures NewRecord(pos, kw, env.now, parseOld, newUid).value.description ==
            Records.NewRecord(pos, kw, env, newUid).value.description
    ensures Records.NewRecord(pos, kw, env, newUid).value.uid ==
            Records.NormaliseUid(NewRecord(pos, kw, env.now, parseOld, newUid).value.uid, newUid)
  {
    var b := Records.Bind(pos, kw).value;
    assert Records.NewRecord(pos, kw, env, newUid) ==
      Records.Normalised(b.amount, b.description, b.timestamp.GetOr(DateTimeV(env.now)), b.uid.GetOr(StrV(newUid)), env, newUid);
  }

  /** A timestamp given as text is what the parser reads from it; text it cannot read raises ValueError. */
  lemma TextTimestampParsed(amount: Value, description: Value, s: string, now: int,
                            parseDate: string -> Option<int>, newUid: string)
    ensures parseDate(s).Some? ==>
      NewRecord([amount, description, StrV(s)], map[], now, parseDate, newUid) ==
      Ok(Record(amount, description, parseDate(s).value, StrV(newUid)))
    ensures parseDate(s).None? ==>
      NewRecord([amount, description, StrV(s)], map[], now, parseDate, newUid) == Err(ValueError)
  {
    assert Records.Bind([amount, description, StrV(s)], map[]).Ok?;
  }

  /** `str(value)`: the text of a string, the canonical form of a UUID, `str` of anything else. */
  function Str(v: Value, text: Value -> string): string {
    match v
    case StrV(s) => s
    case UuidV(u) => u.text
    case _ => text(v)
  }

  /** The class attribute `Record.columns`, as a list of strings. */
  const ColumnList := ListV([StrV("timestamp"), StrV("amount"), StrV("description"), StrV("uid")])

  /** The attribute names `getattr` finds on a recorders record, as far as the model knows them. */
  predicate IsAttribute(key: string) {
    key in Records.FieldNames || key == "columns"
  }

  /**
   * `record[key]`: the timestamp as ISO text, the uid as a string, any other
   * field as it is stored, the class attribute `columns` as its list; a name
   * that is no attribute is a missing attribute.
   */
  function GetItem(r: Record, key: string, isoformat: int -> string, text: Value -> string): (v: Result<Value>)
    ensures key == "timestamp" ==> v == Ok(StrV(isoformat(r.timestamp)))
    ensures key == "uid" ==> v == Ok(StrV(Str(r.uid, text)))
    ensures key == "amount" ==> v == Ok(r.amount)
    ensures key == "description" ==> v == Ok(r.description)
    ensures key == "columns" ==> v == Ok(ColumnList)
    ensures v.Ok? <==> IsAttribute(key)
    ensures !IsAttribute(key) ==> v == Err(AttributeError)
  {
    if key == "timestamp" then Ok(StrV(isoformat(r.timestamp)))
    else if key == "uid" then Ok(StrV(Str(r.uid, text)))
    else if key == "amount" then Ok(r.amount)
    else if key == "description" then Ok(r.description)
    else if key == "columns" then Ok(ColumnList)
    else Err(AttributeError)
  }

  /** What can be handed to `append`: a record, or some other value. */
  datatype Elem = RecordElem(r: Record) | NonRecord(v: Value)

  /** The leading run of records in `xs`, up to the first non-record. */
  function RecordPrefix(xs: seq<Elem>): (rs: seq<Record>)
    ensures |rs| <= |xs|
    ensures forall i :: 0 <= i < |rs| ==> xs[i] == RecordElem(rs[i])
    ensures |rs| < |xs| ==> xs[|rs|].NonRecord?
  {
    if xs == [] || xs[0].NonRecord? then [] else [xs[0].r] + RecordPrefix(xs[1..])
  }

  /**
   * `extend(xs)` as repeated `append`: the records before the first
   * non-record are inserted, and a non-record raises TypeError.
   */
  function Extended(data: seq<Record>, xs: seq<Elem>): (u: (seq<Record>, Outcome))
    ensures |u.0| == |data| + |RecordPrefix(xs)|
    ensures u.1.Pass? ==> |u.0| == |data| + |xs|
    ensures u.1.Fail? ==> u.1.error == TypeError && |RecordPrefix(xs)| < |xs| && xs[|RecordPrefix(xs)|].NonRecord?
  {
    var rs := RecordPrefix(xs);
    (InsertAll(data, rs, Key), if |rs| == |xs| then Pass else Fail(TypeError))
  }

  lemma {:induction false} RecordPrefixStep(xs: seq<Elem>, i: nat)
    requires i < |xs| && |RecordPrefix(xs[..i])| == i && xs[i].RecordElem?
    ensures RecordPrefix(xs[..i + 1]) == RecordPrefix(xs[..i]) + [xs[i].r]
    decreases i
  {
    if i > 0 {
      assert xs[..i + 1][1..] == xs[1..][..i];
      assert xs[..i][1..] == xs[1..][..i - 1];
      assert xs[..i][0] == xs[0];
      RecordPrefixStep(xs[1..], i - 1);
    }
  }

  lemma {:induction false} InsertAllSnoc(s: seq<Record>, xs: seq<Record>, x: Record)
    ensures InsertAll(s, xs + [x], Key) == InsortRight(InsertAll(s, xs, Key), x, Key)
    decreases xs
  {
    if xs == [] {
      assert [] + [x] == [x];
    } else {
      assert (xs + [x])[1..] == xs[1..] + [x];
      InsertAllSnoc(InsortRight(s, xs[0], Key), xs[1..], x);
    }
  }

  /** `extend` keeps the data sorted, and inserts exactly the records before the first non-record. */
  lemma ExtendedSortedPermutation(data: seq<Record>, xs: seq<Elem>)
    requires SortedBy(data, Key)
    ensures SortedBy(Extended(data, xs).0, Key)
    ensures multiset(Extended(data, xs).0) == multiset(data) + multiset(RecordPrefix(xs))
    ensures Extended(data, xs).1 == Pass <==> forall i :: 0 <= i < |xs| ==> xs[i].RecordElem?
  {
    InsertAllSorted(data, RecordPrefix(xs), Key);
    InsertAllPermutes(data, RecordPrefix(xs), Key);
  }

  /** A list of recorders records, kept sorted on append. */
  class RecordList {
    var data: seq<Record>

    predicate Valid()
      reads this
    {
      SortedBy(data, Key)
    }

    constructor ()
      ensures Valid() && data == []
    {
      data := [];
    }

    /** `copy()`: a new list over the same records. */
    constructor Copy(other: RecordList)
      requires other.Valid()
      ensures Valid() && data == other.data
    {
      data := other.data;
    }

    /** `__iter__`: the records in stored, sorted order. */
    function Elements(): (es: seq<Elem>)
      reads this
      ensures |es| == |data| && forall i :: 0 <= i < |data| ==> es[i] == RecordElem(data[i])
    {
      seq(|data|, i reads this requires 0 <= i < |data| => RecordElem(data[i]))
    }

    /**
     * `append`: a non-record raises TypeError and changes nothing; a record
     * goes after every record whose timestamp is not later than its own.
     */
    method Append(x: Elem) returns (outcome: Outcome)
      requires Valid()
      modifies this
      ensures Valid()
      ensures x.NonRecord? ==> outcome == Fail(TypeError) && data == old(data)
      ensures x.RecordElem? ==> outcome == Pass && data == InsortRight(old(data), x.r, Key)
      ensures x.RecordElem? ==> exists i :: 0 <= i <= |old(data)| && data == old(data)[..i] + [x.r] + old(data)[i..]
    {
      if x.NonRecord? {
        return Fail(TypeError);
      }
      var i;
      data, i := Insort(data, x.r, Key);
      outcome := Pass;
    }

    /** `extend`: repeated `append`, stopping at the first non-record. */
    method Extend(xs: seq<Elem>) returns (outcome: Outcome)
      requires Valid()
      modifies this
      ensures Valid()
      ensures (data, outcome) == Extended(old(data), xs)
    {
      ghost var start := data;
      var i := 0;
      while i < |xs|
        invariant 0 <= i <= |xs|
        invariant |RecordPrefix(xs[..i])| == i
        invariant data == InsertAll(start, RecordPrefix(xs[..i]), Key)
        invariant Valid()
      {
        outcome := Append(xs[i]);
        if outcome.Fail? {
          assert RecordPrefix(xs) == RecordPrefix(xs[..i]) by { PrefixStops(xs, i); }
          return;
        }
        RecordPrefixStep(xs, i);
        InsertAllSnoc(start, RecordPrefix(xs[..i]), xs[i].r);
        i := i + 1;
      }
      assert xs[..i] == xs;
      outcome := Pass;
    }

    /** `self + xs`: a copy of this list extended with `xs`; this list is not modified. */
    method Plus(xs: seq<Elem>) returns (r: Result<RecordList>)
      requires Valid()
      ensures unchanged(this)
      ensures r.Ok? <==> Extended(data, xs).1 == Pass
      ensures r.Ok? ==> fresh(r.value) && r.value.Valid() && r.value.data == Extended(data, xs).0
      ensures r.Err? ==> r.error == TypeError
    {
      var copy := new RecordList.Copy(this);
      var outcome := copy.Extend(xs);
      if outcome.Fail? {
        return Err(outcome.error);
      }
      r := Ok(copy);
    }
  }

  lemma {:induction false} PrefixStops(xs: seq<Elem>, i: nat)
    requires i < |xs| && |RecordPrefix(xs[..i])| == i && xs[i].NonRecord?
    ensures RecordPrefix(xs) == RecordPrefix(xs[..i])
    decreases i
  {
    if i > 0 {
      assert xs[..i][1..] == xs[1..][..i - 1];
      assert xs[..i][0] == xs[0];
      PrefixStops(xs[1..], i - 1);
    }
  }
}
