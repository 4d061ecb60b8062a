/**
 * The transaction record of fintrack/records.py: a dataclass whose
 * constructor binds (amount, description, timestamp, uid), then normalises
 * the amount, the timestamp and the uid once; records order by timestamp only.
 */
module Records {
  import opened Wrappers
  import opened Values
  import Amounts

  /** A constructed `Record`. Description and uid keep whatever value they were given, once normalised. */
  datatype Record = Record(amount: real, description: Value, timestamp: int, uid: Value)

  /**
   * What constructing a record reads from outside the core: the clock
   * (`now()`), the date parser (None when it cannot read the text) and the
   * configured decimal separator. A freshly generated uid is passed separately.
   */
  datatype Env = Env(now: int, parseDate: string -> Option<int>, decimalPoint: char)

  /** The dataclass fields, in declaration order; the first two have no default. */
  const FieldNames: seq<string> := ["amount", "description", "timestamp", "uid"]

  /** The exposed columns, in presentation order. */
  function Columns(): (cols: seq<string>)
    ensures |cols| == 4 && cols[0] == "timestamp" && cols[1] == "amount"
    ensures cols[2] == "description" && cols[3] == "uid"
    ensures forall i, j :: 0 <= i < j < |cols| ==> cols[i] != cols[j]
  {
    ["timestamp", "amount", "description", "uid"]
  }

  /** The arguments of one constructor call, bound to the fields; defaults still missing. */
  datatype Bound = Bound(amount: Value, description: Value, timestamp: Option<Value>, uid: Option<Value>)

  /** The argument given for field `i`, positionally or by keyword. */
  function Given(pos: seq<Value>, kw: map<string, Value>, i: nat): Option<Value>
    requires i < |FieldNames|
  {
    if i < |pos| then Some(pos[i])
    else if FieldNames[i] in kw then Some(kw[FieldNames[i]])
    else None
  }

  /**
   * Python's binding of `Record(*pos, **kw)`: TypeError for more than four
   * positional arguments, an unknown keyword, a field given twice, or a
   * missing amount or description.
   */
  function Bind(pos: seq<Value>, kw: map<string, Value>): (r: Result<Bound>)
    ensures r.Err? ==> r.error == TypeError
    ensures r.Ok? <==>
      |pos| <= 4 && kw.Keys <= (set f | f in FieldNames)
      && (forall i :: 0 <= i < |pos| ==> FieldNames[i] !in kw)
      && (|pos| >= 1 || "amount" in kw) && (|pos| >= 2 || "description" in kw)
    ensures r.Ok? && |pos| >= 1 ==> r.value.amount == pos[0]
    ensures r.Ok? && |pos| >= 2 ==> r.value.description == pos[1]
    ensures r.Ok? && |pos| < 3 ==> r.value.timestamp == (if "timestamp" in kw then Some(kw["timestamp"]) else None)
    ensures r.Ok? && |pos| < 4 ==> r.value.uid == (if "uid" in kw then Some(kw["uid"]) else None)
    ensures r.Ok? && |pos| == 0 ==> r.value.amount == kw["amount"]
    ensures r.Ok? && |pos| <= 1 ==> r.value.description == kw["description"]
    ensures r.Ok? && |pos| >= 3 ==> r.value.timestamp == Some(pos[2])
    ensures r.Ok? && |pos| == 4 ==> r.value.uid == Some(pos[3])
  {
    assert FieldNames[0] == "amount" && FieldNames[1] == "description";
    if |pos| > 4 then Err(TypeError)
    else if exists k :: k in kw && k !in FieldNames then Err(TypeError)
    else if exists i :: 0 <= i < |pos| && FieldNames[i] in kw then Err(TypeError)
    else
      match (Given(pos, kw, 0), Given(pos, kw, 1))
      case (Some(a), Some(d)) => Ok(Bound(a, d, Given(pos, kw, 2), Given(pos, kw, 3)))
      case _ =>
        Err(TypeError)
  }

  /** A Decimal amount is kept; any other is replaced by `parse_amount(amount)`. */
  function NormaliseAmount(v: Value, sep: char): (r: Result<real>)
    ensures v.DecimalV? ==> r == Ok(v.d)
    ensures !v.DecimalV? ==> r == Amounts.ParseAmount(v, sep)
  {
    if v.DecimalV? then Ok(v.d) else Amounts.ParseAmount(v, sep)
  }

  /**
   * A datetime is kept; a string goes to the date parser; anything else
   * makes the parser raise TypeError.
   */
  function NormaliseTimestamp(v: Value, parseDate: string -> Option<int>): (r: Result<int>)
    ensures v.DateTimeV? ==> r == Ok(v.t)
    ensures v.StrV? ==> (r.Ok? <==> parseDate(v.s).Some?) && (r.Ok? ==> r.value == parseDate(v.s).value)
    ensures !v.DateTimeV? && !v.StrV? ==> r == Err(TypeError)
  {
    match v
    case DateTimeV(t) => Ok(t)
    case StrV(s) => (match parseDate(s) case Some(t) => Ok(t) case None => Err(ValueError))
    case _ => Err(TypeError)
  }

  /** None becomes a freshly generated uid, a UUID its string form; anything else is kept. */
  function NormaliseUid(v: Value, newUid: string): (r: Value)
    ensures v.NoneV? ==> r == StrV(newUid)
    ensures v.UuidV? ==> r == StrV(v.u.text)
    ensures !v.NoneV? && !v.UuidV? ==> r == v
    ensures !r.NoneV? && !r.UuidV?
  {
    match v
    case NoneV => StrV(newUid)
    case UuidV(u) => StrV(u.text)
    case _ => v
  }

  /** The state after `__post_init__`, as a function of the bound fields. */
  function Normalised(amount: Value, description: Value, timestamp: Value, uid: Value,
                      env: Env, newUid: string): (r: Result<Record>)
    ensures r.Ok? <==> NormaliseAmount(amount, env.decimalPoint).Ok?
                       && NormaliseTimestamp(timestamp, env.parseDate).Ok?
    ensures r.Err? && NormaliseAmount(amount, env.decimalPoint).Err? ==>
              r.error == NormaliseAmount(amount, env.decimalPoint).error
    ensures r.Ok? ==> r.value == Record(NormaliseAmount(amount, env.decimalPoint).value, description,
                                        NormaliseTimestamp(timestamp, env.parseDate).value,
                                        NormaliseUid(uid, newUid))
  {
    match NormaliseAmount(amount, env.decimalPoint)
    case Err(e) => Err(e)
    case Ok(a) =>
      match NormaliseTimestamp(timestamp, env.parseDate)
      case Err(e) => Err(e)
      case Ok(t) => Ok(Record(a, description, t, NormaliseUid(uid, newUid)))
  }

  /**
   * `__post_init__`: the amount, the timestamp and the uid are reassigned in
   * turn, each only when its value is not yet of the normal type.
   */
  method PostInit(amount: Value, description: Value, timestamp: Value, uid: Value,
                  env: Env, newUid: string) returns (r: Result<Record>)
    ensures r == Normalised(amount, description, timestamp, uid, env, newUid)
  {
    var a := amount;
    if !a.DecimalV? {
      var parsed := Amounts.ParseAmount(a, env.decimalPoint);
      if parsed.Err? {
        r := Err(parsed.error);
        NormalisedSteps(amount, description, timestamp, uid, env, newUid);
        return;
      }
      a := DecimalV(parsed.value);
    }
    var t := timestamp;
    if !t.DateTimeV? {
      var parsed := NormaliseTimestamp(t, env.parseDate);
      if parsed.Err? {
        r := Err(parsed.error);
        NormalisedSteps(amount, description, timestamp, uid, env, newUid);
        return;
      }
      t := DateTimeV(parsed.value);
    }
    var u := uid;
    if u.NoneV? {
      u := StrV(newUid);
    }
    if u.UuidV? {
      u := StrV(u.u.text);
    }
    r := Ok(Record(a.d, description, t.t, u));
    NormalisedSteps(amount, description, timestamp, uid, env, newUid);
  }

  /** Normalised unfolded one field at a time, in the order `__post_init__` takes them. */
  lemma NormalisedSteps(amount: Value, description: Value, timestamp: Value, uid: Value,
                        env: Env, newUid: string)
    ensures NormaliseAmount(amount, env.decimalPoint).Err? ==>
      Normalised(amount, description, timestamp, uid, env, newUid) == Err(NormaliseAmount(amount, env.decimalPoint).error)
    ensures NormaliseAmount(amount, env.decimalPoint).Ok? && NormaliseTimestamp(timestamp, env.parseDate).Err? ==>
      Normalised(amount, description, timestamp, uid, env, newUid) == Err(NormaliseTimestamp(timestamp, env.parseDate).error)
    ensures NormaliseAmount(amount, env.decimalPoint).Ok? && NormaliseTimestamp(timestamp, env.parseDate).Ok? ==>
      Normalised(amount, description, timestamp, uid, env, newUid) ==
        Ok(Record(NormaliseAmount(amount, env.decimalPoint).value, description,
                  NormaliseTimestamp(timestamp, env.parseDate).value, NormaliseUid(uid, newUid)))
  {
    var na := NormaliseAmount(amount, env.decimalPoint);
    var nt := NormaliseTimestamp(timestamp, env.parseDate);
    var n := Normalised(amount, description, timestamp, uid, env, newUid);
    if na.Err? {
      assert n == Err(na.error);
    } else if nt.Err? {
      assert n == Err(nt.error);
    } else {
      assert n == Ok(Record(na.value, description, nt.value, NormaliseUid(uid, newUid)));
    }
  }

  /**
   * `Record(*pos, **kw)`: bind the arguments, supply the defaults (the
   * current time, a freshly generated uid), then normalise.
   */
  function NewRecord(pos: seq<Value>, kw: map<string, Value>, env: Env, newUid: string): (r: Result<Record>)
    ensures Bind(pos, kw).Err? ==> r == Err(TypeError)
    ensures Bind(pos, kw).Ok? ==>
      var b := Bind(pos, kw).value;
      r == Normalised(b.amount, b.description,
                      b.timestamp.GetOr(DateTimeV(env.now)), b.uid.GetOr(StrV(newUid)), env, newUid)
  {
    match Bind(pos, kw)
    case Err(e) => Err(e)
    case Ok(b) =>
      Normalised(b.amount, b.description,
                 b.timestamp.GetOr(DateTimeV(env.now)), b.uid.GetOr(StrV(newUid)), env, newUid)
  }

  /** `r1 < r2`: records compare by timestamp only. */
  predicate Less(a: Record, b: Record) {
    a.timestamp < b.timestamp
  }

  /** The sort key the sorted containers use. */
  function Key(r: Record): int { r.timestamp }

  /** `<` on records is a strict weak order: irreflexive, transitive, and equal timestamps are incomparable. */
  lemma LessIsStrictWeakOrder(a: Record, b: Record, c: Record)
    ensures !Less(a, a)
    ensures Less(a, b) && Less(b, c) ==> Less(a, c)
    ensures Less(a, b) <==> Key(a) < Key(b)
    ensures a.timestamp == b.timestamp ==> !Less(a, b) && !Less(b, a)
    ensures !Less(a, b) && !Less(b, a) && !Less(b, c) && !Less(c, b) ==> !Less(a, c) && !Less(c, a)
  {
  }

  // ---------------------------------------------------------------------
  // What construction promises

  /** A provided datetime timestamp and a provided string uid are kept unchanged. */
  lemma ProvidedTimestampAndUidKept(amount: real, description: Value, t: int, u: string, env: Env, newUid: string)
    ensures NewRecord([DecimalV(amount), description], map["timestamp" := DateTimeV(t), "uid" := StrV(u)], env, newUid)
         == Ok(Record(amount, description, t, StrV(u)))
  {
    var kw := map["timestamp" := DateTimeV(t), "uid" := StrV(u)];
    assert kw.Keys <= (set f | f in FieldNames) by {
      assert FieldNames[2] == "timestamp" && FieldNames[3] == "uid";
    }
  }

  /** Omitted, the timestamp is the current time and the uid a freshly generated one. */
  lemma DefaultsApplied(amount: Value, description: Value, env: Env, newUid: string)
    requires NewRecord([amount, description], map[], env, newUid).Ok?
    ensures NewRecord([amount, description], map[], env, newUid).value.timestamp == env.now
    ensures NewRecord([amount, description], map[], env, newUid).value.uid == StrV(newUid)
  {
  }

  /** A record built from amount, description, a datetime and a uid, all positional: only the amount can fail. */
  lemma FourPositional(amount: Value, description: Value, t: int, uid: Value, env: Env, newUid: string)
    ensures NewRecord([amount, description, DateTimeV(t), uid], map[], env, newUid) ==
      match NormaliseAmount(amount, env.decimalPoint)
      case Err(e) => Err(e)
      case Ok(a) => Ok(Record(a, description, t, NormaliseUid(uid, newUid)))
  {
    NormalisedSteps(amount, description, DateTimeV(t), uid, env, newUid);
  }

  /** A uid given as None gets a freshly generated one; as a UUID, its string form. */
  lemma UidNormalised(amount: Value, description: Value, t: int, u: Uuid, env: Env, newUid: string)
    requires NormaliseAmount(amount, env.decimalPoint).Ok?
    ensures NewRecord([amount, description, DateTimeV(t), NoneV], map[], env, newUid).value.uid == StrV(newUid)
    ensures NewRecord([amount, description, DateTimeV(t), UuidV(u)], map[], env, newUid).value.uid == StrV(u.text)
  {
  }

  /** A single string is not enough arguments: `Record("blah")` raises TypeError. */
  lemma MissingDescriptionRejected(s: string, env: Env, newUid: string)
    ensures NewRecord([StrV(s)], map[], env, newUid) == Err(TypeError)
  {
  }

  /** A text amount that does not parse makes construction fail. */
  lemma BadAmountRejected(s: string, description: Value, env: Env, newUid: string)
    requires Amounts.ParseAmountText(s, env.decimalPoint).None?
    ensures NewRecord([StrV(s), description], map[], env, newUid) == Err(InvalidOperation)
  {
  }
}
