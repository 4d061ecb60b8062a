/**
 * Planned records of fintrack/plans.py: an amount and description with a
 * schedule, expanded into Records at the schedule's occurrences. The
 * schedule parser, the recurrence enumeration and the uid template
 * formatting are foreign code and are passed in as a `Calendar`.
 */
module Plans {
  import opened Wrappers
  import opened Values
  import Amounts
  import Records

  type Record = Records.Record

  /** What the schedule parser makes of a schedule. */
  datatype Event =
    | NoEvent              // the parser returns None
    | Recurring(rule: string)  // a recurrence rule: the parser reports is_recurring
    | Fixed(t: int)        // a single datetime
    | OtherEvent           // any other value

  datatype PlannedRecord = PlannedRecord(amount: Value, description: Value, schedule: string,
                                         uids: Option<string>, uid: Value)

  /**
   * The foreign functions: `RecurringEvent().parse`, the occurrences
   * `rrulestr(rule).xafter(start, count=count)` enumerates, the uid template
   * `format(plan=…, index=…, date=…)`, and `humanize.naturalday`.
   */
  datatype Calendar = Calendar(
    parse: string -> Event,
    after: (string, int, nat) -> seq<int>,
    format: (string, PlannedRecord, nat, string) -> string,
    naturalDay: int -> string)

  /**
   * `__post_init__` as a function: a string amount is parsed with
   * fintrack/util.py's parse_amount, which filters like the one in
   * fintrack/utils.py and then calls `float`, raising ValueError; a schedule
   * the parser does not recognise raises ValueError.
   */
  function Normalised(p: PlannedRecord, cal: Calendar, sep: char): (r: Result<PlannedRecord>)
    ensures p.amount.StrV? && Amounts.ParseAmountText(p.amount.s, sep).None? ==> r == Err(ValueError)
    ensures cal.parse(p.schedule) == NoEvent ==> r == Err(ValueError)
    ensures r.Ok? <==> (!p.amount.StrV? || Amounts.ParseAmountText(p.amount.s, sep).Some?)
                       && cal.parse(p.schedule) != NoEvent
    ensures r.Ok? && p.amount.StrV? ==> r.value == p.(amount := NumberV(Amounts.ParseAmountText(p.amount.s, sep).value))
    ensures r.Ok? && !p.amount.StrV? ==> r.value == p
  {
    var amount :=
      if p.amount.StrV? then
        (match Amounts.ParseAmountText(p.amount.s, sep) case Some(x) => Ok(NumberV(x)) case None => Err(ValueError))
      else Ok(p.amount);
    if amount.Err? then Err(amount.error)
    else if cal.parse(p.schedule) == NoEvent then Err(ValueError)
    else Ok(p.(amount := amount.value))
  }

  /** `__post_init__`: reassigns the amount when it is a string, then checks the schedule. */
  method PostInit(p: PlannedRecord, cal: Calendar, sep: char) returns (r: Result<PlannedRecord>)
    ensures r == Normalised(p, cal, sep)
  {
    var plan := p;
    if plan.amount.StrV? {
      var parsed := Amounts.ParseAmountText(plan.amount.s, sep);
      if parsed.None? {
        return Err(ValueError);
      }
      plan := plan.(amount := NumberV(parsed.value));
    }
    if cal.parse(plan.schedule) == NoEvent {
      return Err(ValueError);
    }
    r := Ok(plan);
  }

  /**
   * `PlannedRecord(amount, description, schedule, uids=None, uid=<fresh>)`:
   * a missing uid is a freshly generated one.
   */
  function NewPlannedRecord(amount: Value, description: Value, schedule: string, uids: Option<string>,
                            uid: Option<Value>, newUid: string, cal: Calendar, sep: char): (r: Result<PlannedRecord>)
    ensures r.Ok? ==> r.value.uid == uid.GetOr(StrV(newUid)) && r.value.schedule == schedule
                      && r.value.description == description && r.value.uids == uids
    ensures r.Ok? <==> (!amount.StrV? || Amounts.ParseAmountText(amount.s, sep).Some?) && cal.parse(schedule) != NoEvent
  {
    Normalised(PlannedRecord(amount, description, schedule, uids, uid.GetOr(StrV(newUid))), cal, sep)
  }

  /** Whether the uid template is set: `if self.uids` is false for None and for the empty string. */
  predicate HasTemplate(p: PlannedRecord) {
    p.uids.Some? && p.uids.value != ""
  }

  /** The uid argument for the occurrence with 0-based `index` at `dt`. */
  function OccurrenceUid(p: PlannedRecord, index: nat, dt: int, cal: Calendar): (v: Value)
    ensures HasTemplate(p) ==> v == StrV(cal.format(p.uids.value, p, index, cal.naturalDay(dt)))
    ensures !HasTemplate(p) ==> v == NoneV
  {
    if HasTemplate(p) then StrV(cal.format(p.uids.value, p, index, cal.naturalDay(dt))) else NoneV
  }

  /** The Record made for the occurrence with 0-based `index` at `dt`. */
  function Occurrence(p: PlannedRecord, index: nat, dt: int, cal: Calendar, env: Records.Env, newUid: string): (r: Result<Record>)
    ensures r.Ok? <==> Records.NormaliseAmount(p.amount, env.decimalPoint).Ok?
    ensures r.Err? ==> r.error == Records.NormaliseAmount(p.amount, env.decimalPoint).error
    ensures r.Ok? ==> r.value.amount == Records.NormaliseAmount(p.amount, env.decimalPoint).value
    ensures r.Ok? ==> r.value.timestamp == dt && r.value.description == p.description
  {
    Records.FourPositional(p.amount, p.description, dt, OccurrenceUid(p, index, dt, cal), env, newUid);
    Records.NewRecord([p.amount, p.description, DateTimeV(dt), OccurrenceUid(p, index, dt, cal)], map[], env, newUid)
  }

  /**
   * The list comprehension over `enumerate(occurrences)`, from index `from`
   * on: items are made in order and the first failure propagates.
   */
  function ExpandWith<T>(make: (nat, int) -> Result<T>, occ: seq<int>, from: nat): (r: Result<seq<T>>)
    ensures r.Ok? ==> |r.value| == |occ|
    decreases |occ|
  {
    if occ == [] then Ok([])
    else
      match make(from, occ[0])
      case Err(e) => Err(e)
      case Ok(x) =>
        match ExpandWith(make, occ[1..], from + 1)
        case Err(e) => Err(e)
        case Ok(rest) => Ok([x] + rest)
  }

  /** Expansion fails exactly when one of the items cannot be made. */
  lemma {:induction false} ExpandWithOk<T>(make: (nat, int) -> Result<T>, occ: seq<int>, from: nat)
    ensures ExpandWith(make, occ, from).Ok? <==> forall k :: 0 <= k < |occ| ==> make(from + k, occ[k]).Ok?
    decreases |occ|
  {
    if occ != [] {
      ExpandWithOk(make, occ[1..], from + 1);
      assert forall k :: 1 <= k < |occ| ==> occ[k] == occ[1..][k - 1] && from + k == (from + 1) + (k - 1);
    }
  }

  /** The k-th item of a successful expansion is the one made for the k-th occurrence. */
  lemma {:induction false} ExpandWithElements<T>(make: (nat, int) -> Result<T>, occ: seq<int>, from: nat)
    requires ExpandWith(make, occ, from).Ok?
    ensures forall k :: 0 <= k < |occ| ==> make(from + k, occ[k]) == Ok(ExpandWith(make, occ, from).value[k])
    decreases |occ|
  {
    if occ != [] {
      var e := ExpandWith(make, occ, from);
      var tail := ExpandWith(make, occ[1..], from + 1);
      assert tail.Ok? && e.value == [make(from, occ[0]).value] + tail.value;
      ExpandWithElements(make, occ[1..], from + 1);
      forall k | 1 <= k < |occ|
        ensures make(from + k, occ[k]) == Ok(e.value[k])
      {
        assert occ[k] == occ[1..][k - 1] && from + k == (from + 1) + (k - 1);
        assert e.value[k] == tail.value[k - 1];
      }
    }
  }

  /** Making the Record for each enumerated occurrence of a plan. */
  function Maker(p: PlannedRecord, cal: Calendar, env: Records.Env, uids: nat -> string): (nat, int) -> Result<Record> {
    (index: nat, dt: int) => Occurrence(p, index, dt, cal, env, uids(index))
  }

  /** A plan's Records for the occurrences `occ`, the first numbered `from`. */
  function Expand(p: PlannedRecord, occ: seq<int>, from: nat, cal: Calendar, env: Records.Env,
                  uids: nat -> string): (r: Result<seq<Record>>)
    ensures r.Ok? ==> |r.value| == |occ|
  {
    ExpandWith(Maker(p, cal, env, uids), occ, from)
  }

  /** Expanding a plan fails exactly when one of the occurrences' Records cannot be built. */
  lemma ExpandOk(p: PlannedRecord, occ: seq<int>, from: nat, cal: Calendar, env: Records.Env,
                 uids: nat -> string)
    ensures Expand(p, occ, from, cal, env, uids).Ok? <==>
      forall k :: 0 <= k < |occ| ==> Occurrence(p, from + k, occ[k], cal, env, uids(from + k)).Ok?
  {
    ExpandWithOk(Maker(p, cal, env, uids), occ, from);
  }

  /**
   * `take(count, start)`: from `start`, or from now when it is omitted, a
   * recurring schedule yields one Record per enumerated occurrence, a fixed
   * instant one Record with the plan's own uid, no event raises ValueError,
   * and any other event makes `take` return None.
   */
  function Take(p: PlannedRecord, count: nat, start: Option<int>, cal: Calendar, env: Records.Env,
                uids: nat -> string): (r: Result<Option<seq<Record>>>)
    ensures cal.parse(p.schedule) == NoEvent ==> r == Err(ValueError)
    ensures cal.parse(p.schedule) == OtherEvent ==> r == Ok(None)
    ensures cal.parse(p.schedule).Fixed? ==>
      r == (match Records.NewRecord([p.amount, p.description, DateTimeV(cal.parse(p.schedule).t), p.uid],
                                    map[], env, uids(0))
            case Ok(rec) => Ok(Some([rec]))
            case Err(e) => Err(e))
    ensures cal.parse(p.schedule).Recurring? ==>
      var occ := cal.after(cal.parse(p.schedule).rule, start.GetOr(env.now), count);
      (r.Ok? <==> Expand(p, occ, 0, cal, env, uids).Ok?) &&
      (r.Ok? ==> r.value == Some(Expand(p, occ, 0, cal, env, uids).value))
  {
    var s := start.GetOr(env.now);
    match cal.parse(p.schedule)
    case Recurring(rule) =>
      (match Expand(p, cal.after(rule, s, count), 0, cal, env, uids)
       case Ok(rs) => Ok(Some(rs))
       case Err(e) => Err(e))
    case Fixed(t) =>
      (match Records.NewRecord([p.amount, p.description, DateTimeV(t), p.uid], map[], env, uids(0))
       case Ok(rec) => Ok(Some([rec]))
       case Err(e) => Err(e))
    case NoEvent => Err(ValueError)
    case OtherEvent => Ok(None)
  }

  /** The amount a valid plan hands to every Record it makes. */
  predicate NumericAmount(p: PlannedRecord) {
    p.amount.NumberV? || p.amount.DecimalV?
  }

  function AmountOf(p: PlannedRecord): real
    requires NumericAmount(p)
  {
    if p.amount.NumberV? then p.amount.x else p.amount.d
  }

  /** Each occurrence's Record: the plan's amount and description, the occurrence as timestamp, and the templated or a fresh uid. */
  lemma OccurrenceRecord(p: PlannedRecord, index: nat, dt: int, cal: Calendar, env: Records.Env, newUid: string)
    requires NumericAmount(p)
    ensures Occurrence(p, index, dt, cal, env, newUid).Ok?
    ensures Occurrence(p, index, dt, cal, env, newUid).value == PlannedRecordAt(p, index, dt, cal, newUid)
  {
    Records.FourPositional(p.amount, p.description, dt, OccurrenceUid(p, index, dt, cal), env, newUid);
  }

  /** The Record an occurrence yields for a plan with a numeric amount. */
  function PlannedRecordAt(p: PlannedRecord, index: nat, dt: int, cal: Calendar, newUid: string): (r: Record)
    requires NumericAmount(p)
    ensures r.amount == AmountOf(p) && r.description == p.description && r.timestamp == dt
  {
    Records.Record(AmountOf(p), p.description, dt,
                   if HasTemplate(p) then StrV(cal.format(p.uids.value, p, index, cal.naturalDay(dt))) else StrV(newUid))
  }

  /** Expanding a plan with a numeric amount succeeds and yields, per occurrence, the Record described above. */
  lemma ExpandRecords(p: PlannedRecord, occ: seq<int>, from: nat, cal: Calendar, env: Records.Env,
                      uids: nat -> string)
    requires NumericAmount(p)
    ensures var e := Expand(p, occ, from, cal, env, uids);
      e.Ok? && |e.value| == |occ| &&
      forall k :: 0 <= k < |occ| ==> e.value[k] == PlannedRecordAt(p, from + k, occ[k], cal, uids(from + k))
  {
    var make := Maker(p, cal, env, uids);
    forall k | 0 <= k < |occ| ensures make(from + k, occ[k]).Ok? {
      OccurrenceRecord(p, from + k, occ[k], cal, env, uids(from + k));
    }
    ExpandWithOk(make, occ, from);
    ExpandWithElements(make, occ, from);
    var e := ExpandWith(make, occ, from);
    forall k | 0 <= k < |occ| ensures e.value[k] == PlannedRecordAt(p, from + k, occ[k], cal, uids(from + k)) {
      OccurrenceRecord(p, from + k, occ[k], cal, env, uids(from + k));
      assert make(from + k, occ[k]) == Ok(e.value[k]);
    }
  }

  /**
   * A recurring plan with a numeric amount yields exactly one Record per
   * occurrence, in occurrence order, carrying the plan's amount and
   * description and the templated uid, or a fresh one without a template.
   */
  lemma RecurringTake(p: PlannedRecord, count: nat, start: Option<int>, cal: Calendar,
                      env: Records.Env, uids: nat -> string)
    requires NumericAmount(p) && cal.parse(p.schedule).Recurring?
    ensures var occ := cal.after(cal.parse(p.schedule).rule, start.GetOr(env.now), count);
      var r := Take(p, count, start, cal, env, uids);
      r.Ok? && r.value.Some? && |r.value.value| == |occ| &&
      forall k :: 0 <= k < |occ| ==> r.value.value[k] == PlannedRecordAt(p, k, occ[k], cal, uids(k))
  {
    var occ := cal.after(cal.parse(p.schedule).rule, start.GetOr(env.now), count);
    ExpandRecords(p, occ, 0, cal, env, uids);
    var e := Expand(p, occ, 0, cal, env, uids);
    assert Take(p, count, start, cal, env, uids) == Ok(Some(e.value));
    forall k | 0 <= k < |occ| ensures e.value[k] == PlannedRecordAt(p, k, occ[k], cal, uids(k)) {
      assert 0 + k == k;
    }
  }

  /** With ascending occurrences the Records come out sorted by timestamp, and never more than `count` when the enumeration respects it. */
  lemma RecurringTakeOrdered(p: PlannedRecord, count: nat, start: Option<int>, cal: Calendar,
                             env: Records.Env, uids: nat -> string)
    requires NumericAmount(p) && cal.parse(p.schedule).Recurring?
    requires var occ := cal.after(cal.parse(p.schedule).rule, start.GetOr(env.now), count);
      forall i, j :: 0 <= i < j < |occ| ==> occ[i] <= occ[j]
    ensures var r := Take(p, count, start, cal, env, uids);
      r.Ok? && r.value.Some? && forall i, j :: 0 <= i < j < |r.value.value| ==>
        r.value.value[i].timestamp <= r.value.value[j].timestamp
    ensures var occ := cal.after(cal.parse(p.schedule).rule, start.GetOr(env.now), count);
      |occ| <= count ==> |Take(p, count, start, cal, env, uids).value.value| <= count
  {
    RecurringTake(p, count, start, cal, env, uids);
  }

  /** A fixed-instant plan yields one Record at that instant with the plan's own uid, whatever the start. */
  lemma FixedTake(p: PlannedRecord, count: nat, start: Option<int>, cal: Calendar, env: Records.Env,
                  uids: nat -> string)
    requires NumericAmount(p) && cal.parse(p.schedule).Fixed?
    requires !p.uid.NoneV? && !p.uid.UuidV?
    ensures Take(p, count, start, cal, env, uids) ==
      Ok(Some([Records.Record(AmountOf(p), p.description, cal.parse(p.schedule).t, p.uid)]))
  {
    Records.FourPositional(p.amount, p.description, cal.parse(p.schedule).t, p.uid, env, uids(0));
  }
}
