/**
 * The Tracker of fintrack/tracker.py: a registry of named sheets, an active
 * sheet, and the operations that load, select, compose and fill sheets.
 * Files are not read or written here: `Load` receives the configured sheet
 * list and the already decoded contents of each sheet file.
 */
module Tracker {
  import opened Wrappers
  import opened Values
  import opened Ordering
  import Records
  import opened Books

  type Record = Records.Record

  /** The sheet the Tracker shows: none yet, a sheet, or a sheet's balanced view. */
  datatype Active = NoSheet | Plain(sheet: Sheet) | Balanced(view: BalancedSheet)

  /** The registry `types` of the source: "records" holds Record, "plans" PlannedRecord. */
  const SourceTypes: seq<(string, Class)> := [("records", RecordClass), ("plans", PlannedRecordClass)]

  /** The names of a registry, which are keys of a dict and so distinct. */
  predicate DistinctNames(types: seq<(string, Class)>) {
    forall i, j :: 0 <= i < j < |types| ==> types[i].0 != types[j].0
  }

  /** `types[name]`. */
  function LookupType(types: seq<(string, Class)>, name: string): (r: Option<Class>)
    ensures r.Some? <==> exists i :: 0 <= i < |types| && types[i].0 == name
    ensures r.Some? ==> (name, r.value) in types
  {
    if types == [] then None
    else if types[0].0 == name then Some(types[0].1)
    else
      var r := LookupType(types[1..], name);
      assert forall i :: 1 <= i < |types| ==> types[i] == types[1..][i - 1];
      r
  }

  /** `{type: name for name, type in types.items()}`: a later name for the same type wins. */
  function TypeNames(types: seq<(string, Class)>): (m: map<Class, string>)
    ensures forall c :: c in m <==> exists i :: 0 <= i < |types| && types[i].1 == c
    ensures forall c :: c in m ==> (m[c], c) in types
  {
    if types == [] then map[]
    else
      var init := types[..|types| - 1];
      var last := types[|types| - 1];
      var m := TypeNames(init);
      assert forall i :: 0 <= i < |init| ==> init[i] == types[i];
      m[last.1 := last.0]
  }

  /**
   * `config["sheets"]`: every sheet name mapped to the registered name of its
   * sheet's type; a type without a name raises KeyError.
   */
  function ConfigOf(types: seq<(string, Class)>, classes: map<string, Class>): (r: Result<map<string, string>>)
    ensures r.Ok? <==> forall n :: n in classes ==> classes[n] in TypeNames(types)
    ensures r.Err? ==> r.error == KeyError
    ensures r.Ok? ==> r.value.Keys == classes.Keys &&
                      forall n :: n in classes ==> (r.value[n], classes[n]) in types
  {
    if forall n :: n in classes ==> classes[n] in TypeNames(types) then
      Ok(map n | n in classes :: TypeNames(types)[classes[n]])
    else Err(KeyError)
  }

  /** With distinct names, looking up a configured type name gives back the sheet's type. */
  lemma ConfigRoundTrip(types: seq<(string, Class)>, classes: map<string, Class>, n: string)
    requires DistinctNames(types)
    requires ConfigOf(types, classes).Ok? && n in classes
    ensures LookupType(types, ConfigOf(types, classes).value[n]) == Some(classes[n])
  {
    var name := ConfigOf(types, classes).value[n];
    assert (name, classes[n]) in types;
    var i :| 0 <= i < |types| && types[i] == (name, classes[n]);
    LookupIndex(types, i);
  }

  lemma {:induction false} LookupIndex(types: seq<(string, Class)>, i: nat)
    requires DistinctNames(types) && i < |types|
    ensures LookupType(types, types[i].0) == Some(types[i].1)
  {
    if i > 0 {
      assert types[0].0 != types[i].0;
      LookupIndex(types[1..], i - 1);
    }
  }

  // ---------------------------------------------------------------------
  // Loading

  /**
   * The loop over `config["sheets"]`: each entry's type name is looked up
   * (KeyError when unknown); a missing sheet file is skipped; otherwise the
   * decoded contents become a sheet of that type, replacing any earlier one.
   */
  function LoadConfigured(types: seq<(string, Class)>, entries: seq<(string, string)>,
                          files: map<string, seq<Arg>>, env: Records.Env, uids: string -> nat -> string,
                          acc: map<string, seq<Record>>): (r: Result<map<string, seq<Record>>>)
    ensures r.Ok? ==> acc.Keys <= r.value.Keys
    decreases |entries|
  {
    if entries == [] then Ok(acc)
    else
      var (name, typename) := entries[0];
      match LookupType(types, typename)
      case None => Err(KeyError)
      case Some(cls) =>
        if name !in files then LoadConfigured(types, entries[1..], files, env, uids, acc)
        else
          match SheetOf(files[name], cls, env, uids(name))
          case Err(e) => Err(e)
          case Ok(rs) => LoadConfigured(types, entries[1..], files, env, uids, acc[name := rs])
  }

  /**
   * What a successful load of the configured sheets holds: a sheet for every
   * name loaded before and every configured name whose file exists, and for
   * no other name; an earlier sheet not configured again is kept; and every
   * configured type name is registered, whether or not its file exists.
   */
  lemma {:induction false} LoadConfiguredLoads(types: seq<(string, Class)>, entries: seq<(string, string)>,
                                               files: map<string, seq<Arg>>, env: Records.Env,
                                               uids: string -> nat -> string, acc: map<string, seq<Record>>)
    requires LoadConfigured(types, entries, files, env, uids, acc).Ok?
    ensures var r := LoadConfigured(types, entries, files, env, uids, acc).value;
      r.Keys == acc.Keys + WithFiles(entries, files)
      && (forall n :: n in acc && n !in WithFiles(entries, files) ==> r[n] == acc[n])
      && (forall i :: 0 <= i < |entries| ==> LookupType(types, entries[i].1).Some?)
    decreases |entries|
  {
    if entries != [] {
      var (name, typename) := entries[0];
      var cls := LookupType(types, typename).value;
      var next := if name in files then acc[name := SheetOf(files[name], cls, env, uids(name)).value] else acc;
      assert LoadConfigured(types, entries, files, env, uids, acc) == LoadConfigured(types, entries[1..], files, env, uids, next);
      LoadConfiguredLoads(types, entries[1..], files, env, uids, next);
      assert forall i :: 1 <= i < |entries| ==> entries[i] == entries[1..][i - 1];
    }
  }

  /** The configured names are distinct, as the keys of `config["sheets"]` are. */
  predicate DistinctEntries(entries: seq<(string, string)>) {
    forall i, j :: 0 <= i < j < |entries| ==> entries[i].0 != entries[j].0
  }

  /**
   * What a loaded sheet holds: with distinct configured names, a name whose
   * file exists holds its decoded contents made into a sheet of its
   * configured type.
   */
  lemma {:induction false} LoadConfiguredContents(types: seq<(string, Class)>, entries: seq<(string, string)>,
                                                  files: map<string, seq<Arg>>, env: Records.Env,
                                                  uids: string -> nat -> string, acc: map<string, seq<Record>>, k: nat)
    requires LoadConfigured(types, entries, files, env, uids, acc).Ok?
    requires DistinctEntries(entries)
    requires k < |entries| && entries[k].0 in files
    ensures LookupType(types, entries[k].1).Some?
    ensures SheetOf(files[entries[k].0], LookupType(types, entries[k].1).value, env, uids(entries[k].0)).Ok?
    ensures entries[k].0 in LoadConfigured(types, entries, files, env, uids, acc).value &&
            LoadConfigured(types, entries, files, env, uids, acc).value[entries[k].0] ==
            SheetOf(files[entries[k].0], LookupType(types, entries[k].1).value, env, uids(entries[k].0)).value
    decreases |entries|
  {
    var (name, typename) := entries[0];
    var cls := LookupType(types, typename).value;
    var next := if name in files then acc[name := SheetOf(files[name], cls, env, uids(name)).value] else acc;
    assert LoadConfigured(types, entries, files, env, uids, acc) == LoadConfigured(types, entries[1..], files, env, uids, next);
    assert DistinctEntries(entries[1..]) by {
      forall i, j | 0 <= i < j < |entries[1..]| ensures entries[1..][i].0 != entries[1..][j].0 {
        assert entries[1..][i] == entries[i + 1] && entries[1..][j] == entries[j + 1];
      }
    }
    if k == 0 {
      LoadConfiguredLoads(types, entries[1..], files, env, uids, next);
      assert name !in WithFiles(entries[1..], files) by {
        if name in WithFiles(entries[1..], files) {
          var j := WithFilesIndex(entries[1..], files, name);
        }
      }
    } else {
      assert entries[1..][k - 1] == entries[k];
      LoadConfiguredContents(types, entries[1..], files, env, uids, next, k - 1);
    }
  }

  /** Every name with a file among the configured ones comes from some entry. */
  lemma {:induction false} WithFilesIndex(entries: seq<(string, string)>, files: map<string, seq<Arg>>, n: string) returns (j: nat)
    requires n in WithFiles(entries, files)
    ensures j < |entries| && entries[j].0 == n
    decreases |entries|
  {
    if entries[0].0 in files && entries[0].0 == n {
      j := 0;
    } else {
      j := WithFilesIndex(entries[1..], files, n);
      assert entries[1..][j] == entries[j + 1];
      j := j + 1;
    }
  }

  /** The configured sheet names that have a file. */
  function WithFiles(entries: seq<(string, string)>, files: map<string, seq<Arg>>): (names: set<string>)
    ensures forall i :: 0 <= i < |entries| && entries[i].0 in files ==> entries[i].0 in names
    ensures forall n :: n in names ==> n in files
  {
    if entries == [] then {} else
      assert forall i :: 1 <= i < |entries| ==> entries[i] == entries[1..][i - 1];
      (if entries[0].0 in files then {entries[0].0} else {}) + WithFiles(entries[1..], files)
  }

  /** The names a registry registers. */
  function Names(types: seq<(string, Class)>): (names: set<string>)
    ensures forall i :: 0 <= i < |types| ==> types[i].0 in names
  {
    if types == [] then {} else
      assert forall i :: 1 <= i < |types| ==> types[i] == types[1..][i - 1];
      {types[0].0} + Names(types[1..])
  }

  /** The empty default sheets, one per registered type, created in registry order. */
  function Defaults(types: seq<(string, Class)>, acc: map<string, seq<Record>>): (r: Result<map<string, seq<Record>>>)
    ensures r.Ok? <==> forall i :: 0 <= i < |types| ==> types[i].1 == RecordClass
    ensures r.Ok? ==> r.value.Keys == acc.Keys + Names(types)
    ensures r.Ok? ==> forall n :: n in r.value ==> r.value[n] == (if n in Names(types) then [] else acc[n])
    decreases |types|
  {
    if types == [] then Ok(acc)
    else
      var (name, cls) := types[0];
      assert forall i :: 1 <= i < |types| ==> types[i] == types[1..][i - 1];
      if cls == RecordClass then Defaults(types[1..], acc[name := []])
      else if cls == RecordLikeClass then Err(AttributeError)
      else Err(TypeError)
  }

  /** One step of Defaults. */
  lemma DefaultsStep(types: seq<(string, Class)>, j: nat, acc: map<string, seq<Record>>)
    requires j < |types| && types[j].1 == RecordClass
    ensures Defaults(types[j..], acc) == Defaults(types[j + 1..], acc[types[j].0 := []])
  {
    assert types[j..][0] == types[j];
    assert types[j..][1..] == types[j + 1..];
  }

  /** Defaults stops at the first type that is not Record. */
  lemma DefaultsStop(types: seq<(string, Class)>, j: nat, acc: map<string, seq<Record>>)
    requires j < |types| && types[j].1 != RecordClass
    ensures Defaults(types[j..], acc) == Err(if types[j].1 == RecordLikeClass then AttributeError else TypeError)
  {
    assert types[j..][0] == types[j];
  }

  /**
   * `load` after the files are read: the configured sheets, then
   * `{name: Sheet(cls=type) for name, type in types.items()} | sheets`, then
   * selecting "records" (KeyError when there is none).
   */
  function LoadSpec(types: seq<(string, Class)>, entries: seq<(string, string)>, files: map<string, seq<Arg>>,
                    env: Records.Env, uids: string -> nat -> string): (r: Result<map<string, seq<Record>>>)
    ensures r.Ok? ==> "records" in r.value
    ensures r.Ok? ==> forall i :: 0 <= i < |types| ==> types[i].1 == RecordClass && types[i].0 in r.value
    ensures r.Err? && LoadConfigured(types, entries, files, env, uids, map[]).Ok? && Defaults(types, map[]).Ok? ==>
              r.error == KeyError
  {
    match LoadConfigured(types, entries, files, env, uids, map[])
    case Err(e) => Err(e)
    case Ok(loaded) =>
      match Defaults(types, map[])
      case Err(e) => Err(e)
      case Ok(defaults) =>
        var merged := defaults + loaded;
        if "records" in merged then Ok(merged) else Err(KeyError)
  }

  /**
   * After a successful load every registered name has a sheet, a sheet that
   * was loaded replaces the empty default, and every other default is empty.
   */
  lemma LoadKeepsDefaults(types: seq<(string, Class)>, entries: seq<(string, string)>,
                          files: map<string, seq<Arg>>, env: Records.Env, uids: string -> nat -> string)
    requires LoadSpec(types, entries, files, env, uids).Ok?
    ensures var sheets := LoadSpec(types, entries, files, env, uids).value;
      var loaded := LoadConfigured(types, entries, files, env, uids, map[]).value;
      (forall i :: 0 <= i < |types| ==> types[i].0 in sheets)
      && "records" in sheets
      && (forall n :: n in loaded ==> sheets[n] == loaded[n])
      && (forall n :: n in sheets && n !in loaded ==> sheets[n] == [])
  {
  }

  /**
   * With the source's registry a load never succeeds: PlannedRecord is not
   * RecordLike, so creating the default "plans" sheet raises TypeError.
   */
  lemma SourceRegistryLoadFails(entries: seq<(string, string)>, files: map<string, seq<Arg>>,
                                env: Records.Env, uids: string -> nat -> string)
    ensures LoadSpec(SourceTypes, entries, files, env, uids).Err?
  {
    assert SourceTypes[1].1 != RecordClass;
    assert Defaults(SourceTypes, map[]).Err?;
  }

  // ---------------------------------------------------------------------
  // Composing sheets from plans

  /**
   * `sheet = sheet + Sheet(plan.take(...))` for every plan in turn, from
   * `base`: each plan's Records are first sorted into a sheet of their own,
   * then merged. A failing take leaves the records merged so far.
   */
  function Composed(base: seq<Record>, plans: seq<Record>, take: Record -> Result<seq<Record>>): (u: (seq<Record>, Outcome))
    ensures |u.0| >= |base|
    ensures plans != [] && take(plans[0]).Err? ==> u == (base, Fail(take(plans[0]).error))
    decreases |plans|
  {
    if plans == [] then (base, Pass)
    else
      match take(plans[0])
      case Err(e) => (base, Fail(e))
      case Ok(xs) => Composed(InsertAll(base, InsertAll([], xs, Records.Key), Records.Key), plans[1..], take)
  }

  /** All Records the plans' takes produce, one plan after another. */
  function Taken(plans: seq<Record>, take: Record -> Result<seq<Record>>): Result<seq<Record>>
    decreases |plans|
  {
    if plans == [] then Ok([])
    else
      match take(plans[0])
      case Err(e) => Err(e)
      case Ok(xs) =>
        match Taken(plans[1..], take)
        case Err(e) => Err(e)
        case Ok(ys) => Ok(xs + ys)
  }

  /**
   * Composing succeeds exactly when every take does, fails with the first
   * failing take's error, and keeps the records sorted; on success it holds
   * the base records and every taken Record, and nothing else.
   */
  lemma {:induction false} ComposedHoldsTaken(base: seq<Record>, plans: seq<Record>, take: Record -> Result<seq<Record>>)
    requires SortedBy(base, Records.Key)
    ensures var (r, outcome) := Composed(base, plans, take);
      SortedBy(r, Records.Key)
      && (outcome.Pass? <==> Taken(plans, take).Ok?)
      && (outcome.Fail? ==> outcome.error == Taken(plans, take).error)
      && (outcome.Pass? ==>
            multiset(r) == multiset(base) + multiset(Taken(plans, take).value)
            && |r| == |base| + |Taken(plans, take).value|)
    decreases |plans|
  {
    if plans != [] && take(plans[0]).Ok? {
      var xs := take(plans[0]).value;
      var sorted := InsertAll([], xs, Records.Key);
      var next := InsertAll(base, sorted, Records.Key);
      InsertAllSorted(base, sorted, Records.Key);
      InsertAllPermutes([], xs, Records.Key);
      InsertAllPermutes(base, sorted, Records.Key);
      ComposedHoldsTaken(next, plans[1..], take);
      assert multiset(sorted) == multiset(xs);
    }
  }

  // ---------------------------------------------------------------------
  // Slurping lines

  /** The ASCII characters `str.strip()` removes: space, '\t' to '\r', and U+001C to U+001F. */
  predicate IsSpace(c: char) {
    c == ' ' || ('\t' <= c <= '\r') || ('\U{1C}' <= c <= '\U{1F}')
  }

  /** The first index from `i` on that is not whitespace, or |s|. */
  function LeftFrom(s: string, i: nat): (l: nat)
    requires i <= |s|
    ensures i <= l <= |s|
    decreases |s| - i
  {
    if i == |s| || !IsSpace(s[i]) then i else LeftFrom(s, i + 1)
  }

  /** The index just after the last character before `j` that is not whitespace, or 0. */
  function RightFrom(s: string, j: nat): (r: nat)
    requires j <= |s|
    ensures r <= j
  {
    if j == 0 || !IsSpace(s[j - 1]) then j else RightFrom(s, j - 1)
  }

  /** Where the text of `s` starts. */
  function LeftEnd(s: string): (i: nat)
    ensures i <= |s|
  {
    LeftFrom(s, 0)
  }

  /** Where the text of `s` ends. */
  function RightEnd(s: string): (j: nat)
    ensures j <= |s|
  {
    RightFrom(s, |s|)
  }

  lemma {:induction false} LeftFromSpaces(s: string, i: nat)
    requires i <= |s|
    ensures forall k :: i <= k < LeftFrom(s, i) ==> IsSpace(s[k])
    ensures LeftFrom(s, i) < |s| ==> !IsSpace(s[LeftFrom(s, i)])
    decreases |s| - i
  {
    if i < |s| && IsSpace(s[i]) {
      LeftFromSpaces(s, i + 1);
    }
  }

  lemma {:induction false} RightFromSpaces(s: string, j: nat)
    requires j <= |s|
    ensures forall k :: RightFrom(s, j) <= k < j ==> IsSpace(s[k])
    ensures RightFrom(s, j) > 0 ==> !IsSpace(s[RightFrom(s, j) - 1])
  {
    if j > 0 && IsSpace(s[j - 1]) {
      RightFromSpaces(s, j - 1);
    }
  }

  /** Everything before LeftEnd is whitespace, and the character at LeftEnd is not. */
  lemma LeftEndSpaces(s: string)
    ensures forall k :: 0 <= k < LeftEnd(s) ==> IsSpace(s[k])
    ensures LeftEnd(s) < |s| ==> !IsSpace(s[LeftEnd(s)])
  {
    LeftFromSpaces(s, 0);
  }

  /** Everything from RightEnd on is whitespace, and the character before RightEnd is not. */
  lemma RightEndSpaces(s: string)
    ensures forall k :: RightEnd(s) <= k < |s| ==> IsSpace(s[k])
    ensures RightEnd(s) > 0 ==> !IsSpace(s[RightEnd(s) - 1])
  {
    RightFromSpaces(s, |s|);
  }

  /** `str.strip()`: `s` without its leading and trailing whitespace. */
  function Strip(s: string): (r: string)
    ensures |r| <= |s|
    ensures r != [] ==> !IsSpace(r[0]) && !IsSpace(r[|r| - 1])
  {
    LeftEndSpaces(s);
    RightEndSpaces(s);
    var i, j := LeftEnd(s), RightEnd(s);
    if i >= j then [] else s[i..j]
  }

  /**
   * What strip leaves: nothing when `s` is all whitespace, otherwise a
   * part of `s` that neither starts nor ends with whitespace and outside of
   * which there is only whitespace.
   */
  lemma StripTrims(s: string)
    ensures Strip(s) == [] <==> forall k :: 0 <= k < |s| ==> IsSpace(s[k])
    ensures Strip(s) != [] ==> !IsSpace(Strip(s)[0])
    ensures Strip(s) != [] ==> !IsSpace(Strip(s)[|Strip(s)| - 1])
    ensures Strip(s) != [] ==>
      LeftEnd(s) + |Strip(s)| <= |s| && Strip(s) == s[LeftEnd(s)..LeftEnd(s) + |Strip(s)|]
    ensures Strip(s) != [] ==> forall k :: 0 <= k < LeftEnd(s) ==> IsSpace(s[k])
    ensures Strip(s) != [] ==> forall k :: LeftEnd(s) + |Strip(s)| <= k < |s| ==> IsSpace(s[k])
  {
    LeftEndSpaces(s);
    RightEndSpaces(s);
    var i, j := LeftEnd(s), RightEnd(s);
    if i < |s| {
      assert !IsSpace(s[i]);
      var r := s[i..j];
      assert Strip(s) == r;
      assert r[0] == s[i] && r[|r| - 1] == s[j - 1] && i + |r| == j;
    } else {
      assert Strip(s) == [];
    }
  }

  /** `s.split(sep)`: the pieces between separators, at least one. */
  function Split(s: string, sep: char): (r: seq<string>)
    ensures |r| >= 1
    ensures forall k :: 0 <= k < |r| ==> sep !in r[k]
  {
    if s == [] then [""]
    else
      var rest := Split(s[1..], sep);
      if s[0] == sep then [""] + rest else [[s[0]] + rest[0]] + rest[1..]
  }

  /** `sep.join(pieces)`. */
  function Join(pieces: seq<string>, sep: char): string
    requires |pieces| >= 1
  {
    if |pieces| == 1 then pieces[0] else pieces[0] + [sep] + Join(pieces[1..], sep)
  }

  /** Splitting loses nothing: joining the pieces gives the line back. */
  lemma {:induction false} JoinSplit(s: string, sep: char)
    ensures Join(Split(s, sep), sep) == s
    decreases |s|
  {
    if s != [] {
      var rest := Split(s[1..], sep);
      JoinSplit(s[1..], sep);
      if s[0] == sep {
        assert ([""] + rest)[1..] == rest;
      } else {
        var r := [[s[0]] + rest[0]] + rest[1..];
        if |rest| > 1 {
          assert r[1..] == rest[1..];
          assert Join(rest, sep) == rest[0] + [sep] + Join(rest[1..], sep);
        }
      }
    }
  }

  /** Pieces without separators split back into themselves. */
  lemma {:induction false} SplitJoin(pieces: seq<string>, sep: char)
    requires |pieces| >= 1 && forall k :: 0 <= k < |pieces| ==> sep !in pieces[k]
    ensures Split(Join(pieces, sep), sep) == pieces
    decreases |pieces|
  {
    if |pieces| == 1 {
      SplitPlain(pieces[0], sep);
    } else {
      SplitJoin(pieces[1..], sep);
      SplitPrefix(pieces[0], Join(pieces[1..], sep), sep);
      assert pieces == [pieces[0]] + pieces[1..];
    }
  }

  lemma {:induction false} SplitPlain(w: string, sep: char)
    requires sep !in w
    ensures Split(w, sep) == [w]
    decreases |w|
  {
    if w != [] {
      SplitPlain(w[1..], sep);
      assert [w[0]] + w[1..] == w;
    }
  }

  lemma {:induction false} SplitPrefix(w: string, rest: string, sep: char)
    requires sep !in w
    ensures Split(w + [sep] + rest, sep) == [w] + Split(rest, sep)
    decreases |w|
  {
    if w == [] {
      assert w + [sep] + rest == [sep] + rest;
      assert ([sep] + rest)[1..] == rest;
    } else {
      SplitPrefix(w[1..], rest, sep);
      assert (w + [sep] + rest)[1..] == w[1..] + [sep] + rest;
      assert [w[0]] + w[1..] == w;
    }
  }

  /** The index of the first line that is empty once stripped, or the number of lines. */
  function FirstBlank(lines: seq<string>): (n: nat)
    ensures n <= |lines|
  {
    if lines == [] || Strip(lines[0]) == [] then 0 else 1 + FirstBlank(lines[1..])
  }

  /** FirstBlank is the first blank line: every line before it has text. */
  lemma {:induction false} FirstBlankIsFirst(lines: seq<string>)
    ensures forall k :: 0 <= k < FirstBlank(lines) ==> Strip(lines[k]) != []
    ensures FirstBlank(lines) < |lines| ==> Strip(lines[FirstBlank(lines)]) == []
    decreases |lines|
  {
    if lines != [] && Strip(lines[0]) != [] {
      FirstBlankIsFirst(lines[1..]);
      forall k | 0 < k < FirstBlank(lines) ensures Strip(lines[k]) != [] {
        assert lines[k] == lines[1..][k - 1];
      }
    }
  }

  /** A blank line at `n` after `n` lines with text makes `n` the first blank. */
  lemma {:induction false} FirstBlankAt(lines: seq<string>, n: nat)
    requires n <= |lines|
    requires forall k :: 0 <= k < n ==> Strip(lines[k]) != []
    requires n < |lines| ==> Strip(lines[n]) == []
    ensures FirstBlank(lines) == n
    decreases n
  {
    if n > 0 {
      var rest := lines[1..];
      forall k | 0 <= k < n - 1 ensures Strip(rest[k]) != [] {
        assert rest[k] == lines[k + 1];
      }
      if n < |lines| { assert rest[n - 1] == lines[n]; }
      FirstBlankAt(rest, n - 1);
    }
  }

  /** The `add` arguments of every line `slurp` reads, up to the first blank line. */
  function SlurpCalls(lines: seq<string>): (calls: seq<seq<string>>)
    ensures |calls| == FirstBlank(lines)
    ensures forall k :: 0 <= k < |calls| ==> calls[k] == Split(Strip(lines[k]), '\t')
  {
    seq(FirstBlank(lines), k requires 0 <= k < FirstBlank(lines) => Split(Strip(lines[k]), '\t'))
  }

  /** Lines after the first blank one are never read. */
  lemma SlurpStopsAtEmptyLine(before: seq<string>, empty: string, after: seq<string>)
    requires forall k :: 0 <= k < |before| ==> Strip(before[k]) != []
    requires Strip(empty) == []
    ensures SlurpCalls(before + [empty] + after) == SlurpCalls(before)
  {
    var lines := before + [empty] + after;
    forall k | 0 <= k < |before| ensures Strip(lines[k]) != [] {
      assert lines[k] == before[k];
    }
    assert lines[|before|] == empty;
    FirstBlankAt(lines, |before|);
    FirstBlankAt(before, |before|);
    var a, b := SlurpCalls(lines), SlurpCalls(before);
    forall k | 0 <= k < |a| ensures a[k] == b[k] {
      assert lines[k] == before[k];
    }
  }

  /** Each field as a string argument. */
  function StrArgs(fields: seq<string>): (args: seq<Arg>)
    ensures |args| == |fields| && forall k :: 0 <= k < |fields| ==> args[k] == ValueArg(StrV(fields[k]))
  {
    if fields == [] then [] else [ValueArg(StrV(fields[0]))] + StrArgs(fields[1..])
  }

  /** Repeated `add(*fields)` into a sheet's records, stopping at the first failure. */
  function Slurped(rs: seq<Record>, calls: seq<seq<string>>, env: Records.Env, uids: nat -> string, from: nat): (u: (seq<Record>, Outcome))
    ensures u.1 == Pass ==> |u.0| == |rs| + |calls|
    ensures SortedBy(rs, Records.Key) ==> SortedBy(u.0, Records.Key)
    decreases |calls|
  {
    if calls == [] then (rs, Pass)
    else
      match Constructed(StrArgs(calls[0]), map[], env, uids(from))
      case Err(e) => (rs, Fail(e))
      case Ok(r) =>
        var next := InsortRight(rs, r, Records.Key);
        assert SortedBy(rs, Records.Key) ==> SortedBy(next, Records.Key) by {
          if SortedBy(rs, Records.Key) { InsortRightSorted(rs, r, Records.Key); }
        }
        Slurped(next, calls[1..], env, uids, from + 1)
  }

  /** The loop over `config["sheets"]` of `load`, each sheet a new one. */
  method LoadSheets(types: seq<(string, Class)>, entries: seq<(string, string)>, files: map<string, seq<Arg>>,
                    env: Records.Env, uids: string -> nat -> string) returns (r: Result<map<string, Sheet>>)
    ensures r.Ok? <==> LoadConfigured(types, entries, files, env, uids, map[]).Ok?
    ensures r.Err? ==> r.error == LoadConfigured(types, entries, files, env, uids, map[]).error
    ensures r.Ok? ==> var spec := LoadConfigured(types, entries, files, env, uids, map[]).value;
      r.value.Keys == spec.Keys &&
      forall n :: n in r.value ==> r.value[n].Valid() && r.value[n].records == spec[n]
  {
    var sheets: map<string, Sheet> := map[];
    ghost var acc: map<string, seq<Record>> := map[];
    var i := 0;
    while i < |entries|
      invariant 0 <= i <= |entries|
      invariant sheets.Keys == acc.Keys
      invariant forall n :: n in sheets ==> sheets[n].Valid() && sheets[n].records == acc[n]
      invariant LoadConfigured(types, entries, files, env, uids, map[]) ==
                LoadConfigured(types, entries[i..], files, env, uids, acc)
    {
      var (name, typename) := entries[i];
      assert entries[i..][1..] == entries[i + 1..];
      var cls := LookupType(types, typename);
      if cls.None? {
        return Err(KeyError);
      }
      if name in files {
        var made := NewSheet(files[name], cls.value, env, uids(name));
        if made.Err? {
          return Err(made.error);
        }
        sheets := sheets[name := made.value];
        acc := acc[name := made.value.records];
      }
      i := i + 1;
    }
    r := Ok(sheets);
  }

  /** Merging two maps of sheets merges their contents, and keeps every sheet valid. */
  lemma MergedSheets(a: map<string, Sheet>, b: map<string, Sheet>,
                     sa: map<string, seq<Record>>, sb: map<string, seq<Record>>)
    requires a.Keys == sa.Keys && forall n :: n in a ==> a[n].Valid() && a[n].records == sa[n]
    requires b.Keys == sb.Keys && forall n :: n in b ==> b[n].Valid() && b[n].records == sb[n]
    ensures (a + b).Keys == (sa + sb).Keys
    ensures forall n :: n in a + b ==> (a + b)[n].Valid() && (a + b)[n].records == (sa + sb)[n]
  {
    forall n | n in a + b
      ensures (a + b)[n].Valid() && (a + b)[n].records == (sa + sb)[n]
    {
      if n in b {
        assert (a + b)[n] == b[n];
      } else {
        assert (a + b)[n] == a[n];
      }
    }
  }

  /** `Sheet(cls=cls)`. */
  method NewEmptySheet(cls: Class, env: Records.Env, uids: nat -> string) returns (r: Result<Sheet>)
    ensures r.Ok? <==> cls == RecordClass
    ensures r.Err? ==> r.error == (if cls == RecordLikeClass then AttributeError else TypeError)
    ensures r.Ok? ==> r.value.Valid() && r.value.records == []
  {
    r := NewSheet([], cls, env, uids);
    EmptySheetOf(cls, env, uids);
  }

  /** `{name: Sheet(cls=type) for name, type in types.items()}`, each sheet a new one. */
  method DefaultSheets(types: seq<(string, Class)>, env: Records.Env, uids: string -> nat -> string)
    returns (r: Result<map<string, Sheet>>)
    ensures r.Ok? <==> Defaults(types, map[]).Ok?
    ensures r.Err? ==> r.error == Defaults(types, map[]).error
    ensures r.Ok? ==>
      r.value.Keys == Defaults(types, map[]).value.Keys &&
      forall n :: n in r.value ==> r.value[n].Valid() && r.value[n].records == []
  {
    var sheets: map<string, Sheet> := map[];
    ghost var acc: map<string, seq<Record>> := map[];
    var j := 0;
    while j < |types|
      invariant 0 <= j <= |types|
      invariant sheets.Keys == acc.Keys
      invariant forall n :: n in sheets ==> sheets[n].Valid() && sheets[n].records == []
      invariant Defaults(types, map[]) == Defaults(types[j..], acc)
    {
      var (name, cls) := types[j];
      var made := NewEmptySheet(cls, env, uids(name));
      if made.Err? {
        DefaultsStop(types, j, acc);
        return Err(made.error);
      }
      DefaultsStep(types, j, acc);
      sheets := sheets[name := made.value];
      acc := acc[name := []];
      j := j + 1;
    }
    assert types[j..] == [];
    r := Ok(sheets);
  }

  /** The sheets `load` ends up with, each a new one, or the error that stops it. */
  method BuildSheets(types: seq<(string, Class)>, entries: seq<(string, string)>, files: map<string, seq<Arg>>,
                     env: Records.Env, uids: string -> nat -> string) returns (r: Result<map<string, Sheet>>)
    ensures r.Ok? <==> LoadSpec(types, entries, files, env, uids).Ok?
    ensures r.Err? ==> r.error == LoadSpec(types, entries, files, env, uids).error
    ensures r.Ok? ==>
      var spec := LoadSpec(types, entries, files, env, uids).value;
      "records" in r.value && r.value.Keys == spec.Keys &&
      forall n :: n in r.value ==> r.value[n].Valid() && r.value[n].records == spec[n]
  {
    var loaded := LoadSheets(types, entries, files, env, uids);
    if loaded.Err? {
      return Err(loaded.error);
    }
    var defaults := DefaultSheets(types, env, uids);
    if defaults.Err? {
      return Err(defaults.error);
    }
    ghost var dspec := Defaults(types, map[]).value;
    ghost var lspec := LoadConfigured(types, entries, files, env, uids, map[]).value;
    var merged := defaults.value + loaded.value;
    MergedSheets(defaults.value, loaded.value, dspec, lspec);
    if "records" !in merged {
      return Err(KeyError);
    }
    r := Ok(merged);
  }

  /** `Sheet(records)`: a new Record sheet holding the records, sorted. */
  method SheetOfRecords(xs: seq<Record>, env: Records.Env, uids: nat -> string) returns (s: Sheet)
    ensures fresh(s) && s.Valid() && s.records == InsertAll([], xs, Records.Key)
  {
    s := new Sheet.Empty();
    UpdatedWithRecords([], xs, env, uids, 0);
    var done := s.Update(RecordArgs(xs), env, uids);
  }

  /**
   * The loop of `future` and `overview`: `sheet = sheet + Sheet(plan.take())`
   * for each plan, starting from `base`. The result is `base` itself until
   * the first sum, and a new sheet after it; no existing sheet is modified.
   */
  method Compose(base: Sheet, plans: seq<Record>, take: Record -> Result<seq<Record>>,
                 env: Records.Env, uids: nat -> string) returns (result: Sheet, outcome: Outcome)
    requires base.Valid()
    ensures result.Valid()
    ensures (result.records, outcome) == Composed(base.records, plans, take)
    ensures plans == [] || take(plans[0]).Err? ==> result == base
    ensures plans != [] && take(plans[0]).Ok? ==> fresh(result)
  {
    result, outcome := base, Pass;
    var i := 0;
    while i < |plans|
      invariant 0 <= i <= |plans|
      invariant result.Valid()
      invariant i == 0 ==> result == base
      invariant i > 0 ==> fresh(result) && take(plans[0]).Ok?
      invariant Composed(base.records, plans, take) == Composed(result.records, plans[i..], take)
    {
      assert plans[i..][0] == plans[i] && plans[i..][1..] == plans[i + 1..];
      var taken := take(plans[i]);
      if taken.Err? {
        return result, Fail(taken.error);
      }
      var own := SheetOfRecords(taken.value, env, uids);
      result := result.Plus(own, env, uids);
      i := i + 1;
    }
    assert plans[i..] == [];
  }

  // ---------------------------------------------------------------------
  // The Tracker

  class Tracker {
    const types: seq<(string, Class)>
    var sheets: map<string, Sheet>
    var active: Active

    /** The objects the active sheet is made of. */
    function ActiveObjects(): set<object>
      reads this
    {
      match active
      case NoSheet => {}
      case Plain(s) => {s}
      case Balanced(b) => {b, b.sheet}
    }

    predicate Valid()
      reads this, sheets.Values, ActiveObjects()
    {
      DistinctNames(types)
      && (forall n :: n in sheets ==> sheets[n].Valid())
      && (active.Plain? ==> active.sheet.Valid())
      && (active.Balanced? ==> active.view.Valid())
    }

    /** `Tracker()` before `use` loads anything. */
    constructor (types: seq<(string, Class)>)
      requires DistinctNames(types)
      ensures Valid() && this.types == types && sheets == map[] && active == NoSheet
    {
      this.types := types;
      sheets := map[];
      active := NoSheet;
    }

    /** The declared type of every sheet. */
    function Classes(): (m: map<string, Class>)
      reads this, sheets.Values
      ensures m.Keys == sheets.Keys && forall n :: n in sheets ==> m[n] == sheets[n].cls
    {
      map n | n in sheets :: sheets[n].cls
    }

    /** `config["sheets"]`. */
    function Config(): (r: Result<map<string, string>>)
      reads this, sheets.Values
      ensures r == ConfigOf(types, Classes())
    {
      ConfigOf(types, Classes())
    }

    /** The sheet `current_sheet` works on: a balanced view passes everything but its columns and rows to its sheet. */
    function Target(): Sheet
      reads this
      requires !active.NoSheet?
    {
      if active.Plain? then active.sheet else active.view.sheet
    }

    /** `sheet(name)`: activates the named sheet; an unknown name raises KeyError and changes nothing. */
    method SelectSheet(name: string) returns (outcome: Outcome)
      requires Valid()
      modifies this
      ensures Valid() && sheets == old(sheets)
      ensures name in sheets ==> outcome == Pass && active == Plain(sheets[name])
      ensures name !in sheets ==> outcome == Fail(KeyError) && active == old(active)
    {
      if name !in sheets {
        return Fail(KeyError);
      }
      active := Plain(sheets[name]);
      outcome := Pass;
    }

    /**
     * `load`, once the configuration and the sheet files are read: the
     * sheets become LoadSpec's, and "records" becomes active.
     */
    method Load(entries: seq<(string, string)>, files: map<string, seq<Arg>>, env: Records.Env,
                uids: string -> nat -> string) returns (outcome: Outcome)
      requires Valid()
      modifies this
      ensures Valid()
      ensures outcome.Pass? <==> LoadSpec(types, entries, files, env, uids).Ok?
      ensures outcome.Fail? ==> outcome.error == LoadSpec(types, entries, files, env, uids).error
      ensures outcome.Pass? ==> var spec := LoadSpec(types, entries, files, env, uids).value;
        sheets.Keys == spec.Keys && forall n :: n in sheets ==> sheets[n].records == spec[n]
      ensures outcome.Pass? ==> "records" in sheets && active == Plain(sheets["records"])
      ensures outcome.Fail? ==> active == old(active) && sheets == old(sheets)
    {
      var built := BuildSheets(types, entries, files, env, uids);
      if built.Err? {
        return Fail(built.error);
      }
      Install(built.value);
      outcome := Pass;
    }

    /** The end of a successful `load`: the new sheets replace the old ones and "records" becomes active. */
    method Install(merged: map<string, Sheet>)
      requires Valid() && "records" in merged
      requires forall n :: n in merged ==> merged[n].Valid()
      modifies this
      ensures Valid() && sheets == merged && active == Plain(merged["records"])
    {
      sheets := merged;
      active := Plain(merged["records"]);
    }

    /** `balanced`: the balanced view of the current sheet becomes active. */
    method MakeBalanced()
      requires Valid() && !active.NoSheet?
      modifies this
      ensures Valid() && sheets == old(sheets)
      ensures active.Balanced? && active.view.sheet == old(Target())
    {
      var view := new BalancedSheet(Target());
      active := Balanced(view);
    }

    /**
     * `future`: a new empty sheet becomes active, then every plan's take is
     * added to it. Without a "plans" sheet the empty sheet stays active and
     * KeyError is raised.
     */
    method Future(take: Record -> Result<seq<Record>>, env: Records.Env, uids: nat -> string) returns (outcome: Outcome)
      requires Valid()
      modifies this
      ensures Valid() && sheets == old(sheets) && active.Plain?
      ensures "plans" !in sheets ==> outcome == Fail(KeyError) && active.sheet.records == []
      ensures "plans" in sheets ==>
        (active.sheet.records, outcome) == Composed([], sheets["plans"].records, take)
      ensures fresh(active.sheet)
    {
      var empty := new Sheet.Empty();
      active := Plain(empty);
      if "plans" !in sheets {
        return Fail(KeyError);
      }
      var result;
      result, outcome := Compose(empty, sheets["plans"].records, take, env, uids);
      active := Plain(result);
    }

    /**
     * `overview`: the "records" sheet becomes active, then every plan's take
     * is added to it, each sum a new sheet, so "records" itself is never
     * modified. A missing "records" sheet raises KeyError and changes nothing;
     * a missing "plans" sheet raises KeyError with "records" active.
     */
    method Overview(take: Record -> Result<seq<Record>>, env: Records.Env, uids: nat -> string) returns (outcome: Outcome)
      requires Valid()
      modifies this
      ensures Valid() && sheets == old(sheets)
      ensures "records" !in sheets ==> outcome == Fail(KeyError) && active == old(active)
      ensures "records" in sheets && "plans" !in sheets ==>
        outcome == Fail(KeyError) && active == Plain(sheets["records"])
      ensures "records" in sheets && "plans" in sheets ==>
        active.Plain? &&
        (active.sheet.records, outcome) == Composed(sheets["records"].records, sheets["plans"].records, take)
      ensures "records" in sheets && "plans" in sheets &&
              (sheets["plans"].records == [] || take(sheets["plans"].records[0]).Err?) ==>
        active == Plain(sheets["records"])
    {
      if "records" !in sheets {
        return Fail(KeyError);
      }
      var records := sheets["records"];
      active := Plain(records);
      if "plans" !in sheets {
        return Fail(KeyError);
      }
      var result;
      result, outcome := Compose(records, sheets["plans"].records, take, env, uids);
      active := Plain(result);
    }

    /** `len(tracker)`: a balanced view has no length. */
    function Len(): (r: Result<nat>)
      reads this, ActiveObjects()
      requires !active.NoSheet?
      ensures active.Plain? ==> r == Ok(|active.sheet.records|)
      ensures active.Balanced? ==> r == Err(TypeError)
    {
      if active.Plain? then Ok(active.sheet.Length()) else Err(TypeError)
    }

    /** `list(tracker)`: the current sheet's records in order; a balanced view cannot be iterated. */
    function Iter(): (r: Result<seq<Record>>)
      reads this, ActiveObjects()
      requires !active.NoSheet?
      ensures active.Plain? ==> r == Ok(active.sheet.records)
      ensures active.Balanced? ==> r == Err(TypeError)
    {
      if active.Plain? then Ok(active.sheet.records) else Err(TypeError)
    }

    /** `tracker[index]`: a balanced view cannot be indexed. */
    function GetItem(index: int): (r: Result<Record>)
      reads this, ActiveObjects()
      requires !active.NoSheet?
      ensures active.Plain? ==> r == active.sheet.GetItem(index)
      ensures active.Balanced? ==> r == Err(TypeError)
    {
      if active.Plain? then active.sheet.GetItem(index) else Err(TypeError)
    }

    /** Length, iteration and indexing of a tracker agree with each other. */
    lemma ViewsAgree()
      requires !active.NoSheet?
      ensures Len().Ok? <==> Iter().Ok?
      ensures Iter().Ok? ==> Len().value == |Iter().value|
      ensures Iter().Ok? ==> forall k :: 0 <= k < |Iter().value| ==>
        GetItem(k) == Ok(Iter().value[k]) && GetItem(k - |Iter().value|) == Ok(Iter().value[k])
      ensures Iter().Err? ==> forall k :: GetItem(k) == Err(TypeError)
    {
    }

    /** `add(*args, **kwargs)` on the current sheet; saving is not modelled. */
    method Add(args: seq<Arg>, kw: map<string, Value>, env: Records.Env, newUid: string) returns (r: Result<Record>)
      requires Valid() && !active.NoSheet?
      modifies Target()
      ensures Valid() && sheets == old(sheets) && active == old(active)
      ensures r == Constructed(args, kw, env, newUid)
      ensures r.Err? ==> Target().records == old(Target().records)
      ensures r.Ok? ==> Target().records == InsortRight(old(Target().records), r.value, Records.Key)
    {
      var target := Target();
      r := target.Add(args, kw, env, newUid);
    }

    /**
     * `slurp`: every line up to the first empty one is stripped, split at
     * tabs and added to the current sheet as string arguments; the first
     * failing add stops it.
     */
    method Slurp(lines: seq<string>, env: Records.Env, uids: nat -> string) returns (outcome: Outcome)
      requires Valid() && !active.NoSheet?
      modifies Target()
      ensures Valid() && sheets == old(sheets) && active == old(active)
      ensures (Target().records, outcome) == Slurped(old(Target().records), SlurpCalls(lines), env, uids, 0)
    {
      ghost var calls := SlurpCalls(lines);
      FirstBlankIsFirst(lines);
      var i := 0;
      while i < |lines|
        invariant 0 <= i <= |lines| && i <= |calls|
        invariant Valid() && sheets == old(sheets) && active == old(active)
        invariant Slurped(old(Target().records), calls, env, uids, 0) == Slurped(Target().records, calls[i..], env, uids, i)
      {
        var line := Strip(lines[i]);
        if line == [] {
          break;
        }
        assert calls[i..][0] == Split(line, '\t') && calls[i..][1..] == calls[i + 1..];
        var r := Add(StrArgs(Split(line, '\t')), map[], env, uids(i));
        if r.Err? {
          return Fail(r.error);
        }
        i := i + 1;
      }
      assert i == |calls| && calls[i..] == [];
      outcome := Pass;
    }
  }
}
