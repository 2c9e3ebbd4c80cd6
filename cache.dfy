/** The cache of last-used form values: a dictionary of 18 named fields, read
    from disk at start-up (or set to built-in defaults when there is no cache
    file) and copied to and from the form field by field. */
module Cache {
  import opened Common

  /** The values the dictionary holds: integers, strings and None. */
  datatype Value = IntV(n: int) | StrV(s: string) | NoneV

  /** The 18 form fields the cache remembers. */
  datatype Field =
    | DatedYear | DatedMonth | DatedDate | DatedHour | DatedMinute | DatedSecond
    | IntervalDays | IntervalHours | IntervalMinutes | IntervalSeconds
    | CronYear | CronMonth | CronDay | CronHour | CronMinute | CronSecond
    | SelectedFilepath | CmdVar

  /** The dictionary key of each field. */
  function Key(f: Field): string {
    match f
    case DatedYear => "dated_year"
    case DatedMonth => "dated_month"
    case DatedDate => "dated_date"
    case DatedHour => "dated_hour"
    case DatedMinute => "dated_minute"
    case DatedSecond => "dated_second"
    case IntervalDays => "interval_days"
    case IntervalHours => "interval_hours"
    case IntervalMinutes => "interval_minutes"
    case IntervalSeconds => "interval_seconds"
    case CronYear => "cron_year"
    case CronMonth => "cron_month"
    case CronDay => "cron_day"
    case CronHour => "cron_hour"
    case CronMinute => "cron_minute"
    case CronSecond => "cron_second"
    case SelectedFilepath => "selected_filepath"
    case CmdVar => "cmd_var"
  }

  /** The fields in the order update_cache and load_cache visit them. */
  const Fields: seq<Field> := [
    DatedYear, DatedMonth, DatedDate, DatedHour, DatedMinute, DatedSecond,
    IntervalDays, IntervalHours, IntervalMinutes, IntervalSeconds,
    CronYear, CronMonth, CronDay, CronHour, CronMinute, CronSecond,
    SelectedFilepath, CmdVar]

  /** Every field is visited, exactly once. */
  lemma FieldsListsAll(f: Field)
    ensures f in Fields
    ensures forall i, j :: 0 <= i < j < |Fields| ==> Fields[i] != Fields[j]
  {
  }

  /** Different fields have different keys, so no field overwrites another in
      the dictionary. */
  lemma KeysDistinct(f: Field, g: Field)
    ensures Key(f) == Key(g) ==> f == g
  {
  }

  /** The default value of each field when there is no cache file. */
  function Default(f: Field): Value {
    match f
    case DatedYear => IntV(2024)
    case DatedMonth => IntV(3)
    case DatedDate => IntV(5)
    case DatedHour => IntV(16)
    case DatedMinute => IntV(0)
    case DatedSecond => IntV(0)
    case IntervalDays => IntV(0)
    case IntervalHours => IntV(0)
    case IntervalMinutes => IntV(0)
    case IntervalSeconds => IntV(1)
    case CronYear => StrV("*")
    case CronMonth => StrV("*")
    case CronDay => StrV("*")
    case CronHour => StrV("*")
    case CronMinute => StrV("*")
    case CronSecond => StrV("*/1")
    case SelectedFilepath => NoneV
    case CmdVar => StrV("")
  }

  /** The snapshot CacheFile.load uses when there is no cache file: each
      field's key with its default value, and no other key. */
  function DefaultSnapshot(): (r: map<string, Value>)
    ensures forall f: Field :: Key(f) in r && r[Key(f)] == Default(f)
    ensures forall k :: k in r ==> exists f: Field :: Key(f) == k
  {
    assert forall f: Field, g: Field :: Key(f) == Key(g) ==> f == g by {
      forall f: Field, g: Field ensures Key(f) == Key(g) ==> f == g { KeysDistinct(f, g); }
    }
    assert forall f: Field :: f in Fields by {
      forall f: Field ensures f in Fields { FieldsListsAll(f); }
    }
    map f | f in Fields :: Key(f) := Default(f)
  }

  /** update_cache: the dictionary after each field of `fields`, in turn, is
      stored under its key. */
  function StoreFields(cache: map<string, Value>, form: map<Field, Value>, fields: seq<Field>): (r: map<string, Value>)
    requires forall f :: f in fields ==> f in form
    ensures r.Keys == cache.Keys + KeysOf(fields)
    ensures forall f :: f in fields ==> Key(f) in r && r[Key(f)] == form[f]
    ensures forall k :: k in cache && k !in KeysOf(fields) ==> r[k] == cache[k]
    decreases |fields|
  {
    if fields == [] then cache
    else
      var f := fields[0];
      KeysOfCons(fields);
      KeysDistinctFrom(f, fields[1..]);
      StoreFields(cache[Key(f) := form[f]], form, fields[1..])
  }

  function KeysOf(fields: seq<Field>): set<string> {
    set f | f in fields :: Key(f)
  }

  lemma KeysOfCons(fields: seq<Field>)
    requires fields != []
    ensures KeysOf(fields) == {Key(fields[0])} + KeysOf(fields[1..])
    ensures forall f :: f in fields[1..] ==> f in fields
  {
    assert fields == [fields[0]] + fields[1..];
  }

  lemma KeysDistinctFrom(f: Field, fields: seq<Field>)
    ensures f !in fields ==> Key(f) !in KeysOf(fields)
  {
    if f !in fields && Key(f) in KeysOf(fields) {
      var g :| g in fields && Key(g) == Key(f);
      KeysDistinct(f, g);
    }
  }

  /** The form after each field of `fields`, in turn, takes the dictionary's
      value under its key. */
  function CopyFields(form: map<Field, Value>, cache: map<string, Value>, fields: seq<Field>): (r: map<Field, Value>)
    requires forall f :: f in fields ==> Key(f) in cache
    ensures r.Keys == form.Keys + set f | f in fields
    ensures forall f :: f in fields ==> r[f] == cache[Key(f)]
    ensures forall f :: f in form && f !in fields ==> r[f] == form[f]
    decreases |fields|
  {
    if fields == [] then form
    else
      assert forall f :: f in fields[1..] ==> f in fields;
      CopyFields(form[fields[0] := cache[Key(fields[0])]], cache, fields[1..])
  }

  /** The form after load_cache, and the key whose lookup raised KeyError. */
  datatype Loaded = Loaded(form: map<Field, Value>, missing: Option<string>)

  /** load_cache: copy the fields from the dictionary into the form one by
      one, stopping at the first key the dictionary lacks. */
  function LoadFields(form: map<Field, Value>, cache: map<string, Value>, fields: seq<Field>): Loaded
    decreases |fields|
  {
    if fields == [] then Loaded(form, None)
    else if Key(fields[0]) !in cache then Loaded(form, Some(Key(fields[0])))
    else LoadFields(form[fields[0] := cache[Key(fields[0])]], cache, fields[1..])
  }

  /** One step of update_cache's loop: storing field i, then the fields after
      it, is storing the fields from i on. */
  lemma StoreFieldsStep(cache: map<string, Value>, form: map<Field, Value>, fields: seq<Field>, i: nat)
    requires i < |fields| && forall f :: f in fields ==> f in form
    ensures forall f :: f in fields[i..] ==> f in form
    ensures StoreFields(cache[Key(fields[i]) := form[fields[i]]], form, fields[i + 1..]) == StoreFields(cache, form, fields[i..])
  {
    assert forall f :: f in fields[i..] ==> f in fields;
    assert fields[i..][1..] == fields[i + 1..];
  }

  /** One step of load_cache's loop: a present key is copied and loading goes
      on with the next field; a missing one stops the load. */
  lemma LoadFieldsStep(form: map<Field, Value>, cache: map<string, Value>, fields: seq<Field>, i: nat)
    requires i < |fields|
    ensures Key(fields[i]) in cache ==>
      LoadFields(form[fields[i] := cache[Key(fields[i])]], cache, fields[i + 1..]) == LoadFields(form, cache, fields[i..])
    ensures Key(fields[i]) !in cache ==> LoadFields(form, cache, fields[i..]) == Loaded(form, Some(Key(fields[i])))
  {
    assert fields[i..][1..] == fields[i + 1..];
  }

  /** When every key is in the dictionary, loading succeeds and every listed
      field takes the dictionary's value. */
  lemma {:induction false} LoadFieldsComplete(form: map<Field, Value>, cache: map<string, Value>, fields: seq<Field>)
    requires forall f :: f in fields ==> Key(f) in cache
    ensures LoadFields(form, cache, fields) == Loaded(CopyFields(form, cache, fields), None)
    decreases |fields|
  {
    if fields != [] {
      assert forall f :: f in fields[1..] ==> f in fields;
      LoadFieldsComplete(form[fields[0] := cache[Key(fields[0])]], cache, fields[1..]);
    }
  }

  /** When the i-th key is the first one missing, loading raises KeyError for
      it and the fields before it have already been copied. */
  lemma {:induction false} LoadFieldsPartial(form: map<Field, Value>, cache: map<string, Value>, fields: seq<Field>, i: nat)
    requires i < |fields| && Key(fields[i]) !in cache
    requires forall j :: 0 <= j < i ==> Key(fields[j]) in cache
    ensures forall f :: f in fields[..i] ==> Key(f) in cache
    ensures LoadFields(form, cache, fields) == Loaded(CopyFields(form, cache, fields[..i]), Some(Key(fields[i])))
    decreases i
  {
    assert forall f :: f in fields[..i] ==> Key(f) in cache by {
      forall f | f in fields[..i] ensures Key(f) in cache {
        var j :| 0 <= j < i && fields[..i][j] == f;
      }
    }
    if i == 0 {
      assert fields[..0] == [];
    } else {
      assert Key(fields[0]) in cache;
      assert fields[1..][..i - 1] == fields[..i][1..];
      LoadFieldsPartial(form[fields[0] := cache[Key(fields[0])]], cache, fields[1..], i - 1);
    }
  }

  /** A form that holds every field. */
  ghost predicate Complete(form: map<Field, Value>) {
    forall f: Field :: f in form
  }

  /** Storing a complete form under every field's key and loading every
      field back gives the form back, whatever the form held in between. */
  lemma StoreThenLoad(cache: map<string, Value>, form: map<Field, Value>, between: map<Field, Value>, fields: seq<Field>)
    requires Complete(form) && Complete(between) && forall f: Field :: f in fields
    ensures LoadFields(between, StoreFields(cache, form, fields), fields) == Loaded(form, None)
  {
    var stored := StoreFields(cache, form, fields);
    LoadFieldsComplete(between, stored, fields);
    CopyBack(between, stored, form, fields);
  }

  /** Copying every field from a dictionary that holds a form's values gives
      that form back. */
  lemma CopyBack(between: map<Field, Value>, stored: map<string, Value>, form: map<Field, Value>, fields: seq<Field>)
    requires Complete(form) && Complete(between) && forall f: Field :: f in fields
    requires forall f :: f in fields ==> Key(f) in stored && stored[Key(f)] == form[f]
    ensures CopyFields(between, stored, fields) == form
  {
    var back := CopyFields(between, stored, fields);
    assert forall f: Field :: f in back && back[f] == form[f];
    assert back.Keys == form.Keys;
  }

  /** update_cache followed by load_cache gives every one of the 18 form
      fields back the value it had when the cache was updated, whatever the
      form held in between, and raises nothing. */
  lemma CacheRoundTrip(cache: map<string, Value>, form: map<Field, Value>, between: map<Field, Value>)
    requires Complete(form) && Complete(between)
    ensures LoadFields(between, StoreFields(cache, form, Fields), Fields) == Loaded(form, None)
  {
    forall f: Field ensures f in Fields {
      FieldsListsAll(f);
    }
    StoreThenLoad(cache, form, between, Fields);
  }

  /** Loading every field from a dictionary that holds them all succeeds and
      gives each field the dictionary's value. */
  lemma LoadWhole(form: map<Field, Value>, cache: map<string, Value>, fields: seq<Field>)
    requires Complete(form) && forall f: Field :: f in fields && Key(f) in cache
    ensures var loaded := LoadFields(form, cache, fields);
      && loaded.missing.None? && Complete(loaded.form)
      && forall f: Field :: loaded.form[f] == cache[Key(f)]
  {
    LoadFieldsComplete(form, cache, fields);
  }

  /** With no cache file, loading raises nothing and every field takes its
      default value. */
  lemma DefaultSnapshotLoads(form: map<Field, Value>)
    requires Complete(form)
    ensures var loaded := LoadFields(form, DefaultSnapshot(), Fields);
      && loaded.missing.None? && Complete(loaded.form)
      && forall f: Field :: loaded.form[f] == Default(f)
  {
    forall f: Field ensures f in Fields {
      FieldsListsAll(f);
    }
    LoadWhole(form, DefaultSnapshot(), Fields);
  }

  class CacheFile {
    var filepath: string
    var cache: map<string, Value>

    /** CacheFile(filepath): remembers the path and loads at once. */
    constructor (filepath: string, onDisk: Option<map<string, Value>>)
      ensures this.filepath == filepath
      ensures onDisk.None? ==> cache == DefaultSnapshot()
      ensures onDisk.Some? ==> cache == onDisk.value
    {
      this.filepath := filepath;
      new;
      Load(onDisk);
    }

    /** load: `onDisk` is the dictionary stored in the file at `filepath`, or
        None when there is no such file; then the defaults are used. */
    method Load(onDisk: Option<map<string, Value>>)
      modifies this`cache
      ensures onDisk.None? ==> cache == DefaultSnapshot()
      ensures onDisk.Some? ==> cache == onDisk.value
    {
      if onDisk.Some? {
        cache := onDisk.value;
      } else {
        cache := DefaultSnapshot();
      }
    }
  }
}
