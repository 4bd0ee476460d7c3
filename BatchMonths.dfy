/** The months a batch run covers: the `months` entry of the batch config file, and the
    months found among the outputs already written, merged, de-duplicated and sorted. */
module BatchMonths {
  import opened Base
  import opened Strings
  import opened JsonValue
  import opened Ordering

  /** `[str(m) for m in items if str(m).strip()]` */
  function NonBlankTexts(items: seq<Json>): (r: seq<string>)
    ensures |r| <= |items|
    ensures forall i :: 0 <= i < |r| ==> !IsBlank(r[i])
  {
    if |items| == 0 then []
    else
      var rest := NonBlankTexts(items[1..]);
      var t := Display(items[0]);
      if IsBlank(t) then rest else HoldsPrepend(NonBlankText(), t, rest); [t] + rest
  }

  function NonBlankText(): string -> bool {
    (s: string) => !IsBlank(s)
  }

  /** A property of `t` and of every element of `rest` holds of every element of `[t] + rest`. */
  lemma HoldsPrepend<T>(p: T -> bool, t: T, rest: seq<T>)
    requires p(t) && forall i :: 0 <= i < |rest| ==> p(rest[i])
    ensures forall i :: 0 <= i < |[t] + rest| ==> p(([t] + rest)[i])
  {
    forall i | 0 <= i < |[t] + rest|
      ensures p(([t] + rest)[i])
    {
      if i > 0 {
        assert ([t] + rest)[i] == rest[i - 1];
      }
    }
  }

  /** On a list of strings, the entries kept are exactly the non-blank ones, in order. */
  lemma {:induction false} NonBlankTextsStrings(ss: seq<string>)
    ensures NonBlankTexts(StrList(ss).items) == Filter(ss, NonBlankText())
    decreases |ss|
  {
    if |ss| > 0 {
      assert StrList(ss).items[1..] == StrList(ss[1..]).items;
      NonBlankTextsStrings(ss[1..]);
    }
  }

  /** The `months` handling of `_parse_batch_config`: a missing entry is an empty list, a
      bare string is a one-entry list, anything else that is not a list raises
      RuntimeError, and blank entries are dropped. A config that is not a dict raises too. */
  function ParseMonths(raw: Json): (r: Result<seq<string>>)
    ensures r.Err? ==> r.exc.name == "RuntimeError"
    ensures r.Err? <==> !raw.Obj? || !(GetOr(raw, "months", Arr([])).Str? || GetOr(raw, "months", Arr([])).Arr?)
    ensures r.Ok? ==> forall i :: 0 <= i < |r.value| ==> !IsBlank(r.value[i])
  {
    if !raw.Obj? then Err(Raise("RuntimeError"))
    else
      var months := GetOr(raw, "months", Arr([]));
      if !(months.Str? || months.Arr?) then Err(Raise("RuntimeError"))
      else
        var items := if months.Str? then [months] else months.items;
        Ok(NonBlankTexts(items))
  }

  /** A bare string names one month, or none when it is blank. */
  lemma MonthsFromString(raw: Json, s: string)
    requires raw.Obj? && Get(raw, "months") == Some(Str(s))
    ensures ParseMonths(raw) == Ok(if IsBlank(s) then [] else [s])
  {
    var one := [Str(s)];
    assert one[1..] == [];
    assert NonBlankTexts(one[1..]) == [];
    assert Display(one[0]) == s;
    assert NonBlankTexts(one) == (if IsBlank(s) then [] else [s]);
    assert GetOr(raw, "months", Arr([])) == Str(s);
  }

  /** A list of strings keeps its non-blank entries, in order. */
  lemma MonthsFromList(raw: Json, ss: seq<string>)
    requires raw.Obj? && Get(raw, "months") == Some(StrList(ss))
    ensures ParseMonths(raw) == Ok(Filter(ss, NonBlankText()))
  {
    NonBlankTextsStrings(ss);
  }

  /** The elements of `s` without repeats, each where it first occurs; it stands for
      Python's `set(s)`, whose iteration order the sort that follows makes irrelevant. */
  function Dedup(s: seq<string>): (r: seq<string>)
    ensures Distinct(r)
    ensures forall x :: x in r <==> x in s
  {
    if |s| == 0 then []
    else
      var rest := Dedup(s[..|s| - 1]);
      var x := s[|s| - 1];
      assert forall y :: y in s <==> y in s[..|s| - 1] || y == x by {
        assert s == s[..|s| - 1] + [x];
      }
      if x in rest then rest else rest + [x]
  }

  function MonthKey(m: string): Key {
    [AStr(m)]
  }

  /** `sorted(set(months))` */
  function SortedUnique(months: seq<string>): (r: seq<string>)
    ensures SortedBy(r, MonthKey, false) && Distinct(r)
    ensures forall m :: m in r <==> m in months
  {
    var unique := Dedup(months);
    var r := SortBy(unique, MonthKey, false);
    DistinctPerm(unique, r);
    assert forall m :: m in r <==> m in unique by {
      forall m
        ensures m in r <==> m in unique
      {
        assert m in r <==> m in multiset(r);
        assert m in unique <==> m in multiset(unique);
      }
    }
    r
  }

  /** In a sorted list without repeats every month is strictly before the next. */
  lemma SortedUniqueAscending(months: seq<string>, i: int, j: int)
    requires 0 <= i < j < |SortedUnique(months)|
    ensures var r := SortedUnique(months); StrLe(r[i], r[j]) && r[i] != r[j]
  {
    var r := SortedUnique(months);
    assert KeyLe(MonthKey(r[i]), MonthKey(r[j]));
    assert MonthKey(r[i])[0] != MonthKey(r[j])[0];
  }

  const NoMonths: Exc := Exc("RuntimeError", "No months found.", false)

  /** The loop of `_effective_months`: each month found in the outputs that is not listed
      yet is appended. */
  method AddDiscovered(configured: seq<string>, discovered: seq<string>) returns (months: seq<string>)
    ensures forall m :: m in months <==> m in configured || m in discovered
    ensures months == [] <==> configured == [] && discovered == []
  {
    months := configured;
    var i := 0;
    while i < |discovered|
      invariant 0 <= i <= |discovered|
      invariant forall m :: m in months <==> m in configured || m in discovered[..i]
    {
      assert discovered[..i + 1] == discovered[..i] + [discovered[i]];
      if discovered[i] !in months {
        months := months + [discovered[i]];
      }
      i := i + 1;
    }
    assert i == |discovered|;
    assert discovered[..i] == discovered;
    if months != [] {
      assert months[0] in configured || months[0] in discovered;
    }
    if configured != [] {
      assert configured[0] in months;
    }
    if discovered != [] {
      assert discovered[0] in months;
    }
  }

  /** `_effective_months`: the configured months, with those found in the outputs when
      enabled, sorted without repeats; an error when there are none. The months found on
      disk are a parameter. */
  method EffectiveMonths(configured: seq<string>, fromOutputs: bool, discovered: seq<string>)
    returns (r: Result<seq<string>>)
    ensures r.Ok? ==> SortedBy(r.value, MonthKey, false) && Distinct(r.value)
    ensures r.Ok? ==> forall m :: m in r.value <==> m in configured || (fromOutputs && m in discovered)
    ensures r.Err? <==> configured == [] && (!fromOutputs || discovered == [])
    ensures r.Err? ==> r == Err(NoMonths)
  {
    var months := configured;
    if fromOutputs {
      months := AddDiscovered(configured, discovered);
    }
    var unique := SortedUnique(months);
    if |unique| == 0 {
      return Err(NoMonths);
    }
    assert unique[0] in months;
    return Ok(unique);
  }
}
