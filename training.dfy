/** The training page (`src/pages/Training.jsx`): two in-memory lists of training records,
    the full `trainings` and the displayed `filteredTrainings`, patched after each server reply,
    with a case-insensitive search and pagination over the displayed list. */
module Training {
  import opened Js
  import opened Http
  import opened Pagination

  /** The `id` of a record, compared with `===`. */
  function Id(t: Record): Value {
    Get(t, "id")
  }

  /** `{ ...t, ...patch }`: every key of `patch` takes the patch's value, every other key of `t` stays. */
  ghost predicate MergedFrom(r: Record, t: Record, patch: Record) {
    && r.Keys == t.Keys + patch.Keys
    && (forall k :: k in patch ==> r[k] == patch[k])
    && (forall k :: k in t && k !in patch ==> r[k] == t[k])
  }

  /** `{ ...t, ...patch }` is the merge of `t` with `patch`. */
  lemma MergeMeaning(t: Record, patch: Record)
    ensures MergedFrom(t + patch, t, patch)
  {
  }

  /** `trainings.map(t => t.id === id ? { ...t, ...patch } : t)`: the records keep their positions,
      and every record with the given `id` is merged with the patch while the others stay as they were. */
  function UpdateById(list: seq<Record>, id: Value, patch: Record): (r: seq<Record>)
    ensures |r| == |list|
    ensures forall i :: 0 <= i < |list| ==> r[i] == if Id(list[i]) == id then list[i] + patch else list[i]
  {
    if list == [] then []
    else [if Id(list[0]) == id then list[0] + patch else list[0]] + UpdateById(list[1..], id, patch)
  }

  /** An edit merges the reply into every record with the selected `id` and leaves every other
      record as it was. */
  lemma UpdateByIdMerges(list: seq<Record>, id: Value, patch: Record)
    ensures forall i :: 0 <= i < |list| && Id(list[i]) == id ==> MergedFrom(UpdateById(list, id, patch)[i], list[i], patch)
    ensures forall i :: 0 <= i < |list| && Id(list[i]) != id ==> UpdateById(list, id, patch)[i] == list[i]
  {
    forall i | 0 <= i < |list| && Id(list[i]) == id
      ensures MergedFrom(UpdateById(list, id, patch)[i], list[i], patch)
    {
      MergeMeaning(list[i], patch);
    }
  }

  /** When the reply does not carry a different `id`, an edit keeps every record's `id`,
      so the edited records can still be found by the same `id`. */
  lemma UpdateKeepsIds(list: seq<Record>, id: Value, patch: Record)
    requires "id" !in patch || patch["id"] == id
    ensures forall i :: 0 <= i < |list| ==> Id(UpdateById(list, id, patch)[i]) == Id(list[i])
  {
  }

  /** `trainings.filter(t => t.id !== id)`. */
  function RemoveById(list: seq<Record>, id: Value): (r: seq<Record>)
    ensures |r| <= |list|
  {
    if list == [] then []
    else (if Id(list[0]) != id then [list[0]] else []) + RemoveById(list[1..], id)
  }

  /** One step of the filter: the first record is kept or dropped, then the rest is filtered. */
  lemma RemoveByIdCons(t: Record, rest: seq<Record>, id: Value)
    ensures RemoveById([t] + rest, id) == (if Id(t) != id then [t] else []) + RemoveById(rest, id)
  {
    var list := [t] + rest;
    assert list[0] == t && list[1..] == rest;
  }

  /** Each record occurs in the result as often as in the list when its `id` differs from the
      deleted one, and not at all otherwise. */
  lemma {:induction false} RemoveByIdCounts(list: seq<Record>, id: Value, x: Record)
    ensures multiset(RemoveById(list, id))[x] == if Id(x) == id then 0 else multiset(list)[x]
  {
    if list != [] {
      var t, rest := list[0], list[1..];
      assert list == [t] + rest;
      RemoveByIdCons(t, rest, id);
      RemoveByIdCounts(rest, id, x);
      var kept := if Id(t) != id then [t] else [];
      assert multiset(kept + RemoveById(rest, id)) == multiset(kept) + multiset(RemoveById(rest, id));
      assert multiset(list) == multiset([t]) + multiset(rest);
    }
  }

  /** Exactly the records whose `id` differs from the deleted one remain. */
  lemma RemoveByIdMembers(list: seq<Record>, id: Value)
    ensures forall x :: x in RemoveById(list, id) <==> x in list && Id(x) != id
  {
    forall x ensures x in RemoveById(list, id) <==> x in list && Id(x) != id {
      RemoveByIdCounts(list, id, x);
    }
  }

  /** Removing distributes over concatenation: the kept records stay in their original order. */
  lemma {:induction false} RemoveByIdAppend(a: seq<Record>, b: seq<Record>, id: Value)
    ensures RemoveById(a + b, id) == RemoveById(a, id) + RemoveById(b, id)
  {
    if a == [] {
      assert a + b == b;
    } else {
      var t, rest := a[0], a[1..];
      var kept := if Id(t) != id then [t] else [];
      assert a + b == [t] + (rest + b);
      calc {
        RemoveById(a + b, id);
        { RemoveByIdCons(t, rest + b, id); }
        kept + RemoveById(rest + b, id);
        { RemoveByIdAppend(rest, b, id); }
        kept + (RemoveById(rest, id) + RemoveById(b, id));
        (kept + RemoveById(rest, id)) + RemoveById(b, id);
        { assert a == [t] + rest; RemoveByIdCons(t, rest, id); }
        RemoveById(a, id) + RemoveById(b, id);
      }
    }
  }

  /** A list in which no record has the deleted `id` is left exactly as it was. */
  lemma {:induction false} RemoveByIdAbsent(list: seq<Record>, id: Value)
    requires forall x :: x in list ==> Id(x) != id
    ensures RemoveById(list, id) == list
  {
    if list != [] {
      assert forall x :: x in list[1..] ==> x in list;
      RemoveByIdAbsent(list[1..], id);
    }
  }

  /** The six fields that the search reads, in the order it reads them. */
  function SearchFields(t: Record): seq<Value> {
    [Get(t, "title"), Get(t, "organiser"), Get(t, "venue"), Get(t, "type"), Get(t, "status"), Get(t, "period")]
  }

  /** `v.toLowerCase().includes(q.toLowerCase())` succeeds and is true. */
  predicate FieldMatches(v: Value, q: string) {
    v.Str? && Includes(Lower(v.s), Lower(q))
  }

  /** No field before position `k` contains the query, so the chain reaches field `k`. */
  predicate NoMatchBefore(fields: seq<Value>, q: string, k: int)
    requires 0 <= k <= |fields|
  {
    forall j :: 0 <= j < k ==> !FieldMatches(fields[j], q)
  }

  /** Every field before position `k` is a string, so the chain does not throw before field `k`. */
  predicate AllStringsBefore(fields: seq<Value>, k: int)
    requires 0 <= k <= |fields|
  {
    forall j :: 0 <= j < k ==> fields[j].Str?
  }

  /** The chain reaches a field that is not a string: every field before it misses the query. */
  ghost predicate ReachesNonString(fields: seq<Value>, q: string) {
    exists k :: 0 <= k < |fields| && !fields[k].Str? && NoMatchBefore(fields, q, k)
  }

  /** Some field contains the query and every field before it is a string. */
  ghost predicate HitBeforeNonString(fields: seq<Value>, q: string) {
    exists k :: 0 <= k < |fields| && FieldMatches(fields[k], q) && AllStringsBefore(fields, k)
  }

  /** A first field that is not a string is reached at once, and nothing can match before it. */
  lemma ChainStartsNonString(fields: seq<Value>, q: string)
    requires |fields| > 0 && !fields[0].Str?
    ensures ReachesNonString(fields, q) && !HitBeforeNonString(fields, q)
  {
    assert NoMatchBefore(fields, q, 0);
    forall k | 0 < k <= |fields| ensures !AllStringsBefore(fields, k) {
      assert !fields[0].Str?;
    }
  }

  /** A first field that matches decides the chain, and no later field is reached. */
  lemma ChainStartsWithHit(fields: seq<Value>, q: string)
    requires |fields| > 0 && FieldMatches(fields[0], q)
    ensures !ReachesNonString(fields, q) && HitBeforeNonString(fields, q)
  {
    assert AllStringsBefore(fields, 0);
    forall k | 0 < k <= |fields| ensures !NoMatchBefore(fields, q, k) {
      assert FieldMatches(fields[0], q);
    }
  }

  /** A first field that is a string and misses passes the question on to the rest. */
  lemma ChainSkipsMiss(fields: seq<Value>, q: string)
    requires |fields| > 0 && fields[0].Str? && !FieldMatches(fields[0], q)
    ensures ReachesNonString(fields, q) <==> ReachesNonString(fields[1..], q)
    ensures HitBeforeNonString(fields, q) <==> HitBeforeNonString(fields[1..], q)
  {
    var rest := fields[1..];
    if ReachesNonString(fields, q) {
      var k :| 0 <= k < |fields| && !fields[k].Str? && NoMatchBefore(fields, q, k);
      assert k > 0 && rest[k - 1] == fields[k];
      assert NoMatchBefore(rest, q, k - 1) by {
        forall j | 0 <= j < k - 1 ensures !FieldMatches(rest[j], q) {
          assert rest[j] == fields[j + 1];
        }
      }
    }
    if ReachesNonString(rest, q) {
      var k :| 0 <= k < |rest| && !rest[k].Str? && NoMatchBefore(rest, q, k);
      assert !fields[k + 1].Str?;
      assert NoMatchBefore(fields, q, k + 1) by {
        forall j | 0 <= j < k + 1 ensures !FieldMatches(fields[j], q) {
          if j > 0 { assert fields[j] == rest[j - 1]; }
        }
      }
    }
    if HitBeforeNonString(fields, q) {
      var k :| 0 <= k < |fields| && FieldMatches(fields[k], q) && AllStringsBefore(fields, k);
      assert k > 0 && rest[k - 1] == fields[k];
      assert AllStringsBefore(rest, k - 1) by {
        forall j | 0 <= j < k - 1 ensures rest[j].Str? {
          assert rest[j] == fields[j + 1];
        }
      }
    }
    if HitBeforeNonString(rest, q) {
      var k :| 0 <= k < |rest| && FieldMatches(rest[k], q) && AllStringsBefore(rest, k);
      assert FieldMatches(fields[k + 1], q);
      assert AllStringsBefore(fields, k + 1) by {
        forall j | 0 <= j < k + 1 ensures fields[j].Str? {
          if j > 0 { assert fields[j] == rest[j - 1]; }
        }
      }
    }
  }

  /** The chain `f0.toLowerCase().includes(q') || f1... || ...`, evaluated left to right: `None` when
      `toLowerCase` is reached on a value that is not a string, which throws a `TypeError`. It throws
      exactly when it reaches a non-string field with no match before it, and is true exactly when a
      field matches with only strings before it. */
  function MatchAny(fields: seq<Value>, q: string): (r: Option<bool>)
    ensures (forall k :: 0 <= k < |fields| ==> fields[k].Str?) ==> r.Some?
    ensures r.None? <==> ReachesNonString(fields, q)
    ensures r == Some(true) <==> HitBeforeNonString(fields, q)
  {
    if fields == [] then Some(false)
    else if !fields[0].Str? then
      ChainStartsNonString(fields, q);
      None
    else if FieldMatches(fields[0], q) then
      ChainStartsWithHit(fields, q);
      Some(true)
    else
      assert forall k :: 0 <= k < |fields[1..]| ==> fields[1..][k] == fields[k + 1];
      ChainSkipsMiss(fields, q);
      MatchAny(fields[1..], q)
  }

  /** Without a throw, the chain is true exactly when some field matches. */
  lemma {:induction false} MatchAnyMeaning(fields: seq<Value>, q: string)
    requires MatchAny(fields, q).Some?
    ensures MatchAny(fields, q).value <==> exists k :: 0 <= k < |fields| && FieldMatches(fields[k], q)
  {
    if fields != [] && !FieldMatches(fields[0], q) {
      MatchAnyMeaning(fields[1..], q);
      assert forall k :: 1 <= k < |fields| ==> fields[k] == fields[1..][k - 1];
    }
  }

  /** The chain throws only on reaching a field that is not a string. */
  lemma {:induction false} MatchAnyThrows(fields: seq<Value>, q: string)
    requires MatchAny(fields, q).None?
    ensures exists k :: 0 <= k < |fields| && !fields[k].Str?
  {
    if fields[0].Str? {
      MatchAnyThrows(fields[1..], q);
      var j :| 0 <= j < |fields[1..]| && !fields[1..][j].Str?;
      assert !fields[j + 1].Str?;
    }
  }

  /** All six searched fields hold strings. */
  predicate Searchable(t: Record) {
    forall k :: 0 <= k < 6 ==> SearchFields(t)[k].Str?
  }

  /** The record passes the search for `q`: some searched field contains it, ignoring case. */
  predicate Matches(t: Record, q: string) {
    exists k :: 0 <= k < 6 && FieldMatches(SearchFields(t)[k], q)
  }

  /** `list.filter(keep)` with a callback that may throw (`None`): a throw aborts the whole call. */
  function Filter<T>(list: seq<T>, keep: T -> Option<bool>): (r: Option<seq<T>>)
    ensures r.Some? ==> |r.value| <= |list|
  {
    if list == [] then Some([])
    else
      var head := keep(list[0]);
      var tail := Filter(list[1..], keep);
      if head.None? || tail.None? then None
      else Some((if head.value then [list[0]] else []) + tail.value)
  }

  /** One step of the filter: the callback on the first record, then the filter of the rest. */
  lemma FilterCons<T>(t: T, rest: seq<T>, keep: T -> Option<bool>)
    ensures Filter([t] + rest, keep) ==
              var head := keep(t);
              var tail := Filter(rest, keep);
              if head.None? || tail.None? then None
              else Some((if head.value then [t] else []) + tail.value)
  {
    var list := [t] + rest;
    assert list[0] == t && list[1..] == rest;
  }

  /** The filter completes when the callback completes on every record. */
  lemma {:induction false} FilterSucceeds<T>(list: seq<T>, keep: T -> Option<bool>)
    requires forall x :: x in list ==> keep(x).Some?
    ensures Filter(list, keep).Some?
  {
    if list != [] {
      assert list[0] in list;
      assert forall x :: x in list[1..] ==> x in list;
      FilterSucceeds(list[1..], keep);
    }
  }

  /** The filter throws only when the callback throws on some record. */
  lemma {:induction false} FilterThrows<T>(list: seq<T>, keep: T -> Option<bool>)
    requires Filter(list, keep).None?
    ensures exists x :: x in list && keep(x).None?
  {
    if keep(list[0]).Some? {
      FilterThrows(list[1..], keep);
      var x :| x in list[1..] && keep(x).None?;
      assert x in list;
    }
  }

  /** A filter that completed ran the callback to completion on every record. */
  lemma {:induction false} FilterCompleted<T>(list: seq<T>, keep: T -> Option<bool>)
    requires Filter(list, keep).Some?
    ensures forall x :: x in list ==> keep(x).Some?
  {
    if list != [] {
      FilterCompleted(list[1..], keep);
      assert forall x :: x in list ==> x == list[0] || x in list[1..];
    }
  }

  /** A completed filter keeps exactly the records for which the callback returned true. */
  lemma {:induction false} FilterMembers<T>(list: seq<T>, keep: T -> Option<bool>)
    requires Filter(list, keep).Some?
    ensures forall x :: x in Filter(list, keep).value <==> x in list && keep(x) == Some(true)
  {
    if list != [] {
      FilterMembers(list[1..], keep);
      assert forall x :: x in list <==> x == list[0] || x in list[1..];
    }
  }

  /** Filtering distributes over concatenation, so the kept records stay in their original order. */
  lemma {:induction false} FilterAppend<T>(a: seq<T>, b: seq<T>, keep: T -> Option<bool>)
    requires Filter(a, keep).Some? && Filter(b, keep).Some?
    ensures Filter(a + b, keep) == Some(Filter(a, keep).value + Filter(b, keep).value)
  {
    if a == [] {
      assert a + b == b;
      assert Filter(a, keep).value + Filter(b, keep).value == Filter(b, keep).value;
    } else {
      var t, rest := a[0], a[1..];
      assert a == [t] + rest;
      FilterCons(t, rest, keep);
      var kept := if keep(t).value then [t] else [];
      var x, y := Filter(rest, keep).value, Filter(b, keep).value;
      assert a + b == [t] + (rest + b);
      calc {
        Filter(a + b, keep);
        { FilterCons(t, rest + b, keep); FilterAppend(rest, b, keep); }
        Some(kept + (x + y));
        { assert kept + (x + y) == (kept + x) + y; }
        Some(Filter(a, keep).value + y);
      }
    }
  }

  /** A callback that returns true on every record keeps the whole list. */
  lemma {:induction false} FilterAll<T>(list: seq<T>, keep: T -> Option<bool>)
    requires forall x :: x in list ==> keep(x) == Some(true)
    ensures Filter(list, keep) == Some(list)
  {
    if list != [] {
      assert list[0] in list;
      assert forall x :: x in list[1..] ==> x in list;
      FilterAll(list[1..], keep);
      assert [list[0]] + list[1..] == list;
    }
  }

  /** Two callbacks that agree on every record of the list filter it alike. */
  lemma {:induction false} FilterSame<T>(list: seq<T>, f: T -> Option<bool>, g: T -> Option<bool>)
    requires forall x :: x in list ==> f(x) == g(x)
    ensures Filter(list, f) == Filter(list, g)
  {
    if list != [] {
      assert list[0] in list;
      assert forall x :: x in list[1..] ==> x in list;
      FilterSame(list[1..], f, g);
    }
  }

  /** The search callback: the six-field chain for the query `q`. */
  function SearchTest(q: string): Record -> Option<bool> {
    t => MatchAny(SearchFields(t), q)
  }

  /** When the filter with the search callback completes, it keeps exactly the matching records. */
  lemma SearchTestMembers(list: seq<Record>, q: string)
    requires Filter(list, SearchTest(q)).Some?
    ensures forall x :: x in Filter(list, SearchTest(q)).value <==> x in list && Matches(x, q)
  {
    FilterMembers(list, SearchTest(q));
    FilterCompleted(list, SearchTest(q));
    forall x | x in list ensures SearchTest(q)(x) == Some(true) <==> Matches(x, q) {
      MatchAnyMeaning(SearchFields(x), q);
    }
  }

  /** `trainings.filter(...)` with the six-field test: `None` when the test throws for some record.
      A completed search keeps exactly the records of the list that match the query. */
  function Search(list: seq<Record>, q: string): (r: Option<seq<Record>>)
    ensures r.Some? ==> forall x :: x in r.value <==> x in list && Matches(x, q)
  {
    var r := Filter(list, SearchTest(q));
    if r.Some? then SearchTestMembers(list, q); r else r
  }

  /** The search cannot throw when every record has strings in all six searched fields. */
  lemma SearchSucceeds(list: seq<Record>, q: string)
    requires forall x :: x in list ==> Searchable(x)
    ensures Search(list, q).Some?
  {
    forall x | x in list ensures SearchTest(q)(x).Some? {
      assert forall k :: 0 <= k < |SearchFields(x)| ==> SearchFields(x)[k].Str?;
    }
    FilterSucceeds(list, SearchTest(q));
  }

  /** The search throws only when some record has a searched field that is not a string. */
  lemma SearchThrows(list: seq<Record>, q: string)
    requires Search(list, q).None?
    ensures exists x :: x in list && !Searchable(x)
  {
    FilterThrows(list, SearchTest(q));
    var x :| x in list && SearchTest(q)(x).None?;
    MatchAnyThrows(SearchFields(x), q);
  }

  /** Searching distributes over concatenation: the kept records stay in their original order. */
  lemma SearchAppend(a: seq<Record>, b: seq<Record>, q: string)
    requires Search(a, q).Some? && Search(b, q).Some?
    ensures Search(a + b, q) == Some(Search(a, q).value + Search(b, q).value)
  {
    FilterAppend(a, b, SearchTest(q));
  }

  /** The empty query keeps every training, in order, as long as every title is a string:
      the empty string is part of every title, so no later field is read. */
  lemma SearchEmptyQuery(list: seq<Record>)
    requires forall x :: x in list ==> Get(x, "title").Str?
    ensures Search(list, "") == Some(list)
  {
    forall x | x in list ensures SearchTest("")(x) == Some(true) {
      assert Lower("") == "";
      IncludesEmpty(Lower(Get(x, "title").s));
      assert FieldMatches(SearchFields(x)[0], "");
    }
    FilterAll(list, SearchTest(""));
  }

  /** A field matches a query exactly when it matches the lowered query. */
  lemma FieldMatchesLowered(v: Value, q: string)
    ensures FieldMatches(v, q) <==> FieldMatches(v, Lower(q))
  {
    LowerIdempotent(q);
  }

  /** The chain gives the same answer for a query and for its lowered form. */
  lemma {:induction false} MatchAnyLowered(fields: seq<Value>, q: string)
    ensures MatchAny(fields, q) == MatchAny(fields, Lower(q))
  {
    if fields != [] {
      LowerIdempotent(q);
      MatchAnyLowered(fields[1..], q);
    }
  }

  /** The search is case-insensitive in the query: a query and its lowered form select the same records. */
  lemma SearchCaseInsensitive(list: seq<Record>, q: string)
    ensures Search(list, q) == Search(list, Lower(q))
  {
    forall x | x in list ensures SearchTest(q)(x) == SearchTest(Lower(q))(x) {
      MatchAnyLowered(SearchFields(x), q);
    }
    FilterSame(list, SearchTest(q), SearchTest(Lower(q)));
  }

  /** A training whose `period` is the `{startDate, endDate}` object the table renders. */
  function PeriodObjectTraining(): Record {
    map["id" := Num(1), "title" := Str("A"), "organiser" := Str("B"), "venue" := Str("C"),
        "type" := Str("D"), "status" := Str("E"),
        "period" := Obj(map["startDate" := Str("2024"), "endDate" := Str("2025")])]
  }

  /** A record whose title matches is kept without `period` ever being read. */
  lemma TitleMatchSkipsPeriod(t: Record, q: string)
    requires FieldMatches(Get(t, "title"), q)
    ensures Search([t], q) == Some([t])
  {
    assert SearchFields(t)[0] == Get(t, "title");
    FilterAll([t], SearchTest(q));
  }

  /** A record whose first five searched fields are strings that miss the query, and whose
      `period` is not a string, makes the whole search throw. */
  lemma NonStringPeriodThrows(t: Record, q: string)
    requires forall k :: 0 <= k < 5 ==> SearchFields(t)[k].Str? && !FieldMatches(SearchFields(t)[k], q)
    requires !Get(t, "period").Str?
    ensures Search([t], q) == None
  {
    var fs := SearchFields(t);
    assert MatchAny(fs[5..], q) == None;
    assert MatchAny(fs[4..], q) == None;
    assert MatchAny(fs[3..], q) == None;
    assert MatchAny(fs[2..], q) == None;
    assert MatchAny(fs[1..], q) == None;
    assert MatchAny(fs, q) == None;
    assert [t] == [t] + [];
    FilterCons(t, [], SearchTest(q));
  }

  /** With `period` the `{startDate, endDate}` object the table renders, the query "a" still finds
      the training through its title, but the query "z" misses the first five fields, reaches
      `period.toLowerCase()` and the search throws. */
  lemma PeriodObjectBreaksSearch()
    ensures Search([PeriodObjectTraining()], "a") == Some([PeriodObjectTraining()])
    ensures Search([PeriodObjectTraining()], "z") == None
  {
    var t := PeriodObjectTraining();
    var fs := SearchFields(t);
    assert fs == [Str("A"), Str("B"), Str("C"), Str("D"), Str("E"), Get(t, "period")];
    assert Lower("A") == "a";
    LowerOfLower("a");
    assert "a" <= "a";
    TitleMatchSkipsPeriod(t, "a");
    MissesLetter("A", 'a');
    MissesLetter("B", 'b');
    MissesLetter("C", 'c');
    MissesLetter("D", 'd');
    MissesLetter("E", 'e');
    NonStringPeriodThrows(t, "z");
  }

  /** A single upper-case letter other than Z does not contain "z", ignoring case. */
  lemma MissesLetter(s: string, lower: char)
    requires |s| == 1 && 'A' <= s[0] < 'Z' && lower as int == s[0] as int + 32
    ensures !FieldMatches(Str(s), "z")
  {
    assert Lower(s) == [lower];
    LowerOfLower("z");
    assert !("z" <= [lower]);
    IncludesLonger([lower][1..], "z");
  }

  /** A training with string fields throughout; only the organiser differs between instances. */
  function TextTraining(id: int, organiser: string): Record {
    map["id" := Num(id), "title" := Str("t"), "organiser" := Str(organiser), "venue" := Str("v"),
        "type" := Str("x"), "status" := Str("s"), "period" := Str("p")]
  }

  /** For a record with strings in all six fields, the chain answers whether the record matches. */
  lemma MatchAnySearchable(t: Record, q: string)
    requires Searchable(t)
    ensures MatchAny(SearchFields(t), q) == Some(Matches(t, q))
  {
    MatchAnyMeaning(SearchFields(t), q);
  }

  /** The search over two records in terms of the two chains. */
  lemma SearchPair(a: Record, b: Record, q: string)
    requires MatchAny(SearchFields(a), q) == Some(true) && MatchAny(SearchFields(b), q) == Some(false)
    ensures Search([a, b], q) == Some([a])
  {
    var keep := SearchTest(q);
    assert [b] == [b] + [];
    FilterCons(b, [], keep);
    assert [a, b] == [a] + [b];
    FilterCons(a, [b], keep);
    assert [a] + [] == [a];
  }

  /** "Fed B" does not contain "fed a", ignoring case. */
  lemma FedBMissesFedA()
    ensures !FieldMatches(Str("Fed B"), "fed a")
  {
    LowerOfLower("fed a");
    assert Lower("Fed B") == "fed b";
    assert "fed b"[4] != "fed a"[4];
    IncludesLonger("fed b"[1..], "fed a");
  }

  /** None of the one-letter fields contains "fed a". */
  lemma ShortFieldsMiss(t: Record)
    requires forall k :: 0 <= k < 6 && k != 1 ==> SearchFields(t)[k].Str? && |SearchFields(t)[k].s| == 1
    ensures forall k :: 0 <= k < 6 && k != 1 ==> !FieldMatches(SearchFields(t)[k], "fed a")
  {
    LowerOfLower("fed a");
    forall k | 0 <= k < 6 && k != 1 ensures !FieldMatches(SearchFields(t)[k], "fed a") {
      IncludesLonger(Lower(SearchFields(t)[k].s), "fed a");
    }
  }

  /** Of two trainings organised by "Fed A" and "Fed B", the query "fed a" keeps only the first. */
  lemma SearchByOrganiser()
    ensures Search([TextTraining(1, "Fed A"), TextTraining(2, "Fed B")], "fed a") == Some([TextTraining(1, "Fed A")])
  {
    var a, b := TextTraining(1, "Fed A"), TextTraining(2, "Fed B");
    var q := "fed a";
    var fa, fb := SearchFields(a), SearchFields(b);
    assert fa == [Str("t"), Str("Fed A"), Str("v"), Str("x"), Str("s"), Str("p")];
    assert fb == [Str("t"), Str("Fed B"), Str("v"), Str("x"), Str("s"), Str("p")];
    LowerOfLower(q);
    assert Lower("Fed A") == "fed a";
    assert "fed a" <= "fed a";
    assert FieldMatches(fa[1], q);
    MatchAnySearchable(a, q);
    ShortFieldsMiss(b);
    FedBMissesFedA();
    MatchAnySearchable(b, q);
    SearchPair(a, b, q);
  }

  /** Deleting `id` 1 from `[{id: 1}, {id: 2}]` leaves `[{id: 2}]`. */
  lemma DeleteScenario()
    ensures RemoveById([map["id" := Num(1)], map["id" := Num(2)]], Num(1)) == [map["id" := Num(2)]]
  {
    var a: Record, b: Record := map["id" := Num(1)], map["id" := Num(2)];
    assert [a, b][1..] == [b];
    assert [b][1..] == [];
  }

  datatype NoticeKind = Success | Error

  /** The page's `message` banner. */
  datatype Notice = Notice(kind: NoticeKind, text: string)

  const LoadFailedText := "Failed to load trainings. Please try again."
  const AddedText := "Training added successfully"
  const AddFailedText := "Failed to add training"

  /** The state of the training page. Modal and dialog open flags are not part of it. */
  class TrainingPage {
    var trainings: seq<Record>
    var filtered: seq<Record>
    var isLoading: bool
    var isSubmitting: bool
    var message: Option<Notice>
    var searchTerm: string
    var currentPage: int
    var itemsPerPage: int
    /** `selectedTraining`: the training being edited, if any. */
    var selected: Option<Record>
    /** `editDataToConfirm`: the submitted edit waiting for confirmation. */
    var pendingEdit: Option<Record>
    /** `trainingToDelete`. */
    var toDelete: Option<Record>

    /** The page number stays at least 1 and the page size positive. */
    ghost predicate Valid()
      reads this
    {
      currentPage >= 1 && itemsPerPage >= 1
    }

    /** The state when the page mounts, before the list has been fetched. */
    constructor ()
      ensures Valid()
      ensures trainings == [] && filtered == [] && isLoading && !isSubmitting && message == None
      ensures searchTerm == "" && currentPage == 1 && itemsPerPage == 10
      ensures selected == None && pendingEdit == None && toDelete == None
    {
      trainings, filtered := [], [];
      isLoading, isSubmitting := true, false;
      message := None;
      searchTerm := "";
      currentPage, itemsPerPage := 1, 10;
      selected, pendingEdit, toDelete := None, None, None;
    }

    /** `currentItems`: the slice of the displayed list on the current page. */
    function CurrentItems(): (r: seq<Record>)
      reads this
      requires Valid()
      ensures |r| <= itemsPerPage
      ensures r == PageItems(filtered, currentPage, itemsPerPage)
    {
      PageItems(filtered, currentPage, itemsPerPage)
    }

    /** `totalPages`. */
    function PageCount(): (r: nat)
      reads this
      requires Valid()
      ensures r * itemsPerPage >= |filtered| && (r == 0 || (r - 1) * itemsPerPage < |filtered|)
    {
      TotalPages(|filtered|, itemsPerPage)
    }

    /** `fetchData`: on success both lists become the response; on failure they stay as they were
        and the error banner is set. Loading ends either way. */
    method Load(reply: Reply<seq<Record>>)
      requires Valid()
      modifies this`isLoading, this`trainings, this`filtered, this`message
      ensures Valid() && !isLoading
      ensures reply.Ok? ==> trainings == reply.data && filtered == reply.data && message == old(message)
      ensures reply.Fail? ==> trainings == old(trainings) && filtered == old(filtered)
                              && message == Some(Notice(Error, LoadFailedText))
    {
      match reply {
        case Ok(data) =>
          trainings := data;
          filtered := data;
        case Fail(_) =>
          message := Some(Notice(Error, LoadFailedText));
      }
      isLoading := false;
    }

    /** `handleAddTraining`: the server's record goes to the end of `trainings`, and the displayed
        list becomes that same full list, so an active search is dropped. */
    method AddTraining(reply: Reply<Record>)
      requires Valid()
      modifies this`isSubmitting, this`trainings, this`filtered, this`message
      ensures Valid() && !isSubmitting
      ensures reply.Ok? ==> trainings == old(trainings) + [reply.data] && filtered == trainings
                            && message == Some(Notice(Success, AddedText))
      ensures reply.Fail? ==> trainings == old(trainings) && filtered == old(filtered)
                              && message == Some(Notice(Error, AddFailedText))
    {
      isSubmitting := true;
      match reply {
        case Ok(data) =>
          trainings := trainings + [data];
          filtered := trainings;
          message := Some(Notice(Success, AddedText));
        case Fail(_) =>
          message := Some(Notice(Error, AddFailedText));
      }
      isSubmitting := false;
    }

    /** The form's `onSubmit`: with a training selected the data waits for confirmation;
        otherwise it is added at once. */
    method SubmitForm(data: Record, addReply: Reply<Record>)
      requires Valid()
      modifies this`pendingEdit, this`isSubmitting, this`trainings, this`filtered, this`message
      ensures Valid()
      ensures old(selected).Some? ==> pendingEdit == Some(data) && trainings == old(trainings) && filtered == old(filtered)
                                      && message == old(message) && isSubmitting == old(isSubmitting)
      ensures old(selected).None? ==> pendingEdit == old(pendingEdit) && !isSubmitting
                                      && (addReply.Ok? ==> trainings == old(trainings) + [addReply.data] && filtered == trainings
                                                           && message == Some(Notice(Success, AddedText)))
                                      && (addReply.Fail? ==> trainings == old(trainings) && filtered == old(filtered)
                                                             && message == Some(Notice(Error, AddFailedText)))
    {
      if selected.Some? {
        pendingEdit := Some(data);
      } else {
        AddTraining(addReply);
      }
    }

    /** The Edit action of a row. */
    method SelectForEdit(t: Record)
      requires Valid()
      modifies this`selected
      ensures Valid() && selected == Some(t)
    {
      selected := Some(t);
    }

    /** Closing the form, which is ignored while a request is in flight. */
    method CloseForm()
      requires Valid()
      modifies this`selected
      ensures Valid()
      ensures selected == if old(isSubmitting) then old(selected) else None
    {
      if !isSubmitting {
        selected := None;
      }
    }

    /** The Delete action of a row. */
    method SelectForDelete(t: Record)
      requires Valid()
      modifies this`toDelete
      ensures Valid() && toDelete == Some(t)
    {
      toDelete := Some(t);
    }

    /** `handleEditConfirm`: every record with the selected `id` takes the reply's fields over its own;
        both lists become the updated full list. Without a selection the handler throws before any
        request and changes nothing but `isSubmitting`. */
    method ConfirmEdit(reply: Reply<Record>)
      requires Valid()
      modifies this`isSubmitting, this`trainings, this`filtered, this`selected, this`pendingEdit
      ensures Valid() && !isSubmitting
      ensures old(selected).Some? && reply.Ok? ==>
                && trainings == UpdateById(old(trainings), Id(old(selected).value), reply.data)
                && filtered == trainings
                && selected == None && pendingEdit == None
      ensures old(selected).None? || reply.Fail? ==>
                trainings == old(trainings) && filtered == old(filtered)
                && selected == old(selected) && pendingEdit == old(pendingEdit)
    {
      isSubmitting := true;
      if selected.Some? && reply.Ok? {
        var updated := UpdateById(trainings, Id(selected.value), reply.data);
        trainings, filtered, selected, pendingEdit := updated, updated, None, None;
      }
      isSubmitting := false;
    }

    /** `handleDeleteConfirm`: every record with the chosen `id` leaves both lists, the rest keep
        their order. Without a chosen record, or on failure, nothing changes but `isSubmitting`. */
    method ConfirmDelete(reply: Reply<Value>)
      requires Valid()
      modifies this`isSubmitting, this`trainings, this`filtered, this`toDelete
      ensures Valid() && !isSubmitting
      ensures old(toDelete).Some? && reply.Ok? ==>
                && trainings == RemoveById(old(trainings), Id(old(toDelete).value))
                && filtered == trainings
                && toDelete == None
      ensures old(toDelete).None? || reply.Fail? ==>
                trainings == old(trainings) && filtered == old(filtered) && toDelete == old(toDelete)
    {
      isSubmitting := true;
      if toDelete.Some? && reply.Ok? {
        trainings := RemoveById(trainings, Id(toDelete.value));
        filtered := trainings;
        toDelete := None;
      }
      isSubmitting := false;
    }

    /** The search box's `onChange`: the term is stored, then `handleSearch` filters the full list
        and goes back to page 1. When the filter throws, the displayed list and page stay. */
    method SearchFor(q: string)
      requires Valid()
      modifies this`searchTerm, this`filtered, this`currentPage
      ensures Valid() && searchTerm == q
      ensures Search(trainings, q).Some? ==> filtered == Search(trainings, q).value && currentPage == 1
      ensures Search(trainings, q).None? ==> filtered == old(filtered) && currentPage == old(currentPage)
    {
      searchTerm := q;
      var result := Search(trainings, q);
      if result.Some? {
        filtered := result.value;
        currentPage := 1;
      }
    }

    /** The Previous button, disabled on page 1. */
    method PrevPage()
      requires Valid()
      modifies this`currentPage
      ensures Valid()
      ensures currentPage == if PrevEnabled(old(currentPage)) then old(currentPage) - 1 else old(currentPage)
    {
      if PrevEnabled(currentPage) {
        currentPage := currentPage - 1;
      }
    }

    /** The Next button, disabled only when the current page equals the page count. */
    method NextPage()
      requires Valid()
      modifies this`currentPage
      ensures Valid()
      ensures currentPage == if NextEnabled(old(currentPage), PageCount()) then old(currentPage) + 1 else old(currentPage)
    {
      if NextEnabled(currentPage, PageCount()) {
        currentPage := currentPage + 1;
      }
    }
  }

  /** An add while a search is active: after loading two trainings and searching for the
      organiser of one, adding a third shows all three again. */
  method AddDropsActiveSearch() returns (shownBefore: nat, shownAfter: nat)
    ensures shownBefore == 1 && shownAfter == 3
  {
    var a, b, c := TextTraining(1, "Fed A"), TextTraining(2, "Fed B"), TextTraining(3, "Fed C");
    var page := new TrainingPage();
    page.Load(Ok([a, b]));
    SearchByOrganiser();
    page.SearchFor("fed a");
    shownBefore := |page.filtered|;
    page.AddTraining(Ok(c));
    shownAfter := |page.filtered|;
  }

  /** With no trainings there are no pages, yet Next is enabled on page 1 and moves to page 2. */
  method NextPastLastPage() returns (pages: nat, current: int)
    ensures pages == 0 && current == 2
  {
    var page := new TrainingPage();
    page.Load(Ok([]));
    pages := page.PageCount();
    page.NextPage();
    current := page.currentPage;
  }
}
