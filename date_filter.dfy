/** The date range filter (src/utils/filters/dateFilter.ts): turns the
    `gt`/`gte`/`lt`/`lte` keys of a date filter into a SQL condition. */
module DateFilters {
  import opened Wrappers
  import opened Text
  import opened Js
  import opened Types

  /** `${value}` inside a template literal: `null` prints as "null". */
  function Interpolate(m: InputMaybe<string>): string
    requires !m.Absent?
  {
    Show(MaybeJs(m, StringJs))
  }

  /** The lower-bound fragment: `gte` is preferred over `gt`. */
  function LowerBound(d: DateFilter): Option<string> {
    if !d.gte.Absent? then Some("date >= '" + Interpolate(d.gte) + "'")
    else if !d.gt.Absent? then Some("date > '" + Interpolate(d.gt) + "'")
    else None
  }

  /** The upper-bound fragment: `lte` is preferred over `lt`. */
  function UpperBound(d: DateFilter): Option<string> {
    if !d.lte.Absent? then Some("date <= '" + Interpolate(d.lte) + "'")
    else if !d.lt.Absent? then Some("date < '" + Interpolate(d.lt) + "'")
    else None
  }

  function OptionToSeq(o: Option<string>): seq<string> {
    if o.Some? then [o.value] else []
  }

  /** The fragments the filter produces, lower bound first. */
  function Fragments(d: DateFilter): (r: seq<string>)
    ensures |r| <= 2
  {
    OptionToSeq(LowerBound(d)) + OptionToSeq(UpperBound(d))
  }

  /** The condition for a filter that is absent or an object: none for an
      absent filter or one without bound keys, else the fragments joined by
      " AND ". */
  function DateCondition(f: InputMaybe<DateFilter>): Option<string>
    requires !f.Null?
  {
    if f.Absent? then None
    else if |Fragments(f.value)| < 1 then None
    else Some(Join(Fragments(f.value), " AND "))
  }

  /** `new DateFilter(f).exec()`. A null filter makes the source fail on
      `'gte' in null`; every caller rules it out first. */
  method Exec(dateFilter: InputMaybe<DateFilter>) returns (r: Option<string>)
    requires !dateFilter.Null?
    ensures r == DateCondition(dateFilter)
  {
    if dateFilter.Absent? {
      return None;
    }
    var d := dateFilter.value;
    var filter: seq<string> := [];
    if !d.gte.Absent? {
      filter := filter + ["date >= '" + Interpolate(d.gte) + "'"];
    } else if !d.gt.Absent? {
      filter := filter + ["date > '" + Interpolate(d.gt) + "'"];
    }
    assert filter == OptionToSeq(LowerBound(d));
    if !d.lte.Absent? {
      filter := filter + ["date <= '" + Interpolate(d.lte) + "'"];
    } else if !d.lt.Absent? {
      filter := filter + ["date < '" + Interpolate(d.lt) + "'"];
    }
    assert filter == Fragments(d);
    if |filter| < 1 {
      r := None;
    } else {
      r := Some(Join(filter, " AND "));
    }
  }

  predicate HasNoBoundKey(d: DateFilter) {
    d.gt.Absent? && d.gte.Absent? && d.lt.Absent? && d.lte.Absent?
  }

  /** No condition exactly when the filter is absent or has none of the four
      keys; a key present with a null value still produces a fragment. */
  lemma DateConditionNoneIff(f: InputMaybe<DateFilter>)
    requires !f.Null?
    ensures DateCondition(f).None? <==> f.Absent? || HasNoBoundKey(f.value)
  {
  }

  /** `gte` shadows `gt` and `lte` shadows `lt`: the shadowed key never
      changes the condition. */
  lemma InclusiveBoundsWin(d: DateFilter, gt': InputMaybe<string>, lt': InputMaybe<string>)
    requires !d.gte.Absent? && !d.lte.Absent?
    ensures DateCondition(Present(d.(gt := gt', lt := lt'))) == DateCondition(Present(d))
    ensures DateCondition(Present(d))
         == Some(("date >= '" + Interpolate(d.gte) + "'") + " AND " + ("date <= '" + Interpolate(d.lte) + "'"))
  {
    var d' := d.(gt := gt', lt := lt');
    assert LowerBound(d') == LowerBound(d) && UpperBound(d') == UpperBound(d);
    assert Fragments(d') == Fragments(d);
    BothBoundsJoined(d);
  }

  /** With both bounds the lower one comes first, joined by " AND ". */
  lemma BothBoundsJoined(d: DateFilter)
    requires LowerBound(d).Some? && UpperBound(d).Some?
    ensures DateCondition(Present(d)) == Some(LowerBound(d).value + " AND " + UpperBound(d).value)
  {
    assert Fragments(d) == [LowerBound(d).value, UpperBound(d).value];
    JoinTwo(LowerBound(d).value, UpperBound(d).value, " AND ");
  }

  /** With one bound the condition is that bound's fragment alone. */
  lemma SingleBoundAlone(d: DateFilter)
    requires LowerBound(d).Some? != UpperBound(d).Some?
    ensures DateCondition(Present(d))
         == if LowerBound(d).Some? then LowerBound(d) else UpperBound(d)
  {
  }

  /** An inclusive lower and a strict upper bound give both fragments. */
  lemma InclusiveFromStrictTo(a: string, b: string)
    ensures DateCondition(Present(DateFilter(Absent, Present(a), Present(b), Absent)))
         == Some(("date >= '" + a + "'") + " AND " + ("date < '" + b + "'"))
  {
    var d := DateFilter(Absent, Present(a), Present(b), Absent);
    BothBoundsJoined(d);
    assert Interpolate(d.gte) == a && Interpolate(d.lt) == b;
  }

  /** `{ gte: '2023-01-01', lt: '2023-02-01' }`. */
  lemma MonthRange()
    ensures DateCondition(Present(DateFilter(Absent, Present("2023-01-01"), Present("2023-02-01"), Absent)))
         == Some(("date >= '" + "2023-01-01" + "'") + " AND " + ("date < '" + "2023-02-01" + "'"))
  {
    InclusiveFromStrictTo("2023-01-01", "2023-02-01");
  }
}
