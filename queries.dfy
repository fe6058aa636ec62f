/** The `page` and `pages` query resolvers (src/resolvers/queries.ts): the
    input checks they collect, and how they combine the database calls into
    a result or a wrapped error. */
module Queries {
  import opened Wrappers
  import opened Text
  import opened Js
  import opened Types
  import opened Errors
  import opened WrappedErrors
  import opened Validation
  import opened Database

  /** A list of validator outcomes, as passed to `validate`. */
  type Checks = seq<Option<FieldError>>

  /** The largest page size `first` and `last` accept. */
  const MaxCount: int := 10000

  function CursorJs(m: InputMaybe<string>): JsValue {
    MaybeJs(m, StringJs)
  }

  function CountJs(m: InputMaybe<int>): JsValue {
    MaybeJs(m, IntJs)
  }

  // ---------------------------------------------------------------------------
  // The checks of `pages`

  /** `after` / `before` when given: not null, and a UUID. */
  function CursorChecks(m: InputMaybe<string>, name: string): Checks {
    if m.Absent? then []
    else [ValidateNotNull(CursorJs(m), name), ValidateUUID(CursorJs(m), name)]
  }

  /** `first` / `last` when given: not null, a number, and within 0..10000. */
  function CountChecks(m: InputMaybe<int>, name: string): Checks {
    if m.Absent? then []
    else [ValidateNotNull(CountJs(m), name), ValidateNumber(CountJs(m), name),
          ValidateInRange(CountJs(m), name, Some(0), Some(MaxCount))]
  }

  /** One entry `[key, value]` of the date filter. */
  function DateEntryChecks(key: string, value: JsValue): Checks {
    [ValidateNotNull(value, "filter.date." + key), ValidateDate(value, "filter.date." + key)]
  }

  /** One entry `[key, value]` of the type filter; the list keys (those ending
      in `in`) must also hold at least one element. */
  function TypeEntryChecks(key: string, value: JsValue): Checks {
    [ValidateNotNull(value, "filter.type." + key)]
    + (if EndsWith(key, "in") then [ValidateLength(value, "filter.type." + key, 1)] else [])
  }

  /** The checks of a run of entries, entry by entry. */
  function EntriesChecks(entries: seq<(string, JsValue)>, check: (string, JsValue) -> Checks): Checks
    decreases |entries|
  {
    if |entries| == 0 then []
    else
      var last := entries[|entries| - 1];
      EntriesChecks(entries[..|entries| - 1], check) + check(last.0, last.1)
  }

  function DateChecks(d: InputMaybe<DateFilter>): Checks {
    if d.Absent? then []
    else [ValidateNotNull(MaybeJs(d, DateFilterJs), "filter.date")]
         + (if d.Present? then EntriesChecks(DateFilterEntries(d.value), DateEntryChecks) else [])
  }

  function TypeChecks(t: InputMaybe<PageTypeEnumFilter>): Checks {
    if t.Absent? then []
    else [ValidateNotNull(MaybeJs(t, TypeFilterJs), "filter.type")]
         + (if t.Present? then EntriesChecks(TypeFilterEntries(t.value), TypeEntryChecks) else [])
  }

  /** The filter when given: not null, then its date and type parts. A null
      filter is reported as such and its parts are not looked at. */
  function FilterChecks(filter: InputMaybe<PageFilterInput>): Checks {
    match filter
    case Absent => []
    case Null => [ValidateNotNull(JsNull, "filter")]
    case Present(f) =>
      [ValidateNotNull(PageFilterJs(f), "filter")] + DateChecks(f.date) + TypeChecks(f.typeFilter)
  }

  function SortChecks(sort: InputMaybe<PageSortInput>): Checks {
    if sort.Absent? then [] else [ValidateNotNull(MaybeJs(sort, PageSortJs), "sort")]
  }

  /** Everything `pages` hands to `validate`, in the order it pushes it. */
  function PagesChecks(args: QueryPagesArgs): Checks {
    CursorChecks(args.after, "after") + CursorChecks(args.before, "before")
    + CountChecks(args.first, "first") + CountChecks(args.last, "last")
    + FilterChecks(args.filter) + SortChecks(args.sort)
  }

  /** The loop over the entries of a date filter. */
  method CollectDateEntryChecks(d: DateFilter) returns (validations: Checks)
    ensures validations == EntriesChecks(DateFilterEntries(d), DateEntryChecks)
  {
    var entries := DateFilterEntries(d);
    validations := [];
    for i := 0 to |entries|
      invariant validations == EntriesChecks(entries[..i], DateEntryChecks)
    {
      var key, value := entries[i].0, entries[i].1;
      validations := validations + [ValidateNotNull(value, "filter.date." + key),
                                    ValidateDate(value, "filter.date." + key)];
      EntriesChecksSnoc(entries, i, DateEntryChecks);
    }
    assert entries[..|entries|] == entries;
  }

  /** One more entry adds its own checks at the end. */
  lemma EntriesChecksSnoc(entries: seq<(string, JsValue)>, i: nat, check: (string, JsValue) -> Checks)
    requires i < |entries|
    ensures EntriesChecks(entries[..i + 1], check) == EntriesChecks(entries[..i], check) + check(entries[i].0, entries[i].1)
  {
    assert entries[..i + 1][..i] == entries[..i];
  }

  /** The loop over the entries of a type filter. */
  method CollectTypeEntryChecks(t: PageTypeEnumFilter) returns (validations: Checks)
    ensures validations == EntriesChecks(TypeFilterEntries(t), TypeEntryChecks)
  {
    var entries := TypeFilterEntries(t);
    validations := [];
    for i := 0 to |entries|
      invariant validations == EntriesChecks(entries[..i], TypeEntryChecks)
    {
      var key, value := entries[i].0, entries[i].1;
      ghost var before := validations;
      validations := validations + [ValidateNotNull(value, "filter.type." + key)];
      if EndsWith(key, "in") {
        validations := validations + [ValidateLength(value, "filter.type." + key, 1)];
      }
      assert validations == before + TypeEntryChecks(key, value);
      EntriesChecksSnoc(entries, i, TypeEntryChecks);
    }
    assert entries[..|entries|] == entries;
  }

  /** The checks of `filter.date`: its null check, then its entries. */
  method CollectDateChecks(d: InputMaybe<DateFilter>) returns (validations: Checks)
    ensures validations == DateChecks(d)
  {
    if d.Absent? {
      return [];
    }
    var head := ValidateNotNull(MaybeJs(d, DateFilterJs), "filter.date");
    validations := [head];
    if d.Present? {
      var entries := CollectDateEntryChecks(d.value);
      validations := validations + entries;
    }
  }

  /** The checks of `filter.type`: its null check, then its entries. */
  method CollectTypeChecks(t: InputMaybe<PageTypeEnumFilter>) returns (validations: Checks)
    ensures validations == TypeChecks(t)
  {
    if t.Absent? {
      return [];
    }
    var head := ValidateNotNull(MaybeJs(t, TypeFilterJs), "filter.type");
    validations := [head];
    if t.Present? {
      var entries := CollectTypeEntryChecks(t.value);
      validations := validations + entries;
    }
  }

  /** The checks of the filter: its null check, then the date and type parts
      of a filter that is not null. */
  method CollectFilterChecks(filter: InputMaybe<PageFilterInput>) returns (validations: Checks)
    ensures validations == FilterChecks(filter)
  {
    validations := [];
    if filter.Absent? {
      return;
    }
    validations := [ValidateNotNull(MaybeJs(filter, PageFilterJs), "filter")];
    if filter.Null? {
      return;
    }
    var dateChecks := CollectDateChecks(filter.value.date);
    validations := validations + dateChecks;
    var typeChecks := CollectTypeChecks(filter.value.typeFilter);
    validations := validations + typeChecks;
  }

  /** The same list, built by pushing onto an array as `pages` does. */
  method CollectPagesChecks(args: QueryPagesArgs) returns (validations: Checks)
    ensures validations == PagesChecks(args)
  {
    validations := [];
    if !args.after.Absent? {
      validations := validations + [ValidateNotNull(CursorJs(args.after), "after"),
                                    ValidateUUID(CursorJs(args.after), "after")];
    }
    assert validations == CursorChecks(args.after, "after");
    ghost var done := validations;
    if !args.before.Absent? {
      validations := validations + [ValidateNotNull(CursorJs(args.before), "before"),
                                    ValidateUUID(CursorJs(args.before), "before")];
    }
    assert validations == done + CursorChecks(args.before, "before");
    done := validations;
    if !args.first.Absent? {
      validations := validations + [ValidateNotNull(CountJs(args.first), "first"),
                                    ValidateNumber(CountJs(args.first), "first"),
                                    ValidateInRange(CountJs(args.first), "first", Some(0), Some(MaxCount))];
    }
    assert validations == done + CountChecks(args.first, "first");
    done := validations;
    if !args.last.Absent? {
      validations := validations + [ValidateNotNull(CountJs(args.last), "last"),
                                    ValidateNumber(CountJs(args.last), "last"),
                                    ValidateInRange(CountJs(args.last), "last", Some(0), Some(MaxCount))];
    }
    assert validations == done + CountChecks(args.last, "last");
    var filterChecks := CollectFilterChecks(args.filter);
    validations := validations + filterChecks;
    done := validations;
    if !args.sort.Absent? {
      validations := validations + [ValidateNotNull(MaybeJs(args.sort, PageSortJs), "sort")];
    }
    assert validations == done + SortChecks(args.sort);
  }

  // ---------------------------------------------------------------------------
  // What passing the checks means

  predicate CursorValid(m: InputMaybe<string>) {
    m.Absent? || (m.Present? && IsUUID(m.value))
  }

  predicate CountValid(m: InputMaybe<int>) {
    m.Absent? || (m.Present? && 0 <= m.value <= MaxCount)
  }

  predicate BoundValid(m: InputMaybe<string>) {
    m.Absent? || (m.Present? && IsDate(m.value))
  }

  predicate DateFilterValid(d: DateFilter) {
    BoundValid(d.gt) && BoundValid(d.gte) && BoundValid(d.lt) && BoundValid(d.lte)
  }

  predicate ListValid(m: InputMaybe<seq<PageType>>) {
    m.Absent? || (m.Present? && |m.value| >= 1)
  }

  predicate TypeFilterValid(t: PageTypeEnumFilter) {
    !t.eq.Null? && !t.ne.Null? && ListValid(t.in_) && ListValid(t.nin)
  }

  predicate FilterValid(filter: InputMaybe<PageFilterInput>) {
    match filter
    case Absent => true
    case Null => false
    case Present(f) =>
      (f.date.Absent? || (f.date.Present? && DateFilterValid(f.date.value)))
      && (f.typeFilter.Absent? || (f.typeFilter.Present? && TypeFilterValid(f.typeFilter.value)))
  }

  /** The arguments `pages` accepts: cursors are UUIDs, page sizes lie in
      0..10000, date bounds are calendar dates, type lists are non-empty,
      and nothing given is null. */
  predicate ArgsValid(args: QueryPagesArgs) {
    CursorValid(args.after) && CursorValid(args.before)
    && CountValid(args.first) && CountValid(args.last)
    && FilterValid(args.filter) && !args.sort.Null?
  }

  lemma {:induction false} EntriesChecksAppend(a: seq<(string, JsValue)>, b: seq<(string, JsValue)>,
                                               check: (string, JsValue) -> Checks)
    ensures EntriesChecks(a + b, check) == EntriesChecks(a, check) + EntriesChecks(b, check)
    decreases |b|
  {
    if |b| == 0 {
      assert a + b == a;
    } else {
      var init := b[..|b| - 1];
      assert (a + b)[..|a + b| - 1] == a + init;
      assert (a + b)[|a + b| - 1] == b[|b| - 1];
      EntriesChecksAppend(a, init, check);
    }
  }

  /** The checks of a single entry are that entry's checks. */
  lemma EntriesChecksOne(key: string, value: JsValue, check: (string, JsValue) -> Checks)
    ensures EntriesChecks([(key, value)], check) == check(key, value)
  {
    assert [(key, value)][..0] == [];
  }

  lemma CursorChecksPass(m: InputMaybe<string>, name: string)
    ensures AllValid(CursorChecks(m, name)) <==> CursorValid(m)
  {
    var checks := CursorChecks(m, name);
    if m.Null? {
      OneFailureFails(checks, 0);
    } else if m.Present? {
      assert checks == [None, ValidateUUID(JsString(m.value), name)];
      assert checks[1].None? <==> IsUUID(m.value);
    }
  }

  lemma CountChecksPass(m: InputMaybe<int>, name: string)
    ensures AllValid(CountChecks(m, name)) <==> CountValid(m)
  {
    var checks := CountChecks(m, name);
    if m.Null? {
      OneFailureFails(checks, 0);
    } else if m.Present? {
      assert checks == [None, None, ValidateInRange(JsNumber(m.value), name, Some(0), Some(MaxCount))];
      assert checks[2].None? <==> 0 <= m.value <= MaxCount;
    }
  }

  lemma BoundChecksPass(key: string, m: InputMaybe<string>)
    ensures AllValid(EntriesChecks(Entry(key, m, StringJs), DateEntryChecks)) <==> BoundValid(m)
  {
    if !m.Absent? {
      var v := MaybeJs(m, StringJs);
      EntriesChecksOne(key, v, DateEntryChecks);
      var checks := DateEntryChecks(key, v);
      assert EntriesChecks(Entry(key, m, StringJs), DateEntryChecks) == checks;
      if m.Null? {
        OneFailureFails(checks, 0);
      } else {
        assert checks == [None, ValidateDate(JsString(m.value), "filter.date." + key)];
        assert checks[1].None? <==> IsDate(m.value);
      }
    }
  }

  lemma DateEntriesPass(d: DateFilter)
    ensures AllValid(EntriesChecks(DateFilterEntries(d), DateEntryChecks)) <==> DateFilterValid(d)
  {
    var e1, e2, e3, e4 := Entry("gt", d.gt, StringJs), Entry("gte", d.gte, StringJs),
                          Entry("lt", d.lt, StringJs), Entry("lte", d.lte, StringJs);
    EntriesChecksAppend(e1 + e2 + e3, e4, DateEntryChecks);
    EntriesChecksAppend(e1 + e2, e3, DateEntryChecks);
    EntriesChecksAppend(e1, e2, DateEntryChecks);
    var c1, c2, c3, c4 := EntriesChecks(e1, DateEntryChecks), EntriesChecks(e2, DateEntryChecks),
                          EntriesChecks(e3, DateEntryChecks), EntriesChecks(e4, DateEntryChecks);
    AllValidAppend(c1 + c2 + c3, c4);
    AllValidAppend(c1 + c2, c3);
    AllValidAppend(c1, c2);
    BoundChecksPass("gt", d.gt);
    BoundChecksPass("gte", d.gte);
    BoundChecksPass("lt", d.lt);
    BoundChecksPass("lte", d.lte);
  }

  /** A single type constant: only its null check applies. */
  lemma ScalarTypeChecksPass(key: string, m: InputMaybe<PageType>)
    requires !EndsWith(key, "in")
    ensures AllValid(EntriesChecks(Entry(key, m, PageTypeJs), TypeEntryChecks)) <==> !m.Null?
  {
    if !m.Absent? {
      var v := MaybeJs(m, PageTypeJs);
      EntriesChecksOne(key, v, TypeEntryChecks);
      var checks := TypeEntryChecks(key, v);
      assert EntriesChecks(Entry(key, m, PageTypeJs), TypeEntryChecks) == checks;
      assert checks == [ValidateNotNull(v, "filter.type." + key)];
      if m.Null? {
        OneFailureFails(checks, 0);
      }
    }
  }

  /** A list of types: its null check and its length check apply. */
  lemma ListTypeChecksPass(key: string, m: InputMaybe<seq<PageType>>)
    requires EndsWith(key, "in")
    ensures AllValid(EntriesChecks(Entry(key, m, PageTypesJs), TypeEntryChecks)) <==> ListValid(m)
  {
    if !m.Absent? {
      var v := MaybeJs(m, PageTypesJs);
      EntriesChecksOne(key, v, TypeEntryChecks);
      var checks := TypeEntryChecks(key, v);
      assert EntriesChecks(Entry(key, m, PageTypesJs), TypeEntryChecks) == checks;
      assert checks == [ValidateNotNull(v, "filter.type." + key), ValidateLength(v, "filter.type." + key, 1)];
      if m.Null? {
        OneFailureFails(checks, 0);
      } else {
        assert LengthOf(v) == Some(|m.value|);
        assert checks[0].None?;
        assert checks[1].None? <==> |m.value| >= 1;
      }
    }
  }

  lemma TypeEntriesPass(t: PageTypeEnumFilter)
    ensures AllValid(EntriesChecks(TypeFilterEntries(t), TypeEntryChecks)) <==> TypeFilterValid(t)
  {
    var e1, e2, e3, e4 := Entry("eq", t.eq, PageTypeJs), Entry("in", t.in_, PageTypesJs),
                          Entry("ne", t.ne, PageTypeJs), Entry("nin", t.nin, PageTypesJs);
    EntriesChecksAppend(e1 + e2 + e3, e4, TypeEntryChecks);
    EntriesChecksAppend(e1 + e2, e3, TypeEntryChecks);
    EntriesChecksAppend(e1, e2, TypeEntryChecks);
    var c1, c2, c3, c4 := EntriesChecks(e1, TypeEntryChecks), EntriesChecks(e2, TypeEntryChecks),
                          EntriesChecks(e3, TypeEntryChecks), EntriesChecks(e4, TypeEntryChecks);
    AllValidAppend(c1 + c2 + c3, c4);
    AllValidAppend(c1 + c2, c3);
    AllValidAppend(c1, c2);
    assert "eq"[0] != "in"[0] && "ne"[0] != "in"[0];
    assert "nin"[1..] == "in";
    ScalarTypeChecksPass("eq", t.eq);
    ListTypeChecksPass("in", t.in_);
    ScalarTypeChecksPass("ne", t.ne);
    ListTypeChecksPass("nin", t.nin);
  }

  lemma DateChecksPass(d: InputMaybe<DateFilter>)
    ensures AllValid(DateChecks(d)) <==> d.Absent? || (d.Present? && DateFilterValid(d.value))
  {
    if !d.Absent? {
      var head: Checks := [ValidateNotNull(MaybeJs(d, DateFilterJs), "filter.date")];
      if d.Null? {
        assert DateChecks(d) == head + [];
        OneFailureFails(DateChecks(d), 0);
      } else {
        AllValidAppend(head, EntriesChecks(DateFilterEntries(d.value), DateEntryChecks));
        DateEntriesPass(d.value);
      }
    }
  }

  lemma TypeChecksPass(t: InputMaybe<PageTypeEnumFilter>)
    ensures AllValid(TypeChecks(t)) <==> t.Absent? || (t.Present? && TypeFilterValid(t.value))
  {
    if !t.Absent? {
      var head: Checks := [ValidateNotNull(MaybeJs(t, TypeFilterJs), "filter.type")];
      if t.Null? {
        assert TypeChecks(t) == head + [];
        OneFailureFails(TypeChecks(t), 0);
      } else {
        AllValidAppend(head, EntriesChecks(TypeFilterEntries(t.value), TypeEntryChecks));
        TypeEntriesPass(t.value);
      }
    }
  }

  lemma FilterChecksPass(filter: InputMaybe<PageFilterInput>)
    ensures AllValid(FilterChecks(filter)) <==> FilterValid(filter)
  {
    match filter
    case Absent =>
    case Null =>
      OneFailureFails(FilterChecks(filter), 0);
    case Present(f) =>
      var head: Checks := [ValidateNotNull(PageFilterJs(f), "filter")];
      AllValidAppend(head + DateChecks(f.date), TypeChecks(f.typeFilter));
      AllValidAppend(head, DateChecks(f.date));
      DateChecksPass(f.date);
      TypeChecksPass(f.typeFilter);
  }

  /** `validate` lets `pages` go on exactly for the arguments it accepts. */
  lemma PagesChecksPassIff(args: QueryPagesArgs)
    ensures AllValid(PagesChecks(args)) <==> ArgsValid(args)
  {
    var a, b := CursorChecks(args.after, "after"), CursorChecks(args.before, "before");
    var c, d := CountChecks(args.first, "first"), CountChecks(args.last, "last");
    var e, f := FilterChecks(args.filter), SortChecks(args.sort);
    AllValidAppend(a + b + c + d + e, f);
    AllValidAppend(a + b + c + d, e);
    AllValidAppend(a + b + c, d);
    AllValidAppend(a + b, c);
    AllValidAppend(a, b);
    CursorChecksPass(args.after, "after");
    CursorChecksPass(args.before, "before");
    CountChecksPass(args.first, "first");
    CountChecksPass(args.last, "last");
    FilterChecksPass(args.filter);
    if args.sort.Null? {
      assert f[0].Some?;
    }
  }

  /** Accepted arguments never reach the query builder with a null part it
      would dereference. */
  lemma ValidArgsRenderable(args: QueryPagesArgs)
    requires ArgsValid(args)
    ensures OptionsRenderable(args.filter)
  {
  }

  // ---------------------------------------------------------------------------
  // A null filter

  /** `queryPagesArgs.filter.date` on a null filter. */
  const NullFilterRead: Error := Other("TypeError", "Cannot read properties of null (reading 'date')")

  /** The checks as the source collects them: after pushing the null check
      of `filter` it reads `filter.date` whatever the filter is, so a null
      filter throws a `TypeError` instead of reaching `validate`. */
  function PagesChecksAsWritten(args: QueryPagesArgs): (r: Result<Checks, Error>)
    ensures r.Failure? <==> args.filter.Null?
    ensures r.Success? ==> r.value == PagesChecks(args)
  {
    if args.filter.Null? then Failure(NullFilterRead) else Success(PagesChecks(args))
  }

  /** As written, `pages(filter: null)` answers with a wrapped `TypeError`
      that none of the error object types recognises. */
  lemma NullFilterUnrecognisedAsWritten(args: QueryPagesArgs)
    requires args.filter.Null?
    ensures PagesChecksAsWritten(args).Failure?
    ensures forall c :: !IsWrappedError(c, Wrap<Pages>(PagesChecksAsWritten(args).error))
  {
    WrappedErrorDispatch<Pages>(NullFilterRead);
  }

  /** With the null filter guarded, `pages(filter: null)` is an invalid input
      that names `filter`. */
  lemma NullFilterReported(args: QueryPagesArgs)
    requires args.filter.Null?
    ensures Validate(PagesChecks(args)).Fail?
    ensures IsWrappedError(InvalidInputError, Wrap<Pages>(Validate(PagesChecks(args)).error))
    ensures FieldError("filter", "null is not a valid value") in Validate(PagesChecks(args)).error.validations
  {
    PagesChecksPassIff(args);
    var a := CursorChecks(args.after, "after") + CursorChecks(args.before, "before")
             + CountChecks(args.first, "first") + CountChecks(args.last, "last");
    var e := FilterChecks(args.filter);
    var f := SortChecks(args.sort);
    assert e == [Some(FieldError("filter", "null is not a valid value"))];
    FailuresAppend(a + e, f);
    FailuresAppend(a, e);
  }

  // ---------------------------------------------------------------------------
  // The resolvers

  /** The edges of a page list: each page with its own id as the cursor. */
  function Edges(pages: seq<Page>): (r: seq<PageEdge>)
    ensures |r| == |pages|
    ensures forall i :: 0 <= i < |r| ==> r[i].node == pages[i] && r[i].cursor == r[i].node.id
  {
    seq(|pages|, i requires 0 <= i < |pages| => PageEdge(pages[i].id, pages[i]))
  }

  /** The cursor whose page must exist: `after` if given, else `before`. */
  function CursorToCheck(args: QueryPagesArgs): Option<string> {
    if args.after.Present? then Some(args.after.value)
    else if args.before.Present? then Some(args.before.value)
    else None
  }

  /** The `InvalidInputError` of an input with one bad field. */
  function OneFieldError(field: FieldError): Error {
    NewInvalidInputError("Input validation failed for fields: [" + field.field + "]", [field])
  }

  /** The error of an `id` that is no UUID. */
  function BadIdError(id: string): Error {
    OneFieldError(FieldError("id", id + " is not a valid UUID"))
  }

  /** `page(id)`: the stored page, or a wrapped error. */
  method ResolvePage(db: Database, id: string, link: Link) returns (r: ResultOrError<Page>)
    requires db.Valid()
    modifies db
    ensures db.Valid() && (r.Value? ==> r.value.id == id)
    ensures db.table == old(db.table)
    ensures !IsUUID(id) ==> r == Wrap(BadIdError(id)) && db.log == old(db.log)
    ensures IsUUID(id) ==> db.log == old(db.log) + QueryEvents(SelectById(id), link)
    ensures IsUUID(id) && link == Up && id in db.table ==> r == Value(db.table[id])
    ensures IsUUID(id) && link == Up && id !in db.table ==> r == Wrap(NewNotFoundError(NotFoundMessage(id)))
    ensures IsUUID(id) && link != Up ==> r == Wrap(NewUnknownError(QueryFailedMessage))
  {
    var checks := [ValidateUUID(JsString(id), "id")];
    var outcome := Validate(checks);
    if outcome.Fail? {
      ValidateOneFailure(checks, FieldError("id", id + " is not a valid UUID"));
      return Wrap(outcome.error);
    }
    var page := db.GetPage(id, link);
    if page.Failure? {
      return Wrap(page.error);
    }
    r := Value(page.value);
  }

  /** The database traffic of the existence check. */
  function ExistenceEvents(args: QueryPagesArgs, link: Link): seq<Event> {
    var cursor := CursorToCheck(args);
    if cursor.Some? then QueryEvents(SelectById(cursor.value), link) else []
  }

  /** The `validate` call of `pages`: it passes exactly for accepted
      arguments. */
  method ValidatePagesArgs(args: QueryPagesArgs) returns (outcome: Outcome<Error>)
    ensures outcome == Validate(PagesChecks(args))
    ensures outcome.Pass? <==> ArgsValid(args)
  {
    var validations := CollectPagesChecks(args);
    outcome := Validate(validations);
    PagesChecksPassIff(args);
  }

  /** `pages`' check that the page of the cursor exists: `after` if given,
      else `before`, else nothing to check. */
  method CheckCursor(db: Database, args: QueryPagesArgs, link: Link) returns (r: Outcome<Error>)
    requires db.Valid() && ArgsValid(args)
    modifies db
    ensures db.Valid()
    ensures db.table == old(db.table)
    ensures db.log == old(db.log) + ExistenceEvents(args, link)
    ensures var cursor := CursorToCheck(args);
      r == if cursor.None? then Pass
           else if link != Up then Fail(NewUnknownError(QueryFailedMessage))
           else if cursor.value !in db.table then Fail(NewNotFoundError(NotFoundMessage(cursor.value)))
           else Pass
  {
    if !args.after.Absent? {
      var found := db.GetPage(args.after.value, link);
      if found.Failure? {
        return Fail(found.error);
      }
    } else if !args.before.Absent? {
      var found := db.GetPage(args.before.value, link);
      if found.Failure? {
        return Fail(found.error);
      }
    }
    r := Pass;
  }

  /** The database traffic of the read: `getPages`, then `getPageInfo`
      unless `getPages` failed. */
  function FetchEvents(args: QueryPagesArgs, pagesLink: Link, infoLink: Link): seq<Event>
    requires ArgsValid(args)
  {
    QueryEvents(PaginationSelect(ParamsOf(args)), pagesLink)
    + (if pagesLink == Up then QueryEvents(PaginationInfo(ParamsOf(args)), infoLink) else [])
  }

  /** The database traffic of `pages` once its arguments are accepted: the
      existence check, then the read unless the check failed. */
  function AcceptedPagesEvents(table: map<string, Page>, args: QueryPagesArgs, checkLink: Link,
                               pagesLink: Link, infoLink: Link): seq<Event>
    requires ArgsValid(args)
  {
    var cursor := CursorToCheck(args);
    ExistenceEvents(args, checkLink)
    + (if cursor.Some? && (checkLink != Up || cursor.value !in table) then []
       else FetchEvents(args, pagesLink, infoLink))
  }

  /** The read of `pages` once its input is accepted: the window of pages
      as edges, and its page info. */
  method FetchPages(db: Database, args: QueryPagesArgs, pagesLink: Link, infoLink: Link)
    returns (r: Result<Pages, Error>)
    requires db.Valid() && ArgsValid(args)
    modifies db
    ensures db.Valid()
    ensures db.table == old(db.table)
    ensures var params := ParamsOf(args);
      var infos := db.server.paginationInfo(db.table, params);
      if pagesLink != Up || infoLink != Up then
        r == Failure(NewUnknownError(QueryFailedMessage))
      else if |infos| == 0 || infos[0].None? then
        r == Failure(NewUnknownError("Could not get page info"))
      else
        r == Success(Pages(Edges(db.server.paginate(db.table, params)), infos[0].value))
    ensures db.log == old(db.log) + FetchEvents(args, pagesLink, infoLink)
  {
    var pageArr := db.GetPages(args, pagesLink);
    if pageArr.Failure? {
      return Failure(pageArr.error);
    }
    var edges := Edges(if |pageArr.value| > 0 then pageArr.value else []);
    var pageInfo := db.GetPageInfo(args, infoLink);
    ConcatAssoc(old(db.log), QueryEvents(PaginationSelect(ParamsOf(args)), pagesLink),
                QueryEvents(PaginationInfo(ParamsOf(args)), infoLink));
    if pageInfo.Failure? {
      return Failure(pageInfo.error);
    }
    r := Success(Pages(edges, pageInfo.value));
  }

  /** What `pages` answers once its arguments are accepted: the result of
      the existence check, then of the read. */
  ghost predicate AcceptedPagesAnswer(db: Database, args: QueryPagesArgs, checkLink: Link, pagesLink: Link,
                                      infoLink: Link, r: ResultOrError<Pages>)
    requires ArgsValid(args)
    reads db
  {
    var cursor := CursorToCheck(args);
    var params := ParamsOf(args);
    var infos := db.server.paginationInfo(db.table, params);
    if cursor.Some? && checkLink != Up then
      r == Wrap(NewUnknownError(QueryFailedMessage))
    else if cursor.Some? && cursor.value !in db.table then
      r == Wrap(NewNotFoundError(NotFoundMessage(cursor.value)))
    else if pagesLink != Up || infoLink != Up then
      r == Wrap(NewUnknownError(QueryFailedMessage))
    else if |infos| == 0 || infos[0].None? then
      r == Wrap(NewUnknownError("Could not get page info"))
    else
      r == Value(Pages(Edges(db.server.paginate(db.table, params)), infos[0].value))
  }

  /** The part of `pages` after `validate`: the existence check and the read. */
  method ResolveAcceptedPages(db: Database, args: QueryPagesArgs, checkLink: Link, pagesLink: Link,
                              infoLink: Link)
    returns (r: ResultOrError<Pages>)
    requires db.Valid() && ArgsValid(args)
    modifies db
    ensures db.Valid()
    ensures db.table == old(db.table)
    ensures AcceptedPagesAnswer(db, args, checkLink, pagesLink, infoLink, r)
    ensures db.log == old(db.log) + AcceptedPagesEvents(db.table, args, checkLink, pagesLink, infoLink)
  {
    ghost var existence := ExistenceEvents(args, checkLink);
    ghost var fetch := FetchEvents(args, pagesLink, infoLink);
    var cursorCheck := CheckCursor(db, args, checkLink);
    if cursorCheck.Fail? {
      assert AcceptedPagesEvents(db.table, args, checkLink, pagesLink, infoLink) == existence + [];
      return Wrap(cursorCheck.error);
    }
    assert AcceptedPagesEvents(db.table, args, checkLink, pagesLink, infoLink) == existence + fetch;
    var pages := FetchPages(db, args, pagesLink, infoLink);
    ConcatAssoc(old(db.log), existence, fetch);
    if pages.Failure? {
      return Wrap(pages.error);
    }
    r := Value(pages.value);
  }

  /** `pages(args)`: validates everything, checks that the cursor page exists,
      then reads the window and its page info; any failure is wrapped. */
  method ResolvePages(db: Database, args: QueryPagesArgs, checkLink: Link, pagesLink: Link,
                      infoLink: Link)
    returns (r: ResultOrError<Pages>)
    requires db.Valid()
    modifies db
    ensures db.Valid()
    ensures db.table == old(db.table)
    ensures !ArgsValid(args) ==>
              Validate(PagesChecks(args)).Fail? && r == Wrap(Validate(PagesChecks(args)).error)
              && db.log == old(db.log)
    ensures ArgsValid(args) ==> AcceptedPagesAnswer(db, args, checkLink, pagesLink, infoLink, r)
    ensures ArgsValid(args) ==>
      db.log == old(db.log) + AcceptedPagesEvents(db.table, args, checkLink, pagesLink, infoLink)
  {
    var outcome := ValidatePagesArgs(args);
    if outcome.Fail? {
      return Wrap(outcome.error);
    }
    r := ResolveAcceptedPages(db, args, checkLink, pagesLink, infoLink);
  }

  // ---------------------------------------------------------------------------
  // A rejected request

  lemma NullBeforeChecks()
    ensures CursorChecks(Null, "before")
         == [Some(FieldError("before", "null is not a valid value")), Some(FieldError("before", "null is not a valid UUID"))]
  {
    assert !IsUUID("null") by {
      assert UUIDStart("null") == 0 && UUIDEnd("null") == 4;
    }
    assert "null" + " is not a valid UUID" == "null is not a valid UUID";
  }

  /** A page size below 0 is reported against the lower bound only: the
      bound 0 is falsy. */
  lemma PageSizeRangeMessage()
    ensures RangeMessage(Some(0), Some(MaxCount)) == "should be greater than or equal 0"
  {
    assert IntToString(0) == "0";
  }

  lemma NegativeLastChecks()
    ensures CountChecks(Present(-1), "last") == [None, None, Some(FieldError("last", "-1" + " " + "should be greater than or equal 0"))]
  {
    var v := JsNumber(-1);
    PageSizeRangeMessage();
    assert Show(v) == "-1";
    assert ValidateNotNull(v, "last") == None;
    assert ValidateNumber(v, "last") == None;
    assert !IsInRange(0, MaxCount, v);
  }

  /** Two failures, two passes and a failure leave the three failures. */
  lemma FailuresTwoPassOne(x: FieldError, y: FieldError, z: FieldError)
    ensures Failures([Some(x), Some(y)] + ([None, None] + [Some(z)])) == [x, y, z]
  {
    FailuresAppend([Some(x), Some(y)], [None, None] + [Some(z)]);
    FailuresAppend([None, None], [Some(z)]);
    FailuresAppend([Some(x), Some(y)], [Some(z)]);
    FailuresOfThree(x, y, z);
    assert [Some(x), Some(y), Some(z)] == [Some(x), Some(y)] + [Some(z)];
  }

  /** The failing entries of `pages(before: null, last: -1)`, in order. */
  lemma NullBeforeNegativeLastFailures()
    ensures Failures(PagesChecks(QueryPagesArgs(Absent, Null, Absent, Present(-1), Absent, Absent)))
         == [FieldError("before", "null is not a valid value"),
             FieldError("before", "null is not a valid UUID"),
             FieldError("last", "-1" + " " + "should be greater than or equal 0")]
  {
    var args := QueryPagesArgs(Absent, Null, Absent, Present(-1), Absent, Absent);
    var before := CursorChecks(Null, "before");
    var last := CountChecks(Present(-1), "last");
    NullBeforeChecks();
    NegativeLastChecks();
    assert PagesChecks(args) == [] + before + [] + last + [] + [];
    assert PagesChecks(args) == [before[0], before[1]] + ([last[0], last[1]] + [last[2]]);
    FailuresTwoPassOne(before[0].value, before[1].value, last[2].value);
  }

  /** `pages(before: null, last: -1)`: `before` fails both of its checks and
      `last` fails its range; the error carries the three entries in order,
      and its message names the field of each, `before` twice. */
  lemma NullBeforeNegativeLast()
    ensures var args := QueryPagesArgs(Absent, Null, Absent, Present(-1), Absent, Absent);
      var outcome := Validate(PagesChecks(args));
      && outcome.Fail?
      && outcome.error.validations == [FieldError("before", "null is not a valid value"),
                                       FieldError("before", "null is not a valid UUID"),
                                       FieldError("last", "-1" + " " + "should be greater than or equal 0")]
      && outcome.error.message
         == "Input validation failed for fields: [" + "before" + ", " + "before" + ", " + "last" + "]"
  {
    var x := FieldError("before", "null is not a valid value");
    var y := FieldError("before", "null is not a valid UUID");
    var z := FieldError("last", "-1" + " " + "should be greater than or equal 0");
    NullBeforeNegativeLastFailures();
    FailuresEmptyIff(PagesChecks(QueryPagesArgs(Absent, Null, Absent, Present(-1), Absent, Absent)));
    ValidationMessageOfThree(x, y, z);
  }
}
