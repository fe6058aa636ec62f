/** The data access layer (src/providers/database.ts): the SQL statements the
    API sends for each operation, the per-query connection lifecycle, and how
    rows are turned into pages or domain errors. The PostgreSQL server is
    modelled by `Execute` over a `pages` table; the server-side pagination
    functions are parameters of the model. */
module Database {
  import opened Wrappers
  import opened Text
  import opened Types
  import opened Errors
  import DateFilters
  import TypeEnumFilters

  // ---------------------------------------------------------------------------
  // buildSort

  /** The column a sort field names: the enum value in lower case. */
  function ColumnOf(field: SortField): string {
    ToLower(SortFieldName(field))
  }

  /** `buildSort`: the column, a space, then `ASC` or `DESC`. */
  function BuildSort(sort: PageSortInput): string {
    ColumnOf(sort.field) + " " + SortOrderName(sort.order)
  }

  function FieldOfColumn(column: string): Option<SortField> {
    if column == "date" then Some(DATE)
    else if column == "file" then Some(FILE)
    else if column == "site" then Some(SITE)
    else if column == "type" then Some(TYPE)
    else None
  }

  function OrderOfName(name: string): Option<SortOrder> {
    if name == "ASC" then Some(ASC) else if name == "DESC" then Some(DESC) else None
  }

  /** Reads a sort clause back: a four-letter column, a space and an order. */
  function ParseSort(s: string): Option<PageSortInput> {
    if |s| < 5 || s[4] != ' ' then None
    else
      var field, order := FieldOfColumn(s[..4]), OrderOfName(s[5..]);
      if field.Some? && order.Some? then Some(PageSortInput(field.value, order.value)) else None
  }

  lemma ColumnNames()
    ensures ColumnOf(DATE) == "date" && ColumnOf(FILE) == "file"
    ensures ColumnOf(SITE) == "site" && ColumnOf(TYPE) == "type"
  {
  }

  lemma ColumnReadsBack(f: SortField)
    ensures |ColumnOf(f)| == 4 && FieldOfColumn(ColumnOf(f)) == Some(f)
  {
    ColumnNames();
  }

  lemma OrderReadsBack(o: SortOrder)
    ensures OrderOfName(SortOrderName(o)) == Some(o)
  {
  }

  /** A known four-letter column, a space and a known order read back as
      that sort. */
  lemma ParseSortOf(column: string, name: string)
    requires |column| == 4 && FieldOfColumn(column).Some? && OrderOfName(name).Some?
    ensures ParseSort(column + " " + name)
         == Some(PageSortInput(FieldOfColumn(column).value, OrderOfName(name).value))
  {
    var s := column + " " + name;
    assert s[..4] == column;
    assert s[5..] == name;
  }

  /** The sort clause names the lower-cased column and the order, and nothing
      is lost: it reads back to the sort input. */
  lemma BuildSortRoundTrip(sort: PageSortInput)
    ensures ParseSort(BuildSort(sort)) == Some(sort)
  {
    ColumnReadsBack(sort.field);
    OrderReadsBack(sort.order);
    ParseSortOf(ColumnOf(sort.field), SortOrderName(sort.order));
  }

  // ---------------------------------------------------------------------------
  // buildFilters

  /** The sub-filters can be rendered: `filter.date` is not null and the type
      filter is renderable (see `TypeEnumFilters.Renderable`). */
  predicate FilterRenderable(filter: PageFilterInput) {
    !filter.date.Null? && TypeEnumFilters.Renderable(filter.typeFilter)
  }

  /** The conditions of a filter: the date condition, then the type condition. */
  function FiltersOf(filter: PageFilterInput): seq<string>
    requires FilterRenderable(filter)
  {
    DateFilters.OptionToSeq(DateFilters.DateCondition(filter.date))
    + DateFilters.OptionToSeq(TypeEnumFilters.Exec(filter.typeFilter))
  }

  /** `buildFilters`. */
  method BuildFilters(filter: PageFilterInput) returns (filters: seq<string>)
    requires FilterRenderable(filter)
    ensures filters == FiltersOf(filter)
  {
    filters := [];
    var date := DateFilters.Exec(filter.date);
    if date.Some? {
      filters := filters + [date.value];
    }
    var typeCondition := TypeEnumFilters.Exec(filter.typeFilter);
    if typeCondition.Some? {
      filters := filters + [typeCondition.value];
    }
  }

  /** A filter object yields no condition exactly when neither sub-filter
      holds a key that produces one. */
  lemma FiltersOfEmptyIff(filter: PageFilterInput)
    requires FilterRenderable(filter)
    ensures |FiltersOf(filter)| <= 2
    ensures FiltersOf(filter) == [] <==>
              (filter.date.Absent? || DateFilters.HasNoBoundKey(filter.date.value))
              && (filter.typeFilter.Absent?
                  || (filter.typeFilter.value.eq.Absent? && filter.typeFilter.value.ne.Absent?
                      && filter.typeFilter.value.in_.Absent? && filter.typeFilter.value.nin.Absent?))
  {
    DateFilters.DateConditionNoneIff(filter.date);
  }

  // ---------------------------------------------------------------------------
  // buildQueryOptions

  /** `IQueryOptions`: a sort clause, a list of conditions, or both. */
  datatype QueryOptions = QueryOptions(sort: Option<string>, filters: Option<seq<string>>)

  /** A destructured parameter with default `null`: both a missing key and
      an explicit null give null. */
  function OrNull<T>(m: InputMaybe<T>): Option<T> {
    if m.Present? then Some(m.value) else None
  }

  predicate OptionsRenderable(filter: InputMaybe<PageFilterInput>) {
    filter.Present? ==> FilterRenderable(filter.value)
  }

  /** The options: null when there is neither a sort nor a filter, otherwise
      each one that is given, under its own key. */
  function QueryOptionsOf(filter: InputMaybe<PageFilterInput>, sort: InputMaybe<PageSortInput>)
    : (r: Option<QueryOptions>)
    requires OptionsRenderable(filter)
    ensures r.Some? ==> r.value.sort.Some? || r.value.filters.Some?
  {
    if !filter.Present? && !sort.Present? then None
    else Some(QueryOptions(if sort.Present? then Some(BuildSort(sort.value)) else None,
                           if filter.Present? then Some(FiltersOf(filter.value)) else None))
  }

  /** `buildQueryOptions`. */
  method BuildQueryOptions(filter: InputMaybe<PageFilterInput>, sort: InputMaybe<PageSortInput>)
    returns (r: Option<QueryOptions>)
    requires OptionsRenderable(filter)
    ensures r == QueryOptionsOf(filter, sort)
  {
    var sort' := if sort.Present? then Some(BuildSort(sort.value)) else None;
    var filters: Option<seq<string>> := None;
    if filter.Present? {
      var built := BuildFilters(filter.value);
      filters := Some(built);
    }
    if filters.None? && sort'.None? {
      r := None;
    } else if filters.None? {
      r := Some(QueryOptions(sort', None));
    } else if sort'.None? {
      r := Some(QueryOptions(None, filters));
    } else {
      r := Some(QueryOptions(sort', filters));
    }
  }

  // ---------------------------------------------------------------------------
  // buildUpdateFields

  /** `IUpdateFields`: the update input plus the stored file. */
  datatype UpdateFields = UpdateFields(site: InputMaybe<string>, pageType: InputMaybe<PageType>,
                                       file: InputMaybe<string>)

  /** One `column = value` item of a SET clause. */
  datatype Assignment = SetSite(site: string) | SetType(pageType: PageType) | SetFile(file: string)

  function AssignmentColumn(a: Assignment): string {
    match a
    case SetSite(_) => "site"
    case SetType(_) => "type"
    case SetFile(_) => "file"
  }

  function AssignmentValue(a: Assignment): string {
    match a
    case SetSite(s) => s
    case SetType(t) => PageTypeName(t)
    case SetFile(f) => f
  }

  /** The columns to set: `site`, `type` and `file`, in that order, each one
      that is given and not null. */
  function UpdateAssignments(u: UpdateFields): (r: seq<Assignment>)
    ensures |r| <= 3
  {
    (if u.site.Present? then [SetSite(u.site.value)] else [])
    + (if u.pageType.Present? then [SetType(u.pageType.value)] else [])
    + (if u.file.Present? then [SetFile(u.file.value)] else [])
  }

  /** One `column = 'value'` item, the value quoted inline. */
  function InlineItem(a: Assignment): string {
    AssignmentColumn(a) + " = '" + AssignmentValue(a) + "'"
  }

  lemma InlineItemText(a: Assignment)
    ensures a.SetSite? ==> InlineItem(a) == "site = '" + a.site + "'"
    ensures a.SetType? ==> InlineItem(a) == "type = '" + PageTypeName(a.pageType) + "'"
    ensures a.SetFile? ==> InlineItem(a) == "file = '" + a.file + "'"
  {
    assert "site" + " = '" == "site = '";
    assert "type" + " = '" == "type = '";
    assert "file" + " = '" == "file = '";
  }

  function InlineItems(assignments: seq<Assignment>): (r: seq<string>)
    ensures |r| == |assignments|
    ensures forall i :: 0 <= i < |assignments| ==> r[i] == InlineItem(assignments[i])
  {
    seq(|assignments|, i requires 0 <= i < |assignments| => InlineItem(assignments[i]))
  }

  /** The SET list of an update: the inline items of the given, non-null
      columns joined by `,`. */
  function SetClause(u: UpdateFields): string {
    Join(InlineItems(UpdateAssignments(u)), ",")
  }

  lemma InlineItemsSnoc(assignments: seq<Assignment>, a: Assignment)
    ensures InlineItems(assignments + [a]) == InlineItems(assignments) + [InlineItem(a)]
  {
  }

  /** `buildUpdateFields`. */
  method BuildUpdateFields(u: UpdateFields) returns (clause: string)
    ensures clause == SetClause(u)
  {
    var fields: seq<string> := [];
    ghost var chosen: seq<Assignment> := [];
    if u.site.Present? {
      InlineItemText(SetSite(u.site.value));
      InlineItemsSnoc(chosen, SetSite(u.site.value));
      fields := fields + ["site = '" + u.site.value + "'"];
      chosen := chosen + [SetSite(u.site.value)];
    }
    ghost var sites := chosen;
    if u.pageType.Present? {
      InlineItemText(SetType(u.pageType.value));
      InlineItemsSnoc(chosen, SetType(u.pageType.value));
      fields := fields + ["type = '" + PageTypeName(u.pageType.value) + "'"];
      chosen := chosen + [SetType(u.pageType.value)];
    }
    ghost var types := chosen[|sites|..];
    assert chosen == sites + types;
    assert sites == if u.site.Present? then [SetSite(u.site.value)] else [];
    assert types == if u.pageType.Present? then [SetType(u.pageType.value)] else [];
    if u.file.Present? {
      InlineItemText(SetFile(u.file.value));
      InlineItemsSnoc(chosen, SetFile(u.file.value));
      fields := fields + ["file = '" + u.file.value + "'"];
      chosen := chosen + [SetFile(u.file.value)];
    }
    ghost var files := chosen[|sites| + |types|..];
    assert files == if u.file.Present? then [SetFile(u.file.value)] else [];
    assert chosen == sites + types + files;
    assert fields == InlineItems(UpdateAssignments(u));
    clause := Join(fields, ",");
  }

  // ---------------------------------------------------------------------------
  // Reading a SET list back, as the server does

  predicate QuoteFree(s: string) {
    forall i :: 0 <= i < |s| ==> s[i] != '\''
  }

  /** Position of the first quote of `s`, or `|s|` when there is none. */
  function IndexOfQuote(s: string): (n: nat)
    ensures n <= |s|
    ensures n < |s| ==> s[n] == '\''
  {
    if |s| == 0 || s[0] == '\'' then 0 else 1 + IndexOfQuote(s[1..])
  }

  function PageTypeOfName(name: string): Option<PageType> {
    if name == "JPEG" then Some(JPEG)
    else if name == "PDF" then Some(PDF)
    else if name == "PNG" then Some(PNG)
    else if name == "WEBP" then Some(WEBP)
    else None
  }

  /** The assignment of a column name and a literal; a `type` literal must
      name an enum value. */
  function AssignmentOf(column: string, value: string): Option<Assignment> {
    if column == "site" then Some(SetSite(value))
    else if column == "file" then Some(SetFile(value))
    else if column == "type" && PageTypeOfName(value).Some? then Some(SetType(PageTypeOfName(value).value))
    else None
  }

  /** Reads `column = 'value'` items separated by `,`; a literal ends at the
      first quote. */
  function ParseSetItems(s: string): Option<seq<Assignment>>
    decreases |s|
  {
    if |s| < 8 || s[4..8] != " = '" then None
    else
      var rest := s[8..];
      var n := IndexOfQuote(rest);
      if n == |rest| then None
      else
        var a := AssignmentOf(s[..4], rest[..n]);
        var after := rest[n + 1..];
        if a.None? then None
        else if |after| == 0 then Some([a.value])
        else if after[0] != ',' then None
        else
          var more := ParseSetItems(after[1..]);
          if more.None? then None else Some([a.value] + more.value)
  }

  lemma {:induction false} IndexOfQuoteAfter(value: string, tail: string)
    requires QuoteFree(value)
    ensures IndexOfQuote(value + "'" + tail) == |value|
    decreases |value|
  {
    if |value| > 0 {
      assert (value + "'" + tail)[1..] == value[1..] + "'" + tail;
      IndexOfQuoteAfter(value[1..], tail);
    }
  }

  predicate ValueQuoteFree(a: Assignment) {
    QuoteFree(AssignmentValue(a))
  }

  lemma ParseOneItem(a: Assignment, tail: string)
    requires ValueQuoteFree(a)
    ensures var s := InlineItem(a) + tail;
      var v := AssignmentValue(a);
      && |s| >= 8 && s[4..8] == " = '"
      && IndexOfQuote(s[8..]) == |v|
      && s[8..][..|v|] == v
      && s[8..][|v| + 1..] == tail
      && AssignmentOf(s[..4], v) == Some(a)
  {
    var v := AssignmentValue(a);
    ItemParts(AssignmentColumn(a), v, tail);
    assert AssignmentOf(AssignmentColumn(a), v) == Some(a);
  }

  /** The pieces of a four-letter column, ` = '`, a quote-free value, a
      quote and more text, as the parser cuts them. */
  lemma ItemParts(column: string, v: string, tail: string)
    requires |column| == 4 && QuoteFree(v)
    ensures var s := column + " = '" + v + "'" + tail;
      && |s| >= 8 && s[4..8] == " = '" && s[..4] == column
      && IndexOfQuote(s[8..]) == |v|
      && s[8..][..|v|] == v
      && s[8..][|v| + 1..] == tail
  {
    var s := column + " = '" + v + "'" + tail;
    assert s == column + " = '" + (v + "'" + tail);
    assert s[..4] == column;
    assert s[8..] == v + "'" + tail;
    IndexOfQuoteAfter(v, tail);
  }

  /** One item followed by nothing or by a comma and more text. */
  lemma ParseSetItemsStep(a: Assignment, tail: string)
    requires ValueQuoteFree(a)
    requires tail == "" || tail[0] == ','
    ensures ParseSetItems(InlineItem(a) + tail)
         == if tail == "" then Some([a])
            else if ParseSetItems(tail[1..]).None? then None
            else Some([a] + ParseSetItems(tail[1..]).value)
  {
    ParseOneItem(a, tail);
  }

  /** A SET list of quote-free values reads back to its assignments. */
  lemma {:induction false} SetItemsRoundTrip(assignments: seq<Assignment>)
    requires |assignments| > 0
    requires forall i :: 0 <= i < |assignments| ==> ValueQuoteFree(assignments[i])
    ensures ParseSetItems(Join(InlineItems(assignments), ",")) == Some(assignments)
    decreases |assignments|
  {
    var items := InlineItems(assignments);
    var a := assignments[0];
    if |assignments| == 1 {
      assert items == [InlineItem(a)];
      assert Join(items, ",") == InlineItem(a) + "";
      ParseSetItemsStep(a, "");
      assert assignments == [a];
    } else {
      var restText := Join(InlineItems(assignments[1..]), ",");
      InlineItemsJoinCons(assignments);
      ParseSetItemsCons(a, restText);
      SetItemsRoundTrip(assignments[1..]);
      assert [a] + assignments[1..] == assignments;
    }
  }

  lemma InlineItemsJoinCons(assignments: seq<Assignment>)
    requires |assignments| > 1
    ensures Join(InlineItems(assignments), ",")
         == InlineItem(assignments[0]) + ("," + Join(InlineItems(assignments[1..]), ","))
  {
    assert InlineItems(assignments)[1..] == InlineItems(assignments[1..]);
  }

  lemma ParseSetItemsCons(a: Assignment, restText: string)
    requires ValueQuoteFree(a)
    ensures ParseSetItems(InlineItem(a) + ("," + restText))
         == if ParseSetItems(restText).None? then None else Some([a] + ParseSetItems(restText).value)
  {
    ParseSetItemsStep(a, "," + restText);
    assert ("," + restText)[1..] == restText;
  }

  /** The columns a list of assignments sets, the last one of a column
      winning; columns it does not set are absent. */
  function Assigned(assignments: seq<Assignment>): UpdateFields
    decreases |assignments|
  {
    if |assignments| == 0 then UpdateFields(Absent, Absent, Absent)
    else
      var before := Assigned(assignments[..|assignments| - 1]);
      match assignments[|assignments| - 1]
      case SetSite(s) => before.(site := Present(s))
      case SetType(t) => before.(pageType := Present(t))
      case SetFile(f) => before.(file := Present(f))
  }

  /** The fields with null read as absent, as the destructuring defaults do. */
  function NullAsAbsent(u: UpdateFields): UpdateFields {
    UpdateFields(if u.site.Present? then u.site else Absent,
                 if u.pageType.Present? then u.pageType else Absent,
                 if u.file.Present? then u.file else Absent)
  }

  lemma AssignedSnoc(a: seq<Assignment>, x: Assignment)
    ensures Assigned(a + [x]) == match x
      case SetSite(s) => Assigned(a).(site := Present(s))
      case SetType(t) => Assigned(a).(pageType := Present(t))
      case SetFile(f) => Assigned(a).(file := Present(f))
  {
    assert (a + [x])[..|a + [x]| - 1] == a;
  }

  /** The assignments carry exactly the given, non-null fields. */
  lemma {:induction false} AssignedUpdateAssignments(u: UpdateFields)
    ensures Assigned(UpdateAssignments(u)) == NullAsAbsent(u)
  {
    var a1: seq<Assignment> := if u.site.Present? then [SetSite(u.site.value)] else [];
    var a2 := a1 + (if u.pageType.Present? then [SetType(u.pageType.value)] else []);
    var a3 := a2 + (if u.file.Present? then [SetFile(u.file.value)] else []);
    assert UpdateAssignments(u) == a3;
    if u.site.Present? {
      AssignedSnoc([], SetSite(u.site.value));
      assert [] + [SetSite(u.site.value)] == a1;
    }
    assert Assigned(a1) == UpdateFields(OrAbsent(u.site), Absent, Absent);
    if u.pageType.Present? { AssignedSnoc(a1, SetType(u.pageType.value)); }
    assert Assigned(a2) == UpdateFields(OrAbsent(u.site), OrAbsent(u.pageType), Absent);
    if u.file.Present? { AssignedSnoc(a2, SetFile(u.file.value)); }
  }

  function OrAbsent<T>(m: InputMaybe<T>): InputMaybe<T> {
    if m.Present? then m else Absent
  }

  /** Two updates with the same assignments ask for the same change. */
  lemma UpdateAssignmentsDetermineFields(u1: UpdateFields, u2: UpdateFields)
    requires UpdateAssignments(u1) == UpdateAssignments(u2)
    ensures NullAsAbsent(u1) == NullAsAbsent(u2)
  {
    AssignedUpdateAssignments(u1);
    AssignedUpdateAssignments(u2);
  }

  // ---------------------------------------------------------------------------
  // Statements and the server

  /** The arguments of the server's pagination functions, in call order. */
  datatype PaginationParams = PaginationParams(
    first: Option<int>, last: Option<int>, before: Option<string>, after: Option<string>,
    options: Option<QueryOptions>)

  /** A statement the API sends, by the parameters it carries. */
  datatype Statement =
    | SelectById(id: string)
    | InsertPage(pageType: PageType, site: string, file: string)
    | UpdateById(id: string, setClause: string)
    | DeleteById(id: string)
    | PaginationSelect(params: PaginationParams)
    | PaginationInfo(params: PaginationParams)

  /** A statement parameter. */
  datatype Param = PNull | PInt(n: int) | PText(s: string) | POptions(options: QueryOptions)

  function OptionalInt(o: Option<int>): Param {
    if o.Some? then PInt(o.value) else PNull
  }

  function OptionalText(o: Option<string>): Param {
    if o.Some? then PText(o.value) else PNull
  }

  function OptionalOptions(o: Option<QueryOptions>): Param {
    if o.Some? then POptions(o.value) else PNull
  }

  const SelectByIdSql: string := "SELECT * FROM pages WHERE id = $1"
  const InsertSql: string := "INSERT INTO pages (type, site, file) VALUES ($1, $2, $3) RETURNING *"
  const DeleteByIdSql: string := "DELETE FROM pages WHERE id = $1 RETURNING *"
  const PaginationSelectSql: string := "SELECT * FROM paginationSelect($1, $2, $3, $4, $5)"
  const PaginationInfoSql: string := "SELECT * FROM paginationInfo($1, $2, $3, $4, $5)"

  /** The SQL text of a statement. */
  function SqlText(st: Statement): string {
    match st
    case SelectById(_) => SelectByIdSql
    case InsertPage(_, _, _) => InsertSql
    case UpdateById(_, setClause) => UpdatePrefix + setClause + UpdateSuffix
    case DeleteById(_) => DeleteByIdSql
    case PaginationSelect(_) => PaginationSelectSql
    case PaginationInfo(_) => PaginationInfoSql
  }

  function PaginationValues(p: PaginationParams): seq<Param> {
    [OptionalInt(p.first), OptionalInt(p.last), OptionalText(p.before), OptionalText(p.after),
     OptionalOptions(p.options)]
  }

  /** The parameter values sent with a statement. */
  function Values(st: Statement): seq<Param> {
    match st
    case SelectById(id) => [PText(id)]
    case InsertPage(t, site, file) => [PText(PageTypeName(t)), PText(site), PText(file)]
    case UpdateById(id, _) => [PText(id)]
    case DeleteById(id) => [PText(id)]
    case PaginationSelect(p) => PaginationValues(p)
    case PaginationInfo(p) => PaginationValues(p)
  }

  /** The rows of a result: page rows, or rows of the `paginationinfo` column. */
  datatype Rows = PageRows(pages: seq<Page>) | InfoRows(infos: seq<Option<PageInfo>>)

  datatype Answer = Answer(rows: Rows, table: map<string, Page>)

  /** What the server brings to a statement: the value of `CURRENT_DATE`, the
      id of the next inserted row, and the stored pagination functions. */
  datatype Server = Server(
    today: string,
    freshId: map<string, Page> -> string,
    paginate: (map<string, Page>, PaginationParams) -> seq<Page>,
    paginationInfo: (map<string, Page>, PaginationParams) -> seq<Option<PageInfo>>)

  function Assign(p: Page, a: Assignment): Page {
    match a
    case SetSite(s) => p.(site := s)
    case SetType(t) => p.(pageType := t)
    case SetFile(f) => p.(file := f)
  }

  /** The assignments of a SET clause, left to right. */
  function Apply(p: Page, assignments: seq<Assignment>): Page
    decreases |assignments|
  {
    if |assignments| == 0 then p else Apply(Assign(p, assignments[0]), assignments[1..])
  }

  /** The server's answer to a statement over the `pages` table, or none when
      the statement fails (a duplicate id, a SET list it cannot read). */
  function Execute(server: Server, table: map<string, Page>, st: Statement): (r: Option<Answer>)
    ensures r.Some? && !st.PaginationInfo? ==> r.value.rows.PageRows?
  {
    match st
    case SelectById(id) =>
      Some(Answer(PageRows(if id in table then [table[id]] else []), table))
    case InsertPage(t, site, file) =>
      var id := server.freshId(table);
      if id in table then None
      else
        var p := Page(id, t, server.today, site, file);
        Some(Answer(PageRows([p]), table[id := p]))
    case UpdateById(id, setClause) =>
      var assignments := ParseSetItems(setClause);
      if assignments.None? then None
      else if id !in table then Some(Answer(PageRows([]), table))
      else
        var p := Apply(table[id].(date := server.today), assignments.value);
        Some(Answer(PageRows([p]), table[id := p]))
    case DeleteById(id) =>
      if id in table then Some(Answer(PageRows([table[id]]), table - {id}))
      else Some(Answer(PageRows([]), table))
    case PaginationSelect(params) =>
      Some(Answer(PageRows(server.paginate(table, params)), table))
    case PaginationInfo(params) =>
      Some(Answer(InfoRows(server.paginationInfo(table, params)), table))
  }

  /** Every row of the table is stored under its own id, as the `id` primary
      key of the `pages` table guarantees. */
  predicate KeyedById(table: map<string, Page>) {
    forall k :: k in table ==> table[k].id == k
  }

  /** No statement breaks the keying of the table, and a statement naming a
      row by id answers with that row only. */
  lemma ExecuteKeepsKeys(server: Server, table: map<string, Page>, st: Statement)
    requires KeyedById(table)
    ensures var r := Execute(server, table, st);
      r.Some? ==> KeyedById(r.value.table)
    ensures var r := Execute(server, table, st);
      r.Some? && (st.SelectById? || st.UpdateById? || st.DeleteById?) ==>
        forall p :: p in r.value.rows.pages ==> p.id == st.id
  {
    match st
    case UpdateById(id, setClause) =>
      var assignments := ParseSetItems(setClause);
      if assignments.Some? && id in table {
        ApplySetsAssigned(table[id].(date := server.today), assignments.value);
      }
    case _ =>
  }

  lemma ApplySnoc(p: Page, a: seq<Assignment>, x: Assignment)
    ensures Apply(p, a + [x]) == Assign(Apply(p, a), x)
    decreases |a|
  {
    if |a| > 0 {
      assert (a + [x])[1..] == a[1..] + [x];
      ApplySnoc(Assign(p, a[0]), a[1..], x);
    }
  }

  /** Applying assignments sets exactly the columns they assign, the last
      one of a column winning, and leaves the rest of the row alone. */
  lemma {:induction false} ApplySetsAssigned(p: Page, assignments: seq<Assignment>)
    ensures var q := Apply(p, assignments);
      var set_ := Assigned(assignments);
      && q.id == p.id && q.date == p.date
      && q.site == (if set_.site.Present? then set_.site.value else p.site)
      && q.pageType == (if set_.pageType.Present? then set_.pageType.value else p.pageType)
      && q.file == (if set_.file.Present? then set_.file.value else p.file)
    decreases |assignments|
  {
    if |assignments| > 0 {
      var init := assignments[..|assignments| - 1];
      var last := assignments[|assignments| - 1];
      assert assignments == init + [last];
      ApplySnoc(p, init, last);
      ApplySetsAssigned(p, init);
    }
  }

  /** An update changes exactly the given, non-null columns of the row. */
  lemma UpdateSetsRequestedColumns(p: Page, u: UpdateFields)
    ensures var q := Apply(p, UpdateAssignments(u));
      && q.id == p.id && q.date == p.date
      && q.site == (if u.site.Present? then u.site.value else p.site)
      && q.pageType == (if u.pageType.Present? then u.pageType.value else p.pageType)
      && q.file == (if u.file.Present? then u.file.value else p.file)
  {
    ApplySetsAssigned(p, UpdateAssignments(u));
    AssignedUpdateAssignments(u);
  }

  const UpdatePrefix: string := "UPDATE pages SET date = CURRENT_DATE, "
  const UpdateSuffix: string := " WHERE id = $1 RETURNING *"

  /** The SET list of an update with quote-free values reads back to exactly
      the given, non-null columns; with none given it cannot be read. */
  lemma SetClauseReadsBack(u: UpdateFields)
    requires u.site.Present? ==> QuoteFree(u.site.value)
    requires u.file.Present? ==> QuoteFree(u.file.value)
    ensures ParseSetItems(SetClause(u)) == if UpdateAssignments(u) == [] then None else Some(UpdateAssignments(u))
  {
    var a := UpdateAssignments(u);
    if a == [] {
      assert SetClause(u) == "";
    } else {
      forall i | 0 <= i < |a| ensures ValueQuoteFree(a[i]) {
        if a[i].SetType? {
          var name := PageTypeName(a[i].pageType);
          assert name == "JPEG" || name == "PDF" || name == "PNG" || name == "WEBP";
        }
      }
      SetItemsRoundTrip(a);
    }
  }

  /** A site item whose value closes the quote and opens a `type` item reads
      as the two items. */
  lemma InjectedItemSplits(site: string, name: string)
    ensures "site = '" + (site + "',type = '" + name) + "'"
         == ("site = '" + site + "'") + "," + ("type = '" + name + "'")
  {
    assert "',type = '" == "'" + "," + "type = '";
  }

  /** The site is quoted into the SQL text as it is: a site that closes the
      quote adds a `type` item of its own, and the SET list is the same as
      for an update that really asks for that type. */
  lemma SetClauseCollides(site: string, t: PageType, file: string)
    ensures var injected := UpdateFields(Present(site + "',type = '" + PageTypeName(t)), Absent, Present(file));
      var honest := UpdateFields(Present(site), Present(t), Present(file));
      && NullAsAbsent(injected) != NullAsAbsent(honest)
      && SetClause(injected) == SetClause(honest)
  {
    var name := PageTypeName(t);
    var i1 := "site = '" + (site + "',type = '" + name) + "'";
    var h1, h2 := "site = '" + site + "'", "type = '" + name + "'";
    var f := "file = '" + file + "'";
    InjectedItemSplits(site, name);
    JoinTwo(i1, f, ",");
    JoinThree(h1, h2, f, ",");
    var injected := UpdateFields(Present(site + "',type = '" + name), Absent, Present(file));
    var honest := UpdateFields(Present(site), Present(t), Present(file));
    InlineItemText(SetSite(site + "',type = '" + name));
    InlineItemText(SetSite(site));
    InlineItemText(SetType(t));
    InlineItemText(SetFile(file));
    assert UpdateAssignments(injected) == [SetSite(site + "',type = '" + name), SetFile(file)];
    assert UpdateAssignments(honest) == [SetSite(site), SetType(t), SetFile(file)];
    assert InlineItems(UpdateAssignments(injected)) == [i1, f];
    assert InlineItems(UpdateAssignments(honest)) == [h1, h2, f];
  }

  // ---------------------------------------------------------------------------
  // The client

  /** How the network behaves for one query. */
  datatype Link = Up | ConnectRefused | QueryRejected

  /** What the client does on the wire. */
  datatype Event = Connected(ok: bool) | Sent(text: string, values: seq<Param>) | Ended

  /** The events of one `query`: connect, send unless the connection was
      refused, and always end. */
  function QueryEvents(st: Statement, link: Link): seq<Event> {
    [Connected(link != ConnectRefused)]
    + (if link != ConnectRefused then [Sent(SqlText(st), Values(st))] else [])
    + [Ended]
  }

  const QueryFailedMessage: string := "Unknown error occurred"

  function NotFoundMessage(id: string): string {
    "Page with " + id + " not found"
  }

  /** `rows.at(0) ?? null`, with no row reported as a missing page. */
  function FirstPage(rows: Rows, id: string): (r: Result<Page, Error>)
    requires rows.PageRows?
    ensures r.Success? <==> |rows.pages| > 0
    ensures r.Success? ==> r.value == rows.pages[0]
    ensures r.Failure? ==> r.error == NewNotFoundError(NotFoundMessage(id))
  {
    if |rows.pages| == 0 then Failure(NewNotFoundError(NotFoundMessage(id))) else Success(rows.pages[0])
  }

  /** The arguments of the pagination functions for a `pages` query. */
  function ParamsOf(args: QueryPagesArgs): PaginationParams
    requires OptionsRenderable(args.filter)
  {
    PaginationParams(OrNull(args.first), OrNull(args.last), OrNull(args.before), OrNull(args.after),
                     QueryOptionsOf(args.filter, args.sort))
  }

  /** `pg.Client`: only whether it is connected. */
  class Client {
    var open: bool

    constructor()
      ensures !open
    {
      open := false;
    }
  }

  class Database {
    const server: Server
    var client: Client
    /** The `pages` table on the server. */
    var table: map<string, Page>
    /** Everything sent to the server, in order. */
    ghost var log: seq<Event>

    /** The table keeps every row under its id. */
    ghost predicate Valid()
      reads this
    {
      KeyedById(table)
    }

    constructor(server: Server, table: map<string, Page>)
      requires KeyedById(table)
      ensures Valid()
      ensures this.server == server && this.table == table && log == []
      ensures fresh(client) && !client.open
    {
      this.server := server;
      this.table := table;
      log := [];
      client := new Client();
    }

    /** `connect`: a fresh client for every query. */
    method Connect(link: Link) returns (ok: bool)
      modifies this
      ensures fresh(client)
      ensures ok == (link != ConnectRefused) && client.open == ok
      ensures table == old(table) && log == old(log) + [Connected(ok)]
    {
      client := new Client();
      ok := link != ConnectRefused;
      client.open := ok;
      log := log + [Connected(ok)];
    }

    /** `end`. */
    method End()
      modifies this, client
      ensures client == old(client) && !client.open
      ensures table == old(table) && log == old(log) + [Ended]
    {
      client.open := false;
      log := log + [Ended];
    }

    /** `client.query` on an open connection: the statement is sent, and the
        server's answer is taken unless the query is rejected. */
    method Send(st: Statement, link: Link) returns (r: Result<Rows, Error>)
      requires Valid() && link != ConnectRefused
      modifies this
      ensures Valid() && client == old(client)
      ensures var answer := Execute(server, old(table), st);
        if link == Up && answer.Some? then r == Success(answer.value.rows) && table == answer.value.table
        else r == Failure(NewUnknownError(QueryFailedMessage)) && table == old(table)
      ensures log == old(log) + [Sent(SqlText(st), Values(st))]
    {
      var answer := Execute(server, table, st);
      ExecuteKeepsKeys(server, table, st);
      log := log + [Sent(SqlText(st), Values(st))];
      assert answer == Execute(server, old(table), st);
      if link == QueryRejected || answer.None? {
        r := Failure(NewUnknownError(QueryFailedMessage));
        assert !(link == Up && answer.Some?);
      } else {
        assert link == Up && answer.Some?;
        table := answer.value.table;
        r := Success(answer.value.rows);
      }
    }

    /** `query`: connects, sends the statement, and ends the connection
        whatever happened; any failure becomes an `UnknownError`. */
    method Query(st: Statement, link: Link) returns (r: Result<Rows, Error>)
      requires Valid()
      modifies this
      ensures Valid() && fresh(client) && !client.open
      ensures var answer := Execute(server, old(table), st);
        && (r.Success? <==> link == Up && answer.Some?)
        && (r.Success? ==> r.value == answer.value.rows && table == answer.value.table)
      ensures r.Failure? ==> r.error == NewUnknownError(QueryFailedMessage) && table == old(table)
      ensures log == old(log) + QueryEvents(st, link)
    {
      var ok := Connect(link);
      if !ok {
        End();
        assert QueryEvents(st, link) == [Connected(false)] + [] + [Ended];
        return Failure(NewUnknownError(QueryFailedMessage));
      }
      r := Send(st, link);
      End();
      assert QueryEvents(st, link) == [Connected(true)] + [Sent(SqlText(st), Values(st))] + [Ended];
      assert log == old(log) + [Connected(true)] + [Sent(SqlText(st), Values(st))] + [Ended];
    }

    /** `getPage`. */
    method GetPage(id: string, link: Link) returns (r: Result<Page, Error>)
      requires Valid()
      modifies this
      ensures Valid() && (r.Success? ==> r.value.id == id)
      ensures table == old(table) && log == old(log) + QueryEvents(SelectById(id), link)
      ensures link == Up && id in table ==> r == Success(table[id])
      ensures link == Up && id !in table ==> r == Failure(NewNotFoundError(NotFoundMessage(id)))
      ensures link != Up ==> r == Failure(NewUnknownError(QueryFailedMessage))
    {
      var result := Query(SelectById(id), link);
      if result.Failure? {
        return Failure(result.error);
      }
      r := FirstPage(result.value, id);
    }

    /** `getPages`: the rows of `paginationSelect(first, last, before, after,
        options)`. */
    method GetPages(args: QueryPagesArgs, link: Link) returns (r: Result<seq<Page>, Error>)
      requires Valid() && OptionsRenderable(args.filter)
      modifies this
      ensures Valid()
      ensures table == old(table)
      ensures log == old(log) + QueryEvents(PaginationSelect(ParamsOf(args)), link)
      ensures link == Up ==> r == Success(server.paginate(table, ParamsOf(args)))
      ensures link != Up ==> r == Failure(NewUnknownError(QueryFailedMessage))
    {
      var options := BuildQueryOptions(args.filter, args.sort);
      var params := PaginationParams(OrNull(args.first), OrNull(args.last), OrNull(args.before),
                                     OrNull(args.after), options);
      var result := Query(PaginationSelect(params), link);
      if result.Failure? {
        return Failure(result.error);
      }
      r := Success(result.value.pages);
    }

    /** `getPageInfo`: the `paginationinfo` of the first row of
        `paginationInfo(...)`; a missing row or value is an `UnknownError`. */
    method GetPageInfo(args: QueryPagesArgs, link: Link) returns (r: Result<PageInfo, Error>)
      requires Valid() && OptionsRenderable(args.filter)
      modifies this
      ensures Valid()
      ensures table == old(table)
      ensures log == old(log) + QueryEvents(PaginationInfo(ParamsOf(args)), link)
      ensures var infos := server.paginationInfo(table, ParamsOf(args));
        link == Up ==>
          r == if |infos| > 0 && infos[0].Some? then Success(infos[0].value)
               else Failure(NewUnknownError("Could not get page info"))
      ensures link != Up ==> r == Failure(NewUnknownError(QueryFailedMessage))
    {
      var options := BuildQueryOptions(args.filter, args.sort);
      var params := PaginationParams(OrNull(args.first), OrNull(args.last), OrNull(args.before),
                                     OrNull(args.after), options);
      var result := Query(PaginationInfo(params), link);
      if result.Failure? {
        return Failure(result.error);
      }
      var infos := result.value.infos;
      var info := if |infos| > 0 then infos[0] else None;
      if info.None? {
        return Failure(NewUnknownError("Could not get page info"));
      }
      r := Success(info.value);
    }

    /** `createPage`: inserts the row with the stored file `'file'` and
        returns it. */
    method CreatePage(input: CreatePageInput, link: Link) returns (r: Result<Page, Error>)
      requires Valid()
      modifies this
      ensures Valid()
      ensures log == old(log) + QueryEvents(InsertPage(input.pageType, input.site, "file"), link)
      ensures var id := server.freshId(old(table));
        var page := Page(id, input.pageType, server.today, input.site, "file");
        if link == Up && id !in old(table) then r == Success(page) && table == old(table)[id := page]
        else r == Failure(NewUnknownError(QueryFailedMessage)) && table == old(table)
    {
      var result := Query(InsertPage(input.pageType, input.site, "file"), link);
      if result.Failure? {
        return Failure(result.error);
      }
      r := Success(result.value.pages[0]);
    }

    /** `updatePage`: sets today's date and the given columns of the row. */
    method UpdatePage(id: string, fields: UpdateFields, link: Link) returns (r: Result<Page, Error>)
      requires Valid()
      modifies this
      ensures Valid() && (r.Success? ==> r.value.id == id)
      ensures log == old(log) + QueryEvents(UpdateById(id, SetClause(fields)), link)
      ensures var assignments := ParseSetItems(SetClause(fields));
        if link != Up || assignments.None? then
          r == Failure(NewUnknownError(QueryFailedMessage)) && table == old(table)
        else if id !in old(table) then
          r == Failure(NewNotFoundError(NotFoundMessage(id))) && table == old(table)
        else
          var page := Apply(old(table)[id].(date := server.today), assignments.value);
          r == Success(page) && table == old(table)[id := page]
    {
      var update := BuildUpdateFields(fields);
      var result := Query(UpdateById(id, update), link);
      if result.Failure? {
        return Failure(result.error);
      }
      ExecuteKeepsKeys(server, old(table), UpdateById(id, update));
      r := FirstPage(result.value, id);
    }

    /** `deletePage`: removes the row and returns it. */
    method DeletePage(id: string, link: Link) returns (r: Result<Page, Error>)
      requires Valid()
      modifies this
      ensures Valid() && (r.Success? ==> r.value.id == id)
      ensures log == old(log) + QueryEvents(DeleteById(id), link)
      ensures link != Up ==> r == Failure(NewUnknownError(QueryFailedMessage)) && table == old(table)
      ensures link == Up && id in old(table) ==> r == Success(old(table)[id]) && table == old(table) - {id}
      ensures link == Up && id !in old(table) ==>
                r == Failure(NewNotFoundError(NotFoundMessage(id))) && table == old(table)
    {
      var result := Query(DeleteById(id), link);
      if result.Failure? {
        return Failure(result.error);
      }
      r := FirstPage(result.value, id);
    }
  }
}
