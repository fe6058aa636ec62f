/** The input and output shapes of the GraphQL schema that the core works on
    (the generated type declarations), and the JavaScript objects the
    resolvers hand to the validators. */
module Types {
  import opened Wrappers
  import opened Js

  /** An optional input field: the key is absent (`undefined`), present with
      `null`, or present with a value. `'k' in obj` holds unless `Absent`. */
  datatype InputMaybe<+T> = Absent | Null | Present(value: T)

  datatype PageType = JPEG | PDF | PNG | WEBP

  /** The enum's string value, as sent to the database and the validators. */
  function PageTypeName(t: PageType): string {
    match t
    case JPEG => "JPEG"
    case PDF => "PDF"
    case PNG => "PNG"
    case WEBP => "WEBP"
  }

  datatype SortField = DATE | FILE | SITE | TYPE

  function SortFieldName(f: SortField): string {
    match f
    case DATE => "DATE"
    case FILE => "FILE"
    case SITE => "SITE"
    case TYPE => "TYPE"
  }

  datatype SortOrder = ASC | DESC

  function SortOrderName(o: SortOrder): string {
    match o
    case ASC => "ASC"
    case DESC => "DESC"
  }

  /** A row of the `pages` table. */
  datatype Page = Page(id: string, pageType: PageType, date: string, site: string, file: string)

  datatype DateFilter = DateFilter(
    gt: InputMaybe<string>,
    gte: InputMaybe<string>,
    lt: InputMaybe<string>,
    lte: InputMaybe<string>)

  /** `in_` and `nin` stand for the keys `in` and `nin`. */
  datatype PageTypeEnumFilter = PageTypeEnumFilter(
    eq: InputMaybe<PageType>,
    in_: InputMaybe<seq<PageType>>,
    ne: InputMaybe<PageType>,
    nin: InputMaybe<seq<PageType>>)

  datatype PageFilterInput = PageFilterInput(
    date: InputMaybe<DateFilter>,
    typeFilter: InputMaybe<PageTypeEnumFilter>)

  datatype PageSortInput = PageSortInput(field: SortField, order: SortOrder)

  datatype QueryPagesArgs = QueryPagesArgs(
    after: InputMaybe<string>,
    before: InputMaybe<string>,
    first: InputMaybe<int>,
    last: InputMaybe<int>,
    filter: InputMaybe<PageFilterInput>,
    sort: InputMaybe<PageSortInput>)

  datatype PageInfo = PageInfo(
    hasNextPage: bool,
    hasPreviousPage: bool,
    startCursor: Option<string>,
    endCursor: Option<string>)

  datatype PageEdge = PageEdge(cursor: string, node: Page)

  datatype Pages = Pages(edges: seq<PageEdge>, pageInfo: PageInfo)

  datatype CreatePageInput = CreatePageInput(site: string, pageType: PageType)

  datatype UpdatePageInput = UpdatePageInput(site: InputMaybe<string>, pageType: InputMaybe<PageType>)

  // ---- the same values as the JavaScript objects the validators receive ----

  function MaybeJs<T>(m: InputMaybe<T>, f: T -> JsValue): JsValue {
    match m
    case Absent => JsUndefined
    case Null => JsNull
    case Present(v) => f(v)
  }

  /** The entry `[key, value]` of `Object.entries` when the key is present. */
  function Entry<T>(key: string, m: InputMaybe<T>, f: T -> JsValue): seq<(string, JsValue)> {
    if m.Absent? then [] else [(key, MaybeJs(m, f))]
  }

  function StringJs(s: string): JsValue {
    JsString(s)
  }

  function IntJs(n: int): JsValue {
    JsNumber(n)
  }

  function PageTypeJs(t: PageType): JsValue {
    JsString(PageTypeName(t))
  }

  function PageTypesJs(ts: seq<PageType>): JsValue {
    JsArray(seq(|ts|, i requires 0 <= i < |ts| => PageTypeJs(ts[i])))
  }

  /** `Object.entries` of a date filter, keys in declaration order. */
  function DateFilterEntries(d: DateFilter): seq<(string, JsValue)> {
    Entry("gt", d.gt, StringJs) + Entry("gte", d.gte, StringJs)
    + Entry("lt", d.lt, StringJs) + Entry("lte", d.lte, StringJs)
  }

  /** `Object.entries` of a type filter, keys in declaration order. */
  function TypeFilterEntries(t: PageTypeEnumFilter): seq<(string, JsValue)> {
    Entry("eq", t.eq, PageTypeJs) + Entry("in", t.in_, PageTypesJs)
    + Entry("ne", t.ne, PageTypeJs) + Entry("nin", t.nin, PageTypesJs)
  }

  function DateFilterJs(d: DateFilter): JsValue {
    JsObject(DateFilterEntries(d))
  }

  function TypeFilterJs(t: PageTypeEnumFilter): JsValue {
    JsObject(TypeFilterEntries(t))
  }

  function PageFilterJs(f: PageFilterInput): JsValue {
    JsObject(Entry("date", f.date, DateFilterJs) + Entry("type", f.typeFilter, TypeFilterJs))
  }

  function PageSortJs(s: PageSortInput): JsValue {
    JsObject([("field", JsString(SortFieldName(s.field))), ("order", JsString(SortOrderName(s.order)))])
  }

  function UpdatePageInputJs(u: UpdatePageInput): JsValue {
    JsObject(Entry("site", u.site, StringJs) + Entry("type", u.pageType, PageTypeJs))
  }
}
