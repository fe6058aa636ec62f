/** The page type filter (src/utils/filters/typeEnumFilter.ts): turns the
    first present key of `eq`, `ne`, `in`, `nin` into a SQL condition. */
module TypeEnumFilters {
  import opened Wrappers
  import opened Text
  import opened Js
  import opened Types

  /** `'${v}'` for one type. */
  function Quote(t: PageType): string {
    "'" + PageTypeName(t) + "'"
  }

  function QuotedNames(ts: seq<PageType>): (r: seq<string>)
    ensures |r| == |ts|
    ensures forall i :: 0 <= i < |ts| ==> r[i] == Quote(ts[i])
  {
    seq(|ts|, i requires 0 <= i < |ts| => Quote(ts[i]))
  }

  /** `ts.map(v => `'${v}'`).join(',')`. */
  function QuotedList(ts: seq<PageType>): string {
    Join(QuotedNames(ts), ",")
  }

  /** `${v}` of an enum key that may hold null. */
  function InterpolateType(m: InputMaybe<PageType>): string
    requires !m.Absent?
  {
    Show(MaybeJs(m, PageTypeJs))
  }

  /** The filter can be rendered: it is not null itself, and the list key the
      switch settles on holds a list (`null.map` fails in the source). */
  predicate Renderable(f: InputMaybe<PageTypeEnumFilter>) {
    match f
    case Absent => true
    case Null => false
    case Present(t) =>
      t.eq.Absent? && t.ne.Absent? ==>
        (!t.in_.Absent? ==> t.in_.Present?) && (t.in_.Absent? && !t.nin.Absent? ==> t.nin.Present?)
  }

  /** `new TypeEnumFilter(f).exec()`: the first key present, in the order
      `eq`, `ne`, `in`, `nin`, decides the condition; none gives no condition. */
  function Exec(typeFilter: InputMaybe<PageTypeEnumFilter>): (r: Option<string>)
    requires Renderable(typeFilter)
    ensures r.None? <==> typeFilter.Absent?
                         || (typeFilter.value.eq.Absent? && typeFilter.value.ne.Absent?
                             && typeFilter.value.in_.Absent? && typeFilter.value.nin.Absent?)
    ensures typeFilter.Present? && !typeFilter.value.eq.Absent? ==>
              r == Some("type = '" + InterpolateType(typeFilter.value.eq) + "'")
  {
    if typeFilter.Absent? then None
    else
      var t := typeFilter.value;
      if !t.eq.Absent? then Some("type = '" + InterpolateType(t.eq) + "'")
      else if !t.ne.Absent? then Some("type <> '" + InterpolateType(t.ne) + "'")
      else if !t.in_.Absent? then Some("type IN (" + QuotedList(t.in_.value) + ")")
      else if !t.nin.Absent? then Some("type NOT IN (" + QuotedList(t.nin.value) + ")")
      else None
  }

  /** A present `eq` shadows the other three keys. */
  lemma EqShadowsRest(t: PageTypeEnumFilter, in': InputMaybe<seq<PageType>>, ne': InputMaybe<PageType>,
                      nin': InputMaybe<seq<PageType>>)
    requires !t.eq.Absent?
    ensures Exec(Present(t.(in_ := in', ne := ne', nin := nin'))) == Exec(Present(t))
  {
  }

  /** Without `eq`, a present `ne` shadows `in` and `nin`. */
  lemma NeShadowsLists(t: PageTypeEnumFilter, in': InputMaybe<seq<PageType>>, nin': InputMaybe<seq<PageType>>)
    requires t.eq.Absent? && !t.ne.Absent?
    ensures Exec(Present(t.(in_ := in', nin := nin'))) == Some("type <> '" + InterpolateType(t.ne) + "'")
  {
  }

  /** Without `eq` and `ne`, a list under `in` shadows `nin`. */
  lemma InShadowsNin(t: PageTypeEnumFilter, nin': InputMaybe<seq<PageType>>)
    requires t.eq.Absent? && t.ne.Absent? && t.in_.Present?
    ensures Exec(Present(t.(nin := nin'))) == Some("type IN (" + QuotedList(t.in_.value) + ")")
  {
  }

  /** Without `eq`, `ne` and `in`, a list under `nin` gives the negated
      list condition. */
  lemma NinAlone(t: PageTypeEnumFilter)
    requires t.eq.Absent? && t.ne.Absent? && t.in_.Absent? && t.nin.Present?
    ensures Exec(Present(t)) == Some("type NOT IN (" + QuotedList(t.nin.value) + ")")
  {
  }

  // ---------------------------------------------------------------------------
  // Reading a quoted list back

  predicate StartsWith(s: string, prefix: string) {
    |prefix| <= |s| && s[..|prefix|] == prefix
  }

  /** The type whose quoted name starts `s`. */
  function TypeAt(s: string): (r: Option<PageType>)
    ensures r.Some? ==> StartsWith(s, Quote(r.value))
  {
    if StartsWith(s, Quote(JPEG)) then Some(JPEG)
    else if StartsWith(s, Quote(PDF)) then Some(PDF)
    else if StartsWith(s, Quote(PNG)) then Some(PNG)
    else if StartsWith(s, Quote(WEBP)) then Some(WEBP)
    else None
  }

  /** No quoted name is a prefix of text starting with another one. */
  lemma TypeAtQuote(t: PageType, rest: string)
    ensures TypeAt(Quote(t) + rest) == Some(t)
  {
    var s := Quote(t) + rest;
    assert s[..|Quote(t)|] == Quote(t);
    assert s[1] == PageTypeName(t)[0];
    assert s[2] == PageTypeName(t)[1];
  }

  /** Reads quoted type names separated by commas. */
  function ParseQuotedList(s: string): Option<seq<PageType>>
    decreases |s|
  {
    if |s| == 0 then Some([])
    else match TypeAt(s)
      case None => None
      case Some(t) =>
        var k := |Quote(t)|;
        if k == |s| then Some([t])
        else if s[k] == ',' && k + 1 < |s| then
          match ParseQuotedList(s[k + 1..])
          case Some(ts) => Some([t] + ts)
          case None => None
        else None
  }

  /** Text that starts with a quoted name, a comma and more reads as that
      name followed by what the rest reads as. */
  lemma ParseQuotedListUnfold(s: string, t: PageType)
    requires TypeAt(s) == Some(t)
    requires |Quote(t)| + 1 < |s| && s[|Quote(t)|] == ','
    ensures ParseQuotedList(s)
         == if ParseQuotedList(s[|Quote(t)| + 1..]).Some?
            then Some([t] + ParseQuotedList(s[|Quote(t)| + 1..]).value) else None
  {
  }

  /** One quoted name, a comma, and a non-empty rest read as that type
      followed by the rest's types. */
  lemma ParseQuotedListStep(t: PageType, rest: string)
    requires |rest| > 0
    ensures ParseQuotedList(Quote(t) + "," + rest)
         == if ParseQuotedList(rest).Some? then Some([t] + ParseQuotedList(rest).value) else None
  {
    CommaSplit(Quote(t), rest);
    TypeAtQuote(t, "," + rest);
    ParseQuotedListUnfold(Quote(t) + "," + rest, t);
  }

  lemma CommaSplit(q: string, rest: string)
    ensures q + "," + rest == q + ("," + rest)
    ensures (q + "," + rest)[|q|] == ','
    ensures (q + "," + rest)[|q| + 1..] == rest
  {
    var s := q + "," + rest;
    assert s[|q| + 1..] == rest;
  }

  /** Reading the rendered list gives back the list of types. */
  lemma {:induction false} QuotedListRoundTrip(ts: seq<PageType>)
    ensures ParseQuotedList(QuotedList(ts)) == Some(ts)
    decreases |ts|
  {
    if |ts| == 1 {
      assert QuotedNames(ts) == [Quote(ts[0])];
      JoinOne(Quote(ts[0]), ",");
      assert QuotedList(ts) == Quote(ts[0]) + "";
      TypeAtQuote(ts[0], "");
      assert ts == [ts[0]];
    } else if |ts| > 1 {
      var restText := QuotedList(ts[1..]);
      assert QuotedNames(ts)[1..] == QuotedNames(ts[1..]);
      assert QuotedList(ts) == Quote(ts[0]) + "," + restText;
      JoinEmptyIff(QuotedNames(ts[1..]), ",");
      ParseQuotedListStep(ts[0], restText);
      QuotedListRoundTrip(ts[1..]);
      assert [ts[0]] + ts[1..] == ts;
    }
  }

  /** Different lists of types render as different conditions. */
  lemma QuotedListInjective(ts: seq<PageType>, us: seq<PageType>)
    requires QuotedList(ts) == QuotedList(us)
    ensures ts == us
  {
    QuotedListRoundTrip(ts);
    QuotedListRoundTrip(us);
  }

  /** `{ in: ['JPEG', 'PNG'] }`. */
  lemma InTwoTypes()
    ensures Exec(Present(PageTypeEnumFilter(Absent, Present([JPEG, PNG]), Absent, Absent)))
         == Some("type IN ('JPEG','PNG')")
  {
    assert Quote(JPEG) == "'JPEG'" && Quote(PNG) == "'PNG'";
    assert QuotedNames([JPEG, PNG]) == ["'JPEG'", "'PNG'"];
    JoinTwo("'JPEG'", "'PNG'", ",");
    assert QuotedList([JPEG, PNG]) == "'JPEG','PNG'";
    assert "type IN (" + "'JPEG','PNG'" + ")" == "type IN ('JPEG','PNG')";
  }

  /** `{ nin: ['PDF'] }`. */
  lemma NinOneType()
    ensures Exec(Present(PageTypeEnumFilter(Absent, Absent, Absent, Present([PDF]))))
         == Some("type NOT IN (" + "'PDF'" + ")")
  {
    NinAlone(PageTypeEnumFilter(Absent, Absent, Absent, Present([PDF])));
    assert QuotedNames([PDF]) == [Quote(PDF)];
    JoinOne(Quote(PDF), ",");
    assert Quote(PDF) == "'PDF'";
  }
}
