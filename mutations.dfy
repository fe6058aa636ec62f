/** The `createPage`, `updatePage` and `deletePage` mutation resolvers
    (src/resolvers/mutations.ts): the input checks of each, and the database
    call they make once the input is accepted. */
module Mutations {
  import opened Wrappers
  import opened Text
  import opened Js
  import opened Types
  import opened Errors
  import opened WrappedErrors
  import opened Validation
  import opened Database
  import Queries

  type Checks = seq<Option<FieldError>>

  // ---------------------------------------------------------------------------
  // createPage

  /** `createPage(input)`: a site that is a URL is inserted as a new page. */
  method ResolveCreatePage(db: Database, input: CreatePageInput, link: Link) returns (r: ResultOrError<Page>)
    requires db.Valid()
    modifies db
    ensures db.Valid()
    ensures !IsURL(input.site) ==>
              r == Wrap(Queries.OneFieldError(FieldError("input.site", input.site + " is not a valid URL")))
              && db.table == old(db.table) && db.log == old(db.log)
    ensures IsURL(input.site) ==>
      && db.log == old(db.log) + QueryEvents(InsertPage(input.pageType, input.site, "file"), link)
      && var id := db.server.freshId(old(db.table));
         var page := Page(id, input.pageType, db.server.today, input.site, "file");
         if link == Up && id !in old(db.table) then r == Value(page) && db.table == old(db.table)[id := page]
         else r == Wrap(NewUnknownError(QueryFailedMessage)) && db.table == old(db.table)
  {
    var checks := [ValidateUrl(JsString(input.site), "input.site")];
    var outcome := Validate(checks);
    if outcome.Fail? {
      ValidateOneFailure(checks, FieldError("input.site", input.site + " is not a valid URL"));
      return Wrap(outcome.error);
    }
    var page := db.CreatePage(input, link);
    if page.Failure? {
      return Wrap(page.error);
    }
    r := Value(page.value);
  }

  // ---------------------------------------------------------------------------
  // updatePage

  function SiteJs(m: InputMaybe<string>): JsValue {
    MaybeJs(m, StringJs)
  }

  function TypeJs(m: InputMaybe<PageType>): JsValue {
    MaybeJs(m, PageTypeJs)
  }

  /** Everything `updatePage` hands to `validate`, in the order it pushes it:
      the id is a UUID, the input has a key, a given site is not null and a
      URL, a given type is not null. */
  function UpdatePageChecks(id: string, input: UpdatePageInput): Checks {
    [ValidateUUID(JsString(id), "id"), ValidateEmpty(UpdatePageInputJs(input), "input")]
    + (if input.site.Absent? then []
       else [ValidateNotNull(SiteJs(input.site), "input.site"), ValidateUrl(SiteJs(input.site), "input.site")])
    + (if input.pageType.Absent? then [] else [ValidateNotNull(TypeJs(input.pageType), "input.type")])
  }

  /** The same list, built by pushing onto an array as `updatePage` does. */
  method CollectUpdatePageChecks(id: string, input: UpdatePageInput) returns (validations: Checks)
    ensures validations == UpdatePageChecks(id, input)
  {
    var id1 := ValidateUUID(JsString(id), "id");
    var input1 := ValidateEmpty(UpdatePageInputJs(input), "input");
    validations := [];
    validations := validations + [id1];
    validations := validations + [input1];
    assert validations == [id1, input1];
    var site: Checks := [];
    if !input.site.Absent? {
      site := [ValidateNotNull(SiteJs(input.site), "input.site"), ValidateUrl(SiteJs(input.site), "input.site")];
      validations := validations + site;
    }
    assert validations == [id1, input1] + site;
    var kind: Checks := [];
    if !input.pageType.Absent? {
      kind := [ValidateNotNull(TypeJs(input.pageType), "input.type")];
      validations := validations + kind;
    }
    assert site == if input.site.Absent? then []
      else [ValidateNotNull(SiteJs(input.site), "input.site"), ValidateUrl(SiteJs(input.site), "input.site")];
    assert kind == if input.pageType.Absent? then [] else [ValidateNotNull(TypeJs(input.pageType), "input.type")];
    assert validations == [id1, input1] + site + kind;
  }

  /** The updates `updatePage` accepts: a UUID id, at least one key, a site
      that is a URL if given, and a type that is not null if given. */
  predicate UpdateAccepted(id: string, input: UpdatePageInput) {
    && IsUUID(id)
    && (!input.site.Absent? || !input.pageType.Absent?)
    && (input.site.Absent? || (input.site.Present? && IsURL(input.site.value)))
    && !input.pageType.Null?
  }

  /** The id and key checks pass exactly for a UUID id and an input with a
      key. */
  lemma UpdateHeadPassIff(id: string, input: UpdatePageInput)
    ensures AllValid([ValidateUUID(JsString(id), "id"), ValidateEmpty(UpdatePageInputJs(input), "input")])
        <==> IsUUID(id) && (!input.site.Absent? || !input.pageType.Absent?)
  {
    var head: Checks := [ValidateUUID(JsString(id), "id"), ValidateEmpty(UpdatePageInputJs(input), "input")];
    var entries := Entry("site", input.site, StringJs) + Entry("type", input.pageType, PageTypeJs);
    assert UpdatePageInputJs(input) == JsObject(entries);
    assert |entries| > 0 <==> !input.site.Absent? || !input.pageType.Absent?;
    assert head[0].None? <==> IsUUID(id);
    assert head[1].None? <==> |entries| > 0;
    if AllValid(head) {
      assert head[0].None? && head[1].None?;
    } else if head[0].Some? {
      OneFailureFails(head, 0);
    } else {
      OneFailureFails(head, 1);
    }
  }

  /** The site checks pass exactly for an absent site or one that is a URL. */
  lemma UpdateSitePassIff(site: InputMaybe<string>)
    ensures var checks: Checks := if site.Absent? then []
              else [ValidateNotNull(SiteJs(site), "input.site"), ValidateUrl(SiteJs(site), "input.site")];
      AllValid(checks) <==> site.Absent? || (site.Present? && IsURL(site.value))
  {
    var checks: Checks := if site.Absent? then []
      else [ValidateNotNull(SiteJs(site), "input.site"), ValidateUrl(SiteJs(site), "input.site")];
    if site.Null? {
      OneFailureFails(checks, 0);
    } else if site.Present? {
      assert checks == [None, ValidateUrl(JsString(site.value), "input.site")];
      assert checks[1].None? <==> IsURL(site.value);
      if !AllValid(checks) {
        assert checks[1].Some?;
      }
    }
  }

  /** `validate` lets `updatePage` go on exactly for the updates it accepts. */
  lemma UpdatePageChecksPassIff(id: string, input: UpdatePageInput)
    ensures AllValid(UpdatePageChecks(id, input)) <==> UpdateAccepted(id, input)
  {
    var head: Checks := [ValidateUUID(JsString(id), "id"), ValidateEmpty(UpdatePageInputJs(input), "input")];
    var site: Checks := if input.site.Absent? then []
      else [ValidateNotNull(SiteJs(input.site), "input.site"), ValidateUrl(SiteJs(input.site), "input.site")];
    var kind: Checks := if input.pageType.Absent? then [] else [ValidateNotNull(TypeJs(input.pageType), "input.type")];
    assert UpdatePageChecks(id, input) == head + site + kind;
    AllValidAppend(head + site, kind);
    AllValidAppend(head, site);
    UpdateHeadPassIff(id, input);
    UpdateSitePassIff(input.site);
    if input.pageType.Null? {
      OneFailureFails(kind, 0);
    } else if input.pageType.Present? {
      assert kind == [None];
    }
  }

  /** The columns `updatePage` asks the database to set: the input's site
      and type, and the stored file `'file'`. */
  function StoredUpdate(input: UpdatePageInput): UpdateFields {
    UpdateFields(input.site, input.pageType, Present("file"))
  }

  /** The validation outcome of `updatePage`. */
  method ValidateUpdatePage(id: string, input: UpdatePageInput) returns (outcome: Outcome<Error>)
    ensures outcome == Validate(UpdatePageChecks(id, input))
    ensures outcome.Pass? <==> UpdateAccepted(id, input)
  {
    var validations := CollectUpdatePageChecks(id, input);
    outcome := Validate(validations);
    UpdatePageChecksPassIff(id, input);
  }

  /** `updatePage(id, input)`: an accepted update sets today's date and the
      columns its SET list names on the stored row. */
  method ResolveUpdatePage(db: Database, id: string, input: UpdatePageInput, link: Link)
    returns (r: ResultOrError<Page>)
    requires db.Valid()
    modifies db
    ensures db.Valid() && (r.Value? ==> r.value.id == id)
    ensures !UpdateAccepted(id, input) ==>
              Validate(UpdatePageChecks(id, input)).Fail?
              && r == Wrap(Validate(UpdatePageChecks(id, input)).error)
              && db.table == old(db.table) && db.log == old(db.log)
    ensures UpdateAccepted(id, input) ==>
      && db.log == old(db.log) + QueryEvents(UpdateById(id, SetClause(StoredUpdate(input))), link)
      && var assignments := ParseSetItems(SetClause(StoredUpdate(input)));
         if link != Up || assignments.None? then
           r == Wrap(NewUnknownError(QueryFailedMessage)) && db.table == old(db.table)
         else if id !in old(db.table) then
           r == Wrap(NewNotFoundError(NotFoundMessage(id))) && db.table == old(db.table)
         else
           var page := Apply(old(db.table)[id].(date := db.server.today), assignments.value);
           r == Value(page) && db.table == old(db.table)[id := page]
  {
    var outcome := ValidateUpdatePage(id, input);
    if outcome.Fail? {
      return Wrap(outcome.error);
    }
    var page := db.UpdatePage(id, StoredUpdate(input), link);
    if page.Failure? {
      return Wrap(page.error);
    }
    r := Value(page.value);
  }

  /** An accepted update whose site holds no quote sets exactly what it asks
      for: today's date, the given site and type, and the file `'file'`;
      the id and every column not given keep their values. */
  lemma AcceptedUpdateSetsColumns(id: string, input: UpdatePageInput, p: Page, today: string)
    requires UpdateAccepted(id, input)
    requires input.site.Present? ==> QuoteFree(input.site.value)
    ensures ParseSetItems(SetClause(StoredUpdate(input))).Some?
    ensures var q := Apply(p.(date := today), ParseSetItems(SetClause(StoredUpdate(input))).value);
      && q.id == p.id && q.date == today && q.file == "file"
      && q.site == (if input.site.Present? then input.site.value else p.site)
      && q.pageType == (if input.pageType.Present? then input.pageType.value else p.pageType)
  {
    var u := StoredUpdate(input);
    assert QuoteFree("file");
    SetClauseReadsBack(u);
    assert UpdateAssignments(u) != [] by {
      assert UpdateAssignments(u)[|UpdateAssignments(u)| - 1] == SetFile("file");
    }
    UpdateSetsRequestedColumns(p.(date := today), u);
  }

  // ---------------------------------------------------------------------------
  // deletePage

  /** `deletePage(id)`: removes and returns the page with a UUID id. */
  method ResolveDeletePage(db: Database, id: string, link: Link) returns (r: ResultOrError<Page>)
    requires db.Valid()
    modifies db
    ensures db.Valid() && (r.Value? ==> r.value.id == id)
    ensures !IsUUID(id) ==>
              r == Wrap(Queries.BadIdError(id)) && db.table == old(db.table) && db.log == old(db.log)
    ensures IsUUID(id) ==> db.log == old(db.log) + QueryEvents(DeleteById(id), link)
    ensures IsUUID(id) && link != Up ==>
              r == Wrap(NewUnknownError(QueryFailedMessage)) && db.table == old(db.table)
    ensures IsUUID(id) && link == Up && id in old(db.table) ==>
              r == Value(old(db.table)[id]) && db.table == old(db.table) - {id}
    ensures IsUUID(id) && link == Up && id !in old(db.table) ==>
              r == Wrap(NewNotFoundError(NotFoundMessage(id))) && db.table == old(db.table)
  {
    var checks := [ValidateUUID(JsString(id), "id")];
    var outcome := Validate(checks);
    if outcome.Fail? {
      ValidateOneFailure(checks, FieldError("id", id + " is not a valid UUID"));
      return Wrap(outcome.error);
    }
    var page := db.DeletePage(id, link);
    if page.Failure? {
      return Wrap(page.error);
    }
    r := Value(page.value);
  }
}
