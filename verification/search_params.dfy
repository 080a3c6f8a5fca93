/** The search page's filter panel: the selections it starts from and the
    rewrite of the URL query parameters by "apply" and "clear". The query
    string is an abstract map from key to value; `set` replaces a key and
    `delete` removes it. */
module SearchParams {
  import opened Wrappers
  import opened Text

  type Params = map<string, string>

  /** The three controls of the panel. */
  datatype Selections = Selections(category: string, sortBy: string, sortOrder: string)

  /** `URLSearchParams.get`: `None` for a missing key. */
  function Get(params: Params, key: string): Option<string> {
    if key in params then Some(params[key]) else None
  }

  /** The keys the panel rewrites; every other key is left alone. */
  const Managed: set<string> := {"category", "sortBy", "sortOrder", "page"}

  /** The sort orders the radio group offers. */
  const RadioValues: set<string> := {"DESC", "ASC"}

  /** The selections the panel starts with, read from the URL; a missing or
      empty parameter falls back to its default. */
  function InitialSelections(params: Params): (s: Selections)
    ensures s.category == if Truthy(Get(params, "category")) then params["category"] else "all"
    ensures s.sortBy == if Truthy(Get(params, "sortBy")) then params["sortBy"] else "relevance"
    ensures s.sortOrder == if Truthy(Get(params, "sortOrder")) then params["sortOrder"] else "DESC"
    ensures s.category != "" && s.sortBy != "" && s.sortOrder != ""
  {
    Selections(
      OrElse(Get(params, "category"), "all"),
      OrElse(Get(params, "sortBy"), "relevance"),
      OrElse(Get(params, "sortOrder"), "DESC"))
  }

  /** `applyFilters`: a real category is written, "all" or an empty one
      removes the key, both sort keys are written and paging restarts. */
  function ApplyFilters(params: Params, s: Selections): (r: Params)
    ensures "category" in r <==> s.category != "" && s.category != "all"
    ensures "category" in r ==> r["category"] == s.category
    ensures "sortBy" in r && r["sortBy"] == s.sortBy
    ensures "sortOrder" in r && r["sortOrder"] == s.sortOrder
    ensures "page" in r && r["page"] == "1"
    ensures forall k :: k !in Managed ==> (k in r <==> k in params)
    ensures forall k :: k !in Managed && k in params ==> r[k] == params[k]
  {
    var withCategory :=
      if s.category != "" && s.category != "all" then params["category" := s.category]
      else params - {"category"};
    withCategory["sortBy" := s.sortBy]["sortOrder" := s.sortOrder]["page" := "1"]
  }

  /** What "clear" produces: the new parameters and the panel's new
      selections. */
  datatype Cleared = Cleared(params: Params, selections: Selections)

  /** `clearFilters` as written: the category is removed and the sort is reset,
      but to the order "desc" in lower case. */
  function ClearFilters(params: Params): (c: Cleared)
    ensures "category" !in c.params
    ensures "sortBy" in c.params && c.params["sortBy"] == "relevance"
    ensures "sortOrder" in c.params && c.params["sortOrder"] == "desc"
    ensures "page" in c.params && c.params["page"] == "1"
    ensures forall k :: k !in Managed ==> (k in c.params <==> k in params)
    ensures forall k :: k !in Managed && k in params ==> c.params[k] == params[k]
    ensures c.selections == Selections("all", "relevance", "desc")
  {
    Cleared(
      (params - {"category"})["sortBy" := "relevance"]["sortOrder" := "desc"]["page" := "1"],
      Selections("all", "relevance", "desc"))
  }

  /** After `clearFilters` the radio group shows no choice: "desc" is neither
      of its values, while a fresh page with no parameters selects "DESC". */
  lemma ClearLeavesNoRadioSelected(params: Params)
    ensures ClearFilters(params).selections.sortOrder !in RadioValues
    ensures InitialSelections(map[]).sortOrder in RadioValues
    ensures ClearFilters(params).selections != InitialSelections(map[])
  {
  }

  /** `clearFilters` with the evident intent: the sort order resets to the
      panel's own default "DESC". */
  function ClearFiltersIntended(params: Params): (c: Cleared)
    ensures "category" !in c.params
    ensures "sortBy" in c.params && c.params["sortBy"] == "relevance"
    ensures "sortOrder" in c.params && c.params["sortOrder"] == "DESC"
    ensures c.selections == Selections("all", "relevance", "DESC")
    ensures "page" in c.params && c.params["page"] == "1"
    ensures forall k :: k !in Managed ==> (k in c.params <==> k in params)
    ensures forall k :: k !in Managed && k in params ==> c.params[k] == params[k]
  {
    var s := Selections("all", "relevance", "DESC");
    Cleared(ApplyFilters(params, s), s)
  }

  /** The intended clear leaves the panel exactly as a page without filter
      parameters would start, with a radio value selected, and its URL reads
      back as the same selections. */
  lemma ClearIntendedMatchesFreshPanel(params: Params)
    ensures ClearFiltersIntended(params).selections == InitialSelections(map[])
    ensures ClearFiltersIntended(params).selections.sortOrder in RadioValues
    ensures InitialSelections(ClearFiltersIntended(params).params) == ClearFiltersIntended(params).selections
  {
  }

  /** Selections with the panel's own defaults standing in for empty
      values. */
  function Normalise(s: Selections): Selections {
    Selections(
      if s.category == "" then "all" else s.category,
      if s.sortBy == "" then "relevance" else s.sortBy,
      if s.sortOrder == "" then "DESC" else s.sortOrder)
  }

  /** Round trip: the page that `applyFilters` navigates to starts with the
      selections that were applied, up to the defaults for empty values. */
  lemma ApplyThenRead(params: Params, s: Selections)
    ensures InitialSelections(ApplyFilters(params, s)) == Normalise(s)
  {
  }

  /** Round trip the other way: applying the selections a page starts with
      changes only the managed keys, keeps a real category, and drops a
      category that says "all". */
  lemma ReadThenApply(params: Params)
    ensures var r := ApplyFilters(params, InitialSelections(params));
      && (forall k :: k !in Managed ==> (k in r <==> k in params))
      && ("category" in r <==> Truthy(Get(params, "category")) && params["category"] != "all")
      && ("category" in r ==> r["category"] == params["category"])
  {
  }

  /** Applying the same selections, or clearing, a second time changes
      nothing. */
  lemma Idempotent(params: Params, s: Selections)
    ensures ApplyFilters(ApplyFilters(params, s), s) == ApplyFilters(params, s)
    ensures ClearFilters(ClearFilters(params).params).params == ClearFilters(params).params
  {
  }
}
