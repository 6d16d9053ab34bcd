/**
 * The quick-solutions page state: the listed solutions and their total,
 * the category and search filters, the request a load sends, and the local
 * "helpful" counter update.
 *
 * The API is external: each operation gets the call's outcome.
 */
module QuickSolutionsHook {
  import opened Wrappers
  import opened Seqs

  datatype Solution = Solution(id: string, title: string, category: string, helpfulCount: int, viewsCount: int)

  /** The parameters a caller may pass to loadSolutions; absent ones are None. */
  datatype LoadParams = LoadParams(category: Option<string>, search: Option<string>, limit: Option<int>, offset: Option<int>)

  const NoParams: LoadParams := LoadParams(None, None, None, None)

  /** The query sent to the list endpoint; None is an absent filter. */
  datatype Query = Query(category: Option<string>, search: Option<string>, limit: int, offset: int)

  /** The outcome of an API call: its value, or a throw (with the Error's message when it is one). */
  datatype Call<T> = Done(value: T) | Thrown(message: Option<string>)

  predicate Truthy(s: Option<string>)
  {
    s.Some? && s.value != ""
  }

  /** `a || b || undefined` over optional strings. */
  function FirstTruthy(a: Option<string>, b: Option<string>): (r: Option<string>)
    ensures Truthy(a) ==> r == a
    ensures !Truthy(a) && Truthy(b) ==> r == b
    ensures !Truthy(a) && !Truthy(b) ==> r.None?
  {
    if Truthy(a) then a else if Truthy(b) then b else None
  }

  /** `n || fallback` over an optional number: absent and zero both fall back. */
  function OrDefault(n: Option<int>, fallback: int): (r: int)
    ensures n.Some? && n.value != 0 ==> r == n.value
    ensures n.None? || n.value == 0 ==> r == fallback
  {
    if n.Some? && n.value != 0 then n.value else fallback
  }

  /** The query loadSolutions sends: the given filters, else the stored ones; limit 50 and offset 0 by default. */
  function QueryFor(p: LoadParams, selectedCategory: Option<string>, searchTerm: string): (q: Query)
    ensures q.category == FirstTruthy(p.category, selectedCategory)
    ensures q.search == FirstTruthy(p.search, Some(searchTerm))
    ensures q.limit == OrDefault(p.limit, 50) && q.offset == OrDefault(p.offset, 0)
  {
    Query(FirstTruthy(p.category, selectedCategory), FirstTruthy(p.search, Some(searchTerm)),
          OrDefault(p.limit, 50), OrDefault(p.offset, 0))
  }

  /** The reload a filter change triggers sends the stored filters, the first 50 results, from the start. */
  lemma ReloadUsesStoredFilters(selectedCategory: Option<string>, searchTerm: string)
    ensures QueryFor(NoParams, selectedCategory, searchTerm) ==
      Query(if Truthy(selectedCategory) then selectedCategory else None,
            if searchTerm != "" then Some(searchTerm) else None, 50, 0)
  {
  }

  /** After clearing the filters the reload asks for everything. */
  lemma ClearedReloadIsUnfiltered()
    ensures QueryFor(NoParams, None, "") == Query(None, None, 50, 0)
  {
  }

  function HelpedWhere(id: string): Solution -> Solution
  {
    (s: Solution) => if s.id == id then s.(helpfulCount := s.helpfulCount + 1) else s
  }

  /** markAsHelpful's local update: one more helpful vote on the solution with that id, nothing else. */
  function Helped(sols: seq<Solution>, id: string): (r: seq<Solution>)
    ensures |r| == |sols|
    ensures forall k :: 0 <= k < |sols| ==>
      r[k] == (if sols[k].id == id then sols[k].(helpfulCount := sols[k].helpfulCount + 1) else sols[k])
  {
    Map(sols, HelpedWhere(id))
  }

  function TotalHelpful(sols: seq<Solution>): int
  {
    if sols == [] then 0 else sols[0].helpfulCount + TotalHelpful(sols[1..])
  }

  function HasId(id: string): Solution -> bool
  {
    (s: Solution) => s.id == id
  }

  /** The votes on the page rise by exactly the number of listed solutions with that id (one, ids being unique). */
  lemma {:induction false} HelpedAddsOnePerMatch(sols: seq<Solution>, id: string)
    ensures TotalHelpful(Helped(sols, id)) == TotalHelpful(sols) + Count(sols, HasId(id))
  {
    if sols != [] {
      HelpedAddsOnePerMatch(sols[1..], id);
      assert Helped(sols, id)[1..] == Helped(sols[1..], id);
      assert sols == [sols[0]] + sols[1..];
      FilterConcat([sols[0]], sols[1..], HasId(id));
    }
  }

  class QuickSolutions {
    var solutions: seq<Solution>
    var categories: seq<string>
    var loading: bool
    var error: Option<string>
    var totalCount: int
    var selectedCategory: Option<string>
    var searchTerm: string

    constructor()
      ensures solutions == [] && categories == [] && !loading && error.None? && totalCount == 0
      ensures selectedCategory.None? && searchTerm == ""
    {
      solutions := [];
      categories := [];
      loading := false;
      error := None;
      totalCount := 0;
      selectedCategory := None;
      searchTerm := "";
    }

    /** loadSolutions: send the query; take the page and its total, or record the error; loading ends either way. */
    method LoadSolutions(p: LoadParams, response: Call<(seq<Solution>, int)>) returns (q: Query)
      modifies this
      ensures q == QueryFor(p, old(selectedCategory), old(searchTerm))
      ensures !loading
      ensures response.Done? ==> solutions == response.value.0 && totalCount == response.value.1 && error.None?
      ensures response.Thrown? ==>
        solutions == old(solutions) && totalCount == old(totalCount) && error == Some(if response.message.Some? then response.message.value else "Error al cargar soluciones")
      ensures selectedCategory == old(selectedCategory) && searchTerm == old(searchTerm) && categories == old(categories)
    {
      loading := true;
      error := None;
      q := QueryFor(p, selectedCategory, searchTerm);
      match response {
        case Done(page) =>
          solutions := page.0;
          totalCount := page.1;
        case Thrown(m) =>
          error := Some(if m.Some? then m.value else "Error al cargar soluciones");
      }
      loading := false;
    }

    /** loadCategories: a failure is only logged. */
    method LoadCategories(fetched: Option<seq<string>>)
      modifies this
      ensures categories == (if fetched.Some? then fetched.value else old(categories))
      ensures solutions == old(solutions) && loading == old(loading) && error == old(error)
      ensures selectedCategory == old(selectedCategory) && searchTerm == old(searchTerm)
    {
      if fetched.Some? {
        categories := fetched.value;
      }
    }

    /** markAsHelpful: after the call succeeds, one more vote on that solution; a failure is rethrown. */
    method MarkAsHelpful(id: string, callFailed: bool) returns (raised: bool)
      modifies this
      ensures raised == callFailed
      ensures solutions == (if callFailed then old(solutions) else Helped(old(solutions), id))
      ensures loading == old(loading) && error == old(error) && totalCount == old(totalCount)
      ensures selectedCategory == old(selectedCategory) && searchTerm == old(searchTerm)
    {
      if callFailed {
        return true;
      }
      solutions := Helped(solutions, id);
      raised := false;
    }

    /** filterByCategory; returns whether the filters changed, which reloads the list. */
    method FilterByCategory(category: Option<string>) returns (reload: bool)
      modifies this
      ensures selectedCategory == category && searchTerm == old(searchTerm)
      ensures reload <==> category != old(selectedCategory)
      ensures solutions == old(solutions) && loading == old(loading) && error == old(error)
    {
      reload := category != selectedCategory;
      selectedCategory := category;
    }

    /** search; returns whether the filters changed, which reloads the list. */
    method Search(term: string) returns (reload: bool)
      modifies this
      ensures searchTerm == term && selectedCategory == old(selectedCategory)
      ensures reload <==> term != old(searchTerm)
      ensures solutions == old(solutions) && loading == old(loading) && error == old(error)
    {
      reload := term != searchTerm;
      searchTerm := term;
    }

    /** clearFilters: no category and an empty search; reloads unless they were already clear. */
    method ClearFilters() returns (reload: bool)
      modifies this
      ensures selectedCategory.None? && searchTerm == ""
      ensures reload <==> old(selectedCategory).Some? || old(searchTerm) != ""
      ensures solutions == old(solutions) && loading == old(loading) && error == old(error)
    {
      reload := selectedCategory.Some? || searchTerm != "";
      selectedCategory := None;
      searchTerm := "";
    }
  }
}
