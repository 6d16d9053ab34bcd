/**
 * `QuickSolutionsService`: the searchable list of answers to common problems, paged and ordered
 * by usefulness, its per-category tally, the popular list, and the view / "helpful" counters.
 */
module QuickSolutions {
  import opened Wrappers
  import opened Strings
  import opened Seqs

  datatype Solution = Solution(
    id: string,
    title: string,
    problemDescription: string,
    tags: seq<string>,
    category: Option<string>,   // None: the row has no `category` key
    isActive: bool,
    viewsCount: nat,
    helpfulCount: nat)

  class SolutionsDb {
    var rows: seq<Solution>

    constructor ()
      ensures rows == []
    {
      rows := [];
    }
  }

  predicate IsActive(s: Solution) { s.isActive }

  function Active(): Solution -> bool
  {
    (s: Solution) => IsActive(s)
  }

  // ---------- listing ----------

  /**
   * The search clause: title or description contains the term case-insensitively (`ilike`
   * with `%term%`), or the tags array holds the term itself.
   */
  predicate MatchesSearch(s: Solution, term: string)
  {
    Contains(Lower(s.title), Lower(term)) || Contains(Lower(s.problemDescription), Lower(term)) || term in s.tags
  }

  /** Active, in the category when one is given, and matching the search when it is not blank. */
  predicate Listed(s: Solution, category: Option<string>, search: Option<string>)
  {
    s.isActive &&
    (category.Some? && category.value != "" ==> s.category == Some(category.value)) &&
    (search.Some? && !IsBlank(search.value) ==> MatchesSearch(s, search.value))
  }

  function ListedBy(category: Option<string>, search: Option<string>): Solution -> bool
  {
    (s: Solution) => Listed(s, category, search)
  }

  /** `.order("helpful_count", desc=True)`. */
  predicate MoreHelpful(a: Solution, b: Solution) { a.helpfulCount >= b.helpfulCount }

  lemma MoreHelpfulIsTotal()
    ensures TotalPreorder(MoreHelpful)
  {
  }

  /** `.range(offset, offset + limit - 1)`: the rows at positions offset .. offset+limit-1 that exist. */
  function Window(s: seq<Solution>, offset: nat, limit: nat): (r: seq<Solution>)
    ensures |r| <= limit
    ensures offset < |s| ==> |r| == if offset + limit <= |s| then limit else |s| - offset
    ensures offset >= |s| ==> r == []
    ensures forall k :: 0 <= k < |r| ==> r[k] == s[offset + k]
  {
    if offset >= |s| then [] else s[offset .. if offset + limit <= |s| then offset + limit else |s|]
  }

  /** Two adjacent windows make up the window covering both. */
  lemma WindowsTile(s: seq<Solution>, offset: nat, l1: nat, l2: nat)
    ensures Window(s, offset, l1) + Window(s, offset + l1, l2) == Window(s, offset, l1 + l2)
  {
    var a, b, c := Window(s, offset, l1), Window(s, offset + l1, l2), Window(s, offset, l1 + l2);
    assert |a + b| == |c|;
    forall k | 0 <= k < |c| ensures (a + b)[k] == c[k] {
      if k >= |a| {
        assert (a + b)[k] == b[k - |a|];
      }
    }
  }

  datatype Page = Page(data: seq<Solution>, count: nat)

  /** The rows `list_solutions` would list, most helpful first (before paging). */
  function ListedInOrder(rows: seq<Solution>, category: Option<string>, search: Option<string>): (r: seq<Solution>)
    ensures |r| == Count(rows, ListedBy(category, search))
    ensures SortedBy(r, MoreHelpful)
    ensures multiset(r) == multiset(Filter(rows, ListedBy(category, search)))
  {
    MoreHelpfulIsTotal();
    SortBy(Filter(rows, ListedBy(category, search)), MoreHelpful)
  }

  /**
   * `list_solutions`: one page of the listed rows, most helpful first, with `count` the number of
   * all listed rows. The limit is at least 1, as the endpoint requires.
   */
  function ListSolutions(rows: seq<Solution>, category: Option<string>, search: Option<string>,
                         limit: nat, offset: nat): (p: Page)
    requires limit >= 1
    ensures p.count == Count(rows, ListedBy(category, search))
    ensures |p.data| <= limit
    ensures offset >= p.count ==> p.data == []
    ensures offset < p.count ==> |p.data| == if offset + limit <= p.count then limit else p.count - offset
    ensures forall k :: 0 <= k < |p.data| ==> p.data[k] in rows && Listed(p.data[k], category, search)
    ensures SortedBy(p.data, MoreHelpful)
  {
    var listed := Filter(rows, ListedBy(category, search));
    var all := ListedInOrder(rows, category, search);
    var data := Window(all, offset, limit);
    SameMembers(all, listed);
    forall k | 0 <= k < |data| ensures data[k] in rows && Listed(data[k], category, search) {
      assert data[k] == all[offset + k];
      assert data[k] in listed;
    }
    assert SortedBy(data, MoreHelpful) by {
      forall i, j | 0 <= i < j < |data| ensures MoreHelpful(data[i], data[j]) {
        assert data[i] == all[offset + i] && data[j] == all[offset + j];
      }
    }
    Page(data, |all|)
  }

  /** Consecutive pages, taken with the same filters, continue one another without gap or overlap. */
  lemma PagesTile(rows: seq<Solution>, category: Option<string>, search: Option<string>,
                  offset: nat, l1: nat, l2: nat)
    requires l1 >= 1 && l2 >= 1
    ensures ListSolutions(rows, category, search, l1, offset).data +
            ListSolutions(rows, category, search, l2, offset + l1).data ==
            ListSolutions(rows, category, search, l1 + l2, offset).data
  {
    WindowsTile(ListedInOrder(rows, category, search), offset, l1, l2);
  }

  /** A first page at least as large as the count holds every listed row. */
  lemma FirstPageHoldsAll(rows: seq<Solution>, category: Option<string>, search: Option<string>, limit: nat)
    requires limit >= Count(rows, ListedBy(category, search)) && limit >= 1
    ensures multiset(ListSolutions(rows, category, search, limit, 0).data) ==
            multiset(Filter(rows, ListedBy(category, search)))
  {
    var all := ListedInOrder(rows, category, search);
    assert Window(all, 0, limit) == all;
  }

  // ---------- counters ----------

  datatype Counter = Views | Helpful

  function Bumped(s: Solution, c: Counter): (b: Solution)
    ensures c == Views ==> b.viewsCount == s.viewsCount + 1 && b.helpfulCount == s.helpfulCount
    ensures c == Helpful ==> b.helpfulCount == s.helpfulCount + 1 && b.viewsCount == s.viewsCount
    ensures b.id == s.id && b.isActive == s.isActive && b.category == s.category
  {
    match c
    case Views => s.(viewsCount := s.viewsCount + 1)
    case Helpful => s.(helpfulCount := s.helpfulCount + 1)
  }

  /** `.update({counter: new}).eq("id", id)`. */
  function BumpWhere(id: string, c: Counter): Solution -> Solution
  {
    (s: Solution) => if s.id == id then Bumped(s, c) else s
  }

  /** `get_solution_by_id`: the active row with that id; None when there is none. */
  function FindActiveSolution(rows: seq<Solution>, id: string): (r: Option<Solution>)
    ensures r.Some? ==> r.value in rows && r.value.id == id && r.value.isActive
    ensures r.None? <==> forall k :: 0 <= k < |rows| ==> !(rows[k].id == id && rows[k].isActive)
  {
    if rows == [] then None
    else if rows[0].id == id && rows[0].isActive then Some(rows[0])
    else
      var r := FindActiveSolution(rows[1..], id);
      assert forall k :: 1 <= k < |rows| ==> rows[k] == rows[1..][k - 1];
      r
  }

  /**
   * `increment_view_count` / `increment_helpful_count`. When the database function returned
   * data it did the increment; otherwise the row is read and written back with the counter plus
   * one, and only when an active row has that id. The result is True either way.
   */
  method IncrementCounter(db: SolutionsDb, id: string, c: Counter, rpcReturnedData: bool) returns (ok: bool)
    modifies db
    ensures ok
    ensures rpcReturnedData ==> db.rows == Map(old(db.rows), BumpWhere(id, c))
    ensures !rpcReturnedData ==>
      db.rows == if FindActiveSolution(old(db.rows), id).Some? then Map(old(db.rows), BumpWhere(id, c)) else old(db.rows)
  {
    if rpcReturnedData {
      db.rows := Map(db.rows, BumpWhere(id, c));
    } else {
      var current := FindActiveSolution(db.rows, id);
      if current.Some? {
        db.rows := Map(db.rows, BumpWhere(id, c));
      }
    }
    ok := true;
  }

  method IncrementViewCount(db: SolutionsDb, id: string, rpcReturnedData: bool) returns (ok: bool)
    modifies db
    ensures ok
    ensures rpcReturnedData || FindActiveSolution(old(db.rows), id).Some? ==>
      db.rows == Map(old(db.rows), BumpWhere(id, Views))
    ensures !rpcReturnedData && FindActiveSolution(old(db.rows), id).None? ==> db.rows == old(db.rows)
  {
    ok := IncrementCounter(db, id, Views, rpcReturnedData);
  }

  method IncrementHelpfulCount(db: SolutionsDb, id: string, rpcReturnedData: bool) returns (ok: bool)
    modifies db
    ensures ok
    ensures rpcReturnedData || FindActiveSolution(old(db.rows), id).Some? ==>
      db.rows == Map(old(db.rows), BumpWhere(id, Helpful))
    ensures !rpcReturnedData && FindActiveSolution(old(db.rows), id).None? ==> db.rows == old(db.rows)
  {
    ok := IncrementCounter(db, id, Helpful, rpcReturnedData);
  }

  function CounterOf(s: Solution, c: Counter): nat
  {
    if c == Views then s.viewsCount else s.helpfulCount
  }

  /** The sum of one counter over the table. */
  function CounterTotal(rows: seq<Solution>, c: Counter): nat
  {
    if rows == [] then 0 else CounterOf(rows[0], c) + CounterTotal(rows[1..], c)
  }

  function HasId(id: string): Solution -> bool
  {
    (s: Solution) => s.id == id
  }

  /**
   * An increment raises the counter total by the number of rows with that id (exactly 1 for a
   * unique id) and leaves the other counter alone.
   */
  lemma {:induction false} IncrementAddsOnePerRow(rows: seq<Solution>, id: string, c: Counter, other: Counter)
    requires other != c
    ensures CounterTotal(Map(rows, BumpWhere(id, c)), c) == CounterTotal(rows, c) + Count(rows, HasId(id))
    ensures CounterTotal(Map(rows, BumpWhere(id, c)), other) == CounterTotal(rows, other)
  {
    if rows != [] {
      var after := Map(rows, BumpWhere(id, c));
      assert after[1..] == Map(rows[1..], BumpWhere(id, c));
      IncrementAddsOnePerRow(rows[1..], id, c, other);
    }
  }

  // ---------- categories ----------

  /** `item.get("category", "otros")`. */
  function CategoryOf(s: Solution): string
  {
    s.category.GetOr("otros")
  }

  /** The categories of the active rows, in table order. */
  function ActiveCategories(rows: seq<Solution>): (cats: seq<string>)
    ensures |cats| == Count(rows, Active())
  {
    if rows == [] then []
    else
      var init := rows[..|rows| - 1];
      var last := rows[|rows| - 1];
      assert rows == init + [last];
      FilterConcat(init, [last], Active());
      ActiveCategories(init) + if last.isActive then [CategoryOf(last)] else []
  }

  /** How often `c` occurs. */
  function Occurrences(cats: seq<string>, c: string): nat
  {
    if cats == [] then 0
    else Occurrences(cats[..|cats| - 1], c) + if cats[|cats| - 1] == c then 1 else 0
  }

  predicate Distinct(s: seq<string>)
  {
    forall i, j :: 0 <= i < j < |s| ==> s[i] != s[j]
  }

  /** The distinct categories in order of first appearance: the key order of a Python dict. */
  function FirstAppearance(cats: seq<string>): (keys: seq<string>)
    ensures Distinct(keys)
    ensures forall c :: c in keys <==> c in cats
  {
    if cats == [] then []
    else
      var keys := FirstAppearance(cats[..|cats| - 1]);
      var last := cats[|cats| - 1];
      assert cats == cats[..|cats| - 1] + [last];
      if last in keys then keys else keys + [last]
  }

  const CategoryNames: map<string, string> := map[
    "matricula" := "Matrícula", "horarios" := "Horarios", "examenes" := "Exámenes", "pagos" := "Pagos",
    "certificados" := "Certificados", "tramites" := "Trámites", "biblioteca" := "Biblioteca",
    "plataforma" := "Plataforma"]

  /** The display name: from the fixed table, else the id capitalised. */
  function CategoryName(cat: string): (name: string)
    ensures cat !in CategoryNames ==> name == Capitalize(cat)
  {
    if cat in CategoryNames then CategoryNames[cat] else Capitalize(cat)
  }

  datatype CategoryCount = CategoryCount(id: string, name: string, count: nat)

  function TallyRow(cats: seq<string>): string -> CategoryCount
  {
    c => CategoryCount(c, CategoryName(c), Occurrences(cats, c))
  }

  /** `sorted(..., key=count, reverse=True)`: stable, so equal counts keep first-appearance order. */
  predicate LargerFirst(a: CategoryCount, b: CategoryCount) { a.count >= b.count }

  lemma LargerFirstIsTotal()
    ensures TotalPreorder(LargerFirst)
  {
  }

  /** `get_categories`: one entry per category of the active rows, largest count first. */
  function Categories(rows: seq<Solution>): (r: seq<CategoryCount>)
    ensures SortedBy(r, LargerFirst)
    ensures multiset(r) == multiset(Map(FirstAppearance(ActiveCategories(rows)), TallyRow(ActiveCategories(rows))))
  {
    LargerFirstIsTotal();
    var cats := ActiveCategories(rows);
    SortBy(Map(FirstAppearance(cats), TallyRow(cats)), LargerFirst)
  }

  /** Every listed entry names a category of an active row, with its number of rows (at least 1). */
  lemma CategoriesAreCounts(rows: seq<Solution>)
    ensures var cats := ActiveCategories(rows);
            forall e :: e in Categories(rows) ==>
              e.id in cats && e.count == Occurrences(cats, e.id) && e.count >= 1 && e.name == CategoryName(e.id)
  {
    var cats := ActiveCategories(rows);
    var keys := FirstAppearance(cats);
    var tally := Map(keys, TallyRow(cats));
    var r := Categories(rows);
    SameMembers(r, tally);
    forall e | e in r
      ensures e.id in cats && e.count == Occurrences(cats, e.id) && e.count >= 1 && e.name == CategoryName(e.id)
    {
      var k :| 0 <= k < |tally| && tally[k] == e;
      var c := keys[k];
      assert e == CategoryCount(c, CategoryName(c), Occurrences(cats, c));
      assert c in keys;
      OccursAtLeastOnce(cats, c);
    }
  }

  /** Every category of an active row gets an entry. */
  lemma CategoriesCoverActive(rows: seq<Solution>)
    ensures var cats := ActiveCategories(rows);
            forall c :: c in cats ==> exists k :: 0 <= k < |Categories(rows)| && Categories(rows)[k].id == c
  {
    var cats := ActiveCategories(rows);
    var keys := FirstAppearance(cats);
    var tally := Map(keys, TallyRow(cats));
    var r := Categories(rows);
    SameMembers(r, tally);
    forall c | c in cats ensures exists k :: 0 <= k < |r| && r[k].id == c {
      var j :| 0 <= j < |keys| && keys[j] == c;
      assert tally[j] in r;
      var k :| 0 <= k < |r| && r[k] == tally[j];
      assert r[k].id == c;
    }
  }

  lemma {:induction false} OccursAtLeastOnce(cats: seq<string>, c: string)
    requires c in cats
    ensures Occurrences(cats, c) >= 1
  {
    var init := cats[..|cats| - 1];
    if cats[|cats| - 1] != c {
      assert cats == init + [cats[|cats| - 1]];
      OccursAtLeastOnce(init, c);
    }
  }

  lemma {:induction false} OccurrencesAbsent(cats: seq<string>, c: string)
    requires c !in cats
    ensures Occurrences(cats, c) == 0
  {
    if cats != [] {
      assert cats[|cats| - 1] in cats;
      assert forall x :: x in cats[..|cats| - 1] ==> x in cats;
      OccurrencesAbsent(cats[..|cats| - 1], c);
    }
  }

  /** The counts of a list of entries, added up. */
  function CountTotal(entries: seq<CategoryCount>): nat
  {
    if entries == [] then 0 else entries[0].count + CountTotal(entries[1..])
  }

  /** The occurrences of each key, added up. */
  function OccurrenceTotal(keys: seq<string>, cats: seq<string>): nat
  {
    if keys == [] then 0 else Occurrences(cats, keys[0]) + OccurrenceTotal(keys[1..], cats)
  }

  lemma {:induction false} CountTotalOfTally(keys: seq<string>, cats: seq<string>)
    ensures CountTotal(Map(keys, TallyRow(cats))) == OccurrenceTotal(keys, cats)
  {
    if keys != [] {
      assert Map(keys, TallyRow(cats))[1..] == Map(keys[1..], TallyRow(cats));
      CountTotalOfTally(keys[1..], cats);
    }
  }

  /** One more category seen adds 1 to the total over distinct keys exactly when the keys hold it. */
  lemma {:induction false} OccurrenceTotalSnoc(keys: seq<string>, cats: seq<string>, x: string)
    requires Distinct(keys)
    ensures OccurrenceTotal(keys, cats + [x]) == OccurrenceTotal(keys, cats) + if x in keys then 1 else 0
  {
    if keys != [] {
      assert (cats + [x])[..|cats + [x]| - 1] == cats;
      assert Distinct(keys[1..]) by {
        forall i, j | 0 <= i < j < |keys[1..]| ensures keys[1..][i] != keys[1..][j] {
          assert keys[1..][i] == keys[i + 1] && keys[1..][j] == keys[j + 1];
        }
      }
      assert x in keys <==> x == keys[0] || x in keys[1..];
      assert x == keys[0] ==> x !in keys[1..] by {
        if x == keys[0] {
          forall k | 0 <= k < |keys[1..]| ensures keys[1..][k] != x {
            assert keys[1..][k] == keys[k + 1];
          }
        }
      }
      OccurrenceTotalSnoc(keys[1..], cats, x);
    }
  }

  lemma {:induction false} OccurrenceTotalAppendKey(keys: seq<string>, cats: seq<string>, x: string)
    ensures OccurrenceTotal(keys + [x], cats) == OccurrenceTotal(keys, cats) + Occurrences(cats, x)
  {
    if keys != [] {
      assert (keys + [x])[1..] == keys[1..] + [x];
      OccurrenceTotalAppendKey(keys[1..], cats, x);
    } else {
      assert [x][1..] == [];
    }
  }

  /** Every category occurrence is counted under exactly one key. */
  lemma {:induction false} TallyCoversAll(cats: seq<string>)
    ensures OccurrenceTotal(FirstAppearance(cats), cats) == |cats|
  {
    if cats != [] {
      var init := cats[..|cats| - 1];
      var x := cats[|cats| - 1];
      assert cats == init + [x];
      var keys := FirstAppearance(init);
      TallyCoversAll(init);
      OccurrenceTotalSnoc(keys, init, x);
      if x !in keys {
        OccurrenceTotalAppendKey(keys, cats, x);
        OccurrencesAbsent(init, x);
      }
    }
  }

  lemma {:induction false} CountTotalInsert(e: CategoryCount, entries: seq<CategoryCount>)
    ensures CountTotal(Insert(e, entries, LargerFirst)) == e.count + CountTotal(entries)
  {
    if entries != [] && !LargerFirst(e, entries[0]) {
      var r := Insert(e, entries, LargerFirst);
      assert r[1..] == Insert(e, entries[1..], LargerFirst);
      CountTotalInsert(e, entries[1..]);
    }
  }

  lemma {:induction false} CountTotalSorted(entries: seq<CategoryCount>)
    requires TotalPreorder(LargerFirst)
    ensures CountTotal(SortBy(entries, LargerFirst)) == CountTotal(entries)
  {
    if entries != [] {
      CountTotalSorted(entries[1..]);
      CountTotalInsert(entries[0], SortBy(entries[1..], LargerFirst));
    }
  }

  /** The category counts add up to the number of active rows. */
  lemma CategoryCountsSumToActive(rows: seq<Solution>)
    ensures CountTotal(Categories(rows)) == Count(rows, Active())
  {
    var cats := ActiveCategories(rows);
    LargerFirstIsTotal();
    CountTotalSorted(Map(FirstAppearance(cats), TallyRow(cats)));
    CountTotalOfTally(FirstAppearance(cats), cats);
    TallyCoversAll(cats);
  }

  lemma ActiveCategoriesStep(rows: seq<Solution>, i: nat)
    requires i < |rows|
    ensures ActiveCategories(rows[..i + 1]) ==
            ActiveCategories(rows[..i]) + if rows[i].isActive then [CategoryOf(rows[i])] else []
  {
    assert rows[..i + 1][..i] == rows[..i];
  }

  /** Seeing one more category: a new key at the end when unseen, and its count up by one. */
  lemma TallyStep(cats: seq<string>, x: string)
    ensures FirstAppearance(cats + [x]) ==
            if x in FirstAppearance(cats) then FirstAppearance(cats) else FirstAppearance(cats) + [x]
    ensures forall c :: Occurrences(cats + [x], c) == Occurrences(cats, c) + if x == c then 1 else 0
  {
    assert (cats + [x])[..|cats|] == cats;
  }

  /** The running state of the first pass after seeing `cats`: the keys in first-seen order and each key's count. */
  ghost predicate Tallied(cats: seq<string>, order: seq<string>, counts: map<string, nat>)
  {
    order == FirstAppearance(cats) &&
    (forall c :: c in counts <==> c in order) &&
    (forall c :: c in order ==> counts[c] == Occurrences(cats, c))
  }

  /** One more active row keeps the pass's state exact. */
  lemma TalliedStep(cats: seq<string>, order: seq<string>, counts: map<string, nat>, x: string)
    requires Tallied(cats, order, counts)
    ensures x !in counts ==> Tallied(cats + [x], order + [x], counts[x := 1])
    ensures x in counts ==> Tallied(cats + [x], order, counts[x := counts[x] + 1])
  {
    TallyStep(cats, x);
    if x !in counts {
      OccurrencesAbsent(cats, x);
    }
  }

  /** The first pass of `get_categories`: the dict of counts over the active rows, keys in first-seen order. */
  method CountByCategory(rows: seq<Solution>) returns (order: seq<string>, counts: map<string, nat>)
    ensures order == FirstAppearance(ActiveCategories(rows))
    ensures forall c :: c in counts <==> c in order
    ensures forall c :: c in order ==> counts[c] == Occurrences(ActiveCategories(rows), c)
  {
    order, counts := [], map[];
    for i := 0 to |rows|
      invariant Tallied(ActiveCategories(rows[..i]), order, counts)
    {
      ActiveCategoriesStep(rows, i);
      ghost var cats := ActiveCategories(rows[..i]);
      if rows[i].isActive {
        var cat := CategoryOf(rows[i]);
        assert ActiveCategories(rows[..i + 1]) == cats + [cat];
        TalliedStep(cats, order, counts, cat);
        if cat !in counts {
          order := order + [cat];
          counts := counts[cat := 1];
        } else {
          counts := counts[cat := counts[cat] + 1];
        }
      } else {
        assert ActiveCategories(rows[..i + 1]) == cats;
      }
    }
    assert rows[..|rows|] == rows;
  }

  /** The second pass of `get_categories`: one entry per key, in key order, with its name and its count. */
  method EntriesOf(order: seq<string>, counts: map<string, nat>, ghost cats: seq<string>) returns (entries: seq<CategoryCount>)
    requires forall c :: c in order ==> c in counts && counts[c] == Occurrences(cats, c)
    ensures entries == Map(order, TallyRow(cats))
  {
    entries := [];
    for j := 0 to |order|
      invariant entries == Map(order[..j], TallyRow(cats))
    {
      var c := order[j];
      assert c in order;
      var e := CategoryCount(c, CategoryName(c), counts[c]);
      MapPrefixStep(order, j, TallyRow(cats));
      entries := entries + [e];
    }
    assert order[..|order|] == order;
  }

  /** `get_categories` as written: the two passes, then the sort by count. */
  method GetCategories(db: SolutionsDb) returns (result: seq<CategoryCount>)
    ensures result == Categories(db.rows)
  {
    var order, counts := CountByCategory(db.rows);
    var entries := EntriesOf(order, counts, ActiveCategories(db.rows));
    LargerFirstIsTotal();
    result := SortBy(entries, LargerFirst);
  }

  // ---------- popular ----------

  /** `.order("helpful_count", desc=True).order("views_count", desc=True)`. */
  predicate MorePopular(a: Solution, b: Solution)
  {
    a.helpfulCount > b.helpfulCount || (a.helpfulCount == b.helpfulCount && a.viewsCount >= b.viewsCount)
  }

  lemma MorePopularIsTotal()
    ensures TotalPreorder(MorePopular)
  {
  }

  /**
   * `get_popular_solutions`: at most `limit` active rows, by helpful count and then view count,
   * both descending; no active row left out is more popular than one returned.
   */
  function PopularSolutions(rows: seq<Solution>, limit: nat): (r: seq<Solution>)
    ensures |r| == if Count(rows, Active()) < limit then Count(rows, Active()) else limit
    ensures forall k :: 0 <= k < |r| ==> r[k] in rows && r[k].isActive
    ensures SortedBy(r, MorePopular)
    ensures forall s :: s in rows && s.isActive && s !in r ==> forall k :: 0 <= k < |r| ==> MorePopular(r[k], s)
  {
    MorePopularIsTotal();
    FirstBy(Filter(rows, Active()), MorePopular, limit)
  }
}
