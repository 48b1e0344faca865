/**
 * The second copy of the search (frontend/src/components/Forum.jsx). Its `filterData` is the same
 * map/filter chain; here it is written out as one recursive pass per level, and proved to give
 * exactly what the chained version of the older listing gives, so every property proved there
 * carries over.
 */
module Forum {
  import opened Seqs
  import opened Text
  import CS = CategorySearch

  /** `threads.filter(thread => thread.title.toLowerCase().includes(query))`. */
  function FilterThreads(query: string, ts: seq<CS.Thread>): seq<CS.Thread> {
    if ts == [] then []
    else (if Contains(Lower(ts[0].title), query) then [ts[0]] else []) + FilterThreads(query, ts[1..])
  }

  /** Narrows each subcategory's threads and drops the subcategories left empty. */
  function FilterSubcategories(query: string, ss: seq<CS.Subcategory>): seq<CS.Subcategory> {
    if ss == [] then []
    else
      var s := ss[0].(threads := FilterThreads(query, ss[0].threads));
      (if |s.threads| > 0 then [s] else []) + FilterSubcategories(query, ss[1..])
  }

  /** Narrows each category's subcategories and drops the categories left empty. */
  function FilterCategories(query: string, cs: seq<CS.Category>): seq<CS.Category> {
    if cs == [] then []
    else
      var c := cs[0].(subcategories := FilterSubcategories(query, cs[0].subcategories));
      (if |c.subcategories| > 0 then [c] else []) + FilterCategories(query, cs[1..])
  }

  /** `filterData` of Forum.jsx: the categories as they are for an empty query. */
  function FilterData(categories: seq<CS.Category>, searchQuery: string): (r: seq<CS.Category>)
    ensures searchQuery == "" ==> r == categories
  {
    if searchQuery == "" then categories else FilterCategories(Lower(searchQuery), categories)
  }

  lemma {:induction false} ThreadsAgree(query: string, ts: seq<CS.Thread>)
    ensures FilterThreads(query, ts) == Filter(ts, CS.KeepThread(query))
  {
    if ts != [] {
      ThreadsAgree(query, ts[1..]);
    }
  }

  lemma {:induction false} SubcategoriesAgree(query: string, ss: seq<CS.Subcategory>)
    ensures FilterSubcategories(query, ss) == Filter(Map(ss, CS.NarrowSubcategory(query)), CS.HasThreads)
  {
    if ss != [] {
      var m := Map(ss, CS.NarrowSubcategory(query));
      assert m[0] == CS.NarrowSubcategory(query)(ss[0]) && m[1..] == Map(ss[1..], CS.NarrowSubcategory(query));
      ThreadsAgree(query, ss[0].threads);
      SubcategoriesAgree(query, ss[1..]);
    }
  }

  lemma {:induction false} CategoriesAgree(query: string, cs: seq<CS.Category>)
    ensures FilterCategories(query, cs) == Filter(Map(cs, CS.NarrowCategory(query)), CS.HasSubcategories)
  {
    if cs != [] {
      var m := Map(cs, CS.NarrowCategory(query));
      assert m[0] == CS.NarrowCategory(query)(cs[0]) && m[1..] == Map(cs[1..], CS.NarrowCategory(query));
      SubcategoriesAgree(query, cs[0].subcategories);
      CategoriesAgree(query, cs[1..]);
    }
  }

  /** For every catalogue and every query both copies of `filterData` return the same result. */
  lemma FilterDataAgrees(categories: seq<CS.Category>, searchQuery: string)
    ensures FilterData(categories, searchQuery) == CS.FilterData(categories, searchQuery)
  {
    if searchQuery != "" {
      CategoriesAgree(Lower(searchQuery), categories);
    }
  }

  /**
   * The promises of Forum.jsx's search: a thread (with its category and subcategory) is kept iff
   * it matches, in input order; empty subcategories and categories are dropped; the surviving
   * categories keep their fields and order; filtering twice is filtering once.
   */
  lemma FilterDataProperties(categories: seq<CS.Category>, searchQuery: string)
    ensures CS.Paths(FilterData(categories, searchQuery))
         == Filter(CS.Paths(categories), CS.KeepPath(Lower(searchQuery)))
    ensures forall p :: p in CS.Paths(FilterData(categories, searchQuery)) <==>
                          p in CS.Paths(categories) && CS.Matches(searchQuery, p.thread)
    ensures searchQuery != "" ==> CS.Pruned(FilterData(categories, searchQuery))
    ensures searchQuery != "" ==>
              (Map(FilterData(categories, searchQuery), CS.CategoryHeader)
               == Map(Filter(categories, CS.CategoryFinds(Lower(searchQuery))), CS.CategoryHeader))
    ensures FilterData(FilterData(categories, searchQuery), searchQuery) == FilterData(categories, searchQuery)
  {
    FilterDataAgrees(categories, searchQuery);
    FilterDataAgrees(FilterData(categories, searchQuery), searchQuery);
    CS.PathsOfFilterData(categories, searchQuery);
    forall p ensures p in CS.Paths(FilterData(categories, searchQuery)) <==>
                     p in CS.Paths(categories) && CS.Matches(searchQuery, p.thread) {
      CS.ThreadKeptIffMatches(categories, searchQuery, p);
    }
    if searchQuery != "" {
      CS.FilterDataPrunes(categories, searchQuery);
      CS.CategoriesOfFilterData(categories, searchQuery);
    }
    CS.FilterDataIdempotent(categories, searchQuery);
  }
}
