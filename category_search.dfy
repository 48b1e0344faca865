/**
 * The forum listing of the older front end (frontend/rev-front/src/App.jsx): a static catalogue of
 * categories, each with subcategories, each with threads, and `filterData`, which narrows the
 * catalogue to the threads whose title contains the search query.
 */
module CategorySearch {
  import opened Seqs
  import opened Text

  datatype Thread = Thread(id: int, title: string, posts: int)

  datatype Subcategory = Subcategory(id: string, title: string, threads: seq<Thread>)

  datatype Category = Category(id: string, title: string, icon: string, subcategories: seq<Subcategory>)

  /** `thread => thread.title.toLowerCase().includes(query)`, `query` already lower-cased. */
  function KeepThread(query: string): Thread -> bool {
    (t: Thread) => Contains(Lower(t.title), query)
  }

  /** A thread is found by the search box's text when it is kept for the lower-cased text. */
  predicate Matches(searchQuery: string, t: Thread) {
    KeepThread(Lower(searchQuery))(t)
  }

  /** `subcategory => ({ ...subcategory, threads: subcategory.threads.filter(…) })`. */
  function NarrowSubcategory(query: string): Subcategory -> Subcategory {
    (s: Subcategory) => s.(threads := Filter(s.threads, KeepThread(query)))
  }

  /** `subcategory => subcategory.threads.length > 0`. */
  predicate HasThreads(s: Subcategory) {
    |s.threads| > 0
  }

  /** `category => ({ ...category, subcategories: ….map(…).filter(…) })`. */
  function NarrowCategory(query: string): Category -> Category {
    (c: Category) => c.(subcategories := Filter(Map(c.subcategories, NarrowSubcategory(query)), HasThreads))
  }

  /** `category => category.subcategories.length > 0`. */
  predicate HasSubcategories(c: Category) {
    |c.subcategories| > 0
  }

  /**
   * `filterData`: an empty query gives the categories back untouched; otherwise the
   * map/filter chain over categories, subcategories and threads.
   */
  function FilterData(categories: seq<Category>, searchQuery: string): (r: seq<Category>)
    ensures searchQuery == "" ==> r == categories
    ensures |r| <= |categories|
  {
    if searchQuery == "" then categories
    else
      var query := Lower(searchQuery);
      Filter(Map(categories, NarrowCategory(query)), HasSubcategories)
  }

  // ---------------------------------------------------------------------------------------------
  // An independent description of the result: every thread together with the fields of the
  // subcategory and category it sits in (their lists cleared). Filtering the nested structure
  // must be the same as filtering this flat list.

  datatype Path = Path(category: Category, subcategory: Subcategory, thread: Thread)

  function CategoryHeader(c: Category): Category {
    c.(subcategories := [])
  }

  function SubcategoryHeader(s: Subcategory): Subcategory {
    s.(threads := [])
  }

  function ThreadPaths(c: Category, s: Subcategory, ts: seq<Thread>): seq<Path> {
    if ts == [] then [] else [Path(c, s, ts[0])] + ThreadPaths(c, s, ts[1..])
  }

  function SubcategoryPaths(c: Category, ss: seq<Subcategory>): seq<Path> {
    if ss == [] then []
    else ThreadPaths(c, SubcategoryHeader(ss[0]), ss[0].threads) + SubcategoryPaths(c, ss[1..])
  }

  /** Every thread of the catalogue, in display order, with its category and subcategory. */
  function Paths(cs: seq<Category>): seq<Path> {
    if cs == [] then [] else SubcategoryPaths(CategoryHeader(cs[0]), cs[0].subcategories) + Paths(cs[1..])
  }

  function KeepPath(query: string): Path -> bool {
    (p: Path) => Contains(Lower(p.thread.title), query)
  }

  /** Number of threads across all categories and subcategories. */
  function ThreadCount(cs: seq<Category>): nat {
    if cs == [] then 0 else SubcategoryThreadCount(cs[0].subcategories) + ThreadCount(cs[1..])
  }

  function SubcategoryThreadCount(ss: seq<Subcategory>): nat {
    if ss == [] then 0 else |ss[0].threads| + SubcategoryThreadCount(ss[1..])
  }

  lemma {:induction false} ThreadPathsOfFilter(query: string, c: Category, s: Subcategory, ts: seq<Thread>)
    ensures ThreadPaths(c, s, Filter(ts, KeepThread(query))) == Filter(ThreadPaths(c, s, ts), KeepPath(query))
  {
    if ts != [] {
      ThreadPathsOfFilter(query, c, s, ts[1..]);
      var rest := Filter(ts[1..], KeepThread(query));
      if KeepThread(query)(ts[0]) {
        assert Filter(ts, KeepThread(query)) == [ts[0]] + rest;
        assert ([ts[0]] + rest)[1..] == rest;
      } else {
        assert Filter(ts, KeepThread(query)) == rest;
      }
    }
  }

  lemma {:induction false} SubcategoryPathsOfFilter(query: string, c: Category, ss: seq<Subcategory>)
    ensures SubcategoryPaths(c, Filter(Map(ss, NarrowSubcategory(query)), HasThreads))
         == Filter(SubcategoryPaths(c, ss), KeepPath(query))
  {
    if ss != [] {
      var s := ss[0];
      var n := NarrowSubcategory(query)(s);
      var m := Map(ss, NarrowSubcategory(query));
      assert m[0] == n && m[1..] == Map(ss[1..], NarrowSubcategory(query));
      var rest := Filter(m[1..], HasThreads);
      SubcategoryPathsOfFilter(query, c, ss[1..]);
      ThreadPathsOfFilter(query, c, SubcategoryHeader(s), s.threads);
      assert SubcategoryHeader(n) == SubcategoryHeader(s);
      FilterAppend(ThreadPaths(c, SubcategoryHeader(s), s.threads), SubcategoryPaths(c, ss[1..]), KeepPath(query));
      if HasThreads(n) {
        assert Filter(m, HasThreads) == [n] + rest;
        assert ([n] + rest)[0] == n && ([n] + rest)[1..] == rest;
      } else {
        assert Filter(m, HasThreads) == rest;
      }
    }
  }

  lemma {:induction false} PathsOfNarrowed(query: string, cs: seq<Category>)
    ensures Paths(Filter(Map(cs, NarrowCategory(query)), HasSubcategories)) == Filter(Paths(cs), KeepPath(query))
  {
    if cs != [] {
      var c := cs[0];
      var n := NarrowCategory(query)(c);
      var m := Map(cs, NarrowCategory(query));
      assert m[0] == n && m[1..] == Map(cs[1..], NarrowCategory(query));
      var rest := Filter(m[1..], HasSubcategories);
      PathsOfNarrowed(query, cs[1..]);
      SubcategoryPathsOfFilter(query, CategoryHeader(c), c.subcategories);
      assert CategoryHeader(n) == CategoryHeader(c);
      FilterAppend(SubcategoryPaths(CategoryHeader(c), c.subcategories), Paths(cs[1..]), KeepPath(query));
      if HasSubcategories(n) {
        assert Filter(m, HasSubcategories) == [n] + rest;
        assert ([n] + rest)[0] == n && ([n] + rest)[1..] == rest;
      } else {
        assert Filter(m, HasSubcategories) == rest;
      }
    }
  }

  /**
   * Soundness, completeness and order together: the threads of the result, each with the fields
   * of its category and subcategory, are exactly the matching threads of the input, in input order.
   */
  lemma PathsOfFilterData(categories: seq<Category>, searchQuery: string)
    ensures Paths(FilterData(categories, searchQuery)) == Filter(Paths(categories), KeepPath(Lower(searchQuery)))
  {
    if searchQuery == "" {
      assert Lower(searchQuery) == "";
      FilterKeepsAll(Paths(categories), KeepPath(""));
    } else {
      PathsOfNarrowed(Lower(searchQuery), categories);
    }
  }

  /** A thread, with its category and subcategory, is in the result iff it is in the input and matches. */
  lemma ThreadKeptIffMatches(categories: seq<Category>, searchQuery: string, p: Path)
    ensures p in Paths(FilterData(categories, searchQuery)) <==> p in Paths(categories) && Matches(searchQuery, p.thread)
  {
    PathsOfFilterData(categories, searchQuery);
    var ps := Paths(categories);
    if p in ps && Matches(searchQuery, p.thread) {
      var i :| 0 <= i < |ps| && ps[i] == p;
      assert KeepPath(Lower(searchQuery))(ps[i]);
    }
  }

  /** A category or subcategory left with nothing in it is dropped (for a non-empty query). */
  ghost predicate Pruned(cs: seq<Category>) {
    forall i :: 0 <= i < |cs| ==>
      && HasSubcategories(cs[i])
      && forall j :: 0 <= j < |cs[i].subcategories| ==> HasThreads(cs[i].subcategories[j])
  }

  /** Every thread left in the catalogue matches the lower-cased query. */
  ghost predicate AllMatch(query: string, cs: seq<Category>) {
    forall i, j, k :: 0 <= i < |cs| && 0 <= j < |cs[i].subcategories| && 0 <= k < |cs[i].subcategories[j].threads| ==>
      KeepThread(query)(cs[i].subcategories[j].threads[k])
  }

  /** The subcategories of a narrowed category are non-empty and hold only matching threads. */
  lemma NarrowedCategorySettled(query: string, c: Category)
    ensures forall j :: 0 <= j < |NarrowCategory(query)(c).subcategories| ==>
              HasThreads(NarrowCategory(query)(c).subcategories[j])
    ensures forall j, k :: 0 <= j < |NarrowCategory(query)(c).subcategories| &&
                           0 <= k < |NarrowCategory(query)(c).subcategories[j].threads| ==>
              KeepThread(query)(NarrowCategory(query)(c).subcategories[j].threads[k])
  {
    var subs := Map(c.subcategories, NarrowSubcategory(query));
    var kept := NarrowCategory(query)(c).subcategories;
    assert kept == Filter(subs, HasThreads);
    forall j, k | 0 <= j < |kept| && 0 <= k < |kept[j].threads|
      ensures KeepThread(query)(kept[j].threads[k])
    {
      var s := kept[j];
      assert s in subs;
      var b :| 0 <= b < |subs| && subs[b] == s;
      assert s.threads == Filter(c.subcategories[b].threads, KeepThread(query));
    }
  }

  lemma NarrowedIsPrunedAndMatching(query: string, cs: seq<Category>)
    ensures Pruned(Filter(Map(cs, NarrowCategory(query)), HasSubcategories))
    ensures AllMatch(query, Filter(Map(cs, NarrowCategory(query)), HasSubcategories))
  {
    var m := Map(cs, NarrowCategory(query));
    var r := Filter(m, HasSubcategories);
    forall i | 0 <= i < |r|
      ensures HasSubcategories(r[i])
      ensures forall j :: 0 <= j < |r[i].subcategories| ==> HasThreads(r[i].subcategories[j])
      ensures forall j, k :: 0 <= j < |r[i].subcategories| && 0 <= k < |r[i].subcategories[j].threads| ==>
                KeepThread(query)(r[i].subcategories[j].threads[k])
    {
      assert r[i] in m;
      var a :| 0 <= a < |m| && m[a] == r[i];
      NarrowedCategorySettled(query, cs[a]);
    }
  }

  /** For a non-empty query no subcategory in the result is empty and no category is empty. */
  lemma FilterDataPrunes(categories: seq<Category>, searchQuery: string)
    requires searchQuery != ""
    ensures Pruned(FilterData(categories, searchQuery))
  {
    NarrowedIsPrunedAndMatching(Lower(searchQuery), categories);
  }

  /** Narrowing a subcategory whose every thread matches changes nothing. */
  lemma SubcategorySettled(query: string, s: Subcategory)
    requires forall k :: 0 <= k < |s.threads| ==> KeepThread(query)(s.threads[k])
    ensures NarrowSubcategory(query)(s) == s
  {
    forall t | t in s.threads ensures KeepThread(query)(t) {
      var k :| 0 <= k < |s.threads| && s.threads[k] == t;
    }
    FilterKeepsAll(s.threads, KeepThread(query));
  }

  /** Narrowing a category with no empty subcategory and only matching threads changes nothing. */
  lemma CategorySettled(query: string, c: Category)
    requires forall j :: 0 <= j < |c.subcategories| ==> HasThreads(c.subcategories[j])
    requires forall j, k :: 0 <= j < |c.subcategories| && 0 <= k < |c.subcategories[j].threads| ==>
               KeepThread(query)(c.subcategories[j].threads[k])
    ensures NarrowCategory(query)(c) == c
  {
    forall s | s in c.subcategories ensures NarrowSubcategory(query)(s) == s && HasThreads(s) {
      var j :| 0 <= j < |c.subcategories| && c.subcategories[j] == s;
      SubcategorySettled(query, s);
    }
    MapIdentity(c.subcategories, NarrowSubcategory(query));
    FilterKeepsAll(c.subcategories, HasThreads);
  }

  /** Narrowing a catalogue that is already pruned and whose every thread matches changes nothing. */
  lemma NarrowSettled(query: string, cs: seq<Category>)
    requires Pruned(cs) && AllMatch(query, cs)
    ensures Filter(Map(cs, NarrowCategory(query)), HasSubcategories) == cs
  {
    forall c | c in cs ensures NarrowCategory(query)(c) == c && HasSubcategories(c) {
      var i :| 0 <= i < |cs| && cs[i] == c;
      CategorySettled(query, c);
    }
    MapIdentity(cs, NarrowCategory(query));
    FilterKeepsAll(cs, HasSubcategories);
  }

  /** Filtering the result again with the same query returns it unchanged. */
  lemma FilterDataIdempotent(categories: seq<Category>, searchQuery: string)
    ensures FilterData(FilterData(categories, searchQuery), searchQuery) == FilterData(categories, searchQuery)
  {
    if searchQuery != "" {
      NarrowedIsPrunedAndMatching(Lower(searchQuery), categories);
      NarrowSettled(Lower(searchQuery), FilterData(categories, searchQuery));
    }
  }

  lemma {:induction false} ThreadPathsCount(c: Category, s: Subcategory, ts: seq<Thread>)
    ensures |ThreadPaths(c, s, ts)| == |ts|
  {
    if ts != [] {
      ThreadPathsCount(c, s, ts[1..]);
    }
  }

  lemma {:induction false} SubcategoryPathsCount(c: Category, ss: seq<Subcategory>)
    ensures |SubcategoryPaths(c, ss)| == SubcategoryThreadCount(ss)
  {
    if ss != [] {
      ThreadPathsCount(c, SubcategoryHeader(ss[0]), ss[0].threads);
      SubcategoryPathsCount(c, ss[1..]);
    }
  }

  /** There is one path per thread. */
  lemma {:induction false} PathsCount(cs: seq<Category>)
    ensures |Paths(cs)| == ThreadCount(cs)
  {
    if cs != [] {
      SubcategoryPathsCount(CategoryHeader(cs[0]), cs[0].subcategories);
      PathsCount(cs[1..]);
    }
  }

  /** The result never holds more threads than the input. */
  lemma FilterDataNeverAddsThreads(categories: seq<Category>, searchQuery: string)
    ensures ThreadCount(FilterData(categories, searchQuery)) <= ThreadCount(categories)
  {
    PathsOfFilterData(categories, searchQuery);
    PathsCount(categories);
    PathsCount(FilterData(categories, searchQuery));
  }

  // ---------------------------------------------------------------------------------------------
  // Which categories and subcategories survive, and that their own fields are copied.

  /** Some thread of the subcategory is found by the (lower-cased) query. */
  function SubcategoryFinds(query: string): Subcategory -> bool {
    (s: Subcategory) => exists t :: t in s.threads && KeepThread(query)(t)
  }

  /** Some thread of some subcategory of the category is found by the (lower-cased) query. */
  function CategoryFinds(query: string): Category -> bool {
    (c: Category) => exists s :: s in c.subcategories && SubcategoryFinds(query)(s)
  }

  lemma NarrowedSubcategoryNonEmpty(query: string, s: Subcategory)
    ensures HasThreads(NarrowSubcategory(query)(s)) <==> SubcategoryFinds(query)(s)
  {
    var kept := Filter(s.threads, KeepThread(query));
    if SubcategoryFinds(query)(s) {
      var t :| t in s.threads && KeepThread(query)(t);
      var k :| 0 <= k < |s.threads| && s.threads[k] == t;
      assert t in kept;
    }
    if HasThreads(NarrowSubcategory(query)(s)) {
      assert kept[0] in s.threads && KeepThread(query)(kept[0]);
    }
  }

  lemma {:induction false} SubcategoriesOfNarrowed(query: string, ss: seq<Subcategory>)
    ensures Map(Filter(Map(ss, NarrowSubcategory(query)), HasThreads), SubcategoryHeader)
         == Map(Filter(ss, SubcategoryFinds(query)), SubcategoryHeader)
  {
    if ss != [] {
      var s := ss[0];
      var n := NarrowSubcategory(query)(s);
      var m := Map(ss, NarrowSubcategory(query));
      assert m[0] == n && m[1..] == Map(ss[1..], NarrowSubcategory(query));
      SubcategoriesOfNarrowed(query, ss[1..]);
      NarrowedSubcategoryNonEmpty(query, s);
      var left := Filter(m[1..], HasThreads);
      var right := Filter(ss[1..], SubcategoryFinds(query));
      if HasThreads(n) {
        assert Filter(m, HasThreads) == [n] + left;
        assert Filter(ss, SubcategoryFinds(query)) == [s] + right;
        assert ([n] + left)[1..] == left && ([s] + right)[1..] == right;
        assert SubcategoryHeader(n) == SubcategoryHeader(s);
      } else {
        assert Filter(m, HasThreads) == left;
        assert Filter(ss, SubcategoryFinds(query)) == right;
      }
    }
  }

  /**
   * Inside a category: the surviving subcategories are those with a matching thread, in input
   * order, with their id and title copied.
   */
  lemma SubcategoriesOfNarrowedCategory(query: string, c: Category)
    ensures CategoryHeader(NarrowCategory(query)(c)) == CategoryHeader(c)
    ensures Map(NarrowCategory(query)(c).subcategories, SubcategoryHeader)
         == Map(Filter(c.subcategories, SubcategoryFinds(query)), SubcategoryHeader)
  {
    SubcategoriesOfNarrowed(query, c.subcategories);
  }

  lemma NarrowedCategoryNonEmpty(query: string, c: Category)
    ensures HasSubcategories(NarrowCategory(query)(c)) <==> CategoryFinds(query)(c)
  {
    var subs := Map(c.subcategories, NarrowSubcategory(query));
    var kept := Filter(subs, HasThreads);
    if CategoryFinds(query)(c) {
      var s :| s in c.subcategories && SubcategoryFinds(query)(s);
      var j :| 0 <= j < |c.subcategories| && c.subcategories[j] == s;
      NarrowedSubcategoryNonEmpty(query, s);
      assert subs[j] in kept;
    }
    if HasSubcategories(NarrowCategory(query)(c)) {
      assert kept[0] in subs;
      var j :| 0 <= j < |subs| && subs[j] == kept[0];
      NarrowedSubcategoryNonEmpty(query, c.subcategories[j]);
    }
  }

  lemma {:induction false} CategoriesOfNarrowed(query: string, cs: seq<Category>)
    ensures Map(Filter(Map(cs, NarrowCategory(query)), HasSubcategories), CategoryHeader)
         == Map(Filter(cs, CategoryFinds(query)), CategoryHeader)
  {
    if cs != [] {
      var c := cs[0];
      var n := NarrowCategory(query)(c);
      var m := Map(cs, NarrowCategory(query));
      assert m[0] == n && m[1..] == Map(cs[1..], NarrowCategory(query));
      CategoriesOfNarrowed(query, cs[1..]);
      NarrowedCategoryNonEmpty(query, c);
      var left := Filter(m[1..], HasSubcategories);
      var right := Filter(cs[1..], CategoryFinds(query));
      if HasSubcategories(n) {
        assert Filter(m, HasSubcategories) == [n] + left;
        assert Filter(cs, CategoryFinds(query)) == [c] + right;
        assert ([n] + left)[1..] == left && ([c] + right)[1..] == right;
        assert CategoryHeader(n) == CategoryHeader(c);
      } else {
        assert Filter(m, HasSubcategories) == left;
        assert Filter(cs, CategoryFinds(query)) == right;
      }
    }
  }

  /**
   * For a non-empty query the surviving categories are those with a matching thread, in input
   * order, with id, title and icon copied.
   */
  lemma CategoriesOfFilterData(categories: seq<Category>, searchQuery: string)
    requires searchQuery != ""
    ensures Map(FilterData(categories, searchQuery), CategoryHeader)
         == Map(Filter(categories, CategoryFinds(Lower(searchQuery))), CategoryHeader)
  {
    CategoriesOfNarrowed(Lower(searchQuery), categories);
  }

  /** Pruning the narrowed categories is narrowing the categories with a matching thread. */
  lemma {:induction false} NarrowedAreFinders(query: string, cs: seq<Category>)
    ensures Filter(Map(cs, NarrowCategory(query)), HasSubcategories)
         == Map(Filter(cs, CategoryFinds(query)), NarrowCategory(query))
  {
    if cs != [] {
      var c := cs[0];
      var m := Map(cs, NarrowCategory(query));
      assert m[0] == NarrowCategory(query)(c) && m[1..] == Map(cs[1..], NarrowCategory(query));
      NarrowedAreFinders(query, cs[1..]);
      NarrowedCategoryNonEmpty(query, c);
      var right := Filter(cs[1..], CategoryFinds(query));
      if CategoryFinds(query)(c) {
        assert Filter(cs, CategoryFinds(query)) == [c] + right;
        assert ([c] + right)[1..] == right;
      } else {
        assert Filter(cs, CategoryFinds(query)) == right;
      }
    }
  }

  /**
   * For a non-empty query the i-th surviving category comes from the i-th input category with a
   * matching thread, and its subcategories are, in order, that category's subcategories with a
   * matching thread, with id and title copied.
   */
  lemma SubcategoriesOfFilterData(categories: seq<Category>, searchQuery: string)
    requires searchQuery != ""
    ensures var query := Lower(searchQuery);
            var kept := Filter(categories, CategoryFinds(query));
            var r := FilterData(categories, searchQuery);
            && |r| == |kept|
            && forall i :: 0 <= i < |kept| ==>
                 && CategoryHeader(r[i]) == CategoryHeader(kept[i])
                 && Map(r[i].subcategories, SubcategoryHeader)
                    == Map(Filter(kept[i].subcategories, SubcategoryFinds(query)), SubcategoryHeader)
  {
    var query := Lower(searchQuery);
    var kept := Filter(categories, CategoryFinds(query));
    var r := FilterData(categories, searchQuery);
    NarrowedAreFinders(query, categories);
    assert r == Map(kept, NarrowCategory(query));
    forall i | 0 <= i < |kept|
      ensures CategoryHeader(r[i]) == CategoryHeader(kept[i])
      ensures Map(r[i].subcategories, SubcategoryHeader)
           == Map(Filter(kept[i].subcategories, SubcategoryFinds(query)), SubcategoryHeader)
    {
      assert r[i] == NarrowCategory(query)(kept[i]);
      SubcategoriesOfNarrowedCategory(query, kept[i]);
    }
  }

  // ---------------------------------------------------------------------------------------------

  /** The static catalogue both listings filter. */
  const Catalogue: seq<Category> := [
    Category("films", "Фильмы", "🎬", [
      Subcategory("horror", "Ужасы", [
        Thread(1, "Лучшие хорроры 2023", 142), Thread(2, "Классика жанра", 89), Thread(3, "Азиатские ужасы", 67)]),
      Subcategory("comedy", "Комедии", [
        Thread(1, "Новые комедии", 112), Thread(2, "Чёрный юмор", 54)]),
      Subcategory("fantasy", "Фэнтези", [
        Thread(1, "Фэнтези 2023", 78), Thread(2, "Эпическое фэнтези", 92)])]),
    Category("games", "Игры", "🎮", [
      Subcategory("rpg", "RPG", [
        Thread(1, "Skyrim моды", 342), Thread(2, "The Witcher 4", 287), Thread(3, "Лучшие RPG 2023", 156)]),
      Subcategory("shooters", "Шутеры", [
        Thread(1, "CS2 обсуждение", 512), Thread(2, "Новые кооперативные шутеры", 124)])]),
    Category("books", "Книги", "📚", [
      Subcategory("fantasy", "Фэнтези", [
        Thread(1, "Новинки фэнтези", 87), Thread(2, "Классика жанра", 65)])])
  ]
}
