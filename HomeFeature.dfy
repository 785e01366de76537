/**
 * `HomeFeature`: the library screen's state machine. It loads the saved
 * records, keeps them de-duplicated by id, and shows the subset selected by a
 * category filter.
 *
 * A reducer step is `Reduce`; the effect it asks for (a fetch, on appear) is
 * run by `FetchEffect`, whose result is the action delivered next.
 */
module HomeFeature {
  import opened Wrappers
  import opened Domain
  import opened ContentClient

  datatype ContentFilter = All | Video | Place | Shopping | Article | Instagram

  /** The categories a filter shows. */
  function Group(f: ContentFilter): set<ContentType> {
    match f
    case All => {Web, YouTube, ContentType.Instagram, NaverMap, GoogleMap, Coupang}
    case Video => {YouTube}
    case Place => {NaverMap, GoogleMap}
    case Shopping => {Coupang}
    case Article => {Web}
    case Instagram => {ContentType.Instagram}
  }

  datatype State = State(
    contents: seq<SavedContent>,
    filteredContents: seq<SavedContent>,
    selectedFilter: ContentFilter,
    isLoading: bool)

  const Initial: State := State([], [], All, false)

  datatype Action =
    | OnAppear
    | FilterTapped(filter: ContentFilter)
    | ContentsLoaded(loaded: seq<SavedContent>)
    | ContentsLoadFailed

  /** The asynchronous work a step asks for. */
  datatype Effect = NoEffect | FetchContents

  datatype Transition = Transition(state: State, effect: Effect)

  // ----- Filtering -----

  /** The records of `xs` whose category is in `g`, in their order. */
  function Select(xs: seq<SavedContent>, g: set<ContentType>): (r: seq<SavedContent>)
    ensures |r| <= |xs|
    ensures forall i :: 0 <= i < |r| ==> r[i].contentType in g
  {
    if |xs| == 0 then []
    else (if xs[0].contentType in g then [xs[0]] else []) + Select(xs[1..], g)
  }

  /** `applyFilter`: everything for `All`, the matching records otherwise. */
  function ApplyFilter(f: ContentFilter, xs: seq<SavedContent>): (r: seq<SavedContent>)
    ensures |r| <= |xs|
    ensures forall i :: 0 <= i < |r| ==> r[i].contentType in Group(f)
  {
    if f == All then
      assert forall i :: 0 <= i < |xs| ==> xs[i].contentType in Group(All) by {
        forall i | 0 <= i < |xs| {
          InAllGroup(xs[i].contentType);
        }
      }
      xs
    else Select(xs, Group(f))
  }

  /** Selecting over a concatenation selects over each part: the selection keeps the input's order. */
  lemma {:induction false} SelectAppend(a: seq<SavedContent>, b: seq<SavedContent>, g: set<ContentType>)
    ensures Select(a + b, g) == Select(a, g) + Select(b, g)
  {
    if |a| == 0 {
      assert a + b == b;
    } else {
      var head := if a[0].contentType in g then [a[0]] else [];
      assert (a + b)[0] == a[0];
      assert (a + b)[1..] == a[1..] + b;
      assert Select(a + b, g) == head + Select(a[1..] + b, g);
      SelectAppend(a[1..], b, g);
      assert Select(a, g) == head + Select(a[1..], g);
    }
  }

  /** A record is selected as often as it occurs in the input when its category is in `g`, and never otherwise. */
  lemma {:induction false} SelectCounts(xs: seq<SavedContent>, g: set<ContentType>, x: SavedContent)
    ensures multiset(Select(xs, g))[x] == if x.contentType in g then multiset(xs)[x] else 0
  {
    if |xs| > 0 {
      var head := if xs[0].contentType in g then [xs[0]] else [];
      SelectCounts(xs[1..], g, x);
      assert xs == [xs[0]] + xs[1..];
      assert multiset(Select(xs, g)) == multiset(head) + multiset(Select(xs[1..], g));
    }
  }

  lemma {:induction false} SelectEverything(xs: seq<SavedContent>, g: set<ContentType>)
    requires forall i :: 0 <= i < |xs| ==> xs[i].contentType in g
    ensures Select(xs, g) == xs
  {
    if |xs| > 0 {
      SelectEverything(xs[1..], g);
    }
  }

  lemma InAllGroup(t: ContentType)
    ensures t in Group(All)
  {
    match t
    case Web =>
    case YouTube =>
    case Instagram =>
    case NaverMap =>
    case GoogleMap =>
    case Coupang =>
  }

  /**
   * Every filter selects by its group: `All` returns its input unchanged, and
   * the others keep exactly the records whose category is in the group, as
   * often as they occur and in their order.
   */
  lemma ApplyFilterIsSelection(f: ContentFilter, xs: seq<SavedContent>)
    ensures ApplyFilter(f, xs) == Select(xs, Group(f))
    ensures ApplyFilter(All, xs) == xs
    ensures forall x :: multiset(ApplyFilter(f, xs))[x] == if x.contentType in Group(f) then multiset(xs)[x] else 0
  {
    forall i | 0 <= i < |xs| ensures xs[i].contentType in Group(All) {
      InAllGroup(xs[i].contentType);
    }
    SelectEverything(xs, Group(All));
    forall x ensures multiset(ApplyFilter(f, xs))[x] == if x.contentType in Group(f) then multiset(xs)[x] else 0 {
      SelectCounts(xs, Group(f), x);
    }
  }

  /** `Place` shows the two map categories; the five groups other than `All` are pairwise disjoint and cover every category. */
  lemma FilterGroupsPartition()
    ensures Group(Place) == {NaverMap, GoogleMap}
    ensures forall f1, f2 :: f1 != f2 && f1 != All && f2 != All ==> Group(f1) !! Group(f2)
    ensures forall t :: t in Group(Video) + Group(Place) + Group(Shopping) + Group(Article) + Group(ContentFilter.Instagram)
  {
    forall t ensures t in Group(Video) + Group(Place) + Group(Shopping) + Group(Article) + Group(ContentFilter.Instagram) {
      InAllGroup(t);
    }
  }

  /** Hence the five category filters split any list: their results' sizes add up to its size. */
  lemma {:induction false} FilterSizesAddUp(xs: seq<SavedContent>)
    ensures |ApplyFilter(Video, xs)| + |ApplyFilter(Place, xs)| + |ApplyFilter(Shopping, xs)|
      + |ApplyFilter(Article, xs)| + |ApplyFilter(ContentFilter.Instagram, xs)| == |xs|
  {
    if |xs| > 0 {
      FilterSizesAddUp(xs[1..]);
      match xs[0].contentType
      case Web =>
      case YouTube =>
      case Instagram =>
      case NaverMap =>
      case GoogleMap =>
      case Coupang =>
    }
  }

  // ----- Loading -----

  /** What appending each record to an `IdentifiedArray` in turn leaves: a record is skipped when its id is already present. */
  function Dedup(xs: seq<SavedContent>): (r: seq<SavedContent>)
    ensures |r| <= |xs|
  {
    if |xs| == 0 then []
    else
      var kept := Dedup(xs[..|xs| - 1]);
      if xs[|xs| - 1].id in Ids(kept) then kept else kept + [xs[|xs| - 1]]
  }

  /** Reference: keep a record exactly when no earlier record has its id. */
  function KeepFirsts(xs: seq<SavedContent>): seq<SavedContent> {
    if |xs| == 0 then []
    else
      var earlier := xs[..|xs| - 1];
      KeepFirsts(earlier) + (if xs[|xs| - 1].id in Ids(earlier) then [] else [xs[|xs| - 1]])
  }

  /** Loading keeps every id of the input, each exactly once. */
  lemma {:induction false} DedupIds(xs: seq<SavedContent>)
    ensures Ids(Dedup(xs)) == Ids(xs)
    ensures UniqueIds(Dedup(xs))
  {
    if |xs| > 0 {
      var init, last := xs[..|xs| - 1], xs[|xs| - 1];
      var kept := Dedup(init);
      DedupIds(init);
      assert xs == init + [last];
      IdsAppend(init, last);
      if last.id !in Ids(kept) {
        IdsAppend(kept, last);
      }
    }
  }

  /** Loading keeps exactly the records no earlier record shares an id with, in their order. */
  lemma {:induction false} DedupIsKeepFirsts(xs: seq<SavedContent>)
    ensures Dedup(xs) == KeepFirsts(xs)
  {
    if |xs| > 0 {
      var init := xs[..|xs| - 1];
      DedupIsKeepFirsts(init);
      DedupIds(init);
    }
  }

  /** Records whose ids are already unique load unchanged. */
  lemma {:induction false} DedupOfUnique(xs: seq<SavedContent>)
    requires UniqueIds(xs)
    ensures Dedup(xs) == xs
  {
    if |xs| > 0 {
      var init, last := xs[..|xs| - 1], xs[|xs| - 1];
      assert UniqueIds(init);
      DedupOfUnique(init);
      LastIdIsNew(xs);
    }
  }

  lemma LastIdIsNew(xs: seq<SavedContent>)
    requires UniqueIds(xs) && |xs| > 0
    ensures xs[|xs| - 1].id !in Ids(xs[..|xs| - 1])
  {
  }

  /** The `for content in contents { array.append(content) }` loop of `contentsLoaded`. */
  method IdentifiedFrom(xs: seq<SavedContent>) returns (identified: seq<SavedContent>)
    ensures identified == Dedup(xs)
    ensures UniqueIds(identified) && Ids(identified) == Ids(xs)
  {
    identified := [];
    var ids: set<Uuid> := {};
    var i := 0;
    while i < |xs|
      invariant 0 <= i <= |xs|
      invariant identified == Dedup(xs[..i])
      invariant ids == Ids(identified)
    {
      assert xs[..i + 1][..i] == xs[..i];
      if xs[i].id !in ids {
        IdsAppend(identified, xs[i]);
        identified := identified + [xs[i]];
        ids := ids + {xs[i].id};
      }
      i := i + 1;
    }
    assert xs[..i] == xs;
    DedupIds(xs);
  }

  // ----- The reducer -----

  /**
   * One reducer step. Only `onAppear` asks for a fetch and raises the loading
   * flag; only a load replaces the records, with unique ids and no id lost;
   * after a load or a filter tap the shown records are the selected filter
   * applied to all records.
   */
  function Reduce(s: State, a: Action): (r: Transition)
    ensures r.effect == FetchContents <==> a.OnAppear?
    ensures r.state.isLoading <==> a.OnAppear? || (a.FilterTapped? && s.isLoading)
    ensures r.state.selectedFilter == if a.FilterTapped? then a.filter else s.selectedFilter
    ensures !a.ContentsLoaded? ==> r.state.contents == s.contents
    ensures a.ContentsLoaded? ==> UniqueIds(r.state.contents) && Ids(r.state.contents) == Ids(a.loaded)
    ensures a.ContentsLoaded? || a.FilterTapped? ==>
      r.state.filteredContents == ApplyFilter(r.state.selectedFilter, r.state.contents)
    ensures a.OnAppear? || a.ContentsLoadFailed? ==> r.state.filteredContents == s.filteredContents
  {
    match a
    case OnAppear => Transition(s.(isLoading := true), FetchContents)
    case ContentsLoaded(loaded) =>
      DedupIds(loaded);
      var contents := Dedup(loaded);
      Transition(s.(isLoading := false, contents := contents,
                    filteredContents := ApplyFilter(s.selectedFilter, contents)), NoEffect)
    case ContentsLoadFailed => Transition(s.(isLoading := false), NoEffect)
    case FilterTapped(f) =>
      Transition(s.(selectedFilter := f, filteredContents := ApplyFilter(f, s.contents)), NoEffect)
  }

  /** The shown records are the selected filter applied to the loaded records, which have unique ids. */
  predicate Consistent(s: State) {
    UniqueIds(s.contents) && s.filteredContents == ApplyFilter(s.selectedFilter, s.contents)
  }

  /** Every action keeps the state consistent, from the initial state on. */
  lemma ReducePreservesConsistent(s: State, a: Action)
    requires Consistent(s)
    ensures Consistent(Initial)
    ensures Consistent(Reduce(s, a).state)
  {
    if a.ContentsLoaded? {
      DedupIds(a.loaded);
    }
  }

  /** `onAppear` raises the loading flag, changes nothing else and asks for a fetch. */
  lemma OnAppearStartsLoading(s: State)
    ensures Reduce(s, OnAppear) == Transition(s.(isLoading := true), FetchContents)
  {
  }

  /**
   * `contentsLoaded` lowers the loading flag, keeps the filter, stores the
   * loaded records de-duplicated by id (first occurrence kept) and shows the
   * filter applied to them.
   */
  lemma ContentsLoadedFacts(s: State, loaded: seq<SavedContent>)
    ensures var t := Reduce(s, ContentsLoaded(loaded)).state;
      && !t.isLoading && t.selectedFilter == s.selectedFilter
      && t.contents == KeepFirsts(loaded) && UniqueIds(t.contents) && Ids(t.contents) == Ids(loaded)
      && t.filteredContents == ApplyFilter(t.selectedFilter, t.contents)
  {
    DedupIds(loaded);
    DedupIsKeepFirsts(loaded);
  }

  /** A failed load lowers the loading flag and keeps the records, the shown records and the filter. */
  lemma LoadFailedKeepsContents(s: State)
    ensures Reduce(s, ContentsLoadFailed) == Transition(s.(isLoading := false), NoEffect)
  {
  }

  /**
   * `filterTapped` recomputes from all loaded records, not from the records
   * shown before: two states with the same records end up showing the same,
   * and going back to `All` shows everything again.
   */
  lemma FilterTappedUsesAllContents(s1: State, s2: State, f: ContentFilter, g: ContentFilter)
    requires s1.contents == s2.contents
    ensures Reduce(s1, FilterTapped(f)).state.filteredContents == Reduce(s2, FilterTapped(f)).state.filteredContents
    ensures Reduce(Reduce(s1, FilterTapped(g)).state, FilterTapped(All)).state.filteredContents == s1.contents
  {
  }

  /** Tapping the same filter twice gives the state tapping it once gives. */
  lemma FilterTappedIdempotent(s: State, f: ContentFilter)
    ensures Reduce(Reduce(s, FilterTapped(f)).state, FilterTapped(f)) == Reduce(s, FilterTapped(f))
  {
  }

  /** Appearing and then receiving records with unique ids shows exactly those records, in order. */
  lemma AppearThenLoad(loaded: seq<SavedContent>)
    requires UniqueIds(loaded)
    ensures var s1 := Reduce(Initial, OnAppear).state;
      s1.isLoading && Reduce(s1, ContentsLoaded(loaded)).state == State(loaded, loaded, All, false)
  {
    DedupOfUnique(loaded);
  }

  /** The effect of `onAppear`: the next action is the fetched records, or the failure. */
  method FetchEffect(client: ContentStore, fetchFails: bool) returns (next: Action)
    ensures next == if fetchFails then ContentsLoadFailed else ContentsLoaded(client.contents)
  {
    var r := client.Fetch(fetchFails);
    match r
    case Success(contents) => next := ContentsLoaded(contents);
    case Failure(_) => next := ContentsLoadFailed;
  }

  /** The feature's store: the state, updated in place by each action. */
  class HomeStore {
    var contents: seq<SavedContent>
    var filteredContents: seq<SavedContent>
    var selectedFilter: ContentFilter
    var isLoading: bool

    function Snapshot(): State
      reads this
    {
      State(contents, filteredContents, selectedFilter, isLoading)
    }

    constructor ()
      ensures Snapshot() == Initial
    {
      contents, filteredContents, selectedFilter, isLoading := [], [], All, false;
    }

    /** Runs the reducer on one action and returns the effect it asks for. */
    method Step(a: Action) returns (effect: Effect)
      modifies this
      ensures Snapshot() == Reduce(old(Snapshot()), a).state
      ensures effect == Reduce(old(Snapshot()), a).effect
    {
      match a
      case OnAppear =>
        isLoading := true;
        effect := FetchContents;
      case ContentsLoaded(loaded) =>
        isLoading := false;
        var identified := IdentifiedFrom(loaded);
        contents := identified;
        filteredContents := ApplyFilter(selectedFilter, contents);
        effect := NoEffect;
      case ContentsLoadFailed =>
        isLoading := false;
        effect := NoEffect;
      case FilterTapped(f) =>
        selectedFilter := f;
        filteredContents := ApplyFilter(f, contents);
        effect := NoEffect;
    }
  }
}
