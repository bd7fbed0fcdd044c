/** The prompt-library page: category and text search over the prompts, favourites first, and the
    category control. */
module PromptLibrary {

  import Text
  import Lists
  import StableSort

  datatype Prompt = Prompt(id: string, title: string, content: string, category: string, tags: seq<string>)

  datatype PromptFilters = PromptFilters(searchTerm: string, category: string)

  const ALL := "All"

  /** `prompt.tags.some(tag => tag.toLowerCase().includes(term))`. */
  predicate SomeTagContains(tags: seq<string>, term: string) {
    exists i :: 0 <= i < |tags| && Text.Contains(Text.Lower(tags[i]), term)
  }

  /** The predicate given to `prompts.filter`. */
  function Kept(f: PromptFilters, p: Prompt): bool {
    if f.category != ALL && p.category != f.category then false
    else if f.searchTerm != "" then
      var term := Text.Lower(f.searchTerm);
      Text.Contains(Text.Lower(p.title), term) || Text.Contains(Text.Lower(p.content), term)
      || SomeTagContains(p.tags, term)
    else true
  }

  function KeptBy(f: PromptFilters): Prompt -> bool {
    (p: Prompt) => Kept(f, p)
  }

  function FilteredPrompts(prompts: seq<Prompt>, f: PromptFilters): seq<Prompt> {
    Lists.Filter(prompts, KeptBy(f))
  }

  /** A prompt is shown exactly when its category is selected and, for a non-empty search, the
      lower-cased term occurs in its title, its content or one of its tags. */
  lemma {:induction false} FilteredSpec(prompts: seq<Prompt>, f: PromptFilters, p: Prompt)
    ensures p in FilteredPrompts(prompts, f) <==>
      p in prompts && (f.category == ALL || p.category == f.category)
      && (f.searchTerm != "" ==>
            var term := Text.Lower(f.searchTerm);
            Text.Contains(Text.Lower(p.title), term) || Text.Contains(Text.Lower(p.content), term)
            || exists i :: 0 <= i < |p.tags| && Text.Contains(Text.Lower(p.tags[i]), term))
  {
  }

  /** With no search term and every category, the whole library is shown in order. */
  lemma {:induction false} NoFiltersShowAll(prompts: seq<Prompt>)
    ensures FilteredPrompts(prompts, PromptFilters("", ALL)) == prompts
  {
    Lists.FilterAll(prompts, KeptBy(PromptFilters("", ALL)));
  }

  /** The comparator given to `sort`, as written: favourites first, otherwise equal. */
  function SourceCompare(a: Prompt, b: Prompt, favorites: seq<string>): int {
    var aFavorite := a.id in favorites;
    var bFavorite := b.id in favorites;
    if aFavorite && !bFavorite then -1 else if !aFavorite && bFavorite then 1 else 0
  }

  function PromptRank(favorites: seq<string>): Prompt -> StableSort.Rank {
    (p: Prompt) => StableSort.Rank(if p.id in favorites then 0 else 1, 0)
  }

  lemma {:induction false} ComparatorIsRankOrder(a: Prompt, b: Prompt, favorites: seq<string>)
    ensures var c := StableSort.Compare(PromptRank(favorites)(a), PromptRank(favorites)(b));
      var s := SourceCompare(a, b, favorites);
      (s < 0 <==> c < 0) && (s == 0 <==> c == 0) && (s > 0 <==> c > 0)
  {
  }

  function IsFavorite(favorites: seq<string>): Prompt -> bool {
    (p: Prompt) => p.id in favorites
  }

  function SortedPrompts(filtered: seq<Prompt>, favorites: seq<string>): seq<Prompt> {
    StableSort.SortByRank(filtered, PromptRank(favorites))
  }

  /** Because the comparator ties every other pair, the sorted list is the favourites in their
      filtered order followed by the other prompts in theirs. */
  lemma {:induction false} SortedIsFavoritesThenRest(filtered: seq<Prompt>, favorites: seq<string>)
    ensures SortedPrompts(filtered, favorites)
         == Lists.Filter(filtered, IsFavorite(favorites)) + Lists.Filter(filtered, Lists.Not(IsFavorite(favorites)))
  {
    var rank := PromptRank(favorites);
    var fav := IsFavorite(favorites);
    var r := SortedPrompts(filtered, favorites);
    StableSort.SortSpec(filtered, rank);
    forall i, j | 0 <= i < j < |r| && fav(r[j]) ensures fav(r[i]) {
      assert StableSort.RankLe(rank(r[i]), rank(r[j]));
    }
    Lists.FilterPartition(r, fav);
    StableSort.SortStable(filtered, rank, StableSort.Rank(0, 0));
    StableSort.SortStable(filtered, rank, StableSort.Rank(1, 0));
    Lists.FilterExt(r, fav, StableSort.HasRank(rank, StableSort.Rank(0, 0)));
    Lists.FilterExt(filtered, fav, StableSort.HasRank(rank, StableSort.Rank(0, 0)));
    Lists.FilterExt(r, Lists.Not(fav), StableSort.HasRank(rank, StableSort.Rank(1, 0)));
    Lists.FilterExt(filtered, Lists.Not(fav), StableSort.HasRank(rank, StableSort.Rank(1, 0)));
  }

  /** `clearFilters` resets the category only; the search term stays. */
  function Cleared(f: PromptFilters): PromptFilters {
    f.(category := ALL)
  }

  predicate HasActiveFilters(f: PromptFilters) {
    f.category != ALL
  }

  lemma {:induction false} ClearFiltersDeactivates(f: PromptFilters)
    ensures Cleared(f).category == ALL && !HasActiveFilters(Cleared(f)) && Cleared(f).searchTerm == f.searchTerm
    ensures Cleared(f) == f <==> !HasActiveFilters(f)
  {
  }
}
