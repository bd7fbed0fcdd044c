/** The past-exam-papers page: the filter over the paper list, the favourites-first sort and the
    filter controls. */
module ExamPapers {

  import opened Wrappers
  import Text
  import Lists
  import StableSort
  import Favorites

  datatype ExamPaper = ExamPaper(
    id: string,
    title: string,
    subject: string,
    grade: string,
    year: int,
    fileUrl: string,
    googleDriveUrl: string)

  /** The page's filter state: search box, subject, year and grade selections. */
  datatype PaperFilters = PaperFilters(searchTerm: string, subject: string, year: string, grade: string)

  const ALL := "All"

  const INITIAL_FILTERS := PaperFilters("", ALL, ALL, ALL)

  /** The predicate given to `examPapers.filter`, with its early returns. The year selection is read
      with `parseInt`; a selection that is not a number matches no paper. */
  function Kept(f: PaperFilters, paper: ExamPaper): bool {
    if f.subject != ALL && paper.subject != f.subject then false
    else if f.year != ALL && Text.ParseInt(f.year) != Some(paper.year) then false
    else if f.grade != ALL && paper.grade != f.grade then false
    else if f.searchTerm != "" then Text.Contains(Text.Lower(paper.title), Text.Lower(f.searchTerm))
    else true
  }

  function KeptBy(f: PaperFilters): ExamPaper -> bool {
    (paper: ExamPaper) => Kept(f, paper)
  }

  function FilteredPapers(papers: seq<ExamPaper>, f: PaperFilters): seq<ExamPaper> {
    Lists.Filter(papers, KeptBy(f))
  }

  /** A paper is shown exactly when every active selection matches it and, for a non-empty search,
      its lower-cased title contains the lower-cased term. */
  lemma {:induction false} KeptIff(f: PaperFilters, paper: ExamPaper)
    ensures Kept(f, paper) <==>
      (f.subject == ALL || paper.subject == f.subject)
      && (f.year == ALL || Text.ParseInt(f.year) == Some(paper.year))
      && (f.grade == ALL || paper.grade == f.grade)
      && (f.searchTerm != "" ==> Text.Contains(Text.Lower(paper.title), Text.Lower(f.searchTerm)))
  {
  }

  /** A year selection that is not a number hides every paper. */
  lemma {:induction false} UnparsableYearHidesAll(papers: seq<ExamPaper>, f: PaperFilters)
    requires f.year != ALL && Text.ParseInt(f.year).None?
    ensures FilteredPapers(papers, f) == []
  {
    Lists.FilterNone(papers, KeptBy(f));
  }

  /** The filtered list holds exactly the kept papers and keeps their order: filtering two halves of
      the list filters each half. */
  lemma {:induction false} FilteredSpec(papers: seq<ExamPaper>, more: seq<ExamPaper>, f: PaperFilters)
    ensures forall p :: p in FilteredPapers(papers, f) <==> p in papers && Kept(f, p)
    ensures FilteredPapers(papers + more, f) == FilteredPapers(papers, f) + FilteredPapers(more, f)
  {
    Lists.FilterAppend(papers, more, KeptBy(f));
  }

  /** With no selection and no search term, every paper is shown, in order. */
  lemma {:induction false} NoFiltersShowAll(papers: seq<ExamPaper>)
    ensures FilteredPapers(papers, INITIAL_FILTERS) == papers
  {
    Lists.FilterAll(papers, KeptBy(INITIAL_FILTERS));
  }

  /** The comparator given to `sort`, as written. */
  function SourceCompare(a: ExamPaper, b: ExamPaper, favorites: seq<string>): int {
    var aFavorite := a.id in favorites;
    var bFavorite := b.id in favorites;
    if aFavorite && !bFavorite then -1
    else if !aFavorite && bFavorite then 1
    else b.year - a.year
  }

  /** Favourites rank first, then the most recent year. */
  function PaperRank(favorites: seq<string>): ExamPaper -> StableSort.Rank {
    (p: ExamPaper) => StableSort.Rank(if p.id in favorites then 0 else 1, -p.year)
  }

  /** The comparator orders two papers exactly as their ranks do, so `sort` with it is the stable
      sort by rank. */
  lemma {:induction false} ComparatorIsRankOrder(a: ExamPaper, b: ExamPaper, favorites: seq<string>)
    ensures var c := StableSort.Compare(PaperRank(favorites)(a), PaperRank(favorites)(b));
      var s := SourceCompare(a, b, favorites);
      (s < 0 <==> c < 0) && (s == 0 <==> c == 0) && (s > 0 <==> c > 0)
  {
  }

  function SortedPapers(filtered: seq<ExamPaper>, favorites: seq<string>): seq<ExamPaper> {
    StableSort.SortByRank(filtered, PaperRank(favorites))
  }

  /** The sorted list is a permutation of the filtered one; favourites come before the rest, within
      the same favourite status the later year comes first, and no pair is out of the comparator's
      order. Papers of equal rank keep their filtered order. */
  lemma {:induction false} SortedPapersSpec(filtered: seq<ExamPaper>, favorites: seq<string>, k: StableSort.Rank)
    ensures var r := SortedPapers(filtered, favorites);
      multiset(r) == multiset(filtered)
      && (forall i, j :: 0 <= i < j < |r| && r[j].id in favorites ==> r[i].id in favorites)
      && (forall i, j :: 0 <= i < j < |r| && (r[i].id in favorites <==> r[j].id in favorites) ==> r[i].year >= r[j].year)
      && (forall i, j :: 0 <= i < j < |r| ==> SourceCompare(r[i], r[j], favorites) <= 0)
    ensures Lists.Filter(SortedPapers(filtered, favorites), StableSort.HasRank(PaperRank(favorites), k))
         == Lists.Filter(filtered, StableSort.HasRank(PaperRank(favorites), k))
  {
    var r := SortedPapers(filtered, favorites);
    StableSort.SortSpec(filtered, PaperRank(favorites));
    StableSort.SortStable(filtered, PaperRank(favorites), k);
    forall i, j | 0 <= i < j < |r| ensures SourceCompare(r[i], r[j], favorites) <= 0 {
      assert StableSort.RankLe(PaperRank(favorites)(r[i]), PaperRank(favorites)(r[j]));
      ComparatorIsRankOrder(r[i], r[j], favorites);
    }
  }

  /** `clearFilters` resets the three selections and leaves the search term. */
  function Cleared(f: PaperFilters): PaperFilters {
    f.(subject := ALL, year := ALL, grade := ALL)
  }

  predicate HasActiveFilters(f: PaperFilters) {
    f.subject != ALL || f.year != ALL || f.grade != ALL
  }

  /** After clearing, no selection is active, the search term is kept, and the filter keeps exactly
      the papers whose title matches the search. */
  lemma {:induction false} ClearFiltersDeactivates(f: PaperFilters, paper: ExamPaper)
    ensures !HasActiveFilters(Cleared(f)) && Cleared(f).searchTerm == f.searchTerm
    ensures Kept(Cleared(f), paper) <==>
      (f.searchTerm != "" ==> Text.Contains(Text.Lower(paper.title), Text.Lower(f.searchTerm)))
    ensures !HasActiveFilters(f) ==> Cleared(f) == f
  {
  }
}
