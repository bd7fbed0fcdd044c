/** The bilingual dictionary page: subject selection and a search over both languages. */
module Dictionary {

  import Text
  import Lists

  datatype DictionaryEntry = DictionaryEntry(
    id: string,
    englishTerm: string,
    khmerTerm: string,
    phonetic: string,
    definition: string,
    example: string,
    subject: string)

  datatype EntryFilters = EntryFilters(searchTerm: string, subject: string)

  const ALL := "All"

  /** The predicate given to `dictionary.filter`. */
  function Kept(f: EntryFilters, e: DictionaryEntry): bool {
    if f.subject != ALL && e.subject != f.subject then false
    else if f.searchTerm != "" then
      var term := Text.Lower(f.searchTerm);
      Text.Contains(Text.Lower(e.englishTerm), term) || Text.Contains(Text.Lower(e.khmerTerm), term)
    else true
  }

  function KeptBy(f: EntryFilters): DictionaryEntry -> bool {
    (e: DictionaryEntry) => Kept(f, e)
  }

  function FilteredEntries(dictionary: seq<DictionaryEntry>, f: EntryFilters): seq<DictionaryEntry> {
    Lists.Filter(dictionary, KeptBy(f))
  }

  /** An entry is shown exactly when its subject is selected and, for a non-empty search, the
      lower-cased term occurs in its English or its Khmer term; the shown entries keep their order. */
  lemma {:induction false} FilteredSpec(dictionary: seq<DictionaryEntry>, more: seq<DictionaryEntry>,
                                        f: EntryFilters, e: DictionaryEntry)
    ensures e in FilteredEntries(dictionary, f) <==>
      e in dictionary && (f.subject == ALL || e.subject == f.subject)
      && (f.searchTerm != "" ==>
            Text.Contains(Text.Lower(e.englishTerm), Text.Lower(f.searchTerm))
            || Text.Contains(Text.Lower(e.khmerTerm), Text.Lower(f.searchTerm)))
    ensures FilteredEntries(dictionary + more, f) == FilteredEntries(dictionary, f) + FilteredEntries(more, f)
  {
    Lists.FilterAppend(dictionary, more, KeptBy(f));
  }

  /** With no search term and every subject, the whole dictionary is shown in order. */
  lemma {:induction false} NoFiltersShowAll(dictionary: seq<DictionaryEntry>)
    ensures FilteredEntries(dictionary, EntryFilters("", ALL)) == dictionary
  {
    Lists.FilterAll(dictionary, KeptBy(EntryFilters("", ALL)));
  }

  /** `clearFilters` resets the subject only. */
  function Cleared(f: EntryFilters): EntryFilters {
    f.(subject := ALL)
  }

  predicate HasActiveFilters(f: EntryFilters) {
    f.subject != ALL
  }

  lemma {:induction false} ClearFiltersDeactivates(f: EntryFilters)
    ensures !HasActiveFilters(Cleared(f)) && Cleared(f).searchTerm == f.searchTerm
    ensures Cleared(f) == f <==> !HasActiveFilters(f)
  {
  }
}
