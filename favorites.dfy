/** The favourite ids of the exam-paper and prompt-library pages: `toggleFavorite` removes a present
    id with `filter` and appends an absent one. */
module Favorites {

  import Lists

  function NotId(id: string): string -> bool {
    (x: string) => x != id
  }

  function Toggled(favorites: seq<string>, id: string): seq<string> {
    if id in favorites then Lists.Filter(favorites, NotId(id)) else favorites + [id]
  }

  /** Toggling flips the membership of `id` and of nothing else; an absent id goes to the end. */
  lemma {:induction false} ToggleFlips(favorites: seq<string>, id: string)
    ensures id in Toggled(favorites, id) <==> id !in favorites
    ensures forall x :: x != id ==> (x in Toggled(favorites, id) <==> x in favorites)
    ensures id !in favorites ==> Toggled(favorites, id) == favorites + [id]
  {
  }

  /** Toggling twice restores membership, and restores the very list when the id was absent. */
  lemma {:induction false} ToggleTwice(favorites: seq<string>, id: string)
    ensures forall x :: x in Toggled(Toggled(favorites, id), id) <==> x in favorites
    ensures id !in favorites ==> Toggled(Toggled(favorites, id), id) == favorites
  {
    ToggleFlips(favorites, id);
    ToggleFlips(Toggled(favorites, id), id);
    if id !in favorites {
      Lists.FilterAppend(favorites, [id], NotId(id));
      Lists.FilterCons(id, [], NotId(id));
      forall i | 0 <= i < |favorites| ensures NotId(id)(favorites[i]) {
        assert favorites[i] in favorites;
      }
      Lists.FilterAll(favorites, NotId(id));
    }
  }
}
