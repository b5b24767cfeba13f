/**
 * The category selection screen: a list of fetched categories, each shown with
 * its image, that the user toggles in and out of an ordered selection; the
 * Submit button is enabled only for a non-empty selection and hands that
 * selection on to the feed.
 */
module Categories {
  import opened Options
  import opened Sequences
  import opened Strings

  /** Category identifiers as the backend returns them. */
  type CategoryId = string

  datatype Category = Category(id: CategoryId, name: string, image: string)

  /** The image origin the backend's development setup leaves in image URLs. */
  const LocalOrigin: string := "http://localhost:4000"
  /** The deployed backend's origin. */
  const RemoteOrigin: string := "https://suman-backend.onrender.com"

  /** Button colours of the Submit button. */
  const DisabledColor: string := "#ccc"
  const EnabledColor: string := "#e72967"

  /** The test `id => id !== categoryId`. */
  function Other(id: CategoryId): CategoryId -> bool
  {
    (x: CategoryId) => x != id
  }

  /**
   * `toggleCategory`: an id that is selected is removed (every occurrence of it),
   * an id that is not selected is appended at the end.
   */
  function Toggle(selected: seq<CategoryId>, id: CategoryId): (r: seq<CategoryId>)
    ensures id in r <==> id !in selected
    ensures forall x | x != id :: x in r <==> x in selected
    ensures id !in selected ==> r == selected + [id]
    ensures id in selected ==> IsSubsequence(r, selected)
    ensures id in selected ==> forall x | x != id :: multiset(r)[x] == multiset(selected)[x]
  {
    if id in selected then
      FilterIsSubsequence(selected, Other(id));
      FilterMembership(selected, Other(id), id);
      assert forall x | x != id :: x in Filter(selected, Other(id)) <==> x in selected by {
        forall x | x != id ensures x in Filter(selected, Other(id)) <==> x in selected {
          FilterMembership(selected, Other(id), x);
        }
      }
      assert forall x | x != id :: multiset(Filter(selected, Other(id)))[x] == multiset(selected)[x] by {
        forall x | x != id ensures multiset(Filter(selected, Other(id)))[x] == multiset(selected)[x] {
          FilterCounts(selected, Other(id), x);
        }
      }
      Filter(selected, Other(id))
    else
      selected + [id]
  }

  /** Toggling an id that is not selected, twice, gives back exactly the original list. */
  lemma ToggleTwiceAbsent(selected: seq<CategoryId>, id: CategoryId)
    requires id !in selected
    ensures Toggle(Toggle(selected, id), id) == selected
  {
    FilterAppend(selected, [id], Other(id));
    FilterAllPass(selected, Other(id));
  }

  /**
   * Toggling a selected id, twice, gives the same set of ids; the id has moved to
   * the end, behind the other ids in their original order.
   */
  lemma ToggleTwicePresent(selected: seq<CategoryId>, id: CategoryId)
    requires id in selected
    ensures forall x :: x in Toggle(Toggle(selected, id), id) <==> x in selected
    ensures Toggle(Toggle(selected, id), id) == Filter(selected, Other(id)) + [id]
  {
  }

  /** A toggle keeps a duplicate-free selection duplicate-free. */
  lemma ToggleKeepsNoDuplicates(selected: seq<CategoryId>, id: CategoryId)
    requires NoDuplicates(selected)
    ensures NoDuplicates(Toggle(selected, id))
  {
    if id in selected {
      FilterNoDuplicates(selected, Other(id));
    } else {
      var r := selected + [id];
      forall i, j | 0 <= i < j < |r| ensures r[i] != r[j] {
        if j == |selected| {
          assert r[i] == selected[i];
        }
      }
    }
  }

  /** The Submit button is disabled exactly when nothing is selected. */
  function SubmitDisabled(selected: seq<CategoryId>): (r: bool)
    ensures r <==> selected == []
  {
    |selected| == 0
  }

  /** The Submit button's background colour: grey while disabled, pink while enabled. */
  function SubmitColor(selected: seq<CategoryId>): (r: string)
    ensures r == DisabledColor <==> SubmitDisabled(selected)
    ensures r == EnabledColor <==> !SubmitDisabled(selected)
  {
    if |selected| == 0 then DisabledColor else EnabledColor
  }

  /**
   * The image URL the screen displays: an image URL that mentions `localhost`
   * has its first `http://localhost:4000` replaced by the deployed origin; any
   * other URL is shown as it is.
   */
  function ImageUri(image: string): (r: string)
    ensures !Contains(image, "localhost") ==> r == image
    ensures (forall j: nat :: !OccursAt(image, LocalOrigin, j)) ==> r == image
    ensures forall i: nat :: FirstOccurrence(image, LocalOrigin, i) ==>
      r == image[..i] + RemoteOrigin + image[i + |LocalOrigin|..]
    ensures OccursAt(image, LocalOrigin, 0) ==> r == RemoteOrigin + image[|LocalOrigin|..]
  {
    assert LocalOrigin[7..16] == "localhost";
    assert forall i: nat :: OccursAt(image, LocalOrigin, i) ==> Contains(image, "localhost") by {
      forall i: nat | OccursAt(image, LocalOrigin, i) ensures Contains(image, "localhost") {
        PieceOccurs(image, LocalOrigin, i, 7, 16);
      }
    }
    assert OccursAt(image, LocalOrigin, 0) ==> FirstOccurrence(image, LocalOrigin, 0);
    if Contains(image, "localhost") then ReplaceFirst(image, LocalOrigin, RemoteOrigin) else image
  }

  /** The selection screen's state: the fetched categories and the current selection. */
  class CategoriesScreen {
    var categories: seq<Category>
    var selectedCategories: seq<CategoryId>

    /** The screen mounts with no categories and an empty selection. */
    constructor ()
      ensures categories == [] && selectedCategories == []
    {
      categories := [];
      selectedCategories := [];
    }

    /** The categories request resolved with `fetched`; the selection is kept. */
    method SetCategories(fetched: seq<Category>)
      modifies this
      ensures categories == fetched
      ensures selectedCategories == old(selectedCategories)
    {
      categories := fetched;
    }

    /** A tap on a category tile. */
    method ToggleCategory(id: CategoryId)
      modifies this
      ensures selectedCategories == Toggle(old(selectedCategories), id)
      ensures categories == old(categories)
    {
      selectedCategories := Toggle(selectedCategories, id);
    }

    /**
     * A press on Submit: ignored while the button is disabled, otherwise the
     * navigation to the feed, carrying the selection.
     */
    method PressSubmit() returns (navigation: Option<seq<CategoryId>>)
      ensures navigation.Some? <==> !SubmitDisabled(selectedCategories)
      ensures navigation.Some? ==> navigation.value == selectedCategories && |navigation.value| > 0
    {
      if SubmitDisabled(selectedCategories) {
        navigation := None;
      } else {
        navigation := Some(selectedCategories);
      }
    }
  }
}
