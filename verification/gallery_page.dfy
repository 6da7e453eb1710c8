/** The gallery page of the front end: category buttons over a fixed list
    of items. */
module GalleryPage {
  import opened Query

  datatype GalleryItem = GalleryItem(id: int, category: string, title: string)

  const AllCategories := "all"

  /** `filteredGallery`: the whole gallery for 'all', otherwise the items of
      the selected category, in their order. */
  function FilteredGallery(gallery: seq<GalleryItem>, selected: string): (r: seq<GalleryItem>)
    ensures selected == AllCategories ==> r == gallery
    ensures selected != AllCategories ==>
              forall item :: item in r <==> item in gallery && item.category == selected
    ensures selected != AllCategories ==>
              forall item :: multiset(r)[item] == if item.category == selected then multiset(gallery)[item] else 0
    ensures IsSubsequence(r, gallery)
  {
    if selected == AllCategories then
      IsSubsequenceOfItself(gallery);
      gallery
    else
      Filter(gallery, (item: GalleryItem) => item.category == selected)
  }

  lemma {:induction false} IsSubsequenceOfItself<T>(s: seq<T>)
    ensures IsSubsequence(s, s)
    decreases |s|
  {
    if s != [] {
      IsSubsequenceOfItself(s[1..]);
    }
  }

  /** A category that no item has shows nothing (the "No items found" case). */
  lemma UnknownCategoryIsEmpty(gallery: seq<GalleryItem>, selected: string)
    requires selected != AllCategories
    requires forall i :: 0 <= i < |gallery| ==> gallery[i].category != selected
    ensures FilteredGallery(gallery, selected) == []
  {
  }
}
