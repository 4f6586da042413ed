/**
 * The app's feed screen state (FeedViewModel.kt): the items loaded so far,
 * which of them is shown, and the removal of a reported item. Unlike the
 * terminal's feed, this one may be empty, and then nothing is shown.
 */
module KtFeedViewModel {
  import opened Wrappers
  import Feed
  import KtPixelEditorViewModel

  /** The index after a report removed the item at `current`, given the new item count. */
  function IndexAfterReport(current: int, newSize: int): int
  {
    if current >= newSize && newSize > 0 then newSize - 1 else current
  }

  /**
   * After the shown item is reported, the item that followed it is shown;
   * when it was the last, the new last item; and when it was the only one,
   * nothing.
   */
  lemma ReportShowsNeighbour<T>(items: seq<T>, current: nat)
    requires current < |items|
    ensures var rest, c := KtPixelEditorViewModel.RemoveAt(items, current), IndexAfterReport(current, |items| - 1);
      && (current + 1 < |items| ==> 0 <= c < |rest| && rest[c] == items[current + 1])
      && (current + 1 == |items| > 1 ==> c == |rest| - 1 && rest[c] == items[current - 1])
      && (|items| == 1 ==> |rest| == 0 && c == 0)
  {
  }

  class FeedViewModel<Item> {
    var feedItems: seq<Item>
    var currentIndex: int
    var isShowingStatic: bool

    /** The index is never negative and names an item, or is 0 when the feed is empty. */
    predicate Valid()
      reads this
    {
      0 <= currentIndex && (currentIndex < |feedItems| || currentIndex == 0)
    }

    constructor ()
      ensures Valid() && feedItems == [] && currentIndex == 0 && !isShowingStatic
    {
      feedItems := [];
      currentIndex := 0;
      isShowingStatic := false;
    }

    /** currentItem: getOrNull, the item at the index, or nothing when the index is out of range. */
    function CurrentItem(): (r: Option<Item>)
      reads this
      ensures r.None? <==> !(0 <= currentIndex < |feedItems|)
      ensures r.Some? ==> 0 <= currentIndex < |feedItems| && r.value == feedItems[currentIndex]
      ensures Valid() ==> (r.None? <==> |feedItems| == 0)
    {
      if 0 <= currentIndex < |feedItems| then Some(feedItems[currentIndex]) else None
    }

    /** hasPrevious: whether there is anything to go back to; the feed wraps, so exactly when it is not empty. */
    function HasPrevious(): (r: bool)
      reads this
      ensures Valid() ==> (r <==> CurrentItem().Some?)
    {
      |feedItems| > 0
    }

    /** hasNext: whether there is anything to go on to; exactly when the feed is not empty. */
    function HasNext(): (r: bool)
      reads this
      ensures Valid() ==> (r <==> CurrentItem().Some?)
    {
      |feedItems| > 0
    }

    /** onItemsLoaded: the items from a server are added at the end. */
    method ItemsLoaded(items: seq<Item>)
      requires Valid()
      modifies this
      ensures Valid() && feedItems == old(feedItems) + items
      ensures currentIndex == old(currentIndex) && isShowingStatic == old(isShowingStatic)
      ensures old(CurrentItem()).Some? ==> CurrentItem() == old(CurrentItem())
    {
      feedItems := feedItems + items;
    }

    /** showStatic: the static screen is shown; nothing else changes. */
    method ShowStatic()
      modifies this
      ensures isShowingStatic
      ensures feedItems == old(feedItems) && currentIndex == old(currentIndex)
    {
      isShowingStatic := true;
    }

    /** hideStatic: the static screen is hidden; nothing else changes. */
    method HideStatic()
      modifies this
      ensures !isShowingStatic
      ensures feedItems == old(feedItems) && currentIndex == old(currentIndex)
    {
      isShowingStatic := false;
    }

    /** next: the following item, the first after the last; nothing happens on an empty feed. */
    method Next()
      requires Valid()
      modifies this
      ensures Valid() && feedItems == old(feedItems) && isShowingStatic == old(isShowingStatic)
      ensures |feedItems| > 0 ==> currentIndex == Feed.NextIndex(old(currentIndex), |feedItems|)
      ensures |feedItems| == 0 ==> currentIndex == old(currentIndex)
    {
      if |feedItems| > 0 {
        currentIndex := (currentIndex + 1) % |feedItems|;
      }
    }

    /** previous: the item before, the last before the first; nothing happens on an empty feed. */
    method Previous()
      requires Valid()
      modifies this
      ensures Valid() && feedItems == old(feedItems) && isShowingStatic == old(isShowingStatic)
      ensures |feedItems| > 0 ==> currentIndex == Feed.PreviousIndex(old(currentIndex), |feedItems|)
      ensures |feedItems| == 0 ==> currentIndex == old(currentIndex)
    {
      if |feedItems| > 0 {
        currentIndex := if currentIndex == 0 then |feedItems| - 1 else currentIndex - 1;
      }
    }

    /**
     * The successful end of reportCurrentContent: the shown item is removed
     * and the index is pulled back onto the last item when it ran past the
     * end. Nothing happens when no item is shown.
     */
    method ReportSucceeded()
      requires Valid()
      modifies this
      ensures Valid() && isShowingStatic == old(isShowingStatic)
      ensures old(CurrentItem()).None? ==> feedItems == old(feedItems) && currentIndex == old(currentIndex)
      ensures old(CurrentItem()).Some? ==>
        && feedItems == KtPixelEditorViewModel.RemoveAt(old(feedItems), old(currentIndex))
        && currentIndex == IndexAfterReport(old(currentIndex), |feedItems|)
    {
      if 0 <= currentIndex < |feedItems| {
        feedItems := KtPixelEditorViewModel.RemoveAt(feedItems, currentIndex);
        if currentIndex >= |feedItems| && |feedItems| > 0 {
          currentIndex := |feedItems| - 1;
        }
      }
    }
  }
}
