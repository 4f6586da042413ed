/**
 * The terminal's feed (src/channel/feed.rs): the channels fetched from the
 * servers, browsed one at a time, round and round. An empty feed is
 * replaced by a single "No content" item showing static.
 */
module Feed {
  import opened Wrappers
  import opened Text
  import AsciiArtSheet
  import Channels

  datatype FeedItem = FeedItem(channel: Channels.Channel)

  /** The text used as art when the static sprite cannot be read. */
  const FallbackArt := "Error loading static"

  /**
   * create_empty_state_item: a channel with id -1 named "No content" that
   * shows the static art. The source unwraps the result, so the art must be
   * a sprite sheet.
   */
  method EmptyStateItem(staticArt: string) returns (item: FeedItem)
    requires AsciiArtSheet.ParseSheet(staticArt).Success?
    ensures item.channel.id == -1 && item.channel.contentId == -1
    ensures item.channel.name == "No content"
    ensures item.channel.content == Channels.ChannelContent(staticArt, "16-")
    ensures item.channel.serverUrl == None
    ensures fresh(item.channel.player) && item.channel.player.Valid()
    ensures item.channel.player.sheet == AsciiArtSheet.ParseSheet(staticArt).value
    ensures item.channel.player.currentFrame == 0 && item.channel.player.fps == 10.0
  {
    var channel := Channels.NewChannel(-1, "No content", staticArt, "16-", 10.0, -1);
    item := FeedItem(channel.value);
  }

  /**
   * The text read when the static sprite is missing is not a sprite sheet,
   * so an empty feed without that file cannot be built: the unwrap fails.
   */
  lemma FallbackArtFails()
    ensures AsciiArtSheet.ParseSheet(FallbackArt).Failure?
  {
    FallbackIsLine();
    FallbackHeaderRejected();
  }

  lemma FallbackIsLine()
    ensures Lines(FallbackArt) == [FallbackArt]
  {
    assert FallbackArt == "Error" + " loading" + " static";
    assert '\n' !in "Error" && '\n' !in " loading" && '\n' !in " static";
  }

  lemma FallbackHeaderRejected()
    ensures AsciiArtSheet.ParseHeader(FallbackArt).Failure?
  {
    assert FallbackArt[0] == 'E' && AsciiArtSheet.HeaderPrefix[0] == 'A';
    assert !StartsWith(FallbackArt, AsciiArtSheet.HeaderPrefix);
  }

  /** next: one item on, from the last back to the first. */
  function NextIndex(i: nat, n: nat): (r: nat)
    requires i < n
    ensures r < n
    ensures i + 1 < n ==> r == i + 1
    ensures i + 1 == n ==> r == 0
  {
    (i + 1) % n
  }

  /** previous: one item back, from the first round to the last. */
  function PreviousIndex(i: nat, n: nat): (r: nat)
    requires i < n
    ensures r < n
    ensures NextIndex(r, n) == i
  {
    if i == 0 then n - 1 else i - 1
  }

  /** Going on and then back, or back and then on, returns to the same item. */
  lemma NextThenPrevious(i: nat, n: nat)
    requires i < n
    ensures PreviousIndex(NextIndex(i, n), n) == i
    ensures NextIndex(PreviousIndex(i, n), n) == i
  {
  }

  /** The index after k calls of next. */
  function NextTimes(i: nat, n: nat, k: nat): (r: nat)
    requires i < n
    ensures r < n
    decreases k
  {
    if k == 0 then i else NextTimes(NextIndex(i, n), n, k - 1)
  }

  /**
   * k calls of next move k items on, modulo the feed's length; so n calls
   * on a feed of n items come back to where they started.
   */
  lemma {:induction false} NextTimesShift(i: nat, n: nat, k: nat)
    requires i < n
    ensures NextTimes(i, n, k) == (i + k) % n
    ensures k == n ==> NextTimes(i, n, k) == i
    decreases k
  {
    if k > 0 {
      NextTimesShift(NextIndex(i, n), n, k - 1);
      WrapStep(i, k - 1, n);
    } else {
      assert i % n == i;
    }
    if k == n {
      ModAddModulus(i, n);
      assert i % n == i;
    }
  }

  class FeedManager {
    var items: seq<FeedItem>
    var currentIndex: nat

    /** The index always names an item, so the feed is never empty. */
    predicate Valid()
      reads this
    {
      currentIndex < |items|
    }

    /** new: the items, or the single empty-state item when there are none; the first one shown. */
    constructor (items: seq<FeedItem>, staticArt: string)
      requires |items| > 0 || AsciiArtSheet.ParseSheet(staticArt).Success?
      ensures Valid() && currentIndex == 0
      ensures |items| > 0 ==> this.items == items
      ensures |items| == 0 ==> IsEmptyState() && this.items[0].channel.name == "No content"
    {
      if |items| == 0 {
        var empty := EmptyStateItem(staticArt);
        this.items := [empty];
      } else {
        this.items := items;
      }
      currentIndex := 0;
    }

    /** is_empty_state: exactly one item, and it is the "No content" channel's id. */
    predicate IsEmptyState()
      reads this
    {
      |items| == 1 && items[0].channel.id == -1
    }

    /** current: the channel of the item shown. */
    function Current(): (c: Channels.Channel)
      reads this
      requires Valid()
      ensures exists k :: 0 <= k < |items| && items[k].channel == c
    {
      items[currentIndex].channel
    }

    /** next: the following item is shown, the first after the last; in the empty state it stays. */
    method Next()
      requires Valid()
      modifies this
      ensures Valid() && items == old(items)
      ensures currentIndex == NextIndex(old(currentIndex), |items|)
      ensures old(IsEmptyState()) ==> Current() == old(Current())
    {
      if |items| > 0 {
        currentIndex := (currentIndex + 1) % |items|;
      }
    }

    /** previous: the item before is shown, the last before the first; in the empty state it stays. */
    method Previous()
      requires Valid()
      modifies this
      ensures Valid() && items == old(items)
      ensures currentIndex == PreviousIndex(old(currentIndex), |items|)
      ensures old(IsEmptyState()) ==> Current() == old(Current())
    {
      if |items| > 0 {
        if currentIndex == 0 {
          currentIndex := |items| - 1;
        } else {
          currentIndex := currentIndex - 1;
        }
      }
    }
  }
}
