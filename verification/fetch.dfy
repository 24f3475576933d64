/**
 * Fetching the latest item for a channel: the channel's URLs are tried in
 * stored order and the first item of the first feed that parses and has an
 * item is returned.
 */
module Fetch {
  import opened Wrappers
  import opened Feeds

  datatype Item = Item(title: string, link: string, published: string)

  /** A parsed feed; `items` is in the feed's own order, most recent first by convention. */
  datatype Feed = Feed(title: string, items: seq<Item>)

  const NoItemsError := "error: no items found for any feed"

  /** A fetch-and-parse outcome that `fetchRSS` accepts: it parsed and has an item. */
  predicate Yields(outcome: Result<Feed, string>)
  {
    outcome.Success? && |outcome.value.items| > 0
  }

  /**
   * `parseURL` stands for fetching and parsing one URL; it fails or gives a
   * feed. The result is the first item of the first URL, in the channel's
   * stored order, whose feed parses with at least one item; it is an error
   * exactly when no URL does.
   */
  method FetchRSS(store: FeedStore, channelID: string, parseURL: string -> Result<Feed, string>)
    returns (r: Result<Item, string>)
    ensures var urls := store.Feeds(channelID);
      r.Failure? <==> forall i :: 0 <= i < |urls| ==> !Yields(parseURL(urls[i]))
    ensures r.Failure? ==> r.error == NoItemsError
    ensures var urls := store.Feeds(channelID);
      r.Success? ==>
        exists i :: 0 <= i < |urls| && Yields(parseURL(urls[i]))
          && r.value == parseURL(urls[i]).value.items[0]
          && forall j :: 0 <= j < i ==> !Yields(parseURL(urls[j]))
  {
    var feedURLList := store.Feeds(channelID);
    for i := 0 to |feedURLList|
      invariant forall j :: 0 <= j < i ==> !Yields(parseURL(feedURLList[j]))
    {
      var feed := parseURL(feedURLList[i]);
      if feed.Failure? {
        continue;
      }
      if |feed.value.items| == 0 {
        continue;
      }
      return Success(feed.value.items[0]);
    }
    return Failure(NoItemsError);
  }
}
