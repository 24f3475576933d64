/**
 * The per-channel feed subscription store: a table from channel ID to the
 * ordered list of feed URLs the channel is subscribed to, plus one
 * process-wide timeout.
 */
module Feeds {
  import opened Wrappers
  import opened Text
  import opened Slices

  /** Go's `time.Duration`: a signed 64-bit count of nanoseconds. */
  type Duration = d: int | -0x8000_0000_0000_0000 <= d < 0x8000_0000_0000_0000

  const Minute: Duration := 60 * 1_000_000_000

  /** The timeout the store starts with: 30 minutes. */
  const DefaultTimeout: Duration := 30 * Minute

  const NoFeedsReply := "No RSS feeds subscribed."
  const ListingHeader := "Subscribed feeds:\n"

  /** `feeds` with every occurrence of `url` dropped, the rest kept in order. */
  function Without(feeds: seq<string>, url: string): (r: seq<string>)
    ensures url !in r
    ensures |r| <= |feeds|
  {
    if feeds == [] then []
    else
      var last := feeds[|feeds| - 1];
      Without(feeds[..|feeds| - 1], url) + (if last == url then [] else [last])
  }

  /** Filtering distributes over concatenation, so it keeps the relative order of what it keeps. */
  lemma {:induction false} WithoutConcat(a: seq<string>, b: seq<string>, url: string)
    ensures Without(a + b, url) == Without(a, url) + Without(b, url)
    decreases |b|
  {
    if b != [] {
      var init := b[..|b| - 1];
      assert (a + b)[..|a + b| - 1] == a + init;
      WithoutConcat(a, init, url);
    } else {
      assert a + b == a;
    }
  }

  /** Filtering drops exactly the occurrences of `url` and keeps every other element as often as before. */
  lemma {:induction false} WithoutCounts(feeds: seq<string>, url: string)
    ensures multiset(Without(feeds, url)) == multiset(feeds)[url := 0]
  {
    if feeds != [] {
      var init := feeds[..|feeds| - 1];
      assert feeds == init + [feeds[|feeds| - 1]];
      WithoutCounts(init, url);
    }
  }

  /** Filtering out a URL that is not there leaves the list as it was. */
  lemma {:induction false} WithoutAbsent(feeds: seq<string>, url: string)
    requires url !in feeds
    ensures Without(feeds, url) == feeds
  {
    if feeds != [] {
      var init := feeds[..|feeds| - 1];
      assert feeds == init + [feeds[|feeds| - 1]];
      WithoutAbsent(init, url);
    }
  }

  /** Filtering keeps a duplicate-free list duplicate-free. */
  lemma {:induction false} WithoutKeepsDistinct(feeds: seq<string>, url: string)
    requires Distinct(feeds)
    ensures Distinct(Without(feeds, url))
  {
    if feeds != [] {
      var init := feeds[..|feeds| - 1];
      var last := feeds[|feeds| - 1];
      assert feeds == init + [last];
      assert Distinct(init);
      WithoutKeepsDistinct(init, url);
      if last != url {
        WithoutCounts(init, url);
        assert last !in init;
        assert multiset(init)[last] == 0;
        assert multiset(Without(init, url))[last] == 0;
        assert last !in Without(init, url);
        AppendFreshKeepsDistinct(Without(init, url), last);
      }
    }
  }

  class FeedStore {
    var feedURLs: map<string, seq<string>>
    var timeout: Duration

    /** The store as the program starts with it: no subscriptions, a 30-minute timeout. */
    constructor ()
      ensures feedURLs == map[] && timeout == DefaultTimeout
    {
      feedURLs := map[];
      timeout := DefaultTimeout;
    }

    /** The URLs of `channelID`, in stored order; a channel without an entry has none. */
    function Feeds(channelID: string): seq<string>
      reads this
    {
      if channelID in feedURLs then feedURLs[channelID] else []
    }

    /** No channel is subscribed to the same URL twice. */
    predicate NoDuplicates()
      reads this
    {
      forall c :: c in feedURLs ==> Distinct(feedURLs[c])
    }

    /** Every stored URL is a single word, as the command handler produces them. */
    predicate URLsAreWords()
      reads this
    {
      forall c, u :: c in feedURLs && u in feedURLs[c] ==> IsWord(u)
    }

    /** Appends `feedURL` to the channel's list, without checking for a duplicate. */
    method AddFeed(channelID: string, feedURL: string)
      modifies this
      ensures feedURLs == old(feedURLs)[channelID := old(Feeds(channelID)) + [feedURL]]
      ensures Feeds(channelID) == old(Feeds(channelID)) + [feedURL]
      ensures forall c :: c != channelID ==> Feeds(c) == old(Feeds(c))
      ensures timeout == old(timeout)
      ensures old(NoDuplicates()) && feedURL !in old(Feeds(channelID)) ==> NoDuplicates()
    {
      var feeds := Feeds(channelID);
      feeds := feeds + [feedURL];
      if old(NoDuplicates()) && feedURL !in old(Feeds(channelID)) {
        AppendFreshKeepsDistinct(old(Feeds(channelID)), feedURL);
      }
      feedURLs := feedURLs[channelID := feeds];
    }

    /** Drops every occurrence of `feedURL` from the channel's list, keeping the order of the rest. */
    method RemoveFeed(channelID: string, feedURL: string)
      modifies this
      ensures feedURLs == old(feedURLs)[channelID := Without(old(Feeds(channelID)), feedURL)]
      ensures feedURL !in Feeds(channelID)
      ensures forall c :: c != channelID ==> Feeds(c) == old(Feeds(c))
      ensures timeout == old(timeout)
      ensures old(NoDuplicates()) ==> NoDuplicates()
    {
      var feeds := Feeds(channelID);
      var newFeeds: seq<string> := [];
      for i := 0 to |feeds|
        invariant newFeeds == Without(feeds[..i], feedURL)
      {
        assert feeds[..i + 1][..i] == feeds[..i];
        if feeds[i] != feedURL {
          newFeeds := newFeeds + [feeds[i]];
        }
      }
      assert feeds[..|feeds|] == feeds;
      if old(NoDuplicates()) {
        WithoutKeepsDistinct(feeds, feedURL);
      }
      feedURLs := feedURLs[channelID := newFeeds];
    }

    /** The reply to a `list` command: a sentinel for an empty list, else a header and one URL per line. */
    function ListFeed(channelID: string): (r: string)
      reads this
      ensures r == NoFeedsReply <==> Feeds(channelID) == []
      ensures Feeds(channelID) != [] ==> ListingHeader <= r
    {
      var feeds := Feeds(channelID);
      if |feeds| == 0 then NoFeedsReply
      else
        var r := ListingHeader + Join(feeds, "\n");
        assert r[0] != NoFeedsReply[0];
        r
    }

    /** Replaces the timeout when `timeoutStr` parses as a duration; the subscriptions are untouched. */
    method UpdateTimeout(timeoutStr: string, parseDuration: string -> Result<Duration, string>)
      returns (err: Option<string>)
      modifies this
      ensures feedURLs == old(feedURLs)
      ensures parseDuration(timeoutStr).Failure? ==>
                err == Some(parseDuration(timeoutStr).error) && timeout == old(timeout)
      ensures parseDuration(timeoutStr).Success? ==>
                err == None && timeout == parseDuration(timeoutStr).value
    {
      var d := parseDuration(timeoutStr);
      if d.Failure? {
        return Some(d.error);
      }
      timeout := d.value;
      err := None;
    }

    /** Whether `feedURL` is among the channel's subscriptions. */
    function FeedExists(channelID: string, feedURL: string): (b: bool)
      reads this
      ensures b <==> feedURL in Feeds(channelID)
    {
      Contains(Feeds(channelID), feedURL)
    }
  }

  /** The listing of a non-empty list of newline-free URLs decodes back to that list. */
  lemma ListFeedRoundTrip(store: FeedStore, channelID: string)
    requires store.Feeds(channelID) != []
    requires forall u :: u in store.Feeds(channelID) ==> '\n' !in u
    ensures ListingHeader <= store.ListFeed(channelID)
    ensures Split(store.ListFeed(channelID)[|ListingHeader|..], '\n') == store.Feeds(channelID)
  {
    var feeds := store.Feeds(channelID);
    var body := Join(feeds, "\n");
    assert (ListingHeader + body)[|ListingHeader|..] == body;
    SplitJoin(feeds, '\n');
  }
}
