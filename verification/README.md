# rssagg-discord: the feed subscription store, fetch and command handler

This project models the core of a Discord bot. The bot keeps RSS feed
subscriptions per channel and answers `/rss` commands. Everything it models
lives in `main.go`:

- **`FeedStore`** (`feeds.dfy`, module `Feeds`): a class whose field `feedURLs`
  maps a channel ID to its ordered list of feed URLs, and whose field `timeout`
  holds one `time.Duration` (a signed 64-bit nanosecond count, 30 minutes at
  start).
  - `AddFeed` appends a URL. It does not check for duplicates.
  - `RemoveFeed` rebuilds the list in a loop that drops every copy of the URL.
  - `ListFeed` renders the reply to `list`.
  - `FeedExists` tests membership.
  - `UpdateTimeout` replaces the timeout only when the string parses.
- **`fetchRSS`** (`fetch.dfy`, module `Fetch`): walks a channel's URLs in
  stored order. It returns the first item of the first feed that parses and
  has an item. Otherwise it fails with `"error: no items found for any feed"`.
  Fetching and parsing a URL is a function parameter, `parseURL`.
- **`messageCreate`** (`bot.dfy`, module `Bot`):
  - `ParseCommand` classifies a message: the `/rss` prefix check,
    `strings.Fields`, the switch on the second word, and each verb's
    argument-count guard.
  - `MessageCreate` acts on the store and returns the reply. A message that
    gets no reply returns `None`.
  - Duration parsing is a function parameter, `parseDuration`.
- **Library functions the core relies on**: `strings.Fields` and
  `strings.Join` are in `text.dfy` (module `Text`), and `slices.Contains` is
  in `slices.dfy` (module `Slices`).
  - `Text.Split` is the inverse of `Join`. It is used only to state that a
    listing can be read back.
  - `Text.Squeeze` is a reference definition of white-space collapsing, written
    character by character. It pins down what `Fields` returns.
- **`Bot.Render`** writes the message that asks for a given command: `/rss`,
  the verb and its argument, separated by single spaces. It is used to state
  that classification reads such a message back.

What the command handler guarantees, as written, for messages handled one
at a time:

- `add` calls `AddFeed` only when `FeedExists` is false. So a store whose
  channels have no duplicate URLs keeps that property.
- The `remove` guard is the same test as `add`'s (main.go:140-143). It refuses
  a URL that IS present, with the reply "URL already exists.". It calls
  `RemoveFeed` only for an absent URL, which filters out nothing. So `remove`
  never changes any channel's list. The one exception is the map itself: a
  channel with no entry gets an empty one. This inversion is reproduced as
  written, not corrected.
- The prefix test checks only that the message starts with `/rss`; `/rss`
  does not have to be a separate word. So `/rssfeed list` is handled like
  `/rss list`.
- Words beyond the third are ignored. Unrecognised verbs get no reply.

Two things one might expect of such a bot are not in `main.go`, so the
model has neither:

- A polling scheduler or dispatcher. `main` just blocks at main.go:188, and
  `timeout` is never read.
- A registry that refuses duplicate subscriptions by itself. Only the `add`
  command's guard prevents duplicates; `AddFeed` does not.

## Model

| member | source | states |
|---|---|---|
| `Text.Fields` | main.go:113 | every word `strings.Fields` returns is non-empty and contains no white space |
| `Text.FieldsSqueeze` | main.go:113 | joining the words with single spaces gives the message with leading and trailing white space dropped and every inner run of white space turned into one space |
| `Text.FieldsUnique` | main.go:113 | the words are the only list of words whose single-space join is the squeezed message, so together with `FieldsSqueeze` they are determined exactly |
| `Text.FieldsAfterFirstWord` | main.go:113 | for two words `w1`, `w2` and any text `s`, the words of `w1 + s` and of `w2 + s` are as many, and agree after the first |
| `Text.FieldsJoin` | main.go:113 | splitting words joined by single spaces gives back exactly those words, in order |
| `Text.Join` | main.go:56 | an empty list of parts joins to the empty string; otherwise the joined string is exactly as long as the parts together plus one separator between each two neighbouring parts |
| `Text.SplitJoin` | main.go:56 | a `strings.Join` on a separator that no part contains can be split back into the same parts |
| `Slices.Contains` | main.go:74 | `slices.Contains` is true exactly when the element occurs in the slice |
| `Feeds.Without` | main.go:40-45 | the filtered list never contains the removed URL and is no longer than the original |
| `Feeds.WithoutConcat` | main.go:41-45 | filtering distributes over concatenation, so the kept URLs stay in their original relative order |
| `Feeds.WithoutCounts` | main.go:41-45 | filtering drops every copy of the URL and keeps every other URL as many times as before |
| `Feeds.WithoutAbsent` | main.go:41-45 | filtering out a URL that is not in the list leaves the list unchanged |
| `Feeds.WithoutKeepsDistinct` | main.go:41-45 | filtering keeps a duplicate-free list duplicate-free |
| `Feeds.FeedStore.constructor` | main.go:23-26 | the store starts with no subscriptions and a 30-minute timeout |
| `Feeds.FeedStore.AddFeed` | main.go:28-34 | the channel's list becomes its old list with the URL appended at the end; no other channel and not the timeout change; there is no duplicate check, and duplicate-freedom survives only when the URL was absent |
| `Feeds.FeedStore.RemoveFeed` | main.go:36-47 | the channel's list becomes its old list with every copy of the URL filtered out; a channel without an entry now maps to the empty list; nothing else changes; duplicate-freedom is kept |
| `Feeds.FeedStore.ListFeed` | main.go:49-56 | the reply is "No RSS feeds subscribed." exactly when the channel's list is empty; otherwise it starts with "Subscribed feeds:\n"; it reads the store and changes nothing |
| `Feeds.ListFeedRoundTrip` | main.go:52-56 | for a non-empty list of URLs without newlines, the lines after the header are exactly the channel's URLs in stored order |
| `Feeds.FeedStore.UpdateTimeout` | main.go:59-68 | on a parse error it returns that error and keeps the timeout; otherwise the timeout becomes the parsed duration; the URL table is untouched in both cases |
| `Feeds.FeedStore.FeedExists` | main.go:70-75 | true exactly when the URL is in the channel's list |
| `Fetch.FetchRSS` | main.go:77-91 | success returns `Items[0]` of the first URL, in stored order, whose feed parses with at least one item, after skipping every earlier URL; an error ("no items found") is returned exactly when no URL qualifies, including an empty list |
| `Bot.CommandWords` | main.go:110-113 | a message is handled exactly when it starts with `/rss`; its words are then non-empty and the first starts with `/rss` |
| `Bot.ParseCommand` | main.go:110-162 | a message is ignored exactly when it lacks the prefix; a message with the prefix is classified by the switch on its words; "usage" is chosen exactly when it has fewer than two words; a verb is unrecognised exactly when there is a second word and it is none of add, remove, list, update_timeout; a URL, duration or unrecognised verb taken from it is a single word |
| `Bot.Dispatch` | main.go:114-162 | fewer than two words means "usage"; otherwise the second word alone selects add, remove, list or update_timeout, and any other second word is unrecognised and kept; the argument of add, remove and update_timeout is present exactly when there is a third word, and is that word |
| `Bot.ParseRender` | main.go:110-162 | every command whose argument and unknown verb are single words is classified back from the message `/rss <verb> [<argument>]` |
| `Bot.FirstWordNeedOnlyStartWithPrefix` | main.go:110-113 | `/rss` followed directly by any space-free text, then anything, is classified exactly as `/rss` followed by the same anything |
| `Bot.DispatchIgnoresFirstWord` | main.go:121-122 | the switch depends only on the words after the first |
| `Bot.MessageCreate` | main.go:101-162 | the reply and new store for each case are stated (no prefix, fewer than two words, unrecognised verb, and each verb with and without its argument); `add` keeps every channel free of duplicates; `remove` never changes any channel's list; no other channel's list changes; stored URLs remain single words |
| `Bot.AddCommand` | main.go:128-133 | a URL the channel already has gets "URL already exists." and changes nothing; otherwise it is appended and "Feed added." is returned; duplicate-freedom is kept |
| `Bot.RemoveCommand` | main.go:140-145 | a URL the channel HAS gets "URL already exists." and changes nothing; an absent URL is filtered out, which changes no list, and "Feed removed." is returned |
| `Bot.UpdateTimeoutCommand` | main.go:156-161 | a parse error is reported as "Invalid timeout format: " plus the error text and keeps the timeout; otherwise the timeout is set and "Timeout updated to " plus the argument is returned |
| `Bot.AddTwice` | main.go:123-133 | sending `/rss add <url>` twice leaves the URL in the channel's list exactly once, and the second message gets "URL already exists."; the channel's list becomes its old list with the URL appended when it was absent and stays as it was otherwise; no other channel and not the timeout change |

## Left out

- Discord plumbing is not modelled: `runBot`, `postToDiscord`,
  `ChannelMessageSend`, `main` and `godotenv` loading (main.go:93-98,
  main.go:165-189). These are I/O and calls into foreign libraries.
  Replies are returned as strings, so a failed send is not modelled.
- The `m.Author.Bot` check is not modelled (main.go:102-104). It reads an
  attribute of the Discord message.
- The `GuildID` check is not modelled (main.go:105-109). It repeats the
  prefix test at main.go:110, so it changes nothing.
- The `sync.RWMutex` is left out; the operations are modelled as sequential
  methods, and messages are handled one at a time. As a result, the model
  does not capture three things:
  - `fetchRSS` reads the map without taking the lock (main.go:79).
  - `FeedExists` reads the global `feedStore` rather than its receiver
    (main.go:73). The handler only ever calls it on `feedStore`, so the
    model, which reads the receiver, behaves the same way.
  - The handler's guards check and then act in two separate critical
    sections. `FeedExists` (main.go:70-75) releases the read lock before
    `AddFeed` or `RemoveFeed` takes the write lock (main.go:128-132,
    main.go:140-144). Handlers for different messages may run concurrently,
    so two things the model rules out can happen. Two `/rss add U` messages
    can both pass the check and store U twice. A `/rss remove U` can pass its
    "absent" check, and then a concurrent `/rss add U` lands, so `RemoveFeed`
    deletes U. The duplicate-freedom and "remove changes no list"
    guarantees of `Bot.MessageCreate` hold only when messages are handled
    one at a time.
- `gofeed` network fetching and parsing (main.go:78-81) is the parameter
  `parseURL`. Of an item, only its title, link and publication text are kept.
- `time.ParseDuration` (main.go:62) is the parameter `parseDuration`. Go's
  duration grammar is not modelled. The parameter's results are limited to
  the 64-bit range of `time.Duration`.
- `Text.Fields` works on Unicode code points with Go's `unicode.IsSpace`
  set. How Go decodes invalid UTF-8 bytes is not modelled.
- `Text.Join` counts its length in characters; Go's `strings.Join` counts
  bytes of UTF-8. Strings are modelled as character sequences throughout.
- `Feeds.ListFeedRoundTrip` is stated only for URLs without newlines. The
  command handler stores only such URLs: `Bot.MessageCreate` keeps
  `URLsAreWords`.
