/**
 * The command handler: a message that starts with `/rss` is split into
 * words and dispatched on its second word to the subscription store.
 * Replies are returned instead of being sent to the channel.
 */
module Bot {
  import opened Wrappers
  import opened Text
  import opened Slices
  import opened Feeds

  const Prefix := "/rss"

  const UsageReply := "Usage: /rss <add|remove|list|update_timeout> [url|duration]"
  const AddUsageReply := "Please provide a feed URL to add"
  const RemoveUsageReply := "Please provide a feed URL to remove"
  const ExistsReply := "URL already exists."
  const AddedReply := "Feed added."
  const RemovedReply := "Feed removed."
  const TimeoutUsageReply := "Usage: /rss update_timeout <10m|1h|etc>"
  const InvalidTimeoutPrefix := "Invalid timeout format: "
  const TimeoutUpdatedPrefix := "Timeout updated to "

  const Verbs := {"add", "remove", "list", "update_timeout"}

  /**
   * The words of a message the bot acts on, or None when the message does not
   * start with the command prefix. The prefix need not be a word of its own:
   * the first word only starts with it.
   */
  function CommandWords(content: string): (r: Option<seq<string>>)
    ensures r.Some? <==> Prefix <= content
    ensures r.Some? ==> r.value != [] && Prefix <= r.value[0]
  {
    if Prefix <= content then
      FirstFieldHasPrefix(content, Prefix);
      Some(Fields(content))
    else None
  }

  /** What a message asks of the bot, as decided by the guards of the handler. */
  datatype Command =
    | NotCommand                           // does not start with the prefix
    | MissingVerb                          // fewer than two words
    | Add(url: Option<string>)             // `add`, with its third word if any
    | Remove(url: Option<string>)          // `remove`, with its third word if any
    | List
    | UpdateTimeout(duration: Option<string>)
    | Unrecognised(verb: string)

  /** Classifies a message; only the first three words matter, extra words are ignored. */
  function ParseCommand(content: string): (c: Command)
    ensures c == NotCommand <==> !(Prefix <= content)
    ensures Prefix <= content ==> c == Dispatch(Fields(content))
    ensures c == MissingVerb <==> Prefix <= content && |Fields(content)| < 2
    ensures c.Unrecognised? <==> Prefix <= content && |Fields(content)| >= 2 && Fields(content)[1] !in Verbs
    ensures c.Unrecognised? ==> IsWord(c.verb)
    ensures c.Add? && c.url.Some? ==> IsWord(c.url.value)
    ensures c.Remove? && c.url.Some? ==> IsWord(c.url.value)
    ensures c.UpdateTimeout? && c.duration.Some? ==> IsWord(c.duration.value)
  {
    match CommandWords(content)
    case None => NotCommand
    case Some(args) =>
      assert forall i :: 0 <= i < |args| ==> args[i] in args;
      Dispatch(args)
  }

  /**
   * The switch on the second word, with each verb's argument-count guard:
   * the third word, when there is one, is the verb's argument.
   */
  function Dispatch(args: seq<string>): (c: Command)
    ensures c != NotCommand
    ensures c == MissingVerb <==> |args| < 2
    ensures c.Add? <==> |args| >= 2 && args[1] == "add"
    ensures c.Remove? <==> |args| >= 2 && args[1] == "remove"
    ensures c.List? <==> |args| >= 2 && args[1] == "list"
    ensures c.UpdateTimeout? <==> |args| >= 2 && args[1] == "update_timeout"
    ensures c.Unrecognised? <==> |args| >= 2 && args[1] !in Verbs
    ensures c.Unrecognised? ==> c.verb == args[1]
    ensures c.Add? || c.Remove? ==> (c.url.Some? <==> |args| >= 3) && (c.url.Some? ==> c.url.value == args[2])
    ensures c.UpdateTimeout? ==> (c.duration.Some? <==> |args| >= 3) && (c.duration.Some? ==> c.duration.value == args[2])
  {
    if |args| < 2 then MissingVerb
    else
      var argument := if |args| < 3 then None else Some(args[2]);
      if args[1] == "add" then Add(argument)
      else if args[1] == "remove" then Remove(argument)
      else if args[1] == "list" then List
      else if args[1] == "update_timeout" then UpdateTimeout(argument)
      else Unrecognised(args[1])
  }

  /** The switch looks at the second and third words only. */
  lemma DispatchIgnoresFirstWord(a: seq<string>, b: seq<string>)
    requires |a| == |b| >= 1 && a[1..] == b[1..]
    ensures Dispatch(a) == Dispatch(b)
  {
    if |a| >= 2 {
      assert a[1] == a[1..][0] == b[1];
    }
    if |a| >= 3 {
      assert a[2] == a[1..][1] == b[2];
    }
  }

  /**
   * The prefix check does not ask for `/rss` to stand alone: a message whose
   * first word merely starts with it (`/rssfeed list`) is classified exactly
   * as if that word were `/rss`, whatever follows.
   */
  lemma {:induction false} FirstWordNeedOnlyStartWithPrefix(extra: string, rest: string)
    requires forall i :: 0 <= i < |extra| ==> !IsSpace(extra[i])
    ensures ParseCommand(Prefix + extra + rest) == ParseCommand(Prefix + rest)
  {
    var first := Prefix + extra;
    assert IsWord(Prefix);
    assert IsWord(first);
    assert Prefix <= first + rest && Prefix <= Prefix + rest;
    FieldsAfterFirstWord(first, Prefix, rest);
    DispatchIgnoresFirstWord(Fields(first + rest), Fields(Prefix + rest));
  }

  /** The words of the message that asks for `c`. */
  function Words(c: Command): seq<string>
  {
    match c
    case NotCommand => []
    case MissingVerb => [Prefix]
    case Add(url) => [Prefix, "add"] + OptionalWord(url)
    case Remove(url) => [Prefix, "remove"] + OptionalWord(url)
    case List => [Prefix, "list"]
    case UpdateTimeout(duration) => [Prefix, "update_timeout"] + OptionalWord(duration)
    case Unrecognised(verb) => [Prefix, verb]
  }

  function OptionalWord(o: Option<string>): seq<string>
  {
    if o.Some? then [o.value] else []
  }

  /** The message that asks for `c`: its words separated by single spaces. */
  function Render(c: Command): string
  {
    Join(Words(c), " ")
  }

  /** A command some message can ask for: its argument and unknown verb are single words. */
  predicate Expressible(c: Command)
  {
    match c
    case Add(url) => url.Some? ==> IsWord(url.value)
    case Remove(url) => url.Some? ==> IsWord(url.value)
    case UpdateTimeout(duration) => duration.Some? ==> IsWord(duration.value)
    case Unrecognised(verb) => IsWord(verb) && verb !in Verbs
    case _ => true
  }

  /** Rendering a command and classifying the message gives the command back. */
  lemma {:induction false} ParseRender(c: Command)
    requires Expressible(c)
    ensures ParseCommand(Render(c)) == c
  {
    KeywordsAreWords();
    match c
    case NotCommand =>
    case MissingVerb => ParseWords(Prefix, []);
    case Add(url) => ParseVerb("add", url);
    case Remove(url) => ParseVerb("remove", url);
    case List => ParseVerb("list", None);
    case UpdateTimeout(duration) => ParseVerb("update_timeout", duration);
    case Unrecognised(verb) =>
      ParseVerb(verb, None);
      assert Words(c) == [Prefix, verb] + OptionalWord(None);
  }

  /**
   * The prefix and the verbs contain no white space. The longest verb is
   * proved in a lemma of its own, which keeps each proof small.
   */
  lemma KeywordsAreWords()
    ensures IsWord(Prefix) && IsWord("add") && IsWord("remove") && IsWord("list")
    ensures IsWord("update_timeout")
  {
    UpdateTimeoutIsWord();
  }

  /** Kept apart from `KeywordsAreWords` only to keep each proof small. */
  lemma UpdateTimeoutIsWord()
    ensures IsWord("update_timeout")
  {
  }

  /** A message made of the prefix, a verb and an optional argument. */
  lemma {:induction false} ParseVerb(verb: string, argument: Option<string>)
    requires IsWord(verb)
    requires argument.Some? ==> IsWord(argument.value)
    ensures ParseCommand(Join([Prefix, verb] + OptionalWord(argument), " "))
         == Dispatch([Prefix, verb] + OptionalWord(argument))
  {
    ParseWords(Prefix, [verb] + OptionalWord(argument));
    assert [Prefix] + ([verb] + OptionalWord(argument)) == [Prefix, verb] + OptionalWord(argument);
  }

  /** A message of single words whose first word starts with the prefix is classified by its words. */
  lemma {:induction false} ParseWords(first: string, rest: seq<string>)
    requires IsWord(first) && Prefix <= first
    requires forall w :: w in rest ==> IsWord(w)
    ensures ParseCommand(Join([first] + rest, " ")) == Dispatch([first] + rest)
  {
    var words := [first] + rest;
    FieldsJoin(words);
    JoinStartsWithFirst(words, " ");
  }

  /**
   * Handles one message from `channelID`. `add` refuses a URL the channel
   * already has; `remove` refuses a URL the channel HAS, so it only ever
   * "removes" a URL that is absent and leaves every list as it was.
   */
  method MessageCreate(store: FeedStore, channelID: string, content: string,
                       parseDuration: string -> Result<Duration, string>)
    returns (reply: Option<string>)
    modifies store
    ensures match ParseCommand(content)
      case NotCommand => reply == None && unchanged(store)
      case MissingVerb => reply == Some(UsageReply) && unchanged(store)
      case Unrecognised(_) => reply == None && unchanged(store)
      case Add(None) => reply == Some(AddUsageReply) && unchanged(store)
      case Add(Some(url)) =>
        if url in old(store.Feeds(channelID)) then reply == Some(ExistsReply) && unchanged(store)
        else
          && reply == Some(AddedReply)
          && store.feedURLs == old(store.feedURLs)[channelID := old(store.Feeds(channelID)) + [url]]
          && store.timeout == old(store.timeout)
      case Remove(None) => reply == Some(RemoveUsageReply) && unchanged(store)
      case Remove(Some(url)) =>
        if url in old(store.Feeds(channelID)) then reply == Some(ExistsReply) && unchanged(store)
        else
          && reply == Some(RemovedReply)
          && store.feedURLs == old(store.feedURLs)[channelID := Without(old(store.Feeds(channelID)), url)]
          && store.timeout == old(store.timeout)
      case List => reply == Some(old(store.ListFeed(channelID))) && unchanged(store)
      case UpdateTimeout(None) => reply == Some(TimeoutUsageReply) && unchanged(store)
      case UpdateTimeout(Some(arg)) =>
        && store.feedURLs == old(store.feedURLs)
        && match parseDuration(arg)
           case Failure(e) => reply == Some(InvalidTimeoutPrefix + e) && store.timeout == old(store.timeout)
           case Success(d) => reply == Some(TimeoutUpdatedPrefix + arg) && store.timeout == d
    // Consequences of the guards:
    ensures old(store.NoDuplicates()) ==> store.NoDuplicates()
    ensures old(store.URLsAreWords()) ==> store.URLsAreWords()
    ensures forall c :: c != channelID ==> store.Feeds(c) == old(store.Feeds(c))
    ensures ParseCommand(content).Remove? ==> forall c :: store.Feeds(c) == old(store.Feeds(c))
  {
    match ParseCommand(content)
    case NotCommand =>
      reply := None;
    case MissingVerb =>
      reply := Some(UsageReply);
    case Unrecognised(_) =>
      reply := None;
    case Add(None) =>
      reply := Some(AddUsageReply);
    case Add(Some(url)) =>
      var r := AddCommand(store, channelID, url);
      reply := Some(r);
    case Remove(None) =>
      reply := Some(RemoveUsageReply);
    case Remove(Some(url)) =>
      var r := RemoveCommand(store, channelID, url);
      reply := Some(r);
    case List =>
      reply := Some(store.ListFeed(channelID));
    case UpdateTimeout(None) =>
      reply := Some(TimeoutUsageReply);
    case UpdateTimeout(Some(arg)) =>
      var r := UpdateTimeoutCommand(store, arg, parseDuration);
      reply := Some(r);
  }

  /** The `add` case once its URL is known: refuse a URL the channel already has. */
  method AddCommand(store: FeedStore, channelID: string, url: string) returns (reply: string)
    modifies store
    ensures url in old(store.Feeds(channelID)) ==> reply == ExistsReply && unchanged(store)
    ensures url !in old(store.Feeds(channelID)) ==>
              && reply == AddedReply
              && store.feedURLs == old(store.feedURLs)[channelID := old(store.Feeds(channelID)) + [url]]
              && store.timeout == old(store.timeout)
    ensures forall c :: c != channelID ==> store.Feeds(c) == old(store.Feeds(c))
    ensures old(store.NoDuplicates()) ==> store.NoDuplicates()
    ensures old(store.URLsAreWords()) && IsWord(url) ==> store.URLsAreWords()
  {
    if store.FeedExists(channelID, url) {
      return ExistsReply;
    }
    store.AddFeed(channelID, url);
    reply := AddedReply;
  }

  /** The `remove` case once its URL is known: the guard refuses a URL the channel HAS. */
  method RemoveCommand(store: FeedStore, channelID: string, url: string) returns (reply: string)
    modifies store
    ensures url in old(store.Feeds(channelID)) ==> reply == ExistsReply && unchanged(store)
    ensures url !in old(store.Feeds(channelID)) ==>
              && reply == RemovedReply
              && store.feedURLs == old(store.feedURLs)[channelID := Without(old(store.Feeds(channelID)), url)]
              && store.timeout == old(store.timeout)
    ensures forall c :: store.Feeds(c) == old(store.Feeds(c))
    ensures old(store.NoDuplicates()) ==> store.NoDuplicates()
    ensures old(store.URLsAreWords()) ==> store.URLsAreWords()
  {
    if store.FeedExists(channelID, url) {
      return ExistsReply;
    }
    WithoutAbsent(store.Feeds(channelID), url);
    store.RemoveFeed(channelID, url);
    reply := RemovedReply;
  }

  /** The `update_timeout` case once its argument is known. */
  method UpdateTimeoutCommand(store: FeedStore, arg: string, parseDuration: string -> Result<Duration, string>)
    returns (reply: string)
    modifies store
    ensures store.feedURLs == old(store.feedURLs)
    ensures parseDuration(arg).Failure? ==>
              reply == InvalidTimeoutPrefix + parseDuration(arg).error && store.timeout == old(store.timeout)
    ensures parseDuration(arg).Success? ==>
              reply == TimeoutUpdatedPrefix + arg && store.timeout == parseDuration(arg).value
  {
    var err := store.UpdateTimeout(arg, parseDuration);
    if err.Some? {
      return InvalidTimeoutPrefix + err.value;
    }
    reply := TimeoutUpdatedPrefix + arg;
  }

  /**
   * Sending `/rss add <url>` twice leaves `url` in the channel's list exactly
   * once, and the second message is answered as a duplicate. The channel's
   * list gains `url` at its end only if it was absent; nothing else changes.
   */
  method AddTwice(store: FeedStore, channelID: string, url: string,
                  parseDuration: string -> Result<Duration, string>)
    returns (first: Option<string>, second: Option<string>)
    requires IsWord(url) && store.NoDuplicates()
    modifies store
    ensures first == Some(if url in old(store.Feeds(channelID)) then ExistsReply else AddedReply)
    ensures second == Some(ExistsReply)
    ensures url in old(store.Feeds(channelID)) ==> store.feedURLs == old(store.feedURLs)
    ensures url !in old(store.Feeds(channelID)) ==>
              store.feedURLs == old(store.feedURLs)[channelID := old(store.Feeds(channelID)) + [url]]
    ensures store.timeout == old(store.timeout)
    ensures multiset(store.Feeds(channelID))[url] == 1
    ensures store.NoDuplicates()
  {
    var content := Render(Add(Some(url)));
    ParseRender(Add(Some(url)));
    first := MessageCreate(store, channelID, content, parseDuration);
    second := MessageCreate(store, channelID, content, parseDuration);
    assert url in store.Feeds(channelID);
    DistinctOccursOnce(store.Feeds(channelID), url);
  }
}
