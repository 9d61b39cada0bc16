/**
 * The search-payload decoder of the Twitter service: it walks the nested
 * timeline answer of the search endpoint into tweet and user records, and
 * the profile answer into one user record.
 *
 * The walk is given twice. `Events` flattens the payload, in payload order,
 * into the tweet items that contribute and the points where the original
 * raises inside its `try` block; `Fold` replays those events into the
 * accumulated tweets and users. `ProcessSearchResults` is the nested loop of
 * the original, proved to compute exactly `DecodeSearchResults`.
 */
module TwitterService {
  import opened Basics
  import opened JsonValue
  import opened Records

  /** Date handling the decoder delegates to the platform: the wall clock
      and `strptime(s, '%a %b %d %H:%M:%S %z %Y')`, which may fail. */
  datatype Clock = Clock(now: Timestamp, parse: string -> Option<Timestamp>)

  /** The query the search endpoint receives. `cursor` is the empty string
      on the first page. */
  datatype SearchRequest = SearchRequest(query: string, count: int, searchType: string, cursor: Json)

  /** The pagination cursor of a page; either end defaults to `''`. */
  datatype Cursor = Cursor(top: Json, bottom: Json)

  /** One decoded page of search results. */
  datatype SearchPage = SearchPage(tweets: seq<TweetRecord>, users: map<string, UserRecord>, cursor: Option<Cursor>)

  const EmptyPage := SearchPage([], map[], None)

  // ---------------------------------------------------------------------
  // Query prefixes

  predicate StartsWith(s: string, c: char)
  {
    |s| > 0 && s[0] == c
  }

  /** `search_hashtag` prefixes the query with `#` unless it already has one. */
  function EnsureHashPrefix(hashtag: string): (q: string)
    ensures StartsWith(q, '#')
    ensures q == hashtag || q == "#" + hashtag
  {
    if StartsWith(hashtag, '#') then hashtag else "#" + hashtag
  }

  /** Prefixing is idempotent, and a query already prefixed is left alone. */
  lemma EnsureHashPrefixIdempotent(hashtag: string)
    ensures EnsureHashPrefix(EnsureHashPrefix(hashtag)) == EnsureHashPrefix(hashtag)
    ensures EnsureHashPrefix("#" + hashtag) == "#" + hashtag
    ensures !StartsWith(hashtag, '#') ==> EnsureHashPrefix(hashtag)[1..] == hashtag
  {
  }

  /** `get_user_profile` removes one leading `@`. */
  function StripAtSign(username: string): (r: string)
    ensures StartsWith(username, '@') ==> "@" + r == username
    ensures !StartsWith(username, '@') ==> r == username
  {
    if StartsWith(username, '@') then username[1..] else username
  }

  // ---------------------------------------------------------------------
  // Record extraction

  /** The account or tweet date: `clock.parse` of the `created_at` string,
      absent when the key is missing, is not a string, or does not parse. */
  function ParsedDate(legacy: Json, clock: Clock): Option<Timestamp>
  {
    if Has(legacy, "created_at") && legacy.fields["created_at"].JStr? then
      clock.parse(legacy.fields["created_at"].s)
    else
      None
  }

  /** The fields `_extract_user_data` reads from a `legacy` dictionary;
      `blue` is the `is_blue_verified` flag next to it. */
  function UserInfoOf(legacy: Json, blue: Json, clock: Clock): UserInfo
  {
    UserInfo(
      username := AsString(Get(legacy, "screen_name", JStr("")), ""),
      displayName := AsString(Get(legacy, "name", JStr("")), ""),
      profileImageUrl := AsString(Get(legacy, "profile_image_url_https", JStr("")), ""),
      followersCount := AsInt(Get(legacy, "followers_count", JNum(0)), 0),
      followingCount := AsInt(Get(legacy, "friends_count", JNum(0)), 0),
      tweetCount := AsInt(Get(legacy, "statuses_count", JNum(0)), 0),
      location := AsString(Get(legacy, "location", JStr("")), ""),
      accountCreatedAt := ParsedDate(legacy, clock),
      isVerified := Truthy(Get(legacy, "verified", JBool(false))) || Truthy(blue))
  }

  /** `_extract_user_data`: `None` without `__typename` (and when reading the
      `legacy` object raises); a bare id without `legacy`. */
  function ExtractUser(userData: Json, clock: Clock): Option<UserRecord>
  {
    if !Truthy(userData) || !Has(userData, "__typename") then None
    else
      var id := AsString(Get(userData, "rest_id", JStr("")), "");
      if !Has(userData, "legacy") then Some(UserRecord(id, None))
      else
        var legacy := userData.fields["legacy"];
        if !legacy.JObj? then None
        else Some(UserRecord(id, Some(UserInfoOf(legacy, Get(userData, "is_blue_verified", JBool(false)), clock))))
  }

  /** The fields `_extract_tweet_data` reads from a `legacy` dictionary. A
      date that is missing or does not parse becomes the current time. */
  function TweetInfoOf(legacy: Json, hashtag: string, clock: Clock): TweetInfo
  {
    TweetInfo(
      content := AsString(Get(legacy, "full_text", JStr("")), ""),
      retweetCount := AsInt(Get(legacy, "retweet_count", JNum(0)), 0),
      likeCount := AsInt(Get(legacy, "favorite_count", JNum(0)), 0),
      replyCount := AsInt(Get(legacy, "reply_count", JNum(0)), 0),
      createdAt := (match ParsedDate(legacy, clock) case Some(t) => t case None => clock.now),
      isRetweet := Has(legacy, "retweeted_status_result"),
      isReply := Get(legacy, "in_reply_to_status_id_str", JStr("")) != JStr(""),
      hasMedia := Has(legacy, "entities") && Has(legacy.fields["entities"], "media"),
      userId := AsString(Get(legacy, "user_id_str", JStr("")), ""),
      hashtag := hashtag)
  }

  /** `_extract_tweet_data`: `None` without `__typename` (and when reading the
      `legacy` object raises); a record holding only the id without `legacy`. */
  function ExtractTweet(tweetData: Json, hashtag: string, clock: Clock): Option<TweetRecord>
  {
    if !Truthy(tweetData) || !Has(tweetData, "__typename") then None
    else
      var id := AsString(Get(tweetData, "rest_id", JStr("")), "");
      if !Has(tweetData, "legacy") then Some(TweetRecord(id, None, None))
      else
        var legacy := tweetData.fields["legacy"];
        if !legacy.JObj? then None
        else Some(TweetRecord(id, Some(TweetInfoOf(legacy, hashtag, clock)), None))
  }

  /** The three flags of a decoded tweet, as the payload determines them. */
  lemma TweetFlags(tweetData: Json, hashtag: string, clock: Clock)
    requires Has(tweetData, "__typename") && Has(tweetData, "legacy") && tweetData.fields["legacy"].JObj?
    ensures var legacy := tweetData.fields["legacy"];
      var r := ExtractTweet(tweetData, hashtag, clock);
      && r.Some? && r.value.info.Some?
      && (r.value.info.value.isRetweet <==> "retweeted_status_result" in legacy.fields)
      && (r.value.info.value.isReply <==>
            "in_reply_to_status_id_str" in legacy.fields && legacy.fields["in_reply_to_status_id_str"] != JStr(""))
      && (r.value.info.value.hasMedia <==> Has(legacy, "entities") && Has(legacy.fields["entities"], "media"))
  {
  }

  /** The `legacy` dictionary a tweet's fields are decoded from, given the
      date string `stamp` that the platform parses to its date. */
  function TweetLegacy(info: TweetInfo, stamp: string): map<string, Json>
  {
    var legacy := map[
      "full_text" := JStr(info.content),
      "retweet_count" := JNum(info.retweetCount),
      "favorite_count" := JNum(info.likeCount),
      "reply_count" := JNum(info.replyCount),
      "created_at" := JStr(stamp),
      "user_id_str" := JStr(info.userId)];
    var legacy := if info.isRetweet then legacy["retweeted_status_result" := JObj(map[])] else legacy;
    var legacy := if info.isReply then legacy["in_reply_to_status_id_str" := JStr("1")] else legacy;
    if info.hasMedia then legacy["entities" := JObj(map["media" := JArr([])])] else legacy
  }

  /** The payload a tweet record is decoded from. */
  function TweetPayload(t: TweetRecord, stamp: string): Json
    requires t.info.Some?
  {
    JObj(map["__typename" := JStr("Tweet"), "rest_id" := JStr(t.id), "legacy" := JObj(TweetLegacy(t.info.value, stamp))])
  }

  lemma TweetLegacyFlags(info: TweetInfo, stamp: string)
    ensures var legacy := JObj(TweetLegacy(info, stamp));
      && Has(legacy, "retweeted_status_result") == info.isRetweet
      && (Get(legacy, "in_reply_to_status_id_str", JStr("")) != JStr("")) == info.isReply
      && (Has(legacy, "entities") && Has(legacy.fields["entities"], "media")) == info.hasMedia
  {
  }

  lemma TweetLegacyCounts(info: TweetInfo, stamp: string)
    ensures var legacy := JObj(TweetLegacy(info, stamp));
      && Get(legacy, "full_text", JStr("")) == JStr(info.content)
      && Get(legacy, "retweet_count", JNum(0)) == JNum(info.retweetCount)
      && Get(legacy, "favorite_count", JNum(0)) == JNum(info.likeCount)
      && Get(legacy, "reply_count", JNum(0)) == JNum(info.replyCount)
      && Get(legacy, "created_at", JNull) == JStr(stamp)
      && Get(legacy, "user_id_str", JStr("")) == JStr(info.userId)
  {
  }

  /** Decoding inverts `TweetPayload`: every field of a tweet record,
      including the three flags, is recovered from its payload. */
  lemma TweetRoundTrip(t: TweetRecord, stamp: string, clock: Clock)
    requires t.info.Some? && t.sentimentScore.None?
    requires clock.parse(stamp) == Some(t.info.value.createdAt)
    ensures ExtractTweet(TweetPayload(t, stamp), t.info.value.hashtag, clock) == Some(t)
  {
    var info := t.info.value;
    var legacy := JObj(TweetLegacy(info, stamp));
    TweetLegacyFlags(info, stamp);
    TweetLegacyCounts(info, stamp);
    assert ParsedDate(legacy, clock) == Some(info.createdAt);
    assert TweetInfoOf(legacy, info.hashtag, clock) == info;
    var payload := TweetPayload(t, stamp);
    assert payload.fields.Keys == {"__typename", "rest_id", "legacy"};
    assert AsString(Get(payload, "rest_id", JStr("")), "") == t.id;
    assert Truthy(payload) && Has(payload, "__typename") && Has(payload, "legacy") && payload.fields["legacy"] == legacy;
  }

  /** A tweet payload without `legacy` decodes to a record with an id and
      nothing else: no author, no text. */
  lemma TweetWithoutLegacy(tweetData: Json, hashtag: string, clock: Clock)
    requires Has(tweetData, "__typename") && !Has(tweetData, "legacy")
    ensures ExtractTweet(tweetData, hashtag, clock)
         == Some(TweetRecord(AsString(Get(tweetData, "rest_id", JStr("")), ""), None, None))
  {
  }

  /** The `legacy` dictionary a user's fields are decoded from. */
  function UserLegacy(info: UserInfo, stamp: string): map<string, Json>
  {
    var legacy := map[
      "screen_name" := JStr(info.username),
      "name" := JStr(info.displayName),
      "profile_image_url_https" := JStr(info.profileImageUrl),
      "followers_count" := JNum(info.followersCount),
      "friends_count" := JNum(info.followingCount),
      "statuses_count" := JNum(info.tweetCount),
      "location" := JStr(info.location),
      "verified" := JBool(info.isVerified)];
    if info.accountCreatedAt.Some? then legacy["created_at" := JStr(stamp)] else legacy
  }

  /** The payload a user record is decoded from. */
  function UserPayload(u: UserRecord, stamp: string): Json
    requires u.info.Some?
  {
    JObj(map["__typename" := JStr("User"), "rest_id" := JStr(u.id), "legacy" := JObj(UserLegacy(u.info.value, stamp))])
  }

  lemma UserLegacyFields(info: UserInfo, stamp: string)
    ensures var legacy := JObj(UserLegacy(info, stamp));
      && Get(legacy, "screen_name", JStr("")) == JStr(info.username)
      && Get(legacy, "name", JStr("")) == JStr(info.displayName)
      && Get(legacy, "profile_image_url_https", JStr("")) == JStr(info.profileImageUrl)
      && Get(legacy, "followers_count", JNum(0)) == JNum(info.followersCount)
      && Get(legacy, "friends_count", JNum(0)) == JNum(info.followingCount)
      && Get(legacy, "statuses_count", JNum(0)) == JNum(info.tweetCount)
      && Get(legacy, "location", JStr("")) == JStr(info.location)
      && Get(legacy, "verified", JBool(false)) == JBool(info.isVerified)
      && Has(legacy, "created_at") == info.accountCreatedAt.Some?
      && (info.accountCreatedAt.Some? ==> legacy.fields["created_at"] == JStr(stamp))
  {
  }

  /** Decoding inverts `UserPayload`: `friends_count` comes back as the
      following count, `statuses_count` as the tweet count. */
  lemma UserRoundTrip(u: UserRecord, stamp: string, clock: Clock)
    requires u.info.Some?
    requires u.info.value.accountCreatedAt.Some? ==> clock.parse(stamp) == u.info.value.accountCreatedAt
    ensures ExtractUser(UserPayload(u, stamp), clock) == Some(u)
  {
    var info := u.info.value;
    var legacy := JObj(UserLegacy(info, stamp));
    var payload := UserPayload(u, stamp);
    UserLegacyFields(info, stamp);
    assert ParsedDate(legacy, clock) == info.accountCreatedAt;
    assert UserInfoOf(legacy, JBool(false), clock) == info;
    assert payload.fields.Keys == {"__typename", "rest_id", "legacy"};
    assert Get(payload, "is_blue_verified", JBool(false)) == JBool(false);
    assert AsString(Get(payload, "rest_id", JStr("")), "") == u.id;
    assert Truthy(payload) && Has(payload, "__typename") && Has(payload, "legacy") && payload.fields["legacy"] == legacy;
  }

  /** Either verification flag makes the user verified. */
  lemma UserVerified(userData: Json, clock: Clock)
    requires Has(userData, "__typename") && Has(userData, "legacy") && userData.fields["legacy"].JObj?
    ensures var r := ExtractUser(userData, clock);
      && r.Some? && r.value.info.Some?
      && (r.value.info.value.isVerified <==>
            Truthy(Get(userData.fields["legacy"], "verified", JBool(false)))
            || Truthy(Get(userData, "is_blue_verified", JBool(false))))
  {
  }

  // ---------------------------------------------------------------------
  // The walk over the timeline, flattened into events

  /** A tweet item that contributes (its `itemContent`), or the point where
      the original raises inside its `try` block. */
  datatype Event = Item(content: Json) | Raise

  function ItemEvents(itemWrapper: Json): seq<Event>
  {
    if !Has(itemWrapper, "item") then []
    else
      var item := itemWrapper.fields["item"];
      if !Has(item, "itemContent") then []
      else
        var itemContent := item.fields["itemContent"];
        if !itemContent.JObj? then [Raise]
        else if Get(itemContent, "itemType", JNull) != JStr("TimelineTweet") then []
        else [Item(itemContent)]
  }

  function ItemsEvents(items: seq<Json>): seq<Event>
  {
    if items == [] then [] else ItemsEvents(items[..|items| - 1]) + ItemEvents(items[|items| - 1])
  }

  function EntryEvents(entry: Json): seq<Event>
  {
    if !Has(entry, "content") then []
    else
      var content := entry.fields["content"];
      if !content.JObj? then [Raise]
      else if Get(content, "entryType", JNull) != JStr("TimelineTimelineItem") then []
      else if !Has(content, "items") then []
      else if !content.fields["items"].JArr? then [Raise]
      else ItemsEvents(content.fields["items"].items)
  }

  function EntriesEvents(entries: seq<Json>): seq<Event>
  {
    if entries == [] then [] else EntriesEvents(entries[..|entries| - 1]) + EntryEvents(entries[|entries| - 1])
  }

  function InstructionEvents(instruction: Json): seq<Event>
  {
    if !Has(instruction, "entries") then []
    else if !instruction.fields["entries"].JArr? then [Raise]
    else EntriesEvents(instruction.fields["entries"].items)
  }

  function InstructionsEvents(instructions: seq<Json>): seq<Event>
  {
    if instructions == [] then []
    else InstructionsEvents(instructions[..|instructions| - 1]) + InstructionEvents(instructions[|instructions| - 1])
  }

  /** The events of the `try` block of `_process_search_results`: reaching
      `result.timeline.instructions` may raise before any item is seen. */
  function BodyEvents(result: Json): seq<Event>
  {
    if !Has(result, "timeline") then [Raise]
    else
      var timeline := result.fields["timeline"];
      if !timeline.JObj? then [Raise]
      else
        var instructions := Get(timeline, "instructions", JArr([]));
        if !instructions.JArr? then [Raise]
        else InstructionsEvents(instructions.items)
  }

  /** Every contributing item of an entry list is a `TimelineTweet` item. */
  predicate TweetItems(es: seq<Event>)
  {
    forall k :: 0 <= k < |es| && es[k].Item? ==> Get(es[k].content, "itemType", JNull) == JStr("TimelineTweet")
  }

  lemma {:induction false} ItemsAreTweets(items: seq<Json>)
    ensures TweetItems(ItemsEvents(items))
  {
    if items != [] {
      ItemsAreTweets(items[..|items| - 1]);
    }
  }

  lemma {:induction false} EntriesAreTweets(entries: seq<Json>)
    ensures TweetItems(EntriesEvents(entries))
    ensures forall k :: 0 <= k < |entries| && Has(entries[k], "content") && entries[k].fields["content"].JObj?
              && Get(entries[k].fields["content"], "entryType", JNull) != JStr("TimelineTimelineItem")
              ==> EntryEvents(entries[k]) == []
  {
    if entries != [] {
      EntriesAreTweets(entries[..|entries| - 1]);
      var e := entries[|entries| - 1];
      if Has(e, "content") && e.fields["content"].JObj? && Has(e.fields["content"], "items")
         && e.fields["content"].fields["items"].JArr? {
        ItemsAreTweets(e.fields["content"].fields["items"].items);
      }
    }
  }

  /** Only `TimelineTweet` items contribute, and an entry whose `entryType`
      is not `TimelineTimelineItem` contributes nothing. */
  lemma {:induction false} InstructionsAreTweets(instructions: seq<Json>)
    ensures TweetItems(InstructionsEvents(instructions))
  {
    if instructions != [] {
      InstructionsAreTweets(instructions[..|instructions| - 1]);
      var ins := instructions[|instructions| - 1];
      if Has(ins, "entries") && ins.fields["entries"].JArr? {
        EntriesAreTweets(ins.fields["entries"].items);
      }
    }
  }

  lemma {:induction false} ItemsEventsAppend(s: seq<Json>, t: seq<Json>)
    ensures ItemsEvents(s + t) == ItemsEvents(s) + ItemsEvents(t)
  {
    if t != [] {
      assert (s + t)[..|s + t| - 1] == s + t[..|t| - 1];
      ItemsEventsAppend(s, t[..|t| - 1]);
    } else {
      assert s + t == s;
    }
  }

  lemma {:induction false} EntriesEventsAppend(s: seq<Json>, t: seq<Json>)
    ensures EntriesEvents(s + t) == EntriesEvents(s) + EntriesEvents(t)
  {
    if t != [] {
      assert (s + t)[..|s + t| - 1] == s + t[..|t| - 1];
      EntriesEventsAppend(s, t[..|t| - 1]);
    } else {
      assert s + t == s;
    }
  }

  lemma {:induction false} InstructionsEventsAppend(s: seq<Json>, t: seq<Json>)
    ensures InstructionsEvents(s + t) == InstructionsEvents(s) + InstructionsEvents(t)
  {
    if t != [] {
      assert (s + t)[..|s + t| - 1] == s + t[..|t| - 1];
      InstructionsEventsAppend(s, t[..|t| - 1]);
    } else {
      assert s + t == s;
    }
  }

  // ---------------------------------------------------------------------
  // Replaying the events

  /** What the walk has accumulated so far, and whether it has raised. */
  datatype Acc = Acc(tweets: seq<TweetRecord>, users: map<string, UserRecord>, raised: bool)

  const Start := Acc([], map[], false)

  /** The user an item contributes, if any. */
  function ItemUser(itemContent: Json, clock: Clock): Option<UserRecord>
  {
    if Has(itemContent, "user_results") && Has(itemContent.fields["user_results"], "result") then
      ExtractUser(itemContent.fields["user_results"].fields["result"], clock)
    else None
  }

  /** The tweet an item contributes, if any. */
  function ItemTweet(itemContent: Json, hashtag: string, clock: Clock): Option<TweetRecord>
  {
    if Has(itemContent, "tweet_results") && Has(itemContent.fields["tweet_results"], "result") then
      ExtractTweet(itemContent.fields["tweet_results"].fields["result"], hashtag, clock)
    else None
  }

  /** One event: an item stores its user under the user's id and appends its
      tweet; a raise ends the walk; after a raise nothing changes. */
  function Step(a: Acc, e: Event, hashtag: string, clock: Clock): Acc
  {
    if a.raised then a
    else match e
      case Raise => a.(raised := true)
      case Item(ic) =>
        var users := match ItemUser(ic, clock) case Some(u) => a.users[u.id := u] case None => a.users;
        var tweets := match ItemTweet(ic, hashtag, clock) case Some(t) => a.tweets + [t] case None => a.tweets;
        Acc(tweets, users, false)
  }

  function Fold(a: Acc, es: seq<Event>, hashtag: string, clock: Clock): Acc
  {
    if es == [] then a else Step(Fold(a, es[..|es| - 1], hashtag, clock), es[|es| - 1], hashtag, clock)
  }

  lemma {:induction false} FoldAppend(a: Acc, s: seq<Event>, t: seq<Event>, hashtag: string, clock: Clock)
    ensures Fold(a, s + t, hashtag, clock) == Fold(Fold(a, s, hashtag, clock), t, hashtag, clock)
  {
    if t != [] {
      assert (s + t)[..|s + t| - 1] == s + t[..|t| - 1];
      FoldAppend(a, s, t[..|t| - 1], hashtag, clock);
    } else {
      assert s + t == s;
    }
  }

  lemma FoldOne(a: Acc, e: Event, hashtag: string, clock: Clock)
    ensures Fold(a, [e], hashtag, clock) == Step(a, e, hashtag, clock)
  {
    assert [e][..0] == [];
  }

  /** Once the walk has raised, later events change nothing. */
  lemma {:induction false} FoldAfterRaise(a: Acc, es: seq<Event>, hashtag: string, clock: Clock)
    requires a.raised
    ensures Fold(a, es, hashtag, clock) == a
  {
    if es != [] {
      FoldAfterRaise(a, es[..|es| - 1], hashtag, clock);
    }
  }

  /** The tweet one event contributes: none for a raise or an item whose
      tweet does not decode. */
  function EventTweets(e: Event, hashtag: string, clock: Clock): seq<TweetRecord>
  {
    if e.Item? && ItemTweet(e.content, hashtag, clock).Some? then [ItemTweet(e.content, hashtag, clock).value] else []
  }

  /** The tweets of the items, in order: the reference the walk is compared with. */
  function TweetsOf(es: seq<Event>, hashtag: string, clock: Clock): seq<TweetRecord>
  {
    if es == [] then [] else EventTweets(es[0], hashtag, clock) + TweetsOf(es[1..], hashtag, clock)
  }

  lemma {:induction false} TweetsOfAppend(s: seq<Event>, t: seq<Event>, hashtag: string, clock: Clock)
    ensures TweetsOf(s + t, hashtag, clock) == TweetsOf(s, hashtag, clock) + TweetsOf(t, hashtag, clock)
  {
    if s != [] {
      assert (s + t)[1..] == s[1..] + t;
      TweetsOfAppend(s[1..], t, hashtag, clock);
    } else {
      assert s + t == t;
    }
  }

  /** Without a raise, the walk appends the tweet of every item in payload
      order, skipping items whose tweet does not decode. */
  lemma {:induction false} FoldTweets(es: seq<Event>, hashtag: string, clock: Clock)
    requires Raise !in es
    ensures !Fold(Start, es, hashtag, clock).raised
    ensures Fold(Start, es, hashtag, clock).tweets == TweetsOf(es, hashtag, clock)
  {
    if es != [] {
      var init := es[..|es| - 1];
      var last := es[|es| - 1];
      assert es == init + [last];
      assert Raise !in init;
      FoldTweets(init, hashtag, clock);
      assert Fold(Start, es, hashtag, clock) == Step(Fold(Start, init, hashtag, clock), last, hashtag, clock);
      TweetsOfAppend(init, [last], hashtag, clock);
      assert TweetsOf([last], hashtag, clock) == EventTweets(last, hashtag, clock) by {
        assert [last][1..] == [];
      }
    }
  }

  /** The user an event contributes, if any. */
  function EventUser(e: Event, clock: Clock): Option<UserRecord>
  {
    if e.Item? then ItemUser(e.content, clock) else None
  }

  /** The users map after one more contributed user, if any. */
  function AddUser(users: map<string, UserRecord>, u: Option<UserRecord>): map<string, UserRecord>
  {
    match u
    case Some(user) => users[user.id := user]
    case None => users
  }

  /** Without a raise, each event adds its user, if any, by id. */
  lemma FoldUsersLast(es: seq<Event>, hashtag: string, clock: Clock)
    requires Raise !in es && es != []
    ensures Fold(Start, es, hashtag, clock).users
         == AddUser(Fold(Start, es[..|es| - 1], hashtag, clock).users, EventUser(es[|es| - 1], clock))
  {
    var init := es[..|es| - 1];
    assert Raise !in init by {
      assert forall k :: 0 <= k < |init| ==> init[k] == es[k];
    }
    FoldTweets(init, hashtag, clock);
  }

  /** Every stored user is the user of some item, stored under its own id. */
  lemma {:induction false} FoldUsersFromItems(es: seq<Event>, hashtag: string, clock: Clock)
    requires Raise !in es
    ensures var users := Fold(Start, es, hashtag, clock).users;
      forall id :: id in users ==> users[id].id == id && exists k :: 0 <= k < |es| && EventUser(es[k], clock) == Some(users[id])
  {
    if es != [] {
      var init := es[..|es| - 1];
      assert Raise !in init by {
        assert forall k :: 0 <= k < |init| ==> init[k] == es[k];
      }
      FoldUsersFromItems(init, hashtag, clock);
      FoldUsersLast(es, hashtag, clock);
      var before := Fold(Start, init, hashtag, clock).users;
      var users := Fold(Start, es, hashtag, clock).users;
      forall id | id in users
        ensures users[id].id == id && exists k :: 0 <= k < |es| && EventUser(es[k], clock) == Some(users[id])
      {
        var last := EventUser(es[|es| - 1], clock);
        if last.Some? && last.value.id == id {
          assert EventUser(es[|es| - 1], clock) == Some(users[id]);
        } else {
          var k :| 0 <= k < |init| && EventUser(init[k], clock) == Some(before[id]);
          assert es[k] == init[k];
        }
      }
    }
  }

  /** The user stored under an id is that of the last item carrying that id. */
  lemma {:induction false} FoldUsersLastWins(es: seq<Event>, hashtag: string, clock: Clock, k: int)
    requires Raise !in es
    requires 0 <= k < |es| && EventUser(es[k], clock).Some?
    requires forall m :: k < m < |es| && EventUser(es[m], clock).Some? ==>
               EventUser(es[m], clock).value.id != EventUser(es[k], clock).value.id
    ensures var u := EventUser(es[k], clock).value;
      var users := Fold(Start, es, hashtag, clock).users;
      u.id in users && users[u.id] == u
  {
    var init := es[..|es| - 1];
    FoldUsersLast(es, hashtag, clock);
    if k < |es| - 1 {
      assert Raise !in init by {
        assert forall j :: 0 <= j < |init| ==> init[j] == es[j];
      }
      assert forall m :: k <= m < |init| ==> init[m] == es[m];
      FoldUsersLastWins(init, hashtag, clock, k);
    }
  }

  // ---------------------------------------------------------------------
  // The whole page

  /** `_process_search_results`. A falsy answer or one without `result` is
      the empty page. A `cursor` object keeps its `top` and `bottom`, each
      defaulting to `''`; a `cursor` that is not an object raises, outside the
      `try` block. Inside the block, everything accumulated before a raise is
      kept. */
  function DecodeSearchResults(response: Json, hashtag: string, clock: Clock): Result<SearchPage>
  {
    if !Truthy(response) || !Has(response, "result") then Ok(EmptyPage)
    else if Has(response, "cursor") && !response.fields["cursor"].JObj? then
      Err("'cursor' is not a dictionary")
    else
      var cursor := if Has(response, "cursor") then
          var c := response.fields["cursor"];
          Some(Cursor(Get(c, "top", JStr("")), Get(c, "bottom", JStr(""))))
        else None;
      var acc := Fold(Start, BodyEvents(response.fields["result"]), hashtag, clock);
      Ok(SearchPage(acc.tweets, acc.users, cursor))
  }

  /** Each user of a page is filed under its own id. */
  predicate KeyedById(users: map<string, UserRecord>)
  {
    forall k :: k in users ==> users[k].id == k
  }

  lemma {:induction false} FoldKeepsKeys(a: Acc, es: seq<Event>, hashtag: string, clock: Clock)
    requires KeyedById(a.users)
    ensures KeyedById(Fold(a, es, hashtag, clock).users)
  {
    if es != [] {
      FoldKeepsKeys(a, es[..|es| - 1], hashtag, clock);
    }
  }

  /** A decoded page files every user under the user's id. */
  lemma PageUsersKeyed(response: Json, hashtag: string, clock: Clock)
    requires DecodeSearchResults(response, hashtag, clock).Ok?
    ensures KeyedById(DecodeSearchResults(response, hashtag, clock).value.users)
  {
    if Truthy(response) && Has(response, "result") {
      FoldKeepsKeys(Start, BodyEvents(response.fields["result"]), hashtag, clock);
    }
  }

  /** An empty answer, or one without `result`, is the empty page with no cursor. */
  lemma EmptyResponse(response: Json, hashtag: string, clock: Clock)
    requires !Truthy(response) || !Has(response, "result")
    ensures DecodeSearchResults(response, hashtag, clock) == Ok(SearchPage([], map[], None))
  {
  }

  /** A page's tweets all come from `TimelineTweet` items, in payload order;
      without a raise they are exactly the decodable tweets of those items. */
  lemma PageTweets(response: Json, hashtag: string, clock: Clock)
    requires DecodeSearchResults(response, hashtag, clock).Ok? && Has(response, "result")
    ensures var es := BodyEvents(response.fields["result"]);
      && TweetItems(es)
      && (Raise !in es ==> DecodeSearchResults(response, hashtag, clock).value.tweets == TweetsOf(es, hashtag, clock))
  {
    var result := response.fields["result"];
    var es := BodyEvents(result);
    if Has(result, "timeline") && result.fields["timeline"].JObj? {
      var instructions := Get(result.fields["timeline"], "instructions", JArr([]));
      if instructions.JArr? {
        InstructionsAreTweets(instructions.items);
      }
    }
    if Raise !in es {
      FoldTweets(es, hashtag, clock);
    }
  }

  /** The item loop's step: one more item folds its own events. */
  lemma ItemsPrefixStep(a: Acc, items: seq<Json>, n: int, hashtag: string, clock: Clock)
    requires 0 <= n < |items|
    ensures Fold(a, ItemsEvents(items[..n + 1]), hashtag, clock)
         == Fold(Fold(a, ItemsEvents(items[..n]), hashtag, clock), ItemEvents(items[n]), hashtag, clock)
  {
    assert items[..n + 1][..n] == items[..n];
    FoldAppend(a, ItemsEvents(items[..n]), ItemEvents(items[n]), hashtag, clock);
  }

  /** The item loop's exit: stopping at a raise loses nothing the whole walk would keep. */
  lemma ItemsPrefixRest(a: Acc, items: seq<Json>, n: int, hashtag: string, clock: Clock)
    requires 0 <= n <= |items|
    requires n < |items| ==> Fold(a, ItemsEvents(items[..n]), hashtag, clock).raised
    ensures Fold(a, ItemsEvents(items), hashtag, clock) == Fold(a, ItemsEvents(items[..n]), hashtag, clock)
  {
    var done, left := items[..n], items[n..];
    assert items == done + left;
    ItemsEventsAppend(done, left);
    var before, after := ItemsEvents(done), ItemsEvents(left);
    FoldAppend(a, before, after, hashtag, clock);
    if n < |items| {
      FoldAfterRaise(Fold(a, before, hashtag, clock), after, hashtag, clock);
    } else {
      assert left == [] && after == [] && before + after == before;
    }
  }

  /** The entry loop's step: one more entry folds its own events. */
  lemma EntriesPrefixStep(a: Acc, entries: seq<Json>, n: int, hashtag: string, clock: Clock)
    requires 0 <= n < |entries|
    ensures Fold(a, EntriesEvents(entries[..n + 1]), hashtag, clock)
         == Fold(Fold(a, EntriesEvents(entries[..n]), hashtag, clock), EntryEvents(entries[n]), hashtag, clock)
  {
    assert entries[..n + 1][..n] == entries[..n];
    FoldAppend(a, EntriesEvents(entries[..n]), EntryEvents(entries[n]), hashtag, clock);
  }

  /** The entry loop's exit: stopping at a raise loses nothing the whole walk would keep. */
  lemma EntriesPrefixRest(a: Acc, entries: seq<Json>, n: int, hashtag: string, clock: Clock)
    requires 0 <= n <= |entries|
    requires n < |entries| ==> Fold(a, EntriesEvents(entries[..n]), hashtag, clock).raised
    ensures Fold(a, EntriesEvents(entries), hashtag, clock) == Fold(a, EntriesEvents(entries[..n]), hashtag, clock)
  {
    var done, left := entries[..n], entries[n..];
    assert entries == done + left;
    EntriesEventsAppend(done, left);
    var before, after := EntriesEvents(done), EntriesEvents(left);
    FoldAppend(a, before, after, hashtag, clock);
    if n < |entries| {
      FoldAfterRaise(Fold(a, before, hashtag, clock), after, hashtag, clock);
    } else {
      assert left == [] && after == [] && before + after == before;
    }
  }

  /** The instruction loop's step: one more instruction folds its own events. */
  lemma InstructionsPrefixStep(a: Acc, instructions: seq<Json>, n: int, hashtag: string, clock: Clock)
    requires 0 <= n < |instructions|
    ensures Fold(a, InstructionsEvents(instructions[..n + 1]), hashtag, clock)
         == Fold(Fold(a, InstructionsEvents(instructions[..n]), hashtag, clock), InstructionEvents(instructions[n]), hashtag, clock)
  {
    assert instructions[..n + 1][..n] == instructions[..n];
    FoldAppend(a, InstructionsEvents(instructions[..n]), InstructionEvents(instructions[n]), hashtag, clock);
  }

  /** The instruction loop's exit: stopping at a raise loses nothing the whole walk would keep. */
  lemma InstructionsPrefixRest(a: Acc, instructions: seq<Json>, n: int, hashtag: string, clock: Clock)
    requires 0 <= n <= |instructions|
    requires n < |instructions| ==> Fold(a, InstructionsEvents(instructions[..n]), hashtag, clock).raised
    ensures Fold(a, InstructionsEvents(instructions), hashtag, clock) == Fold(a, InstructionsEvents(instructions[..n]), hashtag, clock)
  {
    var done, left := instructions[..n], instructions[n..];
    assert instructions == done + left;
    InstructionsEventsAppend(done, left);
    var before, after := InstructionsEvents(done), InstructionsEvents(left);
    FoldAppend(a, before, after, hashtag, clock);
    if n < |instructions| {
      FoldAfterRaise(Fold(a, before, hashtag, clock), after, hashtag, clock);
    } else {
      assert left == [] && after == [] && before + after == before;
    }
  }

  /** One item of an entry: a `TimelineTweet` item stores its author and
      appends its tweet; an `itemContent` that is not a dictionary raises. */
  method TakeItem(itemWrapper: Json, a: Acc, hashtag: string, clock: Clock) returns (b: Acc)
    requires !a.raised
    ensures b == Fold(a, ItemEvents(itemWrapper), hashtag, clock)
  {
    b := a;
    if Has(itemWrapper, "item") && Has(itemWrapper.fields["item"], "itemContent") {
      var itemContent := itemWrapper.fields["item"].fields["itemContent"];
      if !itemContent.JObj? {
        b := b.(raised := true);
      } else if Get(itemContent, "itemType", JNull) == JStr("TimelineTweet") {
        var user := ItemUser(itemContent, clock);
        if user.Some? {
          b := b.(users := b.users[user.value.id := user.value]);
        }
        var tweet := ItemTweet(itemContent, hashtag, clock);
        if tweet.Some? {
          b := b.(tweets := b.tweets + [tweet.value]);
        }
      }
    }
    if ItemEvents(itemWrapper) != [] {
      FoldOne(a, ItemEvents(itemWrapper)[0], hashtag, clock);
    }
  }

  /** The innermost loop of `_process_search_results`, over the items of
      one entry: stops at the first raise and keeps what was collected. */
  method WalkItems(items: seq<Json>, a: Acc, hashtag: string, clock: Clock) returns (b: Acc)
    ensures b == Fold(a, ItemsEvents(items), hashtag, clock)
  {
    b := a;
    var k := 0;
    while k < |items| && !b.raised
      invariant 0 <= k <= |items|
      invariant b == Fold(a, ItemsEvents(items[..k]), hashtag, clock)
    {
      b := TakeItem(items[k], b, hashtag, clock);
      ItemsPrefixStep(a, items, k, hashtag, clock);
      k := k + 1;
    }
    ItemsPrefixRest(a, items, k, hashtag, clock);
  }

  /** One entry of an instruction: only a `TimelineTimelineItem` entry with
      `items` is walked into; a `content` that is not a dictionary, or
      `items` that are not a list, raise. */
  method TakeEntry(entry: Json, a: Acc, hashtag: string, clock: Clock) returns (b: Acc)
    requires !a.raised
    ensures b == Fold(a, EntryEvents(entry), hashtag, clock)
  {
    b := a;
    if Has(entry, "content") {
      var content := entry.fields["content"];
      if !content.JObj? {
        b := b.(raised := true);
        FoldOne(a, Raise, hashtag, clock);
      } else if Get(content, "entryType", JNull) == JStr("TimelineTimelineItem") && Has(content, "items") {
        if !content.fields["items"].JArr? {
          b := b.(raised := true);
          FoldOne(a, Raise, hashtag, clock);
        } else {
          b := WalkItems(content.fields["items"].items, b, hashtag, clock);
        }
      }
    }
  }

  /** The middle loop, over the entries of one instruction. */
  method WalkEntries(entries: seq<Json>, a: Acc, hashtag: string, clock: Clock) returns (b: Acc)
    ensures b == Fold(a, EntriesEvents(entries), hashtag, clock)
  {
    b := a;
    var j := 0;
    while j < |entries| && !b.raised
      invariant 0 <= j <= |entries|
      invariant b == Fold(a, EntriesEvents(entries[..j]), hashtag, clock)
    {
      b := TakeEntry(entries[j], b, hashtag, clock);
      EntriesPrefixStep(a, entries, j, hashtag, clock);
      j := j + 1;
    }
    EntriesPrefixRest(a, entries, j, hashtag, clock);
  }

  /** One instruction: its `entries`, when present, must be a list. */
  method TakeInstruction(instruction: Json, a: Acc, hashtag: string, clock: Clock) returns (b: Acc)
    requires !a.raised
    ensures b == Fold(a, InstructionEvents(instruction), hashtag, clock)
  {
    b := a;
    if Has(instruction, "entries") {
      if !instruction.fields["entries"].JArr? {
        b := b.(raised := true);
        FoldOne(a, Raise, hashtag, clock);
      } else {
        b := WalkEntries(instruction.fields["entries"].items, b, hashtag, clock);
      }
    }
  }

  /** The outer loop, over the timeline instructions. */
  method WalkInstructions(instructions: seq<Json>, a: Acc, hashtag: string, clock: Clock) returns (b: Acc)
    ensures b == Fold(a, InstructionsEvents(instructions), hashtag, clock)
  {
    b := a;
    var i := 0;
    while i < |instructions| && !b.raised
      invariant 0 <= i <= |instructions|
      invariant b == Fold(a, InstructionsEvents(instructions[..i]), hashtag, clock)
    {
      b := TakeInstruction(instructions[i], b, hashtag, clock);
      InstructionsPrefixStep(a, instructions, i, hashtag, clock);
      i := i + 1;
    }
    InstructionsPrefixRest(a, instructions, i, hashtag, clock);
  }

  /** `_process_search_results`: the three nested loops over instructions,
      entries and items; an exception inside the `try` block ends all three
      loops and keeps what was collected. */
  method ProcessSearchResults(response: Json, hashtag: string, clock: Clock) returns (r: Result<SearchPage>)
    ensures r == DecodeSearchResults(response, hashtag, clock)
  {
    if !Truthy(response) || !Has(response, "result") {
      return Ok(EmptyPage);
    }
    var cursor: Option<Cursor> := None;
    if Has(response, "cursor") {
      var c := response.fields["cursor"];
      if !c.JObj? {
        return Err("'cursor' is not a dictionary");
      }
      cursor := Some(Cursor(Get(c, "top", JStr("")), Get(c, "bottom", JStr(""))));
    }
    var acc := Start;
    var result := response.fields["result"];
    if !Has(result, "timeline") || !result.fields["timeline"].JObj? {
      acc := acc.(raised := true);
    } else {
      var instructions := Get(result.fields["timeline"], "instructions", JArr([]));
      if !instructions.JArr? {
        acc := acc.(raised := true);
      } else {
        acc := WalkInstructions(instructions.items, acc, hashtag, clock);
      }
    }
    FoldOne(Start, Raise, hashtag, clock);
    r := Ok(SearchPage(acc.tweets, acc.users, cursor));
  }

  /** `search_hashtag`: the query gets its `#`, the endpoint is asked (and
      may raise: `None`), and the answer is decoded. */
  method SearchHashtag(hashtag: string, count: int, searchType: string, cursor: Json,
                       api: SearchRequest -> Option<Json>, clock: Clock)
    returns (r: Result<SearchPage>, request: SearchRequest)
    ensures request == SearchRequest(EnsureHashPrefix(hashtag), count, searchType, if Truthy(cursor) then cursor else JStr(""))
    ensures api(request).None? ==> r.Err?
    ensures api(request).Some? ==> r == DecodeSearchResults(api(request).value, EnsureHashPrefix(hashtag), clock)
  {
    var query := EnsureHashPrefix(hashtag);
    request := SearchRequest(query, count, searchType, if Truthy(cursor) then cursor else JStr(""));
    var response := api(request);
    if response.None? {
      return Err("search request failed"), request;
    }
    r := ProcessSearchResults(response.value, query, clock);
  }

  /** `_process_user_profile`: `None` unless the answer holds
      `result.data.user.result` with a decodable user. */
  function ProcessUserProfile(response: Json, clock: Clock): Option<UserRecord>
  {
    if !Truthy(response) || !Has(response, "result") || !Has(response.fields["result"], "data") then None
    else
      var data := response.fields["result"].fields["data"];
      if Has(data, "user") && Has(data.fields["user"], "result") then
        ExtractUser(data.fields["user"].fields["result"], clock)
      else None
  }

  /** A profile answer wrapping a user payload decodes to that user. */
  lemma ProfileRoundTrip(u: UserRecord, stamp: string, clock: Clock)
    requires u.info.Some?
    requires u.info.value.accountCreatedAt.Some? ==> clock.parse(stamp) == u.info.value.accountCreatedAt
    ensures var payload := JObj(map["result" := JObj(map["data" := JObj(map["user" := JObj(map["result" := UserPayload(u, stamp)])])])]);
      ProcessUserProfile(payload, clock) == Some(u)
  {
    var inner := UserPayload(u, stamp);
    var user := JObj(map["result" := inner]);
    var data := JObj(map["user" := user]);
    var result := JObj(map["data" := data]);
    var payload := JObj(map["result" := result]);
    assert "result" in payload.fields && payload.fields["result"] == result;
    assert Truthy(payload) && Has(payload, "result") && Has(result, "data");
    assert Has(data, "user") && Has(user, "result");
    UserRoundTrip(u, stamp, clock);
  }

  /** `get_user_profile`: one leading `@` is dropped before the endpoint is asked. */
  function GetUserProfile(username: string, api: string -> Option<Json>, clock: Clock): (r: Result<Option<UserRecord>>)
    ensures api(StripAtSign(username)).None? ==> r.Err?
  {
    match api(StripAtSign(username))
    case None => Err("profile request failed")
    case Some(response) => Ok(ProcessUserProfile(response, clock))
  }
}
