/**
 * The analysis pipeline: clean the hashtag, page through the search results
 * saving every usable tweet and every user, geocode and link the users'
 * locations, recompute the hashtag's statistics and contributors, and read
 * the report back from the store.
 */
module Analyzer {
  import opened Basics
  import opened JsonValue
  import opened Records
  import opened TwitterService
  import opened Sentiment
  import opened Geocoding
  import opened Tables
  import opened Database

  // ---------------------------------------------------------------------
  // The hashtag as typed

  /** `analyze_hashtag`'s clean-up: surrounding white space goes, then one leading `#`. */
  function NormalizeHashtag(hashtag: string): (r: string)
    ensures Strip(hashtag) == r || Strip(hashtag) == "#" + r
    ensures StartsWith(Strip(hashtag), '#') <==> Strip(hashtag) == "#" + r
  {
    var s := Strip(hashtag);
    if StartsWith(s, '#') then s[1..] else s
  }

  /** A string with no white space at either end strips to itself. */
  lemma StripKeeps(s: string)
    requires s != [] && !IsSpace(s[0]) && !IsSpace(s[|s| - 1])
    ensures Strip(s) == s
  {
  }

  /** The `#` is optional: a trimmed name and the same name with `#` clean
      up alike. */
  lemma HashOptional(name: string)
    requires name != [] && !IsSpace(name[0]) && !IsSpace(name[|name| - 1]) && name[0] != '#'
    ensures NormalizeHashtag(name) == name
    ensures NormalizeHashtag("#" + name) == name
  {
    StripKeeps(name);
    StripKeeps("#" + name);
    assert ("#" + name)[1..] == name;
  }

  /** Only one `#` is removed, so cleaning is not idempotent: `##name`
      becomes `#name`, which cleans again to `name`. */
  lemma OnlyOneHashRemoved(name: string)
    requires name != [] && !IsSpace(name[0]) && !IsSpace(name[|name| - 1]) && name[0] != '#'
    ensures NormalizeHashtag("##" + name) == "#" + name
    ensures NormalizeHashtag(NormalizeHashtag("##" + name)) == name != NormalizeHashtag("##" + name)
  {
    StripKeeps("##" + name);
    assert ("##" + name)[1..] == "#" + name;
    HashOptional(name);
  }

  /** Stripping a non-blank text leaves a non-empty, non-blank text. */
  lemma StripNotBlank(s: string)
    requires !Blank(s)
    ensures !Blank(Strip(s)) && Strip(s) != ""
  {
    BlankIffStripEmpty(s);
    StripIdempotent(s);
    BlankIffStripEmpty(Strip(s));
  }

  // ---------------------------------------------------------------------
  // Collected data

  /** What `_collect_tweets` hands on: the stored tweets, in page order, and
      the users by id. */
  datatype Collected = Collected(tweets: seq<TweetRecord>, users: map<string, UserRecord>)

  /** How one pass of the `_collect_tweets` loop ends: the loop goes on, it
      breaks, or an exception leaves it. */
  datatype Turn = GoOn | Done | Failed(msg: string)

  /** The skip rule: a tweet is stored only with an id and an author. */
  predicate Storable(t: TweetRecord)
  {
    t.id != "" && t.info.Some? && t.info.value.userId != ""
  }

  /** The tweets of a page that pass the skip rule, in page order. */
  function KeptOf(page: seq<TweetRecord>): (r: seq<TweetRecord>)
    ensures |r| <= |page|
    ensures forall t :: t in r <==> t in page && Storable(t)
  {
    if page == [] then []
    else
      var init := KeptOf(page[..|page| - 1]);
      var last := page[|page| - 1];
      assert page == page[..|page| - 1] + [last];
      if Storable(last) then init + [last] else init
  }

  /** The tweets table after saving `kept` one by one. */
  function SaveAll(ts: seq<TweetRow>, kept: seq<TweetRecord>, h: int): seq<TweetRow>
    requires forall t :: t in kept ==> t.info.Some?
  {
    if kept == [] then ts
    else
      var init := kept[..|kept| - 1];
      assert forall t :: t in init ==> t in kept;
      InsertTweet(SaveAll(ts, init, h), kept[|kept| - 1], h)
  }

  /** Saving a batch keeps ids distinct, only appends, and leaves every
      tweet of the batch stored under its id. */
  lemma {:induction false} SaveAllSpec(ts: seq<TweetRow>, kept: seq<TweetRecord>, h: int)
    requires DistinctIds(ts)
    requires forall t :: t in kept ==> t.info.Some?
    ensures var after := SaveAll(ts, kept, h);
      && DistinctIds(after)
      && ts <= after
      && TweetIds(ts) <= TweetIds(after)
      && (forall t :: t in kept ==> t.id in TweetIds(after))
  {
    if kept != [] {
      var init := kept[..|kept| - 1];
      var last := kept[|kept| - 1];
      assert forall t :: t in init ==> t in kept;
      SaveAllSpec(ts, init, h);
      var mid := SaveAll(ts, init, h);
      InsertTweetSpec(mid, last, h);
      assert forall t :: t in kept ==> t in init || t == last;
    }
  }

  /** Saving two batches one after the other is saving them as one batch. */
  lemma {:induction false} SaveAllAppend(ts: seq<TweetRow>, first: seq<TweetRecord>, second: seq<TweetRecord>, h: int)
    requires forall t :: t in first ==> t.info.Some?
    requires forall t :: t in second ==> t.info.Some?
    ensures forall t :: t in first + second ==> t.info.Some?
    ensures SaveAll(SaveAll(ts, first, h), second, h) == SaveAll(ts, first + second, h)
  {
    if second == [] {
      assert first + second == first;
    } else {
      var init := second[..|second| - 1];
      assert forall t :: t in init ==> t in second;
      SaveAllAppend(ts, first, init, h);
      var both := first + second;
      assert both[..|both| - 1] == first + init && both[|both| - 1] == second[|second| - 1];
    }
  }

  /** The users table after `save_user` of each of `users` over `us`: the
      saved users hold the rows built from them, every other row stays. */
  function UsersAfter(us: map<string, UserRow>, users: map<string, UserRecord>): (r: map<string, UserRow>)
    requires forall k :: k in users ==> users[k].info.Some?
    ensures r.Keys == us.Keys + users.Keys
    ensures forall k :: k in r ==> r[k] == if k in users then UserRowOf(users[k]) else us[k]
  {
    map k | k in us.Keys + users.Keys :: if k in users then UserRowOf(users[k]) else us[k]
  }

  /** The tweets and users tables of `c` are those of `c0` with `tweets`
      saved, in order, under hashtag `h` and `users` saved over the old rows. */
  ghost predicate Saved(c0: Contents, c: Contents, tweets: seq<TweetRecord>, users: map<string, UserRecord>, h: int)
  {
    && (forall t :: t in tweets ==> t.info.Some?)
    && (forall k :: k in users ==> users[k].info.Some?)
    && c.tweets == SaveAll(c0.tweets, tweets, h)
    && c.users == UsersAfter(c0.users, users)
  }

  /** Storing one more page after the saved ones saves the pages so far. */
  lemma SavedStep(c0: Contents, c1: Contents, c2: Contents, tweets: seq<TweetRecord>, users: map<string, UserRecord>,
                  kept: seq<TweetRecord>, pageUsers: map<string, UserRecord>, h: int)
    requires Saved(c0, c1, tweets, users, h)
    requires (forall t :: t in kept ==> t.info.Some?) && (forall k :: k in pageUsers ==> pageUsers[k].info.Some?)
    requires c2.tweets == SaveAll(c1.tweets, kept, h)
    requires c2.users.Keys == c1.users.Keys + pageUsers.Keys
    requires forall k :: k in c2.users ==> c2.users[k] == if k in pageUsers then UserRowOf(pageUsers[k]) else c1.users[k]
    ensures Saved(c0, c2, tweets + kept, users + pageUsers, h)
  {
    SaveAllAppend(c0.tweets, tweets, kept, h);
    UsersAfterStep(c0.users, c1.users, c2.users, users, pageUsers);
  }

  /** Upserting one more page's users after the merged ones upserts the
      union, the page's rows winning. */
  lemma UsersAfterStep(u0: map<string, UserRow>, u1: map<string, UserRow>, u2: map<string, UserRow>,
                       users: map<string, UserRecord>, pageUsers: map<string, UserRecord>)
    requires (forall k :: k in users ==> users[k].info.Some?) && (forall k :: k in pageUsers ==> pageUsers[k].info.Some?)
    requires u1 == UsersAfter(u0, users)
    requires u2.Keys == u1.Keys + pageUsers.Keys
    requires forall k :: k in u2 ==> u2[k] == if k in pageUsers then UserRowOf(pageUsers[k]) else u1[k]
    ensures u2 == UsersAfter(u0, users + pageUsers)
  {
    var merged := UsersAfter(u0, users + pageUsers);
    assert (users + pageUsers).Keys == users.Keys + pageUsers.Keys;
    assert u2.Keys == merged.Keys;
    UsersAfterValues(u0, u1, u2, users, pageUsers);
  }

  /** The values half of `UsersAfterStep`. */
  lemma UsersAfterValues(u0: map<string, UserRow>, u1: map<string, UserRow>, u2: map<string, UserRow>,
                         users: map<string, UserRecord>, pageUsers: map<string, UserRecord>)
    requires (forall k :: k in users ==> users[k].info.Some?) && (forall k :: k in pageUsers ==> pageUsers[k].info.Some?)
    requires u1 == UsersAfter(u0, users)
    requires u2.Keys == u1.Keys + pageUsers.Keys
    requires forall k :: k in u2 ==> u2[k] == if k in pageUsers then UserRowOf(pageUsers[k]) else u1[k]
    ensures forall k :: k in u2 && k in UsersAfter(u0, users + pageUsers) ==> u2[k] == UsersAfter(u0, users + pageUsers)[k]
  {
    var both := users + pageUsers;
    forall k | k in u2 && k in UsersAfter(u0, both)
      ensures u2[k] == UsersAfter(u0, both)[k]
    {
      if k in pageUsers {
        assert both[k] == pageUsers[k];
      } else if k in users {
        assert both[k] == users[k];
      }
    }
  }

  /** One more tweet of a page: it is kept, and saved after the tweets kept
      before it, exactly when it passes the skip rule. */
  lemma KeptStep(ts: seq<TweetRow>, page: seq<TweetRecord>, j: int, h: int)
    requires 0 <= j < |page|
    ensures var kept, t := KeptOf(page[..j]), page[j];
      && KeptOf(page[..j + 1]) == (if Storable(t) then kept + [t] else kept)
      && (Storable(t) ==> SaveAll(ts, kept + [t], h) == InsertTweet(SaveAll(ts, kept, h), t, h))
  {
    assert page[..j + 1][..j] == page[..j];
    var kept, t := KeptOf(page[..j]), page[j];
    if Storable(t) {
      assert (kept + [t])[..|kept|] == kept;
    }
  }

  /** A user whose profile names a place, and the stripped text of that place. */
  predicate HasPlace(u: UserRecord)
  {
    u.info.Some? && !Blank(u.info.value.location)
  }

  function PlaceText(u: UserRecord): string
    requires u.info.Some?
  {
    Strip(u.info.value.location)
  }

  /** The distinct place texts of a set of users. */
  function PlaceTexts(users: map<string, UserRecord>): set<string>
  {
    set k | k in users && HasPlace(users[k]) :: PlaceText(users[k])
  }

  /** `list(...)` of a set: every element once, in some order. */
  method ListOf(texts: set<string>) returns (list: seq<string>)
    ensures forall x :: x in list <==> x in texts
  {
    list := [];
    var rest := texts;
    while rest != {}
      invariant forall x :: x in list <==> x in texts && x !in rest
      invariant rest <= texts
      decreases rest
    {
      var x :| x in rest;
      list := list + [x];
      rest := rest - {x};
    }
  }

  // ---------------------------------------------------------------------
  // Results

  /** `_get_analysis_results`. */
  datatype Report = Report(summary: Option<Summary>, topContributors: seq<ContributorView>,
                           sentiment: SentimentReport, locations: LocationReport)

  /** What the application answers: the report, or the message of the
      exception that stopped the analysis. */
  datatype Outcome = Analysis(report: Report) | Failure(error: string)

  class HashtagAnalyzer {
    const db: Store
    const geocoder: Geocoder
    /** The search endpoint; `None` when the call raises. */
    const api: SearchRequest -> Option<Json>
    /** The polarity scorer behind the sentiment adapter. */
    const polarity: string -> Option<real>
    /** The clock and date parser. */
    const clock: Clock
    /** The search requests sent so far, in order. */
    ghost var requests: seq<SearchRequest>
    /** What each of those requests came back as: the decoded page, or an
        error when the call raised or the answer could not be decoded. */
    ghost var answers: seq<Result<SearchPage>>

    /** The store and the geocoder stand for the opened database file and the
        loaded geocoding cache. */
    constructor(db: Store, geocoder: Geocoder, api: SearchRequest -> Option<Json>,
                polarity: string -> Option<real>, clock: Clock)
      ensures this.db == db && this.geocoder == geocoder && this.api == api
      ensures this.polarity == polarity && this.clock == clock && requests == [] && answers == []
      ensures Logged()
    {
      this.db := db;
      this.geocoder := geocoder;
      this.api := api;
      this.polarity := polarity;
      this.clock := clock;
      requests := [];
      answers := [];
    }

    /** Each logged answer is what the endpoint's reply to its request decodes to. */
    ghost predicate Logged()
      reads this
    {
      LogFits(requests, answers, api, clock)
    }

    /** The tweet loop of `_collect_tweets`: each tweet that passes the skip
        rule is saved and kept. */
    method SaveBatch(page: seq<TweetRecord>, h: int) returns (kept: seq<TweetRecord>)
      requires db.Valid()
      modifies db
      ensures db.Valid()
      ensures kept == KeptOf(page)
      ensures db.contents == old(db.contents).(tweets := SaveAll(old(db.contents.tweets), kept, h))
    {
      kept := [];
      var j := 0;
      while j < |page|
        invariant 0 <= j <= |page|
        invariant db.Valid()
        invariant kept == KeptOf(page[..j])
        invariant db.contents == old(db.contents).(tweets := SaveAll(old(db.contents.tweets), kept, h))
      {
        var t := page[j];
        KeptStep(old(db.contents.tweets), page, j, h);
        if Storable(t) {
          ghost var tweets := db.contents.tweets;
          var saved := db.SaveTweet(t, h);
          assert db.contents.tweets == InsertTweet(tweets, t, h) == SaveAll(old(db.contents.tweets), kept + [t], h);
          kept := kept + [t];
        }
        j := j + 1;
      }
      assert page[..j] == page;
    }

    /** The user loop of `_collect_tweets`: every user of the page is saved;
        a user without profile fields raises. */
    method SaveUsers(users: map<string, UserRecord>) returns (r: Result<()>)
      requires db.Valid() && KeyedById(users)
      modifies db
      ensures db.Valid()
      ensures r.Ok? <==> forall k :: k in users ==> users[k].info.Some?
      ensures db.contents == old(db.contents).(users := db.contents.users)
      ensures old(db.contents.users).Keys <= db.contents.users.Keys
      ensures r.Ok? ==> db.contents.users.Keys == old(db.contents.users).Keys + users.Keys
      ensures r.Ok? ==> forall k :: k in db.contents.users ==>
        db.contents.users[k] == if k in users then UserRowOf(users[k]) else old(db.contents.users)[k]
    {
      var pending := users.Keys;
      while pending != {}
        invariant pending <= users.Keys
        invariant db.Valid()
        invariant forall k :: k in users && k !in pending ==> users[k].info.Some?
        invariant db.contents == old(db.contents).(users := db.contents.users)
        invariant db.contents.users.Keys == old(db.contents.users).Keys + (users.Keys - pending)
        invariant forall k :: k in db.contents.users ==>
          db.contents.users[k] == if k in users && k !in pending then UserRowOf(users[k]) else old(db.contents.users)[k]
        decreases pending
      {
        var k :| k in pending;
        var saved := db.SaveUser(users[k]);
        if saved.Err? {
          return Err(saved.msg);
        }
        pending := pending - {k};
      }
      r := Ok(());
    }

    /** One page of `_collect_tweets`: score the tweets in place, save those
        that pass the skip rule, then save every user. */
    method StorePage(found: seq<TweetRecord>, pageUsers: map<string, UserRecord>, h: int)
      returns (r: Result<seq<TweetRecord>>)
      requires db.Valid() && KeyedById(pageUsers)
      modifies db
      ensures db.Valid()
      ensures db.contents == old(db.contents).(tweets := db.contents.tweets, users := db.contents.users)
      ensures db.contents.tweets == SaveAll(old(db.contents.tweets), KeptOf(AnnotateAll(found, polarity)), h)
      ensures old(db.contents.tweets) <= db.contents.tweets && TweetIds(old(db.contents.tweets)) <= TweetIds(db.contents.tweets)
      ensures old(db.contents.users).Keys <= db.contents.users.Keys
      ensures r.Ok? <==> forall k :: k in pageUsers ==> pageUsers[k].info.Some?
      ensures r.Ok? ==> r.value == KeptOf(AnnotateAll(found, polarity))
      ensures r.Ok? ==> forall t :: t in r.value ==>
        Storable(t) && t.id in TweetIds(db.contents.tweets) && t.sentimentScore == Some(AnalyzeText(t.info.value.content, polarity))
      ensures r.Ok? ==> db.contents.users.Keys == old(db.contents.users).Keys + pageUsers.Keys
      ensures r.Ok? ==> forall k :: k in db.contents.users ==>
        db.contents.users[k] == if k in pageUsers then UserRowOf(pageUsers[k]) else old(db.contents.users)[k]
    {
      var a := new TweetRecord[|found|](i requires 0 <= i < |found| => found[i]);
      assert a[..] == found;
      AnalyzeTweets(a, polarity);
      var kept := SaveBatch(a[..], h);
      SaveAllSpec(old(db.contents.tweets), kept, h);
      KeptScored(found, polarity, kept);
      var saved := SaveUsers(pageUsers);
      if saved.Err? {
        return Err(saved.msg);
      }
      r := Ok(kept);
    }

    /** A decoded page with tweets stored after the pages gathered so far
        (`tweets` and `users`, saved over the store `start`): the tweets
        table now holds the page's kept tweets too, and, unless a user lacks
        profile fields, the users table its users. */
    method KeepPage(p: SearchPage, h: int, ghost start: Contents, ghost tweets: seq<TweetRecord>,
                    ghost users: map<string, UserRecord>) returns (kept: Result<seq<TweetRecord>>)
      requires db.Valid() && KeyedById(p.users)
      requires Recorded(db.contents, tweets, users, polarity) && Saved(start, db.contents, tweets, users, h)
      modifies db
      ensures db.Valid() && Grown(old(db.contents), db.contents)
      ensures kept.Ok? <==> Profiled(p.users)
      ensures kept.Ok? ==> kept.value == KeptOf(AnnotateAll(p.tweets, polarity))
      ensures kept.Ok? ==> Recorded(db.contents, tweets + kept.value, users + p.users, polarity)
      ensures kept.Ok? ==> Saved(start, db.contents, tweets + kept.value, users + p.users, h)
      ensures kept.Err? ==> db.contents.tweets == SaveAll(start.tweets, tweets + KeptOf(AnnotateAll(p.tweets, polarity)), h)
    {
      ghost var c := db.contents;
      kept := StorePage(p.tweets, p.users, h);
      ghost var added := KeptOf(AnnotateAll(p.tweets, polarity));
      assert forall t :: t in added ==> Storable(t);
      SaveAllAppend(start.tweets, tweets, added, h);
      if kept.Ok? {
        RecordedStep(c, db.contents, tweets, users, kept.value, p.users, polarity);
        SavedStep(start, c, db.contents, tweets, users, kept.value, p.users, h);
      }
    }

    /** One request of `_collect_tweets`: the search is sent (and recorded)
        and its answer decoded; the users of a decoded page are keyed by id. */
    method FetchPage(query: string, count: int, searchType: string, cursor: Json) returns (page: Result<SearchPage>)
      requires Logged()
      modifies this
      ensures Logged()
      ensures requests == old(requests) + [SearchRequest(EnsureHashPrefix(query), count, searchType, if Truthy(cursor) then cursor else JStr(""))]
      ensures answers == old(answers) + [page]
      ensures page.Ok? ==> KeyedById(page.value.users)
    {
      var request;
      page, request := SearchHashtag(query, count, searchType, cursor, api, clock);
      LogStep(requests, answers, request, page, api, clock);
      requests := requests + [request];
      answers := answers + [page];
      if page.Ok? {
        PageUsersKeyed(api(request).value, EnsureHashPrefix(query), clock);
      }
    }

    /** One pass of the `_collect_tweets` loop, from the loop state `pages`,
        `tweets`, `users`, `remaining`, `cursor` (the pages decoded from the
        request at `from` on): ask for at most 100 of the tweets still
        wanted, from the current cursor. A decoded page with tweets is
        stored; the loop goes on from its bottom cursor when it has one and
        ends otherwise; an empty page ends it; a failed request or a user
        without profile fields raises. `more` is `pages` with the decoded page. */
    method CollectPage(query: string, h: int, count: int, searchType: string, remaining: int, cursor: Json,
                       ghost from: nat, ghost pages: seq<SearchPage>, ghost start: Contents, tweets: seq<TweetRecord>,
                       users: map<string, UserRecord>)
      returns (turn: Turn, gathered: seq<TweetRecord>, merged: map<string, UserRecord>, left: int, next: Json,
               ghost more: seq<SearchPage>)
      requires db.Valid() && Logged() && remaining > 0 && EnsureHashPrefix(query) == query
      requires Collecting(requests, answers, from, pages, query, count, searchType, remaining, cursor, db.contents, tweets, users, polarity)
      requires Saved(start, db.contents, tweets, users, h)
      modifies this, db
      ensures db.Valid() && Logged() && Grown(old(db.contents), db.contents)
      ensures !turn.Failed? ==> Saved(start, db.contents, gathered, merged, h)
      ensures turn.Failed? ==> db.contents.tweets == SaveAll(start.tweets, Gathered(more, polarity), h)
      ensures old(requests) <= requests && old(answers) <= answers
      ensures turn.GoOn? ==> left < remaining
      ensures turn.GoOn? ==>
        Collecting(requests, answers, from, more, query, count, searchType, left, next, db.contents, gathered, merged, polarity)
      ensures turn.Done? ==> Finished(requests, answers, from, more, query, count, searchType)
      ensures turn.Done? ==>
        gathered == Gathered(more, polarity) && merged == Merged(more) && Recorded(db.contents, gathered, merged, polarity)
      ensures turn.Failed? ==> Broke(requests, answers, from, more, query, count, searchType)
    {
      ghost var sent, got, c := requests, answers, db.contents;
      var page := FetchPage(query, Min(remaining, 100), searchType, cursor);
      RequestNext(pages, count, remaining, cursor, query, searchType);
      turn, gathered, merged, left, next, more := Done, tweets, users, remaining, cursor, pages;
      if page.Err? {
        BrokeFetch(sent, got, from, pages, query, count, searchType, remaining, cursor, c, tweets, users, polarity, page);
        turn := Failed(page.msg);
        return;
      }
      var p := page.value;
      more := pages + [p];
      if p.tweets == [] {
        FinishedEmpty(sent, got, from, pages, query, count, searchType, remaining, cursor, c, tweets, users, polarity, p);
        return;
      }
      var kept := KeepPage(p, h, start, tweets, users);
      if kept.Err? {
        BrokeUsers(sent, got, from, pages, query, count, searchType, remaining, cursor, c, tweets, users, polarity, p);
        GatheredStep(pages, p, polarity);
        turn := Failed(kept.msg);
        return;
      }
      gathered, merged, left := tweets + kept.value, users + p.users, remaining - |p.tweets|;
      if p.cursor.Some? && Truthy(p.cursor.value.bottom) {
        turn, next := GoOn, p.cursor.value.bottom;
        CollectingNext(sent, got, from, pages, query, count, searchType, remaining, cursor, c, tweets, users, polarity,
                       p, kept.value, db.contents);
      } else {
        FinishedLast(sent, got, from, pages, query, count, searchType, remaining, cursor, c, tweets, users, polarity, p);
      }
    }

    /** `_collect_tweets`: request pages of at most 100 until `count` tweets
        have been seen, a page is empty, or there is no next cursor.
        `pages` logs the decoded pages in order. */
    method CollectTweets(hashtag: string, h: int, count: int, searchType: string)
      returns (r: Result<Collected>, ghost pages: seq<SearchPage>)
      requires db.Valid() && Logged()
      modifies this, db
      ensures db.Valid() && Logged() && Grown(old(db.contents), db.contents)
      ensures old(requests) <= requests && old(answers) <= answers
      ensures r.Ok? ==> Finished(requests, answers, |old(requests)|, pages, "#" + hashtag, count, searchType)
      ensures r.Ok? ==> r.value == Collected(Gathered(pages, polarity), Merged(pages))
      ensures r.Ok? ==> Recorded(db.contents, r.value.tweets, r.value.users, polarity)
      ensures r.Ok? ==> Saved(old(db.contents), db.contents, r.value.tweets, r.value.users, h)
      ensures r.Err? ==> Broke(requests, answers, |old(requests)|, pages, "#" + hashtag, count, searchType)
      ensures r.Err? ==> db.contents.tweets == SaveAll(old(db.contents.tweets), Gathered(pages, polarity), h)
    {
      var tweets: seq<TweetRecord> := [];
      var users: map<string, UserRecord> := map[];
      assert UsersAfter(db.contents.users, users) == db.contents.users;
      var cursor := JNull;
      var remaining := count;
      var query := "#" + hashtag;
      pages := [];
      EnsureHashPrefixIdempotent(hashtag);
      while remaining > 0
        invariant db.Valid() && Logged() && Grown(old(db.contents), db.contents)
        invariant old(requests) <= requests && old(answers) <= answers
        invariant Collecting(requests, answers, |old(requests)|, pages, query, count, searchType, remaining, cursor,
                             db.contents, tweets, users, polarity)
        invariant Saved(old(db.contents), db.contents, tweets, users, h)
        decreases remaining
      {
        ghost var stored := db.contents;
        var turn;
        turn, tweets, users, remaining, cursor, pages :=
          CollectPage(query, h, count, searchType, remaining, cursor, |old(requests)|, pages, old(db.contents), tweets, users);
        GrownTrans(old(db.contents), stored, db.contents);
        if turn.Failed? {
          return Err(turn.msg), pages;
        }
        if turn.Done? {
          return Ok(Collected(tweets, users)), pages;
        }
      }
      CollectingDone(requests, answers, |old(requests)|, pages, query, count, searchType, remaining, cursor,
                     db.contents, tweets, users, polarity);
      r := Ok(Collected(tweets, users));
    }

    /** One user of `_process_locations`, once the place text is known: a
        geocoded place is saved and the user linked to it. */
    method SavePlace(k: string, text: string, geo: Option<GeoData>)
      requires db.Valid() && text != ""
      modifies db
      ensures db.Valid()
      ensures db.contents == old(db.contents).(locations := db.contents.locations, links := db.contents.links)
      ensures geo.None? ==> db.contents == old(db.contents)
      ensures Extends(old(db.contents.locations), db.contents.locations)
      ensures forall i :: |old(db.contents.locations)| <= i < |db.contents.locations| ==> db.contents.locations[i].text == text
      ensures old(db.contents.links) <= db.contents.links
      ensures forall p :: p in db.contents.links && p !in old(db.contents.links) ==>
        p.0 == k && geo.Some? && 1 <= p.1 <= |db.contents.locations| && db.contents.locations[p.1 - 1].text == text
      ensures geo.Some? && k != "" ==> LinkedTo(db.contents.links, db.contents.locations, k, text)
      ensures geo.Some? ==> db.contents.locations == PlaceSaved(old(db.contents.locations), text, geo.value)
      ensures k == "" ==> db.contents.links == old(db.contents.links)
      ensures geo.Some? && k != "" ==>
        db.contents.links == old(db.contents.links) + {(k, LocationIdFor(old(db.contents.locations), text).value)}
    {
      if geo.None? {
        return;
      }
      var g := geo.value;
      ghost var before := db.contents.locations;
      SaveLocationSpec(before, text, Some(g.latitude), Some(g.longitude), Some(g.country), Some(g.city));
      var id := db.SaveLocation(text, Some(g.latitude), Some(g.longitude), Some(g.country), Some(g.city));
      assert Extends(before, db.contents.locations);
      assert id.Some? && 1 <= id.value <= |db.contents.locations| && db.contents.locations[id.value - 1].text == text;
      if id.Some? && id.value != 0 {
        var linked := db.LinkUserLocation(k, id.value);
      }
    }

    /** The place of one user: looked up among the batch's answers, saved
        and linked when it was geocoded. */
    method LinkUser(k: string, u: UserRecord, geocoded: map<string, Option<GeoData>>, ghost cache: map<string, GeoData>)
      requires db.Valid()
      requires forall x :: x in geocoded ==> geocoded[x] == Answer(cache, x, geocoder.lookup)
      requires HasPlace(u) ==> PlaceText(u) in geocoded
      modifies db
      ensures db.Valid()
      ensures db.contents == old(db.contents).(locations := db.contents.locations, links := db.contents.links)
      ensures Extends(old(db.contents.locations), db.contents.locations)
      ensures forall i :: |old(db.contents.locations)| <= i < |db.contents.locations| ==>
        HasPlace(u) && db.contents.locations[i].text == PlaceText(u) && Answer(cache, PlaceText(u), geocoder.lookup).Some?
      ensures old(db.contents.links) <= db.contents.links
      ensures forall p :: p in db.contents.links && p !in old(db.contents.links) ==>
        p.0 == k && HasPlace(u) && Answer(cache, PlaceText(u), geocoder.lookup).Some?
        && 1 <= p.1 <= |db.contents.locations| && db.contents.locations[p.1 - 1].text == PlaceText(u)
      ensures k != "" && HasPlace(u) && Answer(cache, PlaceText(u), geocoder.lookup).Some? ==>
        LinkedTo(db.contents.links, db.contents.locations, k, PlaceText(u))
      ensures db.contents.locations ==
        if HasPlace(u) && Answer(cache, PlaceText(u), geocoder.lookup).Some?
        then PlaceSaved(old(db.contents.locations), PlaceText(u), Answer(cache, PlaceText(u), geocoder.lookup).value)
        else old(db.contents.locations)
    {
      if HasPlace(u) {
        var text := PlaceText(u);
        StripNotBlank(u.info.value.location);
        SavePlace(k, text, geocoded[text]);
      }
    }

    /** The save-and-link loop of `_process_locations`, over the answers of
        the batch geocode (`cache` is the cache the batch started from). */
    method LinkUsers(users: map<string, UserRecord>, geocoded: map<string, Option<GeoData>>, ghost cache: map<string, GeoData>)
      requires db.Valid()
      requires forall x :: x in geocoded ==> geocoded[x] == Answer(cache, x, geocoder.lookup)
      requires PlaceTexts(users) <= geocoded.Keys
      modifies db
      ensures db.Valid()
      ensures db.contents == old(db.contents).(locations := db.contents.locations, links := db.contents.links)
      ensures Extends(old(db.contents.locations), db.contents.locations)
      ensures forall i :: |old(db.contents.locations)| <= i < |db.contents.locations| ==>
        db.contents.locations[i].text in PlaceTexts(users) && Answer(cache, db.contents.locations[i].text, geocoder.lookup).Some?
      ensures old(db.contents.links) <= db.contents.links
      ensures forall p :: p in db.contents.links && p !in old(db.contents.links) ==>
        LinkFits(p, db.contents.locations, users, cache, geocoder.lookup)
      ensures AllLinked(users, users.Keys, db.contents.links, db.contents.locations, cache, geocoder.lookup)
      ensures PlacesWritten(old(db.contents.locations), db.contents.locations, users, cache, geocoder.lookup)
    {
      var pending := users.Keys;
      while pending != {}
        invariant pending <= users.Keys && db.Valid()
        invariant Linking(old(db.contents), db.contents, users, users.Keys - pending, cache, geocoder.lookup)
        decreases pending
      {
        var k :| k in pending;
        LinkNext(k, users, geocoded, cache, old(db.contents), users.Keys - pending);
        assert users.Keys - (pending - {k}) == (users.Keys - pending) + {k};
        pending := pending - {k};
      }
      assert users.Keys - pending == users.Keys;
      PlacingDone(old(db.contents.locations), db.contents.locations, users, cache, geocoder.lookup);
    }

    /** One pass of the `_process_locations` linking loop: user `k` is
        handled, and the linking state from `c0` now counts `k` as done. */
    method LinkNext(k: string, users: map<string, UserRecord>, geocoded: map<string, Option<GeoData>>,
                    ghost cache: map<string, GeoData>, ghost c0: Contents, ghost done: set<string>)
      requires db.Valid() && k in users
      requires forall x :: x in geocoded ==> geocoded[x] == Answer(cache, x, geocoder.lookup)
      requires PlaceTexts(users) <= geocoded.Keys
      requires Linking(c0, db.contents, users, done, cache, geocoder.lookup)
      modifies db
      ensures db.Valid() && Linking(c0, db.contents, users, done + {k}, cache, geocoder.lookup)
    {
      ghost var before, linksBefore := db.contents.locations, db.contents.links;
      LinkUser(k, users[k], geocoded, cache);
      ExtendsTrans(c0.locations, before, db.contents.locations);
      ghost var after := db.contents.locations;
      if |before| < |after| {
        assert after[|before|].text == PlaceText(users[k]);
      }
      NewPlacesStep(before, after, |c0.locations|, users, k, cache, geocoder.lookup);
      PlacingStep(c0.locations, before, after, users, done, k, cache, geocoder.lookup);
      NewLinksStep(c0.links, linksBefore, db.contents.links, before, after, users, k, cache, geocoder.lookup);
      AllLinkedStep(users, done, k, linksBefore, before, db.contents.links, after, cache, geocoder.lookup);
    }

    /** `_process_locations`: geocode each distinct place text once, then
        save each successfully geocoded place and link its users to it. */
    method ProcessLocations(users: map<string, UserRecord>)
      requires db.Valid()
      modifies db, geocoder
      ensures db.Valid()
      ensures db.contents == old(db.contents).(locations := db.contents.locations, links := db.contents.links)
      ensures forall x :: x in geocoder.cache <==>
        x in old(geocoder.cache) || (x in PlaceTexts(users) && Answer(old(geocoder.cache), x, geocoder.lookup).Some?)
      ensures Extends(old(db.contents.locations), db.contents.locations)
      ensures forall i :: |old(db.contents.locations)| <= i < |db.contents.locations| ==>
        db.contents.locations[i].text in PlaceTexts(users) && Answer(old(geocoder.cache), db.contents.locations[i].text, geocoder.lookup).Some?
      ensures old(db.contents.links) <= db.contents.links
      ensures forall p :: p in db.contents.links && p !in old(db.contents.links) ==>
        LinkFits(p, db.contents.locations, users, old(geocoder.cache), geocoder.lookup)
      ensures forall k :: k in users && k != "" && HasPlace(users[k]) && Answer(old(geocoder.cache), PlaceText(users[k]), geocoder.lookup).Some? ==>
        LinkedTo(db.contents.links, db.contents.locations, k, PlaceText(users[k]))
      ensures PlacesWritten(old(db.contents.locations), db.contents.locations, users, old(geocoder.cache), geocoder.lookup)
      ensures CacheGained(old(geocoder.cache), geocoder.cache, PlaceTexts(users), geocoder.lookup)
    {
      var texts := PlaceTexts(users);
      var list := ListOf(texts);
      forall x | x in list
        ensures !Blank(x)
      {
        var k :| k in users && HasPlace(users[k]) && PlaceText(users[k]) == x;
        StripNotBlank(users[k].info.value.location);
      }
      var geocoded := geocoder.BatchGeocode(list);
      LinkUsers(users, geocoded, old(geocoder.cache));
    }

    /** `_get_analysis_results`, with the intended sentiment report (the
        query as written raises for every stored hashtag). */
    method AnalysisResults(h: int) returns (report: Report)
      requires db.Valid()
      ensures report.summary == db.HashtagSummary(h)
      ensures TopRows(db.contents, h, 10, report.topContributors)
      ensures report.sentiment == db.SentimentOverview(h)
      ensures LocationsReported(db.contents, h, report.locations)
    {
      var top := db.TopContributors(h, 10);
      var locations := db.LocationStats(h);
      report := Report(db.HashtagSummary(h), top, db.SentimentOverview(h), locations);
    }

    /** Steps 3 and 4 of `analyze_hashtag`: collect the tweets, then their
        users' places; the hashtags, snapshots and contributors tables are
        not touched. `pages` logs the decoded pages. */
    method Gather(clean: string, h: int, count: int, searchType: string)
      returns (r: Result<Collected>, ghost pages: seq<SearchPage>)
      requires db.Valid() && Logged()
      modifies this, db, geocoder
      ensures db.Valid() && Logged()
      ensures db.contents == old(db.contents).(tweets := db.contents.tweets, users := db.contents.users,
                                                locations := db.contents.locations, links := db.contents.links)
      ensures old(db.contents.tweets) <= db.contents.tweets
      ensures r.Ok? ==> Finished(requests, answers, |old(requests)|, pages, "#" + clean, count, searchType)
      ensures r.Ok? ==> r.value == Collected(Gathered(pages, polarity), Merged(pages))
      ensures r.Ok? ==> Recorded(db.contents, r.value.tweets, r.value.users, polarity)
      ensures r.Ok? ==> PlacesLinked(old(db.contents.links), db.contents, r.value.users, old(geocoder.cache), geocoder.lookup)
      ensures r.Ok? ==> Saved(old(db.contents), db.contents, r.value.tweets, r.value.users, h)
      ensures r.Ok? ==> PlacesWritten(old(db.contents.locations), db.contents.locations, r.value.users, old(geocoder.cache), geocoder.lookup)
      ensures r.Ok? ==> CacheGained(old(geocoder.cache), geocoder.cache, PlaceTexts(r.value.users), geocoder.lookup)
      ensures r.Err? ==> Broke(requests, answers, |old(requests)|, pages, "#" + clean, count, searchType)
      ensures r.Err? ==> Grown(old(db.contents), db.contents) && geocoder.cache == old(geocoder.cache)
      ensures r.Err? ==> db.contents.tweets == SaveAll(old(db.contents.tweets), Gathered(pages, polarity), h)
    {
      var collected;
      collected, pages := CollectTweets(clean, h, count, searchType);
      if collected.Err? {
        r := Err(collected.msg);
        return;
      }
      ghost var stored := db.contents;
      ProcessLocations(collected.value.users);
      assert db.contents.tweets == stored.tweets && db.contents.users == stored.users;
      r := Ok(collected.value);
    }

    /** Step 6 of `analyze_hashtag`: rebuild the hashtag's contributors. */
    method Rebuild(h: int)
      requires db.Valid()
      modifies db
      ensures db.Valid()
      ensures db.contents == old(db.contents).(contributors := db.contents.contributors)
      ensures ContributorsRebuilt(old(db.contents.contributors), db.contents, h)
    {
      ghost var selected := db.UpdateTopContributors(h);
      assert RebuiltWith(old(db.contents.contributors), db.contents, h, selected);
    }

    /** Steps 5 to 7 of `analyze_hashtag`: recount the hashtag, rebuild its
        contributors, and read the results back. */
    method Refresh(h: int) returns (report: Report)
      requires db.Valid() && 1 <= h <= |db.contents.hashtags| && db.contents.hashtags[h - 1].id == h
      modifies db
      ensures db.Valid()
      ensures db.contents == old(db.contents).(hashtags := db.contents.hashtags, snapshots := db.contents.snapshots,
                                                contributors := db.contents.contributors)
      ensures StatsUpdated(old(db.contents), db.contents.(contributors := old(db.contents.contributors)), h, clock.now)
      ensures Counted(db.contents, h, old(db.contents.hashtags[h - 1].name))
      ensures ContributorsRebuilt(old(db.contents.contributors), db.contents, h)
      ensures report.summary.Some? && report.summary == db.HashtagSummary(h)
      ensures TopRows(db.contents, h, 10, report.topContributors)
      ensures report.sentiment == db.SentimentOverview(h) && report.sentiment.overall == db.contents.hashtags[h - 1].sentimentScore
      ensures LocationsReported(db.contents, h, report.locations)
    {
      ghost var c0 := db.contents;
      db.UpdateHashtagStats(h, clock.now);
      ghost var counted := db.contents;
      assert StatsUpdated(c0, counted, h, clock.now);
      assert Counted(counted, h, c0.hashtags[h - 1].name);
      Rebuild(h);
      assert db.contents.(contributors := c0.contributors) == counted;
      report := AnalysisResults(h);
    }

    /** Steps 5 to 7 of `analyze_hashtag` once the tweets of `pages` and
        their users' places are stored, with what the whole run then leaves
        relative to the store `before` it and the geocoding cache `cache`. */
    method Finish(clean: string, h: int, ghost before: Contents, ghost cache: map<string, GeoData>,
                  ghost pages: seq<SearchPage>) returns (report: Report)
      requires db.Valid() && HashtagsOk(before.hashtags) && h == HashtagFor(before.hashtags, clean, clock.now).id
      requires db.contents == before.(hashtags := WithHashtag(before.hashtags, clean, clock.now), tweets := db.contents.tweets,
                                      users := db.contents.users, locations := db.contents.locations, links := db.contents.links)
      requires Recorded(db.contents, Gathered(pages, polarity), Merged(pages), polarity)
      requires Saved(before.(hashtags := db.contents.hashtags), db.contents, Gathered(pages, polarity), Merged(pages), h)
      requires PlacesLinked(before.links, db.contents, Merged(pages), cache, geocoder.lookup)
      requires PlacesWritten(before.locations, db.contents.locations, Merged(pages), cache, geocoder.lookup)
      requires CacheGained(cache, geocoder.cache, PlaceTexts(Merged(pages)), geocoder.lookup)
      modifies db
      ensures db.Valid()
      ensures db.contents.tweets == old(db.contents.tweets) && |db.contents.hashtags| == |old(db.contents.hashtags)|
      ensures RunStored(clean, before, db.contents, cache, geocoder.cache, pages, h, polarity, geocoder.lookup, clock.now)
      ensures report.summary.Some? && report.summary.value.hashtag.id == h && report.summary == db.HashtagSummary(h)
      ensures TopRows(db.contents, h, 10, report.topContributors)
      ensures report.sentiment == db.SentimentOverview(h)
      ensures LocationsReported(db.contents, h, report.locations)
      ensures db.SentimentAnalysis(h).Err?
    {
      GetOrCreateSpec(before.hashtags, clean, clock.now);
      ghost var stored := db.contents;
      report := Refresh(h);
      RunStoredIntro(clean, before, stored, db.contents, cache, geocoder.cache, pages, h, polarity, geocoder.lookup, clock.now);
    }

    /** What a successful `analyze_hashtag` leaves and answers, given the
        store `before` the run, the geocoding cache it started from, the
        position `from` of its first search request and the pages it decoded:
        the pages were requested and stopped as `_collect_tweets` does, their
        tweets and users are stored, their users' places are geocoded, saved
        and linked, the hashtag's row is fetched or created and then recounted
        with one more snapshot, its contributors are rebuilt, and the report
        reads all of it back. */
    ghost predicate Analyzed(hashtag: string, count: int, searchType: string, report: Report,
                             before: Contents, cache: map<string, GeoData>, from: nat, pages: seq<SearchPage>)
      reads this, db, geocoder
    {
      var clean, c := NormalizeHashtag(hashtag), db.contents;
      && db.Valid()
      && report.summary.Some?
      && Logged()
      && Finished(requests, answers, from, pages, "#" + clean, count, searchType)
      && (var h := report.summary.value.hashtag.id;
          && RunStored(clean, before, c, cache, geocoder.cache, pages, h, polarity, geocoder.lookup, clock.now)
          && report.summary == db.HashtagSummary(h)
          && TopRows(c, h, 10, report.topContributors)
          && report.sentiment == db.SentimentOverview(h)
          && LocationsReported(c, h, report.locations)
          && db.SentimentAnalysis(h).Err?)
    }

    /** What a failed `analyze_hashtag` leaves: the hashtag's row fetched or
        created, the kept tweets of the pages decoded before the failure
        stored, the users table only grown, and the snapshots, contributors,
        locations and links untouched. */
    ghost predicate Aborted(hashtag: string, before: Contents, c: Contents, pages: seq<SearchPage>)
      reads this
    {
      var clean := NormalizeHashtag(hashtag);
      && c == before.(hashtags := WithHashtag(before.hashtags, clean, clock.now), tweets := c.tweets, users := c.users)
      && before.users.Keys <= c.users.Keys
      && c.tweets == SaveAll(before.tweets, Gathered(pages, polarity), HashtagFor(before.hashtags, clean, clock.now).id)
    }

    /** `analyze_hashtag`: every step in order; an exception ends the run.
        `pages` logs the decoded search pages. */
    method AnalyzeHashtag(hashtag: string, count: int, searchType: string)
      returns (r: Result<Report>, ghost pages: seq<SearchPage>)
      requires db.Valid() && Logged()
      modifies this, db, geocoder
      ensures db.Valid() && Logged()
      ensures |db.contents.hashtags| <= |old(db.contents.hashtags)| + 1 && old(db.contents.tweets) <= db.contents.tweets
      ensures r.Err? ==> Broke(requests, answers, |old(requests)|, pages, "#" + NormalizeHashtag(hashtag), count, searchType)
      ensures r.Err? ==> Aborted(hashtag, old(db.contents), db.contents, pages)
      ensures r.Err? ==> geocoder.cache == old(geocoder.cache)
      ensures r.Ok? ==> Analyzed(hashtag, count, searchType, r.value, old(db.contents), old(geocoder.cache), |old(requests)|, pages)
    {
      var clean := NormalizeHashtag(hashtag);
      var row := db.GetOrCreateHashtag(clean, clock.now);
      var h := row.id;
      GetOrCreateSpec(old(db.contents.hashtags), clean, clock.now);
      var gathered;
      gathered, pages := Gather(clean, h, count, searchType);
      assert old(db.contents.tweets) <= db.contents.tweets && |db.contents.hashtags| <= |old(db.contents.hashtags)| + 1;
      if gathered.Err? {
        r := Err(gathered.msg);
        return;
      }
      var report := Finish(clean, h, old(db.contents), old(geocoder.cache), pages);
      r := Ok(report);
    }
  }

  /** The geocoding cache `c` is `c0` with the successful answers for
      `texts` added: old entries keep their values, a new entry is a text of
      `texts` with its answer, and every text answered has an entry. */
  predicate CacheGained(c0: map<string, GeoData>, c: map<string, GeoData>, texts: set<string>,
                        lookup: string -> Option<GeoData>)
  {
    && (forall x :: x in c0 ==> x in c && c[x] == c0[x])
    && (forall x :: x in c && x !in c0 ==> x in texts && Answer(c0, x, lookup) == Some(c[x]))
    && (forall x :: x in texts && Answer(c0, x, lookup).Some? ==> x in c)
  }

  /** The locations table only grows, and the rows it had keep their texts. */
  predicate Extends(before: seq<LocationRow>, after: seq<LocationRow>)
  {
    |before| <= |after| && forall i :: 0 <= i < |before| ==> after[i].text == before[i].text
  }

  lemma ExtendsTrans(a: seq<LocationRow>, b: seq<LocationRow>, c: seq<LocationRow>)
    requires Extends(a, b) && Extends(b, c)
    ensures Extends(a, c)
  {
  }

  /** Both coordinates of an answer are truthy, so `save_location` marks
      the row geocoded and overwrites a stored one. */
  predicate Pinned(g: GeoData)
  {
    Present(Some(g.latitude)) && Present(Some(g.longitude))
  }

  /** The row `save_location` writes with id `id` for `text` geocoded as `g`. */
  function PlaceRow(id: int, text: string, g: GeoData): LocationRow
  {
    LocationRow(id, text, Some(g.latitude), Some(g.longitude), Some(g.country), Some(g.city), Pinned(g))
  }

  /** The locations table after `save_location` of `text` with the fields of `g`. */
  function PlaceSaved(ls: seq<LocationRow>, text: string, g: GeoData): seq<LocationRow>
  {
    LocationsAfter(ls, text, Some(g.latitude), Some(g.longitude), Some(g.country), Some(g.city))
  }

  /** `after` is the rows `before` with place `text` saved as `g`: the row
      holding `text` is rewritten with the answer when both coordinates are
      truthy, a new text gets the next row holding the answer, every other
      row stays as it was, and some row holds `text`. */
  predicate SavedAs(before: seq<LocationRow>, after: seq<LocationRow>, text: string, g: GeoData)
  {
    && |before| <= |after| <= |before| + 1
    && (forall i :: 0 <= i < |before| ==>
          after[i] == if before[i].text == text && Pinned(g) then PlaceRow(i + 1, text, g) else before[i])
    && (|after| == |before| + 1 ==> after[|before|] == PlaceRow(|before| + 1, text, g))
    && (exists i :: 0 <= i < |after| && after[i].text == text)
  }

  /** Saving a geocoded place changes the rows as `SavedAs` says. */
  lemma PlaceSavedRows(ls: seq<LocationRow>, text: string, g: GeoData)
    requires LocationsOk(ls) && text != ""
    ensures SavedAs(ls, PlaceSaved(ls, text, g), text, g)
  {
    var lat, lon := Some(g.latitude), Some(g.longitude);
    SaveLocationSpec(ls, text, lat, lon, Some(g.country), Some(g.city));
    SaveLocationWrites(ls, text, lat, lon, Some(g.country), Some(g.city));
    var after := PlaceSaved(ls, text, g);
    var id := LocationIdFor(ls, text);
    assert after[id.value - 1].text == text;
  }

  /** A place text of `users` that the geocoder answers. */
  predicate GeoText(users: map<string, UserRecord>, cache: map<string, GeoData>, lookup: string -> Option<GeoData>, x: string)
  {
    x in PlaceTexts(users) && Answer(cache, x, lookup).Some?
  }

  /** Place `x`, answered `g`, has been saved over the rows `ls0`: some row
      holds `x`, and a row of `ls0` holding it was rewritten with `g` when
      both coordinates are truthy, and kept otherwise. */
  predicate PlacedFor(ls0: seq<LocationRow>, ls: seq<LocationRow>, x: string, g: GeoData)
  {
    && (exists i :: 0 <= i < |ls| && ls[i].text == x)
    && (forall i :: 0 <= i < |ls0| && i < |ls| && ls0[i].text == x ==>
          ls[i] == if Pinned(g) then PlaceRow(i + 1, x, g) else ls0[i])
  }

  /** Each row of `ls0` is kept in `ls`, or rewritten with the answer for
      its text when that is a geocoded place text with both coordinates truthy. */
  predicate OldRows(ls0: seq<LocationRow>, ls: seq<LocationRow>, users: map<string, UserRecord>,
                    cache: map<string, GeoData>, lookup: string -> Option<GeoData>)
  {
    && |ls0| <= |ls|
    && forall i :: 0 <= i < |ls0| ==>
         || ls[i] == ls0[i]
         || (&& GeoText(users, cache, lookup, ls0[i].text) && Pinned(Answer(cache, ls0[i].text, lookup).value)
             && ls[i] == PlaceRow(i + 1, ls0[i].text, Answer(cache, ls0[i].text, lookup).value))
  }

  /** Each row of `ls` past `n0` holds the answer for its geocoded place text. */
  predicate NewRows(n0: nat, ls: seq<LocationRow>, users: map<string, UserRecord>,
                    cache: map<string, GeoData>, lookup: string -> Option<GeoData>)
  {
    forall i :: n0 <= i < |ls| ==>
      GeoText(users, cache, lookup, ls[i].text) && ls[i] == PlaceRow(i + 1, ls[i].text, Answer(cache, ls[i].text, lookup).value)
  }

  /** The place of every user in `done` that the geocoder answers is saved over `ls0`. */
  predicate DonePlaced(ls0: seq<LocationRow>, ls: seq<LocationRow>, users: map<string, UserRecord>, done: set<string>,
                       cache: map<string, GeoData>, lookup: string -> Option<GeoData>)
  {
    forall k :: k in users && k in done && HasPlace(users[k]) && Answer(cache, PlaceText(users[k]), lookup).Some? ==>
      PlacedFor(ls0, ls, PlaceText(users[k]), Answer(cache, PlaceText(users[k]), lookup).value)
  }

  /** The locations table while `_process_locations` saves places, from
      rows `ls0`, having handled the users in `done`. */
  predicate Placing(ls0: seq<LocationRow>, ls: seq<LocationRow>, users: map<string, UserRecord>, done: set<string>,
                    cache: map<string, GeoData>, lookup: string -> Option<GeoData>)
  {
    OldRows(ls0, ls, users, cache, lookup) && NewRows(|ls0|, ls, users, cache, lookup) && DonePlaced(ls0, ls, users, done, cache, lookup)
  }

  /** What `_process_locations` leaves in the locations table, from rows
      `ls0`: a stored row whose text is a geocoded place of `users` holds the
      answer when both coordinates are truthy, and every other stored row is
      unchanged; each added row holds the answer for a geocoded place text;
      and every geocoded place text has a row. */
  predicate PlacesWritten(ls0: seq<LocationRow>, ls: seq<LocationRow>, users: map<string, UserRecord>,
                          cache: map<string, GeoData>, lookup: string -> Option<GeoData>)
  {
    && |ls0| <= |ls|
    && (forall i :: 0 <= i < |ls0| ==>
          ls[i] == if GeoText(users, cache, lookup, ls0[i].text) && Pinned(Answer(cache, ls0[i].text, lookup).value)
                   then PlaceRow(i + 1, ls0[i].text, Answer(cache, ls0[i].text, lookup).value) else ls0[i])
    && NewRows(|ls0|, ls, users, cache, lookup)
    && (forall x :: x in PlaceTexts(users) && GeoText(users, cache, lookup, x) ==> exists i :: 0 <= i < |ls| && ls[i].text == x)
  }

  /** Saving a geocoded place text keeps `OldRows`. */
  lemma OldRowsStep(ls0: seq<LocationRow>, before: seq<LocationRow>, after: seq<LocationRow>, users: map<string, UserRecord>,
                    cache: map<string, GeoData>, lookup: string -> Option<GeoData>, text: string)
    requires OldRows(ls0, before, users, cache, lookup) && Extends(ls0, before)
    requires GeoText(users, cache, lookup, text) && SavedAs(before, after, text, Answer(cache, text, lookup).value)
    ensures OldRows(ls0, after, users, cache, lookup)
  {
    forall i | 0 <= i < |ls0|
      ensures || after[i] == ls0[i]
              || (&& GeoText(users, cache, lookup, ls0[i].text) && Pinned(Answer(cache, ls0[i].text, lookup).value)
                  && after[i] == PlaceRow(i + 1, ls0[i].text, Answer(cache, ls0[i].text, lookup).value))
    {
      assert before[i].text == ls0[i].text;
    }
  }

  /** Saving a geocoded place text keeps `NewRows`. */
  lemma NewRowsStep(n0: nat, before: seq<LocationRow>, after: seq<LocationRow>, users: map<string, UserRecord>,
                    cache: map<string, GeoData>, lookup: string -> Option<GeoData>, text: string)
    requires NewRows(n0, before, users, cache, lookup) && n0 <= |before|
    requires GeoText(users, cache, lookup, text) && SavedAs(before, after, text, Answer(cache, text, lookup).value)
    ensures NewRows(n0, after, users, cache, lookup)
  {
    forall i | n0 <= i < |after|
      ensures GeoText(users, cache, lookup, after[i].text)
      ensures after[i] == PlaceRow(i + 1, after[i].text, Answer(cache, after[i].text, lookup).value)
    {
      if i < |before| {
        assert GeoText(users, cache, lookup, before[i].text);
        assert after[i].text == before[i].text;
      } else {
        assert i == |before| && |after| == |before| + 1;
      }
    }
  }

  /** Saving another place text keeps a saved place saved. */
  lemma PlacedForKept(ls0: seq<LocationRow>, before: seq<LocationRow>, after: seq<LocationRow>, x: string, gx: GeoData,
                      text: string, g: GeoData)
    requires PlacedFor(ls0, before, x, gx) && SavedAs(before, after, text, g) && x != text && |ls0| <= |before|
    ensures PlacedFor(ls0, after, x, gx)
  {
    var w :| 0 <= w < |before| && before[w].text == x;
    assert after[w].text == x;
    forall i | 0 <= i < |ls0| && i < |after| && ls0[i].text == x
      ensures after[i] == if Pinned(gx) then PlaceRow(i + 1, x, gx) else ls0[i]
    {
    }
  }

  /** Saving place `text` as `g` over rows that still hold it as stored or
      as already rewritten with `g` saves it. */
  lemma PlacedForSaved(ls0: seq<LocationRow>, before: seq<LocationRow>, after: seq<LocationRow>, text: string, g: GeoData)
    requires SavedAs(before, after, text, g) && Extends(ls0, before)
    requires forall i :: 0 <= i < |ls0| && ls0[i].text == text ==>
      before[i] == ls0[i] || (Pinned(g) && before[i] == PlaceRow(i + 1, text, g))
    ensures PlacedFor(ls0, after, text, g)
  {
    forall i | 0 <= i < |ls0| && i < |after| && ls0[i].text == text
      ensures after[i] == if Pinned(g) then PlaceRow(i + 1, text, g) else ls0[i]
    {
      assert before[i].text == text;
    }
  }

  /** Saving the place of user `k` keeps `DonePlaced`, now counting `k`. */
  lemma DonePlacedStep(ls0: seq<LocationRow>, before: seq<LocationRow>, after: seq<LocationRow>, users: map<string, UserRecord>,
                       done: set<string>, k: string, cache: map<string, GeoData>, lookup: string -> Option<GeoData>)
    requires DonePlaced(ls0, before, users, done, cache, lookup) && OldRows(ls0, before, users, cache, lookup)
    requires Extends(ls0, before) && k in users && HasPlace(users[k]) && Answer(cache, PlaceText(users[k]), lookup).Some?
    requires SavedAs(before, after, PlaceText(users[k]), Answer(cache, PlaceText(users[k]), lookup).value)
    ensures DonePlaced(ls0, after, users, done + {k}, cache, lookup)
  {
    var text, g := PlaceText(users[k]), Answer(cache, PlaceText(users[k]), lookup).value;
    forall i | 0 <= i < |ls0| && ls0[i].text == text
      ensures before[i] == ls0[i] || (Pinned(g) && before[i] == PlaceRow(i + 1, text, g))
    {
    }
    PlacedForSaved(ls0, before, after, text, g);
    forall j | j in users && j in done + {k} && HasPlace(users[j]) && Answer(cache, PlaceText(users[j]), lookup).Some?
      ensures PlacedFor(ls0, after, PlaceText(users[j]), Answer(cache, PlaceText(users[j]), lookup).value)
    {
      var x := PlaceText(users[j]);
      if x != text {
        assert j in done && |ls0| <= |before|;
        assert PlacedFor(ls0, before, x, Answer(cache, x, lookup).value);
        PlacedForKept(ls0, before, after, x, Answer(cache, x, lookup).value, text, g);
      }
    }
  }

  /** Saving the place of one more user keeps `Placing`, now counting that user. */
  lemma PlacingStep(ls0: seq<LocationRow>, before: seq<LocationRow>, after: seq<LocationRow>, users: map<string, UserRecord>,
                    done: set<string>, k: string, cache: map<string, GeoData>, lookup: string -> Option<GeoData>)
    requires Placing(ls0, before, users, done, cache, lookup) && Extends(ls0, before) && LocationsOk(before) && k in users
    requires after == if HasPlace(users[k]) && Answer(cache, PlaceText(users[k]), lookup).Some?
                      then PlaceSaved(before, PlaceText(users[k]), Answer(cache, PlaceText(users[k]), lookup).value) else before
    ensures Placing(ls0, after, users, done + {k}, cache, lookup)
  {
    var u := users[k];
    if HasPlace(u) && Answer(cache, PlaceText(u), lookup).Some? {
      var text, g := PlaceText(u), Answer(cache, PlaceText(u), lookup).value;
      StripNotBlank(u.info.value.location);
      assert GeoText(users, cache, lookup, text);
      PlaceSavedRows(before, text, g);
      OldRowsStep(ls0, before, after, users, cache, lookup, text);
      NewRowsStep(|ls0|, before, after, users, cache, lookup, text);
      DonePlacedStep(ls0, before, after, users, done, k, cache, lookup);
    } else {
      forall j | j in users && j in done + {k} && HasPlace(users[j]) && Answer(cache, PlaceText(users[j]), lookup).Some?
        ensures PlacedFor(ls0, after, PlaceText(users[j]), Answer(cache, PlaceText(users[j]), lookup).value)
      {
        assert j in done;
      }
    }
  }

  /** Once every user is handled, `Placing` is `PlacesWritten`. */
  lemma PlacingDone(ls0: seq<LocationRow>, ls: seq<LocationRow>, users: map<string, UserRecord>,
                    cache: map<string, GeoData>, lookup: string -> Option<GeoData>)
    requires Placing(ls0, ls, users, users.Keys, cache, lookup) && Extends(ls0, ls)
    ensures PlacesWritten(ls0, ls, users, cache, lookup)
  {
    forall i | 0 <= i < |ls0|
      ensures ls[i] == if GeoText(users, cache, lookup, ls0[i].text) && Pinned(Answer(cache, ls0[i].text, lookup).value)
                       then PlaceRow(i + 1, ls0[i].text, Answer(cache, ls0[i].text, lookup).value) else ls0[i]
    {
      var x := ls0[i].text;
      if GeoText(users, cache, lookup, x) {
        var k :| k in users && HasPlace(users[k]) && PlaceText(users[k]) == x;
        assert PlacedFor(ls0, ls, x, Answer(cache, x, lookup).value);
      }
    }
    forall x | x in PlaceTexts(users) && GeoText(users, cache, lookup, x)
      ensures exists i :: 0 <= i < |ls| && ls[i].text == x
    {
      var k :| k in users && HasPlace(users[k]) && PlaceText(users[k]) == x;
      assert PlacedFor(ls0, ls, x, Answer(cache, x, lookup).value);
    }
  }

  /** The location rows from `n0` on hold place texts of `users` that the
      geocoder answers. */
  predicate NewPlaces(locations: seq<LocationRow>, n0: nat, users: map<string, UserRecord>,
                      cache: map<string, GeoData>, lookup: string -> Option<GeoData>)
  {
    forall i :: n0 <= i < |locations| ==>
      locations[i].text in PlaceTexts(users) && Answer(cache, locations[i].text, lookup).Some?
  }

  /** The rows added for one user of `users` keep `NewPlaces`. */
  lemma NewPlacesStep(before: seq<LocationRow>, after: seq<LocationRow>, n0: nat, users: map<string, UserRecord>,
                      k: string, cache: map<string, GeoData>, lookup: string -> Option<GeoData>)
    requires NewPlaces(before, n0, users, cache, lookup) && Extends(before, after) && k in users
    requires forall i :: |before| <= i < |after| ==>
      HasPlace(users[k]) && after[i].text == PlaceText(users[k]) && Answer(cache, PlaceText(users[k]), lookup).Some?
    ensures NewPlaces(after, n0, users, cache, lookup)
  {
    if |before| < |after| {
      var first := after[|before|];
      assert HasPlace(users[k]) && first.text == PlaceText(users[k]);
      assert PlaceText(users[k]) in PlaceTexts(users);
    }
    forall i | n0 <= i < |after|
      ensures after[i].text in PlaceTexts(users) && Answer(cache, after[i].text, lookup).Some?
    {
      if i < |before| {
        assert after[i].text == before[i].text;
      }
    }
  }

  /** Link `p` is one that `_process_locations` makes: its user is in
      `users`, has a place the geocoder answers, and is linked to a location
      row holding that place's text. */
  predicate LinkFits(p: (string, int), locations: seq<LocationRow>, users: map<string, UserRecord>,
                     cache: map<string, GeoData>, lookup: string -> Option<GeoData>)
  {
    && p.0 in users && HasPlace(users[p.0]) && Answer(cache, PlaceText(users[p.0]), lookup).Some?
    && 1 <= p.1 <= |locations| && locations[p.1 - 1].text == PlaceText(users[p.0])
  }

  /** The store while `_process_locations` links users, from store `c0`:
      only the locations and links tables changed, the new rows hold
      geocoded place texts of `users`, every new link fits, and every user
      in `done` with an id and a geocoded place is linked to it. */
  predicate Linking(c0: Contents, c: Contents, users: map<string, UserRecord>, done: set<string>,
                    cache: map<string, GeoData>, lookup: string -> Option<GeoData>)
  {
    && c == c0.(locations := c.locations, links := c.links)
    && Extends(c0.locations, c.locations)
    && NewPlaces(c.locations, |c0.locations|, users, cache, lookup)
    && c0.links <= c.links
    && NewLinks(c0.links, c.links, c.locations, users, cache, lookup)
    && AllLinked(users, done, c.links, c.locations, cache, lookup)
    && Placing(c0.locations, c.locations, users, done, cache, lookup)
  }

  /** Every link added since `links0` fits. */
  predicate NewLinks(links0: set<(string, int)>, links: set<(string, int)>, locations: seq<LocationRow>,
                     users: map<string, UserRecord>, cache: map<string, GeoData>, lookup: string -> Option<GeoData>)
  {
    forall p :: p in links && p !in links0 ==> LinkFits(p, locations, users, cache, lookup)
  }

  /** The links and rows added for one user of `users` keep `NewLinks`. */
  lemma NewLinksStep(links0: set<(string, int)>, before: set<(string, int)>, after: set<(string, int)>,
                     locationsBefore: seq<LocationRow>, locationsAfter: seq<LocationRow>,
                     users: map<string, UserRecord>, k: string, cache: map<string, GeoData>, lookup: string -> Option<GeoData>)
    requires NewLinks(links0, before, locationsBefore, users, cache, lookup) && Extends(locationsBefore, locationsAfter)
    requires k in users
    requires forall p :: p in after && p !in before ==>
      p.0 == k && HasPlace(users[k]) && Answer(cache, PlaceText(users[k]), lookup).Some?
      && 1 <= p.1 <= |locationsAfter| && locationsAfter[p.1 - 1].text == PlaceText(users[k])
    ensures NewLinks(links0, after, locationsAfter, users, cache, lookup)
  {
    forall p | p in after && p !in links0
      ensures LinkFits(p, locationsAfter, users, cache, lookup)
    {
      if p in before {
        assert LinkFits(p, locationsBefore, users, cache, lookup);
        assert locationsAfter[p.1 - 1].text == locationsBefore[p.1 - 1].text;
      }
    }
  }

  /** User `k` is linked to a location row whose text is `text`. */
  predicate LinkedTo(links: set<(string, int)>, locations: seq<LocationRow>, k: string, text: string)
  {
    exists id :: (k, id) in links && 1 <= id <= |locations| && locations[id - 1].text == text
  }

  /** A link survives more links and more location rows. */
  lemma LinkedToKept(links0: set<(string, int)>, locations0: seq<LocationRow>,
                     links1: set<(string, int)>, locations1: seq<LocationRow>, k: string, text: string)
    requires LinkedTo(links0, locations0, k, text)
    requires links0 <= links1 && Extends(locations0, locations1)
    ensures LinkedTo(links1, locations1, k, text)
  {
    var id :| (k, id) in links0 && 1 <= id <= |locations0| && locations0[id - 1].text == text;
    assert locations1[id - 1].text == text;
  }

  /** What `_process_locations` leaves for `users`: the links of `links0`
      stay, every link added since fits, and every user with an id whose place the geocoder
      answers is linked to that place. */
  ghost predicate PlacesLinked(links0: set<(string, int)>, c: Contents, users: map<string, UserRecord>,
                               cache: map<string, GeoData>, lookup: string -> Option<GeoData>)
  {
    && links0 <= c.links
    && (forall p :: p in c.links && p !in links0 ==> LinkFits(p, c.locations, users, cache, lookup))
    && AllLinked(users, users.Keys, c.links, c.locations, cache, lookup)
  }

  /** Every user of `done` whose place the geocoder answers is linked to a
      row with that place's text (a user without an id is never linked). */
  predicate AllLinked(users: map<string, UserRecord>, done: set<string>, links: set<(string, int)>,
                      locations: seq<LocationRow>, cache: map<string, GeoData>, lookup: string -> Option<GeoData>)
  {
    forall k :: k in users && k in done && k != "" && HasPlace(users[k]) && Answer(cache, PlaceText(users[k]), lookup).Some? ==>
      LinkedTo(links, locations, k, PlaceText(users[k]))
  }

  /** Handling one more user keeps the earlier links. */
  lemma AllLinkedStep(users: map<string, UserRecord>, done: set<string>, k: string,
                      links0: set<(string, int)>, locations0: seq<LocationRow>,
                      links1: set<(string, int)>, locations1: seq<LocationRow>,
                      cache: map<string, GeoData>, lookup: string -> Option<GeoData>)
    requires AllLinked(users, done, links0, locations0, cache, lookup)
    requires links0 <= links1 && Extends(locations0, locations1)
    requires k in users && k != "" && HasPlace(users[k]) && Answer(cache, PlaceText(users[k]), lookup).Some? ==>
      LinkedTo(links1, locations1, k, PlaceText(users[k]))
    ensures AllLinked(users, done + {k}, links1, locations1, cache, lookup)
  {
    forall j | j in users && j in done && j != "" && HasPlace(users[j]) && Answer(cache, PlaceText(users[j]), lookup).Some?
      ensures LinkedTo(links1, locations1, j, PlaceText(users[j]))
    {
      LinkedToKept(links0, locations0, links1, locations1, j, PlaceText(users[j]));
    }
  }

  /** The requests sent since position `from`: each for `query`, of the given
      type, asking for 1 to 100 tweets. */
  predicate RequestsFor(requests: seq<SearchRequest>, from: nat, query: string, searchType: string)
  {
    from <= |requests| &&
    forall i :: from <= i < |requests| ==>
      requests[i].query == query && requests[i].searchType == searchType && 1 <= requests[i].count <= 100
  }

  /** One more request of the right shape keeps `RequestsFor`. */
  lemma RequestsForStep(requests: seq<SearchRequest>, from: nat, query: string, searchType: string, next: SearchRequest)
    requires RequestsFor(requests, from, query, searchType)
    requires next.query == query && next.searchType == searchType && 1 <= next.count <= 100
    ensures RequestsFor(requests + [next], from, query, searchType)
  {
  }

  // ---------------------------------------------------------------------
  // The pages of `_collect_tweets`

  /** `page` is what the endpoint's answer to `request` decodes to; a
      request that raises gives an error. */
  ghost predicate Answered(page: Result<SearchPage>, request: SearchRequest, api: SearchRequest -> Option<Json>, clock: Clock)
  {
    if api(request).None? then page.Err?
    else page == DecodeSearchResults(api(request).value, request.query, clock)
  }

  /** The answer logged at `i` is the one its request got. */
  ghost predicate AnswerAt(requests: seq<SearchRequest>, answers: seq<Result<SearchPage>>, i: nat,
                           api: SearchRequest -> Option<Json>, clock: Clock)
  {
    i < |requests| && i < |answers| && Answered(answers[i], requests[i], api, clock)
  }

  /** The log of requests and their answers. */
  ghost predicate LogFits(requests: seq<SearchRequest>, answers: seq<Result<SearchPage>>,
                          api: SearchRequest -> Option<Json>, clock: Clock)
  {
    |answers| == |requests| && forall i :: 0 <= i < |requests| ==> AnswerAt(requests, answers, i, api, clock)
  }

  /** Logging one more request with its answer keeps the log right. */
  lemma LogStep(requests: seq<SearchRequest>, answers: seq<Result<SearchPage>>, request: SearchRequest,
                page: Result<SearchPage>, api: SearchRequest -> Option<Json>, clock: Clock)
    requires LogFits(requests, answers, api, clock) && Answered(page, request, api, clock)
    ensures LogFits(requests + [request], answers + [page], api, clock)
  {
    forall i | 0 <= i < |requests| + 1
      ensures AnswerAt(requests + [request], answers + [page], i, api, clock)
    {
      if i < |requests| {
        assert AnswerAt(requests, answers, i, api, clock);
      }
    }
  }

  /** A logged error is a request that raised or an answer that could not be decoded. */
  lemma LoggedError(requests: seq<SearchRequest>, answers: seq<Result<SearchPage>>, k: nat,
                    api: SearchRequest -> Option<Json>, clock: Clock)
    requires LogFits(requests, answers, api, clock) && k < |answers| && answers[k].Err?
    ensures api(requests[k]).None? || DecodeSearchResults(api(requests[k]).value, requests[k].query, clock).Err?
  {
    assert AnswerAt(requests, answers, k, api, clock);
  }

  /** Every user of a page carries the profile fields `save_user` reads. */
  predicate Profiled(users: map<string, UserRecord>)
  {
    forall k :: k in users ==> users[k].info.Some?
  }

  /** The number of tweets on the pages, which `remaining` counts down. */
  function SumLen(pages: seq<SearchPage>): nat
  {
    if pages == [] then 0 else SumLen(pages[..|pages| - 1]) + |pages[|pages| - 1].tweets|
  }

  /** The bottom cursor a page hands on; null when it has none. */
  function NextCursor(p: SearchPage): Json
  {
    if p.cursor.Some? then p.cursor.value.bottom else JNull
  }

  /** The loop goes on after page `i`: the page had tweets and a truthy
      bottom cursor, and fewer than `count` tweets have been seen. */
  predicate GoesOn(pages: seq<SearchPage>, i: nat, count: int)
    requires i < |pages|
  {
    pages[i].tweets != [] && Truthy(NextCursor(pages[i])) && SumLen(pages[..i + 1]) < count
  }

  /** Every page but the last led to the next one. */
  predicate Chained(pages: seq<SearchPage>, count: int)
  {
    forall i :: 0 <= i < |pages| - 1 ==> GoesOn(pages, i, count)
  }

  /** The loop ended where it should: no page at all exactly when no tweet
      was wanted, and otherwise after a page that does not go on. */
  predicate Stopped(pages: seq<SearchPage>, count: int)
  {
    (pages == [] <==> count <= 0) && (pages != [] ==> !GoesOn(pages, |pages| - 1, count))
  }

  /** A page without tweets, without a next cursor, or after which no more
      tweets are wanted ends the loop. */
  lemma StoppedAfter(pages: seq<SearchPage>, count: int, remaining: int)
    requires pages != [] && count > 0 && remaining == count - SumLen(pages)
    requires var last := pages[|pages| - 1]; last.tweets == [] || !Truthy(NextCursor(last)) || remaining <= 0
    ensures Stopped(pages, count)
  {
    assert pages[..|pages|] == pages;
  }

  /** The request for page `i`: at most 100 of the tweets still wanted,
      from the bottom cursor of the page before it (`''` for the first). */
  function PageRequest(query: string, count: int, searchType: string, pages: seq<SearchPage>, i: nat): (r: SearchRequest)
    requires i <= |pages|
    ensures r.count <= 100 && (i == 0 ==> r.count == Min(count, 100) && r.cursor == JStr(""))
  {
    SearchRequest(query, Min(count - SumLen(pages[..i]), 100), searchType, if i == 0 then JStr("") else NextCursor(pages[i - 1]))
  }

  /** The requests from position `from` on asked, in order, for `pages`,
      and each was answered with its page. */
  ghost predicate Paged(requests: seq<SearchRequest>, answers: seq<Result<SearchPage>>, from: nat, pages: seq<SearchPage>,
                        query: string, count: int, searchType: string)
  {
    && from + |pages| <= |requests| && from + |pages| <= |answers|
    && forall j :: from <= j < from + |pages| ==>
         requests[j] == PageRequest(query, count, searchType, pages, j - from) && answers[j] == Ok(pages[j - from])
  }

  /** Each logged page is the decoded answer to the request that asked for it. */
  lemma PagesAnswered(requests: seq<SearchRequest>, answers: seq<Result<SearchPage>>, from: nat, pages: seq<SearchPage>,
                      query: string, count: int, searchType: string, api: SearchRequest -> Option<Json>, clock: Clock)
    requires LogFits(requests, answers, api, clock) && Paged(requests, answers, from, pages, query, count, searchType)
    ensures forall i :: 0 <= i < |pages| ==>
      var request := PageRequest(query, count, searchType, pages, i);
      api(request).Some? && DecodeSearchResults(api(request).value, query, clock) == Ok(pages[i])
  {
    forall i | 0 <= i < |pages|
      ensures var request := PageRequest(query, count, searchType, pages, i);
        api(request).Some? && DecodeSearchResults(api(request).value, query, clock) == Ok(pages[i])
    {
      assert requests[from + i] == PageRequest(query, count, searchType, pages, i);
      assert AnswerAt(requests, answers, from + i, api, clock);
    }
  }

  /** The tweets kept from the pages, page after page; each passes the skip rule. */
  function Gathered(pages: seq<SearchPage>, polarity: string -> Option<real>): (r: seq<TweetRecord>)
    ensures forall t :: t in r ==> Storable(t)
  {
    if pages == [] then []
    else Gathered(pages[..|pages| - 1], polarity) + KeptOf(AnnotateAll(pages[|pages| - 1].tweets, polarity))
  }

  /** The users of the pages merged in page order, a later entry winning;
      a page without tweets ends the loop before its users are saved. */
  function Merged(pages: seq<SearchPage>): map<string, UserRecord>
  {
    if pages == [] then map[]
    else
      var last := pages[|pages| - 1];
      if last.tweets == [] then Merged(pages[..|pages| - 1]) else Merged(pages[..|pages| - 1]) + last.users
  }

  /** The loop state at its head: `remaining` and `cursor` are what the
      pages leave, and every page so far went on. */
  predicate Continuing(pages: seq<SearchPage>, count: int, remaining: int, cursor: Json)
  {
    && remaining == count - SumLen(pages)
    && Chained(pages, count)
    && (pages == [] ==> cursor == JNull)
    && (pages != [] ==> var last := pages[|pages| - 1];
          count > 0 && cursor == NextCursor(last) && last.tweets != [] && Truthy(cursor))
  }

  /** The request the loop sends next is `PageRequest` of the pages so far. */
  lemma RequestNext(pages: seq<SearchPage>, count: int, remaining: int, cursor: Json, query: string, searchType: string)
    requires Continuing(pages, count, remaining, cursor)
    ensures SearchRequest(query, Min(remaining, 100), searchType, if Truthy(cursor) then cursor else JStr(""))
      == PageRequest(query, count, searchType, pages, |pages|)
  {
    assert pages[..|pages|] == pages;
  }

  /** One more page adds its length to the tweets seen. */
  lemma SumLenStep(pages: seq<SearchPage>, p: SearchPage)
    ensures SumLen(pages + [p]) == SumLen(pages) + |p.tweets|
  {
    assert (pages + [p])[..|pages|] == pages;
  }

  /** One more page adds its kept tweets after those gathered before. */
  lemma GatheredStep(pages: seq<SearchPage>, p: SearchPage, polarity: string -> Option<real>)
    ensures Gathered(pages + [p], polarity) == Gathered(pages, polarity) + KeptOf(AnnotateAll(p.tweets, polarity))
  {
    assert (pages + [p])[..|pages|] == pages;
  }

  /** One more page with tweets merges its users over those before. */
  lemma MergedStep(pages: seq<SearchPage>, p: SearchPage)
    ensures Merged(pages + [p]) == if p.tweets == [] then Merged(pages) else Merged(pages) + p.users
  {
    assert (pages + [p])[..|pages|] == pages;
  }

  /** A page fetched while tweets remain makes the last page go on. */
  lemma ChainedStep(pages: seq<SearchPage>, p: SearchPage, count: int, remaining: int, cursor: Json)
    requires Continuing(pages, count, remaining, cursor) && remaining > 0
    ensures Chained(pages + [p], count) && count > 0
  {
    var more := pages + [p];
    forall i | 0 <= i < |more| - 1
      ensures GoesOn(more, i, count)
    {
      assert more[..i + 1] == pages[..i + 1];
      assert more[i] == pages[i];
      if i < |pages| - 1 {
        assert GoesOn(pages, i, count);
      } else {
        assert pages[..i + 1] == pages;
        assert SumLen(pages) < count;
      }
    }
  }

  /** One more request keeps the pages logged before it. */
  lemma PagedGrow(sent: seq<SearchRequest>, got: seq<Result<SearchPage>>, from: nat, pages: seq<SearchPage>,
                  query: string, count: int, searchType: string, next: SearchRequest, answer: Result<SearchPage>)
    requires Paged(sent, got, from, pages, query, count, searchType)
    ensures Paged(sent + [next], got + [answer], from, pages, query, count, searchType)
  {
    assert (sent + [next])[..|sent|] == sent;
    assert (got + [answer])[..|got|] == got;
  }

  /** The answer to the latest request becomes the next page. */
  lemma PagedStep(requests: seq<SearchRequest>, answers: seq<Result<SearchPage>>, from: nat, pages: seq<SearchPage>,
                  p: SearchPage, query: string, count: int, searchType: string)
    requires Paged(requests, answers, from, pages, query, count, searchType)
    requires |requests| == |answers| == from + |pages| + 1
    requires requests[from + |pages|] == PageRequest(query, count, searchType, pages, |pages|)
    requires answers[from + |pages|] == Ok(p)
    ensures Paged(requests, answers, from, pages + [p], query, count, searchType)
  {
    var more := pages + [p];
    forall j | from <= j < from + |more|
      ensures requests[j] == PageRequest(query, count, searchType, more, j - from) && answers[j] == Ok(more[j - from])
    {
      PageRequestPrefix(query, count, searchType, pages, p, j - from);
    }
  }

  /** The request for an earlier page does not depend on the pages after it. */
  lemma PageRequestPrefix(query: string, count: int, searchType: string, pages: seq<SearchPage>, p: SearchPage, i: nat)
    requires i <= |pages|
    ensures PageRequest(query, count, searchType, pages + [p], i) == PageRequest(query, count, searchType, pages, i)
  {
    var more := pages + [p];
    assert more[..i] == pages[..i];
    if 0 < i {
      assert more[i - 1] == pages[i - 1];
    }
  }

  /** The requests from `from` on are for `query` and of the given type,
      each asking for 1 to 100 tweets, and there are at most `count` of them. */
  predicate Sent(requests: seq<SearchRequest>, from: nat, query: string, searchType: string, count: int)
  {
    RequestsFor(requests, from, query, searchType) && |requests| - from <= (if count > 0 then count else 0)
  }

  /** The state at the head of the `_collect_tweets` loop, with store `c`:
      the requests from `from` on asked for `pages`, which leave `remaining`
      and `cursor`; `tweets` and `users` are what the pages gathered, and
      they are recorded in the store. */
  ghost predicate Collecting(requests: seq<SearchRequest>, answers: seq<Result<SearchPage>>, from: nat,
                             pages: seq<SearchPage>, query: string, count: int, searchType: string,
                             remaining: int, cursor: Json, c: Contents,
                             tweets: seq<TweetRecord>, users: map<string, UserRecord>, polarity: string -> Option<real>)
  {
    && RequestsFor(requests, from, query, searchType)
    && |requests| - from + (if remaining > 0 then remaining else 0) <= (if count > 0 then count else 0)
    && Paged(requests, answers, from, pages, query, count, searchType) && |answers| == |requests| == from + |pages|
    && Continuing(pages, count, remaining, cursor)
    && tweets == Gathered(pages, polarity) && users == Merged(pages)
    && Recorded(c, tweets, users, polarity)
  }

  /** `_collect_tweets` returned: the requests from `from` on asked for
      exactly `pages`, each page but the last led to the next one, and the
      loop stopped after the last. */
  ghost predicate Finished(requests: seq<SearchRequest>, answers: seq<Result<SearchPage>>, from: nat,
                           pages: seq<SearchPage>, query: string, count: int, searchType: string)
  {
    && Sent(requests, from, query, searchType, count)
    && Paged(requests, answers, from, pages, query, count, searchType) && |requests| == from + |pages|
    && Chained(pages, count) && Stopped(pages, count)
  }

  /** `_collect_tweets` raised: the requests from `from` on asked for
      `pages`, each but the last leading to the next one; then either the
      request that followed them raised or its answer could not be decoded,
      or the last page carried a user without profile fields. */
  ghost predicate Broke(requests: seq<SearchRequest>, answers: seq<Result<SearchPage>>, from: nat,
                        pages: seq<SearchPage>, query: string, count: int, searchType: string)
  {
    && Sent(requests, from, query, searchType, count)
    && Paged(requests, answers, from, pages, query, count, searchType) && Chained(pages, count)
    && (|| (&& |answers| == |requests| == from + |pages| + 1
            && requests[|requests| - 1] == PageRequest(query, count, searchType, pages, |pages|)
            && answers[|answers| - 1].Err?)
        || (|requests| == from + |pages| && pages != [] && !Profiled(pages[|pages| - 1].users)))
  }

  /** The loop ends when no tweets remain wanted. */
  lemma CollectingDone(requests: seq<SearchRequest>, answers: seq<Result<SearchPage>>, from: nat,
                       pages: seq<SearchPage>, query: string, count: int, searchType: string,
                       remaining: int, cursor: Json, c: Contents,
                       tweets: seq<TweetRecord>, users: map<string, UserRecord>, polarity: string -> Option<real>)
    requires Collecting(requests, answers, from, pages, query, count, searchType, remaining, cursor, c, tweets, users, polarity)
    requires remaining <= 0
    ensures Finished(requests, answers, from, pages, query, count, searchType)
  {
    if pages != [] {
      StoppedAfter(pages, count, remaining);
    }
  }

  /** A page decoded from the answer to the request the loop state asks for
      next joins the logged pages: the requests stay well formed, the pages
      stay chained, and the page adds its length, its kept tweets and (when
      it has tweets) its users. */
  lemma PageLogged(sent: seq<SearchRequest>, got: seq<Result<SearchPage>>, from: nat, pages: seq<SearchPage>,
                       query: string, count: int, searchType: string, remaining: int, cursor: Json, c: Contents,
                       tweets: seq<TweetRecord>, users: map<string, UserRecord>, polarity: string -> Option<real>,
                   p: SearchPage)
    requires Collecting(sent, got, from, pages, query, count, searchType, remaining, cursor, c, tweets, users, polarity)
    requires remaining > 0
    ensures var more := pages + [p];
      && Sent(sent + [PageRequest(query, count, searchType, pages, |pages|)], from, query, searchType, count)
      && Paged(sent + [PageRequest(query, count, searchType, pages, |pages|)], got + [Ok(p)], from, more, query, count, searchType)
      && |sent| + 1 == from + |more| && Chained(more, count) && count > 0
      && SumLen(more) == SumLen(pages) + |p.tweets|
      && Gathered(more, polarity) == tweets + KeptOf(AnnotateAll(p.tweets, polarity))
      && Merged(more) == if p.tweets == [] then users else users + p.users
  {
    var request := PageRequest(query, count, searchType, pages, |pages|);
    assert pages[..|pages|] == pages;
    RequestsForStep(sent, from, query, searchType, request);
    PagedGrow(sent, got, from, pages, query, count, searchType, request, Ok(p));
    PagedStep(sent + [request], got + [Ok(p)], from, pages, p, query, count, searchType);
    ChainedStep(pages, p, count, remaining, cursor);
    SumLenStep(pages, p);
    GatheredStep(pages, p, polarity);
    MergedStep(pages, p);
  }

  /** A request that raises, or whose answer cannot be decoded, ends the
      loop with an exception. */
  lemma BrokeFetch(sent: seq<SearchRequest>, got: seq<Result<SearchPage>>, from: nat, pages: seq<SearchPage>,
                       query: string, count: int, searchType: string, remaining: int, cursor: Json, c: Contents,
                       tweets: seq<TweetRecord>, users: map<string, UserRecord>, polarity: string -> Option<real>,
                   answer: Result<SearchPage>)
    requires Collecting(sent, got, from, pages, query, count, searchType, remaining, cursor, c, tweets, users, polarity)
    requires remaining > 0 && answer.Err?
    ensures Broke(sent + [PageRequest(query, count, searchType, pages, |pages|)], got + [answer], from, pages, query, count, searchType)
  {
    var request := PageRequest(query, count, searchType, pages, |pages|);
    assert pages[..|pages|] == pages;
    RequestsForStep(sent, from, query, searchType, request);
    PagedGrow(sent, got, from, pages, query, count, searchType, request, answer);
  }

  /** An empty page ends the loop, gathering nothing more. */
  lemma FinishedEmpty(sent: seq<SearchRequest>, got: seq<Result<SearchPage>>, from: nat, pages: seq<SearchPage>,
                       query: string, count: int, searchType: string, remaining: int, cursor: Json, c: Contents,
                       tweets: seq<TweetRecord>, users: map<string, UserRecord>, polarity: string -> Option<real>,
                      p: SearchPage)
    requires Collecting(sent, got, from, pages, query, count, searchType, remaining, cursor, c, tweets, users, polarity)
    requires remaining > 0 && p.tweets == []
    ensures Finished(sent + [PageRequest(query, count, searchType, pages, |pages|)], got + [Ok(p)], from, pages + [p], query, count, searchType)
    ensures Gathered(pages + [p], polarity) == tweets && Merged(pages + [p]) == users
  {
    PageLogged(sent, got, from, pages, query, count, searchType, remaining, cursor, c, tweets, users, polarity, p);
    assert AnnotateAll(p.tweets, polarity) == [];
    StoppedAfter(pages + [p], count, remaining);
  }

  /** A page with a user lacking profile fields ends the loop with an exception. */
  lemma BrokeUsers(sent: seq<SearchRequest>, got: seq<Result<SearchPage>>, from: nat, pages: seq<SearchPage>,
                       query: string, count: int, searchType: string, remaining: int, cursor: Json, c: Contents,
                       tweets: seq<TweetRecord>, users: map<string, UserRecord>, polarity: string -> Option<real>,
                   p: SearchPage)
    requires Collecting(sent, got, from, pages, query, count, searchType, remaining, cursor, c, tweets, users, polarity)
    requires remaining > 0 && !Profiled(p.users)
    ensures Broke(sent + [PageRequest(query, count, searchType, pages, |pages|)], got + [Ok(p)], from, pages + [p], query, count, searchType)
  {
    PageLogged(sent, got, from, pages, query, count, searchType, remaining, cursor, c, tweets, users, polarity, p);
  }

  /** A stored page with tweets and a next cursor moves the loop state on. */
  lemma CollectingNext(sent: seq<SearchRequest>, got: seq<Result<SearchPage>>, from: nat, pages: seq<SearchPage>,
                       query: string, count: int, searchType: string, remaining: int, cursor: Json, c: Contents,
                       tweets: seq<TweetRecord>, users: map<string, UserRecord>, polarity: string -> Option<real>,
                       p: SearchPage, kept: seq<TweetRecord>, stored: Contents)
    requires Collecting(sent, got, from, pages, query, count, searchType, remaining, cursor, c, tweets, users, polarity)
    requires remaining > 0 && p.tweets != [] && Truthy(NextCursor(p))
    requires kept == KeptOf(AnnotateAll(p.tweets, polarity)) && Recorded(stored, tweets + kept, users + p.users, polarity)
    ensures Collecting(sent + [PageRequest(query, count, searchType, pages, |pages|)], got + [Ok(p)], from, pages + [p], query, count, searchType,
                       remaining - |p.tweets|, NextCursor(p), stored, tweets + kept, users + p.users, polarity)
  {
    PageLogged(sent, got, from, pages, query, count, searchType, remaining, cursor, c, tweets, users, polarity, p);
  }

  /** A stored page with tweets but no next cursor ends the loop. */
  lemma FinishedLast(sent: seq<SearchRequest>, got: seq<Result<SearchPage>>, from: nat, pages: seq<SearchPage>,
                       query: string, count: int, searchType: string, remaining: int, cursor: Json, c: Contents,
                       tweets: seq<TweetRecord>, users: map<string, UserRecord>, polarity: string -> Option<real>,
                     p: SearchPage)
    requires Collecting(sent, got, from, pages, query, count, searchType, remaining, cursor, c, tweets, users, polarity)
    requires remaining > 0 && p.tweets != [] && !Truthy(NextCursor(p))
    ensures Finished(sent + [PageRequest(query, count, searchType, pages, |pages|)], got + [Ok(p)], from, pages + [p], query, count, searchType)
    ensures Gathered(pages + [p], polarity) == tweets + KeptOf(AnnotateAll(p.tweets, polarity))
    ensures Merged(pages + [p]) == users + p.users
  {
    PageLogged(sent, got, from, pages, query, count, searchType, remaining, cursor, c, tweets, users, polarity, p);
    StoppedAfter(pages + [p], count, remaining - |p.tweets|);
  }

  /** The store gained tweets and users, and nothing else changed. */
  predicate Grown(c0: Contents, c1: Contents)
  {
    c1 == c0.(tweets := c1.tweets, users := c1.users) && c0.tweets <= c1.tweets && c0.users.Keys <= c1.users.Keys
  }

  lemma GrownTrans(c0: Contents, c1: Contents, c2: Contents)
    requires Grown(c0, c1) && Grown(c1, c2)
    ensures Grown(c0, c2)
  {
  }

  /** What `_collect_tweets` has gathered so far is in the store: each kept
      tweet under its id and scored, each user as the row built from it. */
  predicate Recorded(c: Contents, tweets: seq<TweetRecord>, users: map<string, UserRecord>, polarity: string -> Option<real>)
  {
    (forall t :: t in tweets ==>
      Storable(t) && t.id in TweetIds(c.tweets) && t.sentimentScore == Some(AnalyzeText(t.info.value.content, polarity)))
    && KeyedById(users)
    && forall k :: k in users ==> users[k].info.Some? && k in c.users && c.users[k] == UserRowOf(users[k])
  }

  /** What was recorded stays recorded while the tweets and users tables are left alone. */
  lemma RecordedKept(c0: Contents, c1: Contents, tweets: seq<TweetRecord>, users: map<string, UserRecord>,
                     polarity: string -> Option<real>)
    requires Recorded(c0, tweets, users, polarity) && c1.tweets == c0.tweets && c1.users == c0.users
    ensures Recorded(c1, tweets, users, polarity)
  {
  }

  /** Linked places stay linked while the locations and links tables are left alone. */
  lemma LinkedKept(links0: set<(string, int)>, c0: Contents, c1: Contents, users: map<string, UserRecord>,
                   cache: map<string, GeoData>, lookup: string -> Option<GeoData>)
    requires PlacesLinked(links0, c0, users, cache, lookup) && c1.locations == c0.locations && c1.links == c0.links
    ensures PlacesLinked(links0, c1, users, cache, lookup)
  {
  }

  /** What a successful `analyze_hashtag` for `clean` leaves in the store
      `c` and the geocoding cache `cache1`, from the store `before` and the
      cache `cache`, given the pages it decoded and the hashtag's id `h`:
      the hashtag's row fetched or created; the pages' kept tweets and users
      stored; their users' places geocoded, saved and linked; row `h`
      recounted with one more snapshot; its contributors rebuilt. */
  ghost predicate RunStored(clean: string, before: Contents, c: Contents, cache: map<string, GeoData>,
                            cache1: map<string, GeoData>, pages: seq<SearchPage>, h: int,
                            polarity: string -> Option<real>, lookup: string -> Option<GeoData>, now: Timestamp)
  {
    var tweets, users := Gathered(pages, polarity), Merged(pages);
    && h == HashtagFor(before.hashtags, clean, now).id
    && Recorded(c, tweets, users, polarity)
    && Saved(before, c, tweets, users, h)
    && PlacesLinked(before.links, c, users, cache, lookup)
    && PlacesWritten(before.locations, c.locations, users, cache, lookup)
    && CacheGained(cache, cache1, PlaceTexts(users), lookup)
    && StatsUpdated(c.(hashtags := WithHashtag(before.hashtags, clean, now), snapshots := before.snapshots,
                       contributors := before.contributors),
                    c.(contributors := before.contributors), h, now)
    && |c.snapshots| == |before.snapshots| + 1
    && Counted(c, h, clean)
    && ContributorsRebuilt(before.contributors, c, h)
  }

  /** The steps of `analyze_hashtag` compose: get-or-create, then gathering
      into `stored`, then the recount into `c`. */
  lemma RunStoredIntro(clean: string, before: Contents, stored: Contents, c: Contents,
                       cache: map<string, GeoData>, cache1: map<string, GeoData>, pages: seq<SearchPage>, h: int,
                       polarity: string -> Option<real>, lookup: string -> Option<GeoData>, now: Timestamp)
    requires HashtagsOk(before.hashtags) && h == HashtagFor(before.hashtags, clean, now).id
    requires stored == before.(hashtags := WithHashtag(before.hashtags, clean, now), tweets := stored.tweets,
                               users := stored.users, locations := stored.locations, links := stored.links)
    requires Recorded(stored, Gathered(pages, polarity), Merged(pages), polarity)
    requires Saved(before.(hashtags := stored.hashtags), stored, Gathered(pages, polarity), Merged(pages), h)
    requires PlacesLinked(before.links, stored, Merged(pages), cache, lookup)
    requires PlacesWritten(before.locations, stored.locations, Merged(pages), cache, lookup)
    requires CacheGained(cache, cache1, PlaceTexts(Merged(pages)), lookup)
    requires c == stored.(hashtags := c.hashtags, snapshots := c.snapshots, contributors := c.contributors)
    requires 1 <= h <= |stored.hashtags|
    requires StatsUpdated(stored, c.(contributors := stored.contributors), h, now)
    requires Counted(c, h, stored.hashtags[h - 1].name)
    requires ContributorsRebuilt(stored.contributors, c, h)
    ensures RunStored(clean, before, c, cache, cache1, pages, h, polarity, lookup, now)
  {
    GetOrCreateSpec(before.hashtags, clean, now);
    RecordedKept(stored, c, Gathered(pages, polarity), Merged(pages), polarity);
    LinkedKept(before.links, stored, c, Merged(pages), cache, lookup);
    assert stored == c.(hashtags := WithHashtag(before.hashtags, clean, now), snapshots := before.snapshots,
                        contributors := before.contributors);
  }

  /** Storing one more page keeps what was gathered before recorded. */
  lemma RecordedStep(c0: Contents, c1: Contents, tweets: seq<TweetRecord>, users: map<string, UserRecord>,
                     kept: seq<TweetRecord>, pageUsers: map<string, UserRecord>, polarity: string -> Option<real>)
    requires Recorded(c0, tweets, users, polarity)
    requires TweetIds(c0.tweets) <= TweetIds(c1.tweets)
    requires forall t :: t in kept ==>
      Storable(t) && t.id in TweetIds(c1.tweets) && t.sentimentScore == Some(AnalyzeText(t.info.value.content, polarity))
    requires KeyedById(pageUsers) && forall k :: k in pageUsers ==> pageUsers[k].info.Some?
    requires c1.users.Keys == c0.users.Keys + pageUsers.Keys
    requires forall k :: k in c1.users ==> c1.users[k] == if k in pageUsers then UserRowOf(pageUsers[k]) else c0.users[k]
    ensures Recorded(c1, tweets + kept, users + pageUsers, polarity)
  {
  }

  /** Row `h` of the hashtags table is named `name` and holds the counts and
      mean score of the tweets stored under it. */
  predicate Counted(c: Contents, h: int, name: string)
  {
    1 <= h <= |c.hashtags| &&
    var row, s := c.hashtags[h - 1], OfHashtag(c.tweets, h);
    row.id == h && row.name == name &&
    row.totalTweets == |s| && row.totalContributors == |Users(s)| && row.sentimentScore == MeanScore(s)
  }

  /** Every tweet kept from an annotated page carries its score. */
  lemma KeptScored(found: seq<TweetRecord>, polarity: string -> Option<real>, kept: seq<TweetRecord>)
    requires kept == KeptOf(AnnotateAll(found, polarity))
    ensures forall t :: t in kept ==> Storable(t) && t.sentimentScore == Some(AnalyzeText(t.info.value.content, polarity))
  {
    forall t | t in kept
      ensures Storable(t) && t.sentimentScore == Some(AnalyzeText(t.info.value.content, polarity))
    {
      var scored := AnnotateAll(found, polarity);
      var i :| 0 <= i < |scored| && scored[i] == t;
      assert t == Annotate(found[i], polarity);
    }
  }

  /** `HashtagAnalyzerApp`: the analyzer behind a catch-all. */
  class HashtagAnalyzerApp {
    const analyzer: HashtagAnalyzer

    constructor(analyzer: HashtagAnalyzer)
      ensures this.analyzer == analyzer
    {
      this.analyzer := analyzer;
    }

    /** Any exception becomes `{"error": message}`; a result is the
        analyzer's report. */
    method AnalyzeHashtag(hashtag: string, count: int, searchType: string) returns (o: Outcome)
      requires analyzer.db.Valid() && analyzer.Logged()
      modifies analyzer, analyzer.db, analyzer.geocoder
      ensures analyzer.db.Valid() && analyzer.Logged()
      ensures o.Analysis? ==> exists pages :: analyzer.Analyzed(hashtag, count, searchType, o.report,
        old(analyzer.db.contents), old(analyzer.geocoder.cache), old(|analyzer.requests|), pages)
      ensures o.Failure? ==> exists pages ::
        && Broke(analyzer.requests, analyzer.answers, old(|analyzer.requests|), pages,
                 "#" + NormalizeHashtag(hashtag), count, searchType)
        && analyzer.Aborted(hashtag, old(analyzer.db.contents), analyzer.db.contents, pages)
      ensures o.Failure? ==> analyzer.geocoder.cache == old(analyzer.geocoder.cache)
    {
      var r, pages := analyzer.AnalyzeHashtag(hashtag, count, searchType);
      match r
      case Ok(report) => o := Analysis(report);
      case Err(msg) => o := Failure(msg);
    }
  }
}
