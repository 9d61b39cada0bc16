/**
 * The analyzer's relational store: seven tables kept in memory, the
 * mutators that decide what is inserted, replaced or ignored, and the
 * read queries.
 *
 * `hashtags`, `locations` and `hashtag_stats` are never deleted from, so
 * their `AUTOINCREMENT` ids are positions: the row with id `n` is element
 * `n - 1`. `tweets` keeps insertion (rowid) order under its text key.
 * `users` and `top_contributors` are keyed maps and `user_locations` is a
 * set of pairs.
 *
 * Each mutator is specified by a pure function of the old tables, and the
 * properties the store promises are lemmas about those functions.
 */
module Database {
  import opened Basics
  import opened Records
  import opened Sentiment
  import opened Tables
  import opened Ranking

  // ---------------------------------------------------------------------
  // hashtags

  /** `SELECT * FROM <table> WHERE <column> = ?`: the position of a row
      whose `key` column holds `k`, if there is one. */
  function IndexOfKey<R>(rows: seq<R>, key: R -> string, k: string): (r: Option<nat>)
    ensures r.Some? ==> r.value < |rows| && key(rows[r.value]) == k
    ensures r.None? ==> forall i :: 0 <= i < |rows| ==> key(rows[i]) != k
  {
    if rows == [] then None
    else if key(rows[|rows| - 1]) == k then Some(|rows| - 1)
    else IndexOfKey(rows[..|rows| - 1], key, k)
  }

  /** The `name` column of the hashtags table. */
  function NameOf(h: HashtagRow): string
  {
    h.name
  }

  /** The `location_text` column of the locations table. */
  function TextOf(l: LocationRow): string
  {
    l.text
  }

  /** Ids are positions and names are `UNIQUE`. */
  predicate HashtagsOk(hs: seq<HashtagRow>)
  {
    && (forall i :: 0 <= i < |hs| ==> hs[i].id == i + 1)
    && (forall i, j :: 0 <= i < j < |hs| ==> hs[i].name != hs[j].name)
  }

  function NewHashtag(id: int, name: string, now: Timestamp): HashtagRow
  {
    HashtagRow(id, name, now, now, 0, 0, 0.0)
  }

  /** The table after `get_or_create_hashtag(name)`. */
  function WithHashtag(hs: seq<HashtagRow>, name: string, now: Timestamp): seq<HashtagRow>
  {
    if IndexOfKey(hs, NameOf, name).Some? then hs else hs + [NewHashtag(|hs| + 1, name, now)]
  }

  /** The row `get_or_create_hashtag(name)` returns. */
  function HashtagFor(hs: seq<HashtagRow>, name: string, now: Timestamp): HashtagRow
  {
    match IndexOfKey(hs, NameOf, name)
    case Some(i) => hs[i]
    case None => NewHashtag(|hs| + 1, name, now)
  }

  /** Get-or-create returns the row named `name`, stored under its id; it
      adds at most one row, only when no row has that name, and keeps names
      unique. */
  lemma GetOrCreateSpec(hs: seq<HashtagRow>, name: string, now: Timestamp)
    requires HashtagsOk(hs)
    ensures var after, row := WithHashtag(hs, name, now), HashtagFor(hs, name, now);
      && HashtagsOk(after)
      && row.name == name && 1 <= row.id <= |after| && after[row.id - 1] == row
      && after[..|hs|] == hs
      && (|after| == |hs| <==> exists i :: 0 <= i < |hs| && hs[i].name == name)
      && |after| <= |hs| + 1
  {
    var after, row := WithHashtag(hs, name, now), HashtagFor(hs, name, now);
    match IndexOfKey(hs, NameOf, name)
    case Some(i) =>
      assert after == hs && row == hs[i] && row.id == i + 1;
      assert after[..|hs|] == hs;
    case None =>
      var added := NewHashtag(|hs| + 1, name, now);
      assert after == hs + [added] && row == added;
      assert after[..|hs|] == hs;
      assert forall i :: 0 <= i < |hs| ==> after[i] == hs[i] && hs[i].name != name;
      assert forall i, j :: 0 <= i < j < |after| ==> after[i].name != after[j].name by {
        forall i, j | 0 <= i < j < |after|
          ensures after[i].name != after[j].name
        {
          if j == |hs| {
            assert after[j] == added;
          }
        }
      }
  }

  /** Asking twice gives the same row and adds nothing the second time. */
  lemma GetOrCreateTwice(hs: seq<HashtagRow>, name: string, now: Timestamp, later: Timestamp)
    requires HashtagsOk(hs)
    ensures var after := WithHashtag(hs, name, now);
      && WithHashtag(after, name, later) == after
      && HashtagFor(after, name, later) == HashtagFor(hs, name, now)
  {
    var after := WithHashtag(hs, name, now);
    GetOrCreateSpec(hs, name, now);
    var i := IndexOfKey(after, NameOf, name).value;
    var row := HashtagFor(hs, name, now);
    assert after[i].name == after[row.id - 1].name;
  }

  // ---------------------------------------------------------------------
  // tweets

  function TweetIds(ts: seq<TweetRow>): set<string>
  {
    set t | t in ts :: t.id
  }

  /** The text `PRIMARY KEY` of `tweets`. */
  predicate DistinctIds(ts: seq<TweetRow>)
  {
    forall i, j :: 0 <= i < j < |ts| ==> ts[i].id != ts[j].id
  }

  /** The table after `save_tweet`: the key is global, so a tweet already
      stored, under any hashtag, is not stored again. */
  function InsertTweet(ts: seq<TweetRow>, t: TweetRecord, h: int): seq<TweetRow>
    requires t.info.Some?
  {
    if t.id in TweetIds(ts) then ts else ts + [TweetRowOf(t, h)]
  }

  /** Insertion keeps ids distinct and adds the row exactly when the id is new. */
  lemma InsertTweetSpec(ts: seq<TweetRow>, t: TweetRecord, h: int)
    requires t.info.Some? && DistinctIds(ts)
    ensures var after := InsertTweet(ts, t, h);
      && DistinctIds(after)
      && after[..|ts|] == ts
      && (t.id in TweetIds(ts) ==> after == ts)
      && (t.id !in TweetIds(ts) ==> |after| == |ts| + 1 && after[|ts|] == TweetRowOf(t, h))
      && TweetIds(after) == TweetIds(ts) + {t.id}
  {
    var after := InsertTweet(ts, t, h);
    assert after[..|ts|] == ts;
    if t.id !in TweetIds(ts) {
      forall i, j | 0 <= i < j < |after|
        ensures after[i].id != after[j].id
      {
        if j == |ts| {
          assert ts[i] in ts;
        }
      }
    }
  }

  /** The first write wins: a second tweet with the same id changes nothing. */
  lemma FirstWriteWins(ts: seq<TweetRow>, t: TweetRecord, h: int, t2: TweetRecord, h2: int)
    requires t.info.Some? && t2.info.Some? && t2.id == t.id
    ensures InsertTweet(InsertTweet(ts, t, h), t2, h2) == InsertTweet(ts, t, h)
  {
    var after := InsertTweet(ts, t, h);
    if t.id !in TweetIds(ts) {
      assert after[|ts|] in after;
    }
  }

  // ---------------------------------------------------------------------
  // users

  /** The table after `save_user`: insert, or on a key conflict overwrite
      every column. */
  function Upsert(us: map<string, UserRow>, u: UserRecord): map<string, UserRow>
    requires u.info.Some?
  {
    us[u.id := UserRowOf(u)]
  }

  /** The user's row holds the new values, other rows are untouched, and the
      table grows by one row exactly when the id is new. */
  lemma UpsertSpec(us: map<string, UserRow>, u: UserRecord)
    requires u.info.Some?
    ensures var after := Upsert(us, u);
      && after[u.id] == UserRowOf(u)
      && (forall id :: id in us && id != u.id ==> id in after && after[id] == us[id])
      && after.Keys == us.Keys + {u.id}
      && |after.Keys| == |us.Keys| + (if u.id in us then 0 else 1)
  {
    var after := Upsert(us, u);
    assert after.Keys == us.Keys + {u.id};
    if u.id !in us {
      assert |us.Keys + {u.id}| == |us.Keys| + 1;
    } else {
      assert us.Keys + {u.id} == us.Keys;
    }
  }

  // ---------------------------------------------------------------------
  // locations

  /** Python truthiness of a coordinate: `None` and `0.0` are both false. */
  predicate Present(x: Option<real>)
  {
    x.Some? && x.value != 0.0
  }

  /** Ids are positions, texts are non-empty and `UNIQUE`. */
  predicate LocationsOk(ls: seq<LocationRow>)
  {
    && (forall i :: 0 <= i < |ls| ==> ls[i].id == i + 1 && ls[i].text != "")
    && (forall i, j :: 0 <= i < j < |ls| ==> ls[i].text != ls[j].text)
  }

  /** The table after `save_location`: a new text is inserted, geocoded when
      both coordinates are present; an existing text gets the new coordinates,
      country and city only when both coordinates are present. */
  function LocationsAfter(ls: seq<LocationRow>, text: string, lat: Option<real>, lon: Option<real>,
                          country: Option<string>, city: Option<string>): seq<LocationRow>
  {
    if text == "" then ls
    else match IndexOfKey(ls, TextOf, text)
      case None => ls + [LocationRow(|ls| + 1, text, lat, lon, country, city, Present(lat) && Present(lon))]
      case Some(i) =>
        if Present(lat) && Present(lon) then ls[i := LocationRow(i + 1, text, lat, lon, country, city, true)]
        else ls
  }

  /** The id `save_location` returns: `None` for empty text. */
  function LocationIdFor(ls: seq<LocationRow>, text: string): Option<int>
  {
    if text == "" then None
    else match IndexOfKey(ls, TextOf, text)
      case None => Some(|ls| + 1)
      case Some(i) => Some(i + 1)
  }

  /** The returned id names the row holding `text`; texts stay unique; no
      other row changes; and a row written without two present coordinates
      is not geocoded (`SaveLocationWrites` gives the values written). */
  lemma SaveLocationSpec(ls: seq<LocationRow>, text: string, lat: Option<real>, lon: Option<real>,
                         country: Option<string>, city: Option<string>)
    requires LocationsOk(ls)
    ensures var after, id := LocationsAfter(ls, text, lat, lon, country, city), LocationIdFor(ls, text);
      && LocationsOk(after)
      && (text == "" <==> id.None?)
      && (text == "" ==> after == ls)
      && (id.Some? ==> 1 <= id.value <= |after| && after[id.value - 1].text == text)
      && |ls| <= |after| <= |ls| + 1
      && (forall i :: 0 <= i < |ls| && ls[i].text != text ==> after[i] == ls[i])
      && (forall i :: 0 <= i < |ls| ==> after[i].text == ls[i].text)
      && (id.Some? && !(Present(lat) && Present(lon)) ==>
            if id.value <= |ls| then after == ls else !after[id.value - 1].isGeocoded)
  {
    if text != "" {
      var after := LocationsAfter(ls, text, lat, lon, country, city);
      match IndexOfKey(ls, TextOf, text)
      case None =>
        var added := LocationRow(|ls| + 1, text, lat, lon, country, city, Present(lat) && Present(lon));
        assert after == ls + [added];
        assert forall i :: 0 <= i < |ls| ==> after[i] == ls[i];
        assert after[|ls|] == added;
        forall i, j | 0 <= i < j < |after|
          ensures after[i].text != after[j].text
        {
          if j == |ls| {
            assert ls[i].text != text;
          }
        }
      case Some(k) =>
        if Present(lat) && Present(lon) {
          assert after == ls[k := LocationRow(k + 1, text, lat, lon, country, city, true)];
          assert forall i :: 0 <= i < |ls| ==> after[i].text == ls[i].text && after[i].id == ls[i].id;
          assert forall i :: 0 <= i < |ls| && i != k ==> after[i] == ls[i];
        }
    }
  }

  /** What `save_location` writes: a new text becomes the next row with the
      given values, geocoded exactly when both coordinates are present; an
      existing text keeps its row and id, and that row is overwritten with
      the given values and marked geocoded exactly when both are present. */
  lemma SaveLocationWrites(ls: seq<LocationRow>, text: string, lat: Option<real>, lon: Option<real>,
                           country: Option<string>, city: Option<string>)
    requires LocationsOk(ls) && text != ""
    ensures var after, id := LocationsAfter(ls, text, lat, lon, country, city), LocationIdFor(ls, text);
      && ((forall i :: 0 <= i < |ls| ==> ls[i].text != text) ==>
            id == Some(|ls| + 1)
            && after == ls + [LocationRow(|ls| + 1, text, lat, lon, country, city, Present(lat) && Present(lon))])
      && (forall k :: 0 <= k < |ls| && ls[k].text == text ==>
            id == Some(k + 1)
            && after == if Present(lat) && Present(lon) then ls[k := LocationRow(k + 1, text, lat, lon, country, city, true)] else ls)
  {
    match IndexOfKey(ls, TextOf, text)
    case None =>
    case Some(k) =>
      assert forall j :: 0 <= j < |ls| && ls[j].text == text ==> j == k;
  }

  /** A zero coordinate counts as absent: it neither marks a new place as
      geocoded nor overwrites a stored one. */
  lemma ZeroCoordinateIsAbsent(ls: seq<LocationRow>, text: string, lon: Option<real>,
                               country: Option<string>, city: Option<string>)
    requires LocationsOk(ls) && text != ""
    ensures var after := LocationsAfter(ls, text, Some(0.0), lon, country, city);
      && (IndexOfKey(ls, TextOf, text).Some? ==> after == ls)
      && (IndexOfKey(ls, TextOf, text).None? ==> !after[|ls|].isGeocoded)
  {
  }

  // ---------------------------------------------------------------------
  // hashtag_stats and the hashtag counters

  /** The counters `update_hashtag_stats` writes into the hashtag's row. */
  function Recounted(row: HashtagRow, s: seq<TweetRow>, now: Timestamp): (r: HashtagRow)
    ensures r.id == row.id && r.name == row.name && r.createdAt == row.createdAt
    ensures r.totalTweets == |s| && r.totalContributors == |Users(s)| <= r.totalTweets
    ensures r.sentimentScore == MeanScore(s)
  {
    UsersBound(s);
    row.(totalTweets := |s|, totalContributors := |Users(s)|, sentimentScore := MeanScore(s), updatedAt := now)
  }

  /** `c` is `c0` after `update_hashtag_stats` on `h` at `now`: row `h`
      recounted from the stored tweets, one snapshot of them appended, every
      other table unchanged. */
  predicate StatsUpdated(c0: Contents, c: Contents, h: int, now: Timestamp)
  {
    var s := OfHashtag(c0.tweets, h);
    c == c0.(hashtags := if 1 <= h <= |c0.hashtags| then c0.hashtags[h - 1 := Recounted(c0.hashtags[h - 1], s, now)] else c0.hashtags,
             snapshots := c0.snapshots + [SnapshotOf(s, h, |c0.snapshots| + 1, now)])
  }

  /** The snapshot `update_hashtag_stats` appends. */
  function SnapshotOf(s: seq<TweetRow>, h: int, id: int, now: Timestamp): (r: SnapshotRow)
    ensures r.id == id && r.hashtagId == h && r.timestamp == now && r.tweetCount == |s|
    ensures r.contributorCount <= r.tweetCount
    ensures r.retweetCount <= r.tweetCount && r.replyCount <= r.tweetCount && r.mediaCount <= r.tweetCount
  {
    UsersBound(s);
    SnapshotRow(id, h, now, |s|, |Users(s)|,
      CountIf(s, (t: TweetRow) => t.isRetweet),
      CountIf(s, (t: TweetRow) => t.isReply),
      CountIf(s, (t: TweetRow) => t.hasMedia),
      MeanScore(s))
  }

  // ---------------------------------------------------------------------
  // top_contributors

  /** One user's tweets among `s`. */
  function ByUser(s: seq<TweetRow>, uid: string): (r: seq<TweetRow>)
    ensures |r| <= |s|
    ensures forall t :: t in r <==> t in s && t.userId == uid
  {
    if s == [] then []
    else
      var init := ByUser(s[..|s| - 1], uid);
      var last := s[|s| - 1];
      assert s == s[..|s| - 1] + [last];
      if last.userId == uid then init + [last] else init
  }

  /** A user who contributed has at least one tweet. */
  lemma ContributorHasTweets(s: seq<TweetRow>, uid: string)
    requires uid in Users(s)
    ensures |ByUser(s, uid)| >= 1
  {
    var t :| t in s && t.userId == uid;
    assert t in ByUser(s, uid);
  }

  /** The influence formula: tweets, half the retweets, 0.7 of the replies,
      and a thousandth of the followers. */
  function Influence(tweets: int, retweets: int, replies: int, followers: int): real
  {
    tweets as real + 0.5 * (retweets as real) + 0.7 * (replies as real) + (followers as real) / 1000.0
  }

  /** The row `update_top_contributors` inserts for one user; a user missing
      from `users` counts as having no followers. */
  function ContributorOf(s: seq<TweetRow>, h: int, uid: string, us: map<string, UserRow>): (r: ContributorRow)
    ensures r.hashtagId == h && r.userId == uid && r.tweetCount == |ByUser(s, uid)|
    ensures r.retweetCount <= r.tweetCount && r.replyCount <= r.tweetCount
  {
    var mine := ByUser(s, uid);
    var followers := if uid in us then us[uid].followersCount else 0;
    var rt := CountIf(mine, (t: TweetRow) => t.isRetweet);
    var rep := CountIf(mine, (t: TweetRow) => t.isReply);
    ContributorRow(h, uid, |mine|, rt, rep, Influence(|mine|, rt, rep, followers))
  }

  /** With no more followers than `f`, a user's influence is at least its
      tweet count and at most its tweet count plus `2.2` per tweet plus `f / 1000`. */
  lemma InfluenceBounds(s: seq<TweetRow>, h: int, uid: string, us: map<string, UserRow>)
    requires uid in us ==> us[uid].followersCount >= 0
    ensures var r := ContributorOf(s, h, uid, us);
      && (r.tweetCount as real) <= r.influence
      && (uid !in us ==> r.influence <= 2.2 * (r.tweetCount as real))
  {
  }

  // ---------------------------------------------------------------------
  // Query results

  /** A geocoded place with the number of the hashtag's contributors linked to it. */
  datatype Place = Place(text: string, latitude: Option<real>, longitude: Option<real>,
                         country: Option<string>, city: Option<string>, userCount: nat)

  datatype Summary = Summary(hashtag: HashtagRow, tweetTypes: Option<TypeCounts>,
                             activity: seq<ActivityRow>, places: seq<Place>)

  /** A row of `get_top_contributors`: the stored row joined with its user. */
  datatype ContributorView = ContributorView(row: ContributorRow, username: string, displayName: string,
                                             profileImageUrl: string, followersCount: int)

  datatype SentimentReport = SentimentReport(overall: real, distribution: map<Label, nat>, timeline: seq<TimelinePoint>)

  datatype CountryCount = CountryCount(country: string, userCount: nat)
  datatype CityCount = CityCount(city: string, country: Option<string>, userCount: nat)
  datatype LocationReport = LocationReport(countries: seq<CountryCount>, cities: seq<CityCount>, places: seq<Place>)

  /** The contributors of `s` that join a stored user linked to location `lid`. */
  function LinkedUsers(s: seq<TweetRow>, us: map<string, UserRow>, links: set<(string, int)>, lid: int): set<string>
  {
    set u | u in Users(s) && u in us && (u, lid) in links
  }

  /** `... WHERE l.is_geocoded = TRUE GROUP BY l.id`: the geocoded places,
      in id order, that at least one contributor is linked to. */
  function Places(ls: seq<LocationRow>, s: seq<TweetRow>, us: map<string, UserRow>, links: set<(string, int)>): (r: seq<Place>)
    ensures |r| <= |ls|
    ensures forall p :: p in r ==> p.userCount > 0
  {
    if ls == [] then []
    else
      var init := Places(ls[..|ls| - 1], s, us, links);
      var l := ls[|ls| - 1];
      var n := |LinkedUsers(s, us, links, l.id)|;
      if l.isGeocoded && n > 0 then init + [Place(l.text, l.latitude, l.longitude, l.country, l.city, n)] else init
  }

  /** A place is reported exactly when its row is geocoded and linked to a contributor. */
  lemma {:induction false} PlacesSpec(ls: seq<LocationRow>, s: seq<TweetRow>, us: map<string, UserRow>, links: set<(string, int)>)
    ensures forall l :: l in ls && l.isGeocoded && |LinkedUsers(s, us, links, l.id)| > 0 ==>
      Place(l.text, l.latitude, l.longitude, l.country, l.city, |LinkedUsers(s, us, links, l.id)|) in Places(ls, s, us, links)
    ensures forall p :: p in Places(ls, s, us, links) ==>
      exists l :: l in ls && l.isGeocoded && p == Place(l.text, l.latitude, l.longitude, l.country, l.city, |LinkedUsers(s, us, links, l.id)|)
  {
    if ls != [] {
      var init := ls[..|ls| - 1];
      PlacesSpec(init, s, us, links);
      assert ls == init + [ls[|ls| - 1]];
    }
  }

  /** The contributors linked to some place in `country`. */
  function CountryUsers(ls: seq<LocationRow>, s: seq<TweetRow>, us: map<string, UserRow>, links: set<(string, int)>,
                        country: string): set<string>
  {
    set u | u in Users(s) && u in us && exists l :: l in ls && l.country == Some(country) && (u, l.id) in links
  }

  /** The countries of the places some contributor is linked to. */
  function Countries(ls: seq<LocationRow>, s: seq<TweetRow>, us: map<string, UserRow>, links: set<(string, int)>): (r: set<string>)
    ensures forall l :: l in ls && l.country.Some? && |CountryUsers(ls, s, us, links, l.country.value)| > 0 ==> l.country.value in r
    ensures forall c :: c in r ==> |CountryUsers(ls, s, us, links, c)| > 0
  {
    set l | l in ls && l.country.Some? && |CountryUsers(ls, s, us, links, l.country.value)| > 0 :: l.country.value
  }

  /** The contributors linked to some place in `city` of `country`. */
  function CityUsers(ls: seq<LocationRow>, s: seq<TweetRow>, us: map<string, UserRow>, links: set<(string, int)>,
                     city: string, country: Option<string>): set<string>
  {
    set u | u in Users(s) && u in us && exists l :: l in ls && l.city == Some(city) && l.country == country && (u, l.id) in links
  }

  /** The (city, country) pairs of the places some contributor is linked to. */
  function Cities(ls: seq<LocationRow>, s: seq<TweetRow>, us: map<string, UserRow>, links: set<(string, int)>): (r: set<(string, Option<string>)>)
    ensures forall l :: l in ls && l.city.Some? && |CityUsers(ls, s, us, links, l.city.value, l.country)| > 0 ==>
      (l.city.value, l.country) in r
    ensures forall k :: k in r ==> |CityUsers(ls, s, us, links, k.0, k.1)| > 0
  {
    set l | l in ls && l.city.Some? && |CityUsers(ls, s, us, links, l.city.value, l.country)| > 0 :: (l.city.value, l.country)
  }

  // ---------------------------------------------------------------------
  // The store

  /** The seven tables. */
  datatype Contents = Contents(
    hashtags: seq<HashtagRow>,
    tweets: seq<TweetRow>,
    users: map<string, UserRow>,
    locations: seq<LocationRow>,
    links: set<(string, int)>,
    snapshots: seq<SnapshotRow>,
    contributors: map<(int, string), ContributorRow>)

  /** The keys of every table hold. */
  predicate ContentsOk(c: Contents)
  {
    && HashtagsOk(c.hashtags)
    && DistinctIds(c.tweets)
    && (forall id :: id in c.users ==> c.users[id].id == id)
    && LocationsOk(c.locations)
    && (forall i :: 0 <= i < |c.snapshots| ==> c.snapshots[i].id == i + 1)
    && (forall k :: k in c.contributors ==> c.contributors[k].hashtagId == k.0 && c.contributors[k].userId == k.1)
  }

  /** The database behind one connection; every method is one statement
      or one transaction on `contents`. */
  class Store {
    var contents: Contents

    predicate Valid()
      reads this
    {
      ContentsOk(contents)
    }

    /** A fresh database: every table empty. */
    constructor()
      ensures Valid()
      ensures contents == Contents([], [], map[], [], {}, [], map[])
    {
      contents := Contents([], [], map[], [], {}, [], map[]);
    }

    /** `get_or_create_hashtag`; `now` is the creation time stamped on a new row. */
    method GetOrCreateHashtag(name: string, now: Timestamp) returns (row: HashtagRow)
      requires Valid()
      modifies this
      ensures Valid()
      ensures contents == old(contents).(hashtags := WithHashtag(old(contents.hashtags), name, now))
      ensures row == HashtagFor(old(contents.hashtags), name, now)
      ensures row.name == name && 1 <= row.id <= |contents.hashtags| && contents.hashtags[row.id - 1] == row
    {
      GetOrCreateSpec(contents.hashtags, name, now);
      match IndexOfKey(contents.hashtags, NameOf, name)
      case Some(i) =>
        row := contents.hashtags[i];
      case None =>
        row := NewHashtag(|contents.hashtags| + 1, name, now);
        contents := contents.(hashtags := contents.hashtags + [row]);
    }

    /** `save_tweet`: `Err` when the record lacks the fields the insert reads
      (`KeyError`), `Ok(false)` when the id is already stored, otherwise
      `Ok(true)` with one new row. */
    method SaveTweet(t: TweetRecord, h: int) returns (r: Result<bool>)
      requires Valid()
      modifies this
      ensures Valid()
      ensures t.info.None? ==> r.Err? && contents == old(contents)
      ensures t.info.Some? ==> r == Ok(t.id !in TweetIds(old(contents.tweets)))
      ensures t.info.Some? ==> contents == old(contents).(tweets := InsertTweet(old(contents.tweets), t, h))
    {
      if t.info.None? {
        return Err("KeyError: 'user_id'");
      }
      InsertTweetSpec(contents.tweets, t, h);
      if t.id in TweetIds(contents.tweets) {
        return Ok(false);
      }
      contents := contents.(tweets := contents.tweets + [TweetRowOf(t, h)]);
      r := Ok(true);
    }

    /** `save_user`: `Err` for a record without the profile fields
      (`KeyError`), otherwise an upsert that always reports `true`. */
    method SaveUser(u: UserRecord) returns (r: Result<bool>)
      requires Valid()
      modifies this
      ensures Valid()
      ensures u.info.None? ==> r.Err? && contents == old(contents)
      ensures u.info.Some? ==> r == Ok(true) && contents == old(contents).(users := Upsert(old(contents.users), u))
    {
      if u.info.None? {
        return Err("KeyError: 'username'");
      }
      contents := contents.(users := contents.users[u.id := UserRowOf(u)]);
      r := Ok(true);
    }

    /** `save_location`. */
    method SaveLocation(text: string, lat: Option<real>, lon: Option<real>, country: Option<string>, city: Option<string>)
      returns (id: Option<int>)
      requires Valid()
      modifies this
      ensures Valid()
      ensures id == LocationIdFor(old(contents.locations), text)
      ensures contents == old(contents).(locations := LocationsAfter(old(contents.locations), text, lat, lon, country, city))
    {
      var ls := contents.locations;
      SaveLocationSpec(ls, text, lat, lon, country, city);
      if text == "" {
        return None;
      }
      match IndexOfKey(ls, TextOf, text)
      case None =>
        id := Some(|ls| + 1);
        contents := contents.(locations := ls + [LocationRow(|ls| + 1, text, lat, lon, country, city, Present(lat) && Present(lon))]);
      case Some(i) =>
        if Present(lat) && Present(lon) {
          contents := contents.(locations := ls[i := LocationRow(i + 1, text, lat, lon, country, city, true)]);
        }
        id := Some(i + 1);
    }

    /** `link_user_location`: an empty user id or a zero location id is
      refused; otherwise the pair is added, reporting whether it was new. */
    method LinkUserLocation(uid: string, lid: int) returns (added: bool)
      requires Valid()
      modifies this
      ensures Valid()
      ensures added <==> uid != "" && lid != 0 && (uid, lid) !in old(contents.links)
      ensures contents == if uid == "" || lid == 0 then old(contents)
                          else old(contents).(links := old(contents.links) + {(uid, lid)})
    {
      if uid == "" || lid == 0 {
        return false;
      }
      added := (uid, lid) !in contents.links;
      contents := contents.(links := contents.links + {(uid, lid)});
    }

    /** `update_hashtag_stats`: recount the hashtag's row, if it exists, and
      append one snapshot in any case. */
    method UpdateHashtagStats(h: int, now: Timestamp)
      requires Valid()
      modifies this
      ensures Valid()
      ensures var c, s := old(contents), OfHashtag(old(contents.tweets), h);
        contents == c.(
          hashtags := if 1 <= h <= |c.hashtags| then c.hashtags[h - 1 := Recounted(c.hashtags[h - 1], s, now)] else c.hashtags,
          snapshots := c.snapshots + [SnapshotOf(s, h, |c.snapshots| + 1, now)])
    {
      var c := contents;
      var s := OfHashtag(c.tweets, h);
      var hs := c.hashtags;
      if 1 <= h <= |hs| {
        hs := hs[h - 1 := Recounted(hs[h - 1], s, now)];
      }
      contents := c.(hashtags := hs, snapshots := c.snapshots + [SnapshotOf(s, h, |c.snapshots| + 1, now)]);
    }

    /** `update_top_contributors`: the hashtag's rows are replaced by one row
      for each of the (at most) 50 users with the most tweets under it.
      `selected` names those users, best first. */
    method UpdateTopContributors(h: int) returns (ghost selected: seq<string>)
      requires Valid()
      modifies this
      ensures Valid()
      ensures contents == old(contents).(contributors := contents.contributors)
      ensures RebuiltWith(old(contents.contributors), contents, h, selected)
    {
      var c := contents;
      var s := OfHashtag(c.tweets, h);
      var kept := map k | k in c.contributors && k.0 != h :: c.contributors[k];
      var ranked := RankByTweets(s, 50);
      var cs := InsertRanked(kept, s, h, c.users, ranked);
      contents := c.(contributors := cs);
      selected := ranked;
    }

    // -------------------------------------------------------------------
    // Queries

    /** `get_hashtag_summary`: `None` for an unknown id; otherwise the row,
      the tweet-type breakdown, the hourly activity and the geocoded places. */
    function HashtagSummary(h: int): (r: Option<Summary>)
      requires Valid()
      reads this
      ensures r.None? <==> !(1 <= h <= |contents.hashtags|)
      ensures r.Some? ==> r.value.hashtag.id == h && r.value.hashtag == contents.hashtags[h - 1]
      ensures r.Some? ==> (r.value.tweetTypes.None? <==> OfHashtag(contents.tweets, h) == [])
    {
      var c := contents;
      if 1 <= h <= |c.hashtags| then
        var s := OfHashtag(c.tweets, h);
        Some(Summary(c.hashtags[h - 1], TweetTypes(s), Activity(s), Places(c.locations, s, c.users, c.links)))
      else None
    }

    /** `get_top_contributors`: the hashtag's stored rows whose user is
      stored, highest influence first, at most `limit` of them (all of them
      for a negative limit). */
    method TopContributors(h: int, limit: int) returns (rows: seq<ContributorView>)
      requires Valid()
      ensures TopRows(contents, h, limit, rows)
    {
      rows := RankContributors(contents.contributors, contents.users, h, limit);
    }

    /** `get_sentiment_analysis` as written: the overall score reads a second
      row from a one-row result, so it raises for every stored hashtag and
      is 0 for an unknown one. */
    function SentimentAnalysis(h: int): (r: Result<SentimentReport>)
      requires Valid()
      reads this
      ensures r.Err? <==> 1 <= h <= |contents.hashtags|
      ensures r.Ok? ==> r.value.overall == 0.0
    {
      if 1 <= h <= |contents.hashtags| then Err("'NoneType' object is not subscriptable")
      else
        var s := OfHashtag(contents.tweets, h);
        Ok(SentimentReport(0.0, Distribution(s), Timeline(s)))
    }

    /** The intended sentiment report: the stored score of
      the hashtag (0 for an unknown one), the distribution and the timeline. */
    function SentimentOverview(h: int): (r: SentimentReport)
      requires Valid()
      reads this
      ensures r.overall == if 1 <= h <= |contents.hashtags| then contents.hashtags[h - 1].sentimentScore else 0.0
      ensures 1 <= h <= |contents.hashtags| || r == SentimentAnalysis(h).value
    {
      var c := contents;
      var s := OfHashtag(c.tweets, h);
      SentimentReport(if 1 <= h <= |c.hashtags| then c.hashtags[h - 1].sentimentScore else 0.0, Distribution(s), Timeline(s))
    }

    /** `get_location_stats`: countries by contributor count, the 50 leading
      (city, country) pairs, and the geocoded places. */
    method LocationStats(h: int) returns (report: LocationReport)
      requires Valid()
      ensures LocationsReported(contents, h, report)
    {
      var c := contents;
      var s := OfHashtag(c.tweets, h);
      var ls, us, lk := c.locations, c.users, c.links;
      var byCountry := (x: string) => |CountryUsers(ls, s, us, lk, x)|;
      var byCity := (k: (string, Option<string>)) => |CityUsers(ls, s, us, lk, k.0, k.1)|;
      var countries := RankCountries(Countries(ls, s, us, lk), byCountry);
      var cities := RankCities(Cities(ls, s, us, lk), byCity);
      report := LocationReport(countries, cities, Places(ls, s, us, lk));
    }
  }

  /** The hashtag's contributor rows were rebuilt from `before`: `selected`
      holds the (at most) 50 users with the most tweets under `h`, best
      first, each now with a row computed from its tweets; the rows of other
      hashtags are those of `before`. */
  ghost predicate RebuiltWith(before: map<(int, string), ContributorRow>, c: Contents, h: int, selected: seq<string>)
  {
    var s, cs := OfHashtag(c.tweets, h), c.contributors;
    && |selected| == Cut(|Users(s)|, 50)
    && (forall i :: 0 <= i < |selected| ==> selected[i] in Users(s))
    && (forall i, j :: 0 <= i < j < |selected| ==> selected[i] != selected[j])
    && (forall u, i :: u in Users(s) && u !in selected && 0 <= i < |selected| ==>
          |ByUser(s, u)| <= |ByUser(s, selected[i])|)
    && (forall k :: k in cs <==> (k in before && k.0 != h) || (k.0 == h && k.1 in selected))
    && (forall k :: k in cs ==>
          cs[k] == if k.0 == h then ContributorOf(s, h, k.1, c.users) else before[k])
  }

  /** `update_top_contributors` has run on `h` since the contributors were `before`. */
  ghost predicate ContributorsRebuilt(before: map<(int, string), ContributorRow>, c: Contents, h: int)
  {
    exists selected :: RebuiltWith(before, c, h, selected)
  }

  /** `rows` is what `get_top_contributors` answers for `h` and `limit`: the
      hashtag's stored rows whose user is stored, highest influence first,
      at most `limit` of them (all for a negative limit). */
  ghost predicate TopRows(c: Contents, h: int, limit: int, rows: seq<ContributorView>)
  {
    var cs, us := c.contributors, c.users;
    && |rows| == Cut(|Candidates(cs, us, h)|, limit)
    && (forall i :: 0 <= i < |rows| ==>
          var uid := rows[i].row.userId;
          uid in Candidates(cs, us, h) && rows[i].row == cs[(h, uid)] && rows[i] == View(cs[(h, uid)], us[uid]))
    && (forall i, j :: 0 <= i < j < |rows| ==> rows[i].row.userId != rows[j].row.userId)
    && (forall i, j :: 0 <= i < j < |rows| ==> rows[j].row.influence <= rows[i].row.influence)
    && (forall u, i :: u in Candidates(cs, us, h) && 0 <= i < |rows| && (forall j :: 0 <= j < |rows| ==> rows[j].row.userId != u) ==>
          cs[(h, u)].influence <= rows[i].row.influence)
  }

  /** `report` is what `get_location_stats` answers for `h`: every country
      of the hashtag's users once, by user count; the 50 leading (city,
      country) pairs, by user count; and the geocoded places. */
  ghost predicate LocationsReported(c: Contents, h: int, report: LocationReport)
  {
    var s := OfHashtag(c.tweets, h);
    && report.places == Places(c.locations, s, c.users, c.links)
    && (forall i :: 0 <= i < |report.countries| ==>
          var x := report.countries[i];
          x.userCount == |CountryUsers(c.locations, s, c.users, c.links, x.country)| > 0)
    && (forall i, j :: 0 <= i < j < |report.countries| ==>
          report.countries[i].country != report.countries[j].country
          && report.countries[j].userCount <= report.countries[i].userCount)
    && (forall x :: x in Countries(c.locations, s, c.users, c.links) ==>
          exists i :: 0 <= i < |report.countries| && report.countries[i].country == x)
    && |report.cities| == Cut(|Cities(c.locations, s, c.users, c.links)|, 50) <= 50
    && (forall i :: 0 <= i < |report.cities| ==>
          var x := report.cities[i];
          (x.city, x.country) in Cities(c.locations, s, c.users, c.links)
          && x.userCount == |CityUsers(c.locations, s, c.users, c.links, x.city, x.country)| > 0)
    && (forall i, j :: 0 <= i < j < |report.cities| ==>
          (report.cities[i].city, report.cities[i].country) != (report.cities[j].city, report.cities[j].country)
          && report.cities[j].userCount <= report.cities[i].userCount)
    && (forall k, i ::
          k in Cities(c.locations, s, c.users, c.links) && k !in Pairs(report.cities) && 0 <= i < |report.cities|
          ==> |CityUsers(c.locations, s, c.users, c.links, k.0, k.1)| <= report.cities[i].userCount)
  }

  /** `GROUP BY user_id ORDER BY tweet_count DESC LIMIT limit`: the
      contributors of `s`, most tweets first. */
  method RankByTweets(s: seq<TweetRow>, limit: int) returns (ranked: seq<string>)
    ensures |ranked| == Cut(|Users(s)|, limit)
    ensures forall i :: 0 <= i < |ranked| ==> ranked[i] in Users(s)
    ensures forall i, j :: 0 <= i < j < |ranked| ==> ranked[i] != ranked[j]
    ensures forall i, j :: 0 <= i < j < |ranked| ==> |ByUser(s, ranked[j])| <= |ByUser(s, ranked[i])|
    ensures forall u, i :: u in Users(s) && u !in ranked && 0 <= i < |ranked| ==> |ByUser(s, u)| <= |ByUser(s, ranked[i])|
  {
    var count := (u: string) => |ByUser(s, u)|;
    ranked := RankByCount(Users(s), count, limit);
    assert forall u :: count(u) == |ByUser(s, u)|;
  }

  /** The insert loop of `update_top_contributors`: one row per ranked user,
      added to the rows of other hashtags. */
  method InsertRanked(base: map<(int, string), ContributorRow>, s: seq<TweetRow>, h: int,
                      us: map<string, UserRow>, ranked: seq<string>) returns (m: map<(int, string), ContributorRow>)
    ensures forall k :: k in m <==> k in base || (k.0 == h && k.1 in ranked)
    ensures forall k :: k in m ==> m[k] == if k.0 == h && k.1 in ranked then ContributorOf(s, h, k.1, us) else base[k]
  {
    m := base;
    var i := 0;
    while i < |ranked|
      invariant 0 <= i <= |ranked|
      invariant forall k :: k in m <==> k in base || (k.0 == h && k.1 in ranked[..i])
      invariant forall k :: k in m ==> m[k] == if k.0 == h && k.1 in ranked[..i] then ContributorOf(s, h, k.1, us) else base[k]
    {
      assert ranked[..i + 1] == ranked[..i] + [ranked[i]];
      m := m[(h, ranked[i]) := ContributorOf(s, h, ranked[i], us)];
      i := i + 1;
    }
    assert ranked[..i] == ranked;
  }

  /** The countries block of `get_location_stats`: every country with a
      linked contributor, by number of distinct contributors, most first. */
  method RankCountries(keys: set<string>, count: string -> nat) returns (countries: seq<CountryCount>)
    requires forall c :: c in keys ==> count(c) > 0
    ensures forall i :: 0 <= i < |countries| ==>
      countries[i].country in keys && countries[i].userCount == count(countries[i].country) > 0
    ensures forall i, j :: 0 <= i < j < |countries| ==>
      countries[i].country != countries[j].country && countries[j].userCount <= countries[i].userCount
    ensures forall c :: c in keys ==> exists i :: 0 <= i < |countries| && countries[i].country == c
  {
    var ranked := RankByCount(keys, count, -1);
    countries := seq(|ranked|, i requires 0 <= i < |ranked| => CountryCount(ranked[i], count(ranked[i])));
    CountriesCover(ranked, keys, countries);
  }

  /** A count list that follows a ranking holding every key names every key. */
  lemma CountriesCover(ranked: seq<string>, keys: set<string>, countries: seq<CountryCount>)
    requires |countries| == |ranked| && forall i :: 0 <= i < |ranked| ==> countries[i].country == ranked[i]
    requires forall k :: k in keys ==> k in ranked
    ensures forall c :: c in keys ==> exists i :: 0 <= i < |countries| && countries[i].country == c
  {
    forall c | c in keys
      ensures exists i :: 0 <= i < |countries| && countries[i].country == c
    {
      var i :| 0 <= i < |ranked| && ranked[i] == c;
      assert countries[i].country == c;
    }
  }

  /** The cities block of `get_location_stats`: the 50 (city, country) pairs
      with the most distinct linked contributors, most first. */
  method RankCities(keys: set<(string, Option<string>)>, count: ((string, Option<string>)) -> nat)
    returns (cities: seq<CityCount>)
    requires forall k :: k in keys ==> count(k) > 0
    ensures |cities| == Cut(|keys|, 50) <= 50
    ensures forall i :: 0 <= i < |cities| ==>
      (cities[i].city, cities[i].country) in keys && cities[i].userCount == count((cities[i].city, cities[i].country)) > 0
    ensures forall i, j :: 0 <= i < j < |cities| ==>
      (cities[i].city, cities[i].country) != (cities[j].city, cities[j].country) && cities[j].userCount <= cities[i].userCount
    ensures forall k, i :: k in keys && k !in Pairs(cities) && 0 <= i < |cities| ==> count(k) <= cities[i].userCount
  {
    var ranked := RankByCount(keys, count, 50);
    cities := seq(|ranked|, i requires 0 <= i < |ranked| => CityCount(ranked[i].0, ranked[i].1, count(ranked[i])));
    assert Pairs(cities) == ranked;
  }

  /** The (city, country) pairs of a cities block, in order. */
  function Pairs(cities: seq<CityCount>): seq<(string, Option<string>)>
  {
    seq(|cities|, i requires 0 <= i < |cities| => (cities[i].city, cities[i].country))
  }

  /** The users with a stored contributor row for `h` and a stored profile. */
  function Candidates(cs: map<(int, string), ContributorRow>, us: map<string, UserRow>, h: int): (r: set<string>)
    ensures forall u :: u in r <==> (h, u) in cs && u in us
  {
    set k | k in cs && k.0 == h && k.1 in us :: k.1
  }

  /** A user's stored influence for `h`; 0 when there is no row. */
  function InfluenceOf(cs: map<(int, string), ContributorRow>, h: int, u: string): real
  {
    if (h, u) in cs then cs[(h, u)].influence else 0.0
  }

  /** `ORDER BY influence_score DESC LIMIT limit` over the candidates. */
  method RankByInfluence(cs: map<(int, string), ContributorRow>, us: map<string, UserRow>, h: int, limit: int)
    returns (ranked: seq<string>)
    ensures |ranked| == Cut(|Candidates(cs, us, h)|, limit)
    ensures forall i :: 0 <= i < |ranked| ==> ranked[i] in Candidates(cs, us, h)
    ensures forall i, j :: 0 <= i < j < |ranked| ==> ranked[i] != ranked[j]
    ensures forall i, j :: 0 <= i < j < |ranked| ==> InfluenceOf(cs, h, ranked[j]) <= InfluenceOf(cs, h, ranked[i])
    ensures forall u, i :: u in Candidates(cs, us, h) && u !in ranked && 0 <= i < |ranked| ==>
      InfluenceOf(cs, h, u) <= InfluenceOf(cs, h, ranked[i])
  {
    var score := (u: string) => InfluenceOf(cs, h, u);
    ranked := TopBy(Candidates(cs, us, h), score, limit);
    assert forall u :: score(u) == InfluenceOf(cs, h, u);
  }

  /** The join and ranking of `get_top_contributors`. */
  method RankContributors(cs: map<(int, string), ContributorRow>, us: map<string, UserRow>, h: int, limit: int)
    returns (rows: seq<ContributorView>)
    requires forall k :: k in cs ==> cs[k].userId == k.1
    ensures |rows| == Cut(|Candidates(cs, us, h)|, limit)
    ensures forall i :: 0 <= i < |rows| ==>
      var uid := rows[i].row.userId;
      uid in Candidates(cs, us, h) && rows[i].row == cs[(h, uid)] && rows[i] == View(cs[(h, uid)], us[uid])
    ensures forall i, j :: 0 <= i < j < |rows| ==> rows[i].row.userId != rows[j].row.userId
    ensures forall i, j :: 0 <= i < j < |rows| ==> rows[j].row.influence <= rows[i].row.influence
    ensures forall u, i :: u in Candidates(cs, us, h) && 0 <= i < |rows| && (forall j :: 0 <= j < |rows| ==> rows[j].row.userId != u) ==>
      cs[(h, u)].influence <= rows[i].row.influence
  {
    var ranked := RankByInfluence(cs, us, h, limit);
    rows := seq(|ranked|, i requires 0 <= i < |ranked| && ranked[i] in Candidates(cs, us, h) =>
      View(cs[(h, ranked[i])], us[ranked[i]]));
    assert forall i :: 0 <= i < |rows| ==> rows[i].row.userId == ranked[i];
  }

  function View(row: ContributorRow, u: UserRow): ContributorView
  {
    ContributorView(row, u.username, u.displayName, u.profileImageUrl, u.followersCount)
  }
}
