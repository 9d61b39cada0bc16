/**
 * The rows of the analyzer's relational store and the aggregations its
 * queries compute over the tweets table: per-hashtag selection, counts
 * under a condition, distinct contributors, mean sentiment, hour buckets
 * and the sentiment distribution.
 *
 * Every aggregation is defined over a sequence of rows in insertion order;
 * the ones that only depend on the multiset of rows are stated that way in
 * their lemmas.
 */
module Tables {
  import opened Basics
  import opened Records
  import opened Sentiment

  datatype HashtagRow = HashtagRow(
    id: int, name: string, createdAt: Timestamp, updatedAt: Timestamp,
    totalTweets: int, totalContributors: int, sentimentScore: real)

  datatype TweetRow = TweetRow(
    id: string, hashtagId: int, userId: string, content: string, createdAt: Timestamp,
    retweetCount: int, likeCount: int, replyCount: int,
    isRetweet: bool, isReply: bool, hasMedia: bool, sentimentScore: real)

  datatype UserRow = UserRow(
    id: string, username: string, displayName: string, profileImageUrl: string,
    followersCount: int, followingCount: int, tweetCount: int, location: string,
    accountCreatedAt: Option<Timestamp>, isVerified: bool)

  /** A stored place; coordinates, country and city may be SQL `NULL`. */
  datatype LocationRow = LocationRow(
    id: int, text: string, latitude: Option<real>, longitude: Option<real>,
    country: Option<string>, city: Option<string>, isGeocoded: bool)

  /** One row of `hashtag_stats`. */
  datatype SnapshotRow = SnapshotRow(
    id: int, hashtagId: int, timestamp: Timestamp, tweetCount: int, contributorCount: int,
    retweetCount: int, replyCount: int, mediaCount: int, sentimentScore: real)

  datatype ContributorRow = ContributorRow(
    hashtagId: int, userId: string, tweetCount: int, retweetCount: int, replyCount: int, influence: real)

  /** The row `save_tweet` inserts for a decoded tweet; a missing score is 0. */
  function TweetRowOf(t: TweetRecord, hashtagId: int): (row: TweetRow)
    requires t.info.Some?
    ensures row.id == t.id && row.hashtagId == hashtagId && row.userId == t.info.value.userId
    ensures row.sentimentScore == (if t.sentimentScore.Some? then t.sentimentScore.value else 0.0)
  {
    var info := t.info.value;
    TweetRow(t.id, hashtagId, info.userId, info.content, info.createdAt,
      info.retweetCount, info.likeCount, info.replyCount,
      info.isRetweet, info.isReply, info.hasMedia,
      if t.sentimentScore.Some? then t.sentimentScore.value else 0.0)
  }

  /** The row `save_user` writes for a decoded user. */
  function UserRowOf(u: UserRecord): (row: UserRow)
    requires u.info.Some?
    ensures row.id == u.id && row.username == u.info.value.username
    ensures row.followersCount == u.info.value.followersCount
  {
    var info := u.info.value;
    UserRow(u.id, info.username, info.displayName, info.profileImageUrl,
      info.followersCount, info.followingCount, info.tweetCount, info.location,
      info.accountCreatedAt, info.isVerified)
  }

  // ---------------------------------------------------------------------
  // Selections and counts

  /** `WHERE hashtag_id = ?`, keeping table order. */
  function OfHashtag(ts: seq<TweetRow>, h: int): (r: seq<TweetRow>)
    ensures |r| <= |ts|
    ensures forall t :: t in r <==> t in ts && t.hashtagId == h
  {
    if ts == [] then []
    else
      var init := OfHashtag(ts[..|ts| - 1], h);
      var last := ts[|ts| - 1];
      assert ts == ts[..|ts| - 1] + [last];
      if last.hashtagId == h then init + [last] else init
  }

  /** `COUNT(*) ... WHERE p`. */
  function CountIf(ts: seq<TweetRow>, p: TweetRow -> bool): (n: nat)
    ensures n <= |ts|
    ensures n == |ts| <==> forall k :: 0 <= k < |ts| ==> p(ts[k])
  {
    if ts == [] then 0
    else
      var n := CountIf(ts[..|ts| - 1], p);
      assert forall k :: 0 <= k < |ts| - 1 ==> ts[..|ts| - 1][k] == ts[k];
      n + (if p(ts[|ts| - 1]) then 1 else 0)
  }

  /** A condition and its negation split the rows. */
  lemma {:induction false} CountComplement(ts: seq<TweetRow>, p: TweetRow -> bool, q: TweetRow -> bool)
    requires forall t :: q(t) == !p(t)
    ensures CountIf(ts, p) + CountIf(ts, q) == |ts|
  {
    if ts != [] {
      CountComplement(ts[..|ts| - 1], p, q);
    }
  }

  /** Three exclusive and exhaustive conditions split the rows. */
  lemma {:induction false} CountPartition3(ts: seq<TweetRow>, p: TweetRow -> bool, q: TweetRow -> bool, r: TweetRow -> bool)
    requires forall t :: (p(t) || q(t) || r(t)) && !(p(t) && q(t)) && !(p(t) && r(t)) && !(q(t) && r(t))
    ensures CountIf(ts, p) + CountIf(ts, q) + CountIf(ts, r) == |ts|
  {
    if ts != [] {
      CountPartition3(ts[..|ts| - 1], p, q, r);
    }
  }

  /** `COUNT(DISTINCT user_id)` counts this set. */
  function Users(ts: seq<TweetRow>): set<string>
  {
    set t | t in ts :: t.userId
  }

  /** There are never more distinct contributors than tweets. */
  lemma {:induction false} UsersBound(ts: seq<TweetRow>)
    ensures |Users(ts)| <= |ts|
  {
    if ts != [] {
      var init := ts[..|ts| - 1];
      var last := ts[|ts| - 1];
      assert ts == init + [last];
      UsersBound(init);
      assert Users(ts) == Users(init) + {last.userId};
    }
  }

  /** `SUM(sentiment_score)`. */
  function ScoreSum(ts: seq<TweetRow>): real
  {
    if ts == [] then 0.0 else ScoreSum(ts[..|ts| - 1]) + ts[|ts| - 1].sentimentScore
  }

  /** `AVG(sentiment_score) or 0`: `AVG` over no rows is `NULL`, which becomes 0. */
  function MeanScore(ts: seq<TweetRow>): real
  {
    if |ts| == 0 then 0.0 else ScoreSum(ts) / (|ts| as real)
  }

  lemma {:induction false} ScoreSumBounds(ts: seq<TweetRow>, lo: real, hi: real)
    requires forall k :: 0 <= k < |ts| ==> lo <= ts[k].sentimentScore <= hi
    ensures (|ts| as real) * lo <= ScoreSum(ts) <= (|ts| as real) * hi
  {
    if ts != [] {
      ScoreSumBounds(ts[..|ts| - 1], lo, hi);
    }
  }

  /** The mean stays within any bounds that all scores keep; with no rows it is 0. */
  lemma MeanBounds(ts: seq<TweetRow>, lo: real, hi: real)
    requires lo <= 0.0 <= hi
    requires forall k :: 0 <= k < |ts| ==> lo <= ts[k].sentimentScore <= hi
    ensures lo <= MeanScore(ts) <= hi
  {
    ScoreSumBounds(ts, lo, hi);
    if |ts| > 0 {
      var n := |ts| as real;
      assert n * lo <= ScoreSum(ts) <= n * hi;
      assert lo == (n * lo) / n && hi == (n * hi) / n;
    }
  }

  // ---------------------------------------------------------------------
  // The tweet-type breakdown of the summary

  datatype TypeCounts = TypeCounts(original: nat, retweets: nat, replies: nat, media: nat)

  /** The four `SUM(CASE ...)` columns; over no rows they are all `NULL`. */
  function TweetTypes(s: seq<TweetRow>): Option<TypeCounts>
  {
    if s == [] then None
    else Some(TypeCounts(
      CountIf(s, (t: TweetRow) => !t.isRetweet && !t.isReply),
      CountIf(s, (t: TweetRow) => t.isRetweet),
      CountIf(s, (t: TweetRow) => t.isReply),
      CountIf(s, (t: TweetRow) => t.hasMedia)))
  }

  /** The original tweets are exactly those that are neither a retweet nor a
      reply, and each count is at most the number of tweets. */
  lemma TweetTypesShape(s: seq<TweetRow>)
    requires s != []
    ensures var c := TweetTypes(s).value;
      && c.original + CountIf(s, (t: TweetRow) => t.isRetweet || t.isReply) == |s|
      && c.original <= |s| && c.retweets <= |s| && c.replies <= |s| && c.media <= |s|
  {
    CountComplement(s, (t: TweetRow) => !t.isRetweet && !t.isReply, (t: TweetRow) => t.isRetweet || t.isReply);
  }

  // ---------------------------------------------------------------------
  // Hour buckets

  /** The tweets whose `created_at` falls in the hour starting at `hour`. */
  function InHour(s: seq<TweetRow>, hour: Timestamp): seq<TweetRow>
  {
    if s == [] then []
    else
      var init := InHour(s[..|s| - 1], hour);
      if HourOf(s[|s| - 1].createdAt) == hour then init + [s[|s| - 1]] else init
  }

  function Hours(s: seq<TweetRow>): set<Timestamp>
  {
    set t | t in s :: HourOf(t.createdAt)
  }

  /** What `GROUP BY hour` accumulates for one hour. */
  datatype Bucket = Bucket(hour: Timestamp, tweetCount: nat, users: set<string>, scoreSum: real)

  /** The bucket the rows in `s` make for `hour` (empty when there are none). */
  function BucketOf(s: seq<TweetRow>, hour: Timestamp): Bucket
  {
    var rows := InHour(s, hour);
    Bucket(hour, |rows|, Users(rows), ScoreSum(rows))
  }

  predicate Ascending(bs: seq<Bucket>)
  {
    forall i, j :: 0 <= i < j < |bs| ==> Before(bs[i].hour, bs[j].hour)
  }

  /** The bucket for `hour` in a bucket list, or an empty one. */
  function Find(bs: seq<Bucket>, hour: Timestamp): Bucket
  {
    if bs == [] then Bucket(hour, 0, {}, 0.0)
    else if bs[0].hour == hour then bs[0]
    else Find(bs[1..], hour)
  }

  function BucketHours(bs: seq<Bucket>): set<Timestamp>
  {
    set b | b in bs :: b.hour
  }

  function Bump(b: Bucket, t: TweetRow): Bucket
  {
    b.(tweetCount := b.tweetCount + 1, users := b.users + {t.userId}, scoreSum := b.scoreSum + t.sentimentScore)
  }

  /** One row into an ascending bucket list. */
  function AddToBuckets(bs: seq<Bucket>, t: TweetRow): seq<Bucket>
  {
    var hour := HourOf(t.createdAt);
    if bs == [] then [Bump(Bucket(hour, 0, {}, 0.0), t)]
    else if bs[0].hour == hour then [Bump(bs[0], t)] + bs[1..]
    else if Before(hour, bs[0].hour) then [Bump(Bucket(hour, 0, {}, 0.0), t)] + bs
    else [bs[0]] + AddToBuckets(bs[1..], t)
  }

  /** `GROUP BY hour ORDER BY hour` over the rows, in table order. */
  function Buckets(s: seq<TweetRow>): seq<Bucket>
  {
    if s == [] then [] else AddToBuckets(Buckets(s[..|s| - 1]), s[|s| - 1])
  }

  lemma BeforeTrichotomy(a: Timestamp, b: Timestamp)
    ensures a == b || Before(a, b) || Before(b, a)
    ensures !(Before(a, b) && Before(b, a)) && !Before(a, a)
  {
  }

  lemma BeforeTransitive(a: Timestamp, b: Timestamp, c: Timestamp)
    requires Before(a, b) && Before(b, c)
    ensures Before(a, c)
  {
  }

  /** Every hour in the list after adding is an old hour or the new row's. */
  lemma {:induction false} AddToBucketsHours(bs: seq<Bucket>, t: TweetRow)
    ensures BucketHours(AddToBuckets(bs, t)) == BucketHours(bs) + {HourOf(t.createdAt)}
  {
    var hour := HourOf(t.createdAt);
    var r := AddToBuckets(bs, t);
    if bs == [] {
    } else if bs[0].hour == hour {
      assert r[1..] == bs[1..];
      assert BucketHours(r) == {hour} + BucketHours(bs[1..]);
      assert BucketHours(bs) == {hour} + BucketHours(bs[1..]);
    } else if Before(hour, bs[0].hour) {
      assert r[1..] == bs;
      assert BucketHours(r) == {hour} + BucketHours(bs);
    } else {
      AddToBucketsHours(bs[1..], t);
      assert r[1..] == AddToBuckets(bs[1..], t);
      assert BucketHours(r) == {bs[0].hour} + BucketHours(r[1..]);
      assert BucketHours(bs) == {bs[0].hour} + BucketHours(bs[1..]);
    }
  }

  /** Adding a row keeps the list ascending. */
  lemma {:induction false} AddToBucketsAscending(bs: seq<Bucket>, t: TweetRow)
    requires Ascending(bs)
    ensures Ascending(AddToBuckets(bs, t))
  {
    var hour := HourOf(t.createdAt);
    var r := AddToBuckets(bs, t);
    if bs == [] {
    } else if bs[0].hour == hour {
      assert forall i :: 0 <= i < |r| ==> r[i].hour == bs[i].hour;
    } else if Before(hour, bs[0].hour) {
      forall i, j | 0 <= i < j < |r|
        ensures Before(r[i].hour, r[j].hour)
      {
        if i == 0 && j > 1 {
          BeforeTransitive(hour, bs[0].hour, bs[j - 1].hour);
        }
      }
    } else {
      BeforeTrichotomy(hour, bs[0].hour);
      var rest := AddToBuckets(bs[1..], t);
      assert Ascending(bs[1..]);
      AddToBucketsAscending(bs[1..], t);
      AddToBucketsHours(bs[1..], t);
      assert r[1..] == rest;
      forall j | 0 < j < |r|
        ensures Before(bs[0].hour, r[j].hour)
      {
        var hj := r[j].hour;
        assert r[j] in rest;
        assert hj in BucketHours(rest);
        if hj != hour {
          var m :| 0 <= m < |bs[1..]| && bs[1..][m].hour == hj;
          assert bs[m + 1].hour == hj;
        }
      }
    }
  }

  /** Adding a row bumps the bucket of its hour and no other. */
  lemma {:induction false} AddToBucketsFind(bs: seq<Bucket>, t: TweetRow, x: Timestamp)
    requires Ascending(bs)
    ensures Find(AddToBuckets(bs, t), x) == if x == HourOf(t.createdAt) then Bump(Find(bs, x), t) else Find(bs, x)
  {
    var hour := HourOf(t.createdAt);
    if bs == [] {
    } else if bs[0].hour == hour {
    } else if Before(hour, bs[0].hour) {
      if x == hour {
        FindAbsent(bs, x);
      }
    } else {
      assert Ascending(bs[1..]);
      AddToBucketsFind(bs[1..], t, x);
    }
  }

  /** Adding a row adds one to the total count. */
  lemma {:induction false} AddToBucketsTotal(bs: seq<Bucket>, t: TweetRow)
    ensures Total(AddToBuckets(bs, t)) == Total(bs) + 1
  {
    var hour := HourOf(t.createdAt);
    if bs != [] && bs[0].hour != hour && !Before(hour, bs[0].hour) {
      AddToBucketsTotal(bs[1..], t);
    }
  }

  /** An ascending list whose first hour is later than `x` has no bucket for `x`. */
  lemma FindAbsent(bs: seq<Bucket>, x: Timestamp)
    requires Ascending(bs) && bs != [] && Before(x, bs[0].hour)
    ensures Find(bs, x) == Bucket(x, 0, {}, 0.0)
  {
    if bs[1..] != [] {
      assert Ascending(bs[1..]);
      BeforeTransitive(x, bs[0].hour, bs[1].hour);
      FindAbsent(bs[1..], x);
    }
  }

  /** The sum of the bucket counts. */
  function Total(bs: seq<Bucket>): nat
  {
    if bs == [] then 0 else bs[0].tweetCount + Total(bs[1..])
  }

  /** The buckets are in ascending hour order, one per hour that occurs; the
      bucket of each hour holds exactly the rows of that hour; the counts add
      up to the number of rows. */
  lemma {:induction false} BucketsSpec(s: seq<TweetRow>)
    ensures Ascending(Buckets(s))
    ensures BucketHours(Buckets(s)) == Hours(s)
    ensures forall x :: Find(Buckets(s), x) == BucketOf(s, x)
    ensures Total(Buckets(s)) == |s|
  {
    if s != [] {
      var init := s[..|s| - 1];
      var last := s[|s| - 1];
      BucketsSpec(init);
      AddToBucketsHours(Buckets(init), last);
      AddToBucketsAscending(Buckets(init), last);
      AddToBucketsTotal(Buckets(init), last);
      assert s == init + [last];
      assert Hours(s) == Hours(init) + {HourOf(last.createdAt)};
      forall x
        ensures Find(Buckets(s), x) == BucketOf(s, x)
      {
        AddToBucketsFind(Buckets(init), last, x);
        BucketOfSnoc(init, last, x);
      }
    }
  }

  /** One more row changes only the bucket of its own hour. */
  lemma BucketOfSnoc(s: seq<TweetRow>, t: TweetRow, x: Timestamp)
    ensures BucketOf(s + [t], x) == if x == HourOf(t.createdAt) then Bump(BucketOf(s, x), t) else BucketOf(s, x)
  {
    assert (s + [t])[..|s|] == s;
    if x == HourOf(t.createdAt) {
      var rows := InHour(s + [t], x);
      assert rows == InHour(s, x) + [t];
      assert rows[..|rows| - 1] == InHour(s, x);
      assert Users(rows) == Users(InHour(s, x)) + {t.userId};
    }
  }

  /** In an ascending list, a bucket is found under its own hour. */
  lemma FindMember(bs: seq<Bucket>, i: int)
    requires Ascending(bs) && 0 <= i < |bs|
    ensures Find(bs, bs[i].hour) == bs[i]
  {
    if i > 0 {
      assert bs[0].hour != bs[i].hour by {
        BeforeTrichotomy(bs[0].hour, bs[i].hour);
      }
      assert Ascending(bs[1..]);
      FindMember(bs[1..], i - 1);
    }
  }

  /** One row of the activity series: the hour, its tweets, its distinct users. */
  datatype ActivityRow = ActivityRow(hour: Timestamp, tweetCount: nat, userCount: nat)

  function Activity(s: seq<TweetRow>): seq<ActivityRow>
  {
    var bs := Buckets(s);
    seq(|bs|, i requires 0 <= i < |bs| => ActivityRow(bs[i].hour, bs[i].tweetCount, |bs[i].users|))
  }

  /** The activity series: hours strictly ascending, exactly the hours in
      which there are tweets, each with its own tweet count and a user count
      no larger, the counts adding up to the number of tweets. */
  lemma ActivitySpec(s: seq<TweetRow>)
    ensures var a := Activity(s);
      && (forall i, j :: 0 <= i < j < |a| ==> Before(a[i].hour, a[j].hour))
      && (forall x :: x in Hours(s) <==> exists i :: 0 <= i < |a| && a[i].hour == x)
      && (forall i :: 0 <= i < |a| ==>
            a[i].tweetCount == |InHour(s, a[i].hour)| > 0
            && a[i].userCount == |Users(InHour(s, a[i].hour))| <= a[i].tweetCount)
      && Total(Buckets(s)) == |s|
  {
    var bs := Buckets(s);
    var a := Activity(s);
    BucketsSpec(s);
    forall x
      ensures x in Hours(s) <==> exists i :: 0 <= i < |a| && a[i].hour == x
    {
      if x in Hours(s) {
        assert x in BucketHours(bs);
        var b :| b in bs && b.hour == x;
        var i :| 0 <= i < |bs| && bs[i] == b;
        assert a[i].hour == x;
      }
      if exists i :: 0 <= i < |a| && a[i].hour == x {
        var i :| 0 <= i < |a| && a[i].hour == x;
        assert bs[i] in bs;
      }
    }
    forall i | 0 <= i < |a|
      ensures a[i].tweetCount == |InHour(s, a[i].hour)| > 0
      ensures a[i].userCount == |Users(InHour(s, a[i].hour))| <= a[i].tweetCount
    {
      FindMember(bs, i);
      assert bs[i] == BucketOf(s, bs[i].hour);
      UsersBound(InHour(s, bs[i].hour));
      assert bs[i] in bs;
      InHourNonEmpty(s, bs[i].hour);
    }
  }

  /** An hour in which some tweet falls has a non-empty row selection. */
  lemma {:induction false} InHourNonEmpty(s: seq<TweetRow>, hour: Timestamp)
    requires hour in Hours(s)
    ensures |InHour(s, hour)| > 0
  {
    var init := s[..|s| - 1];
    if HourOf(s[|s| - 1].createdAt) != hour {
      assert s == init + [s[|s| - 1]];
      assert hour in Hours(init);
      InHourNonEmpty(init, hour);
    }
  }

  // ---------------------------------------------------------------------
  // Sentiment distribution and timeline

  /** The distribution's `CASE`: above 0.5 positive, below -0.5 negative,
      otherwise neutral. */
  function Tone(score: real): Label
  {
    if score > 0.5 then Positive else if score < -0.5 then Negative else Neutral
  }

  function ToneCount(s: seq<TweetRow>, l: Label): nat
  {
    CountIf(s, (t: TweetRow) => Tone(t.sentimentScore) == l)
  }

  /** `GROUP BY sentiment`: only the tones that occur get an entry. */
  function Distribution(s: seq<TweetRow>): (d: map<Label, nat>)
  {
    map l | l in {Negative, Neutral, Positive} && ToneCount(s, l) > 0 :: ToneCount(s, l)
  }

  /** Each tweet falls in exactly one tone; the entries present are the
      non-zero counts, and the three counts add up to the number of tweets. */
  lemma DistributionSpec(s: seq<TweetRow>)
    ensures forall l :: l in Distribution(s) <==> ToneCount(s, l) > 0
    ensures forall l :: l in Distribution(s) ==> Distribution(s)[l] == ToneCount(s, l)
    ensures ToneCount(s, Negative) + ToneCount(s, Neutral) + ToneCount(s, Positive) == |s|
  {
    CountPartition3(s, (t: TweetRow) => Tone(t.sentimentScore) == Negative, (t: TweetRow) => Tone(t.sentimentScore) == Neutral,
      (t: TweetRow) => Tone(t.sentimentScore) == Positive);
  }

  /** One point of the sentiment timeline: the hour and its mean score. */
  datatype TimelinePoint = TimelinePoint(hour: Timestamp, meanScore: real)

  function Timeline(s: seq<TweetRow>): seq<TimelinePoint>
  {
    var bs := Buckets(s);
    seq(|bs|, i requires 0 <= i < |bs| =>
      TimelinePoint(bs[i].hour, if bs[i].tweetCount == 0 then 0.0 else bs[i].scoreSum / (bs[i].tweetCount as real)))
  }

  /** The timeline has one point per hour with tweets, ascending, each the
      mean score of that hour's tweets. */
  lemma TimelineSpec(s: seq<TweetRow>)
    ensures var tl := Timeline(s);
      && (forall i, j :: 0 <= i < j < |tl| ==> Before(tl[i].hour, tl[j].hour))
      && (forall x :: x in Hours(s) <==> exists i :: 0 <= i < |tl| && tl[i].hour == x)
      && (forall i :: 0 <= i < |tl| ==> tl[i].meanScore == MeanScore(InHour(s, tl[i].hour)))
  {
    var bs := Buckets(s);
    var tl, a := Timeline(s), Activity(s);
    ActivitySpec(s);
    assert |tl| == |a| && forall i :: 0 <= i < |tl| ==> tl[i].hour == a[i].hour;
    forall x
      ensures x in Hours(s) <==> exists i :: 0 <= i < |tl| && tl[i].hour == x
    {
      if x in Hours(s) {
        var i :| 0 <= i < |a| && a[i].hour == x;
        assert tl[i].hour == x;
      }
      if exists i :: 0 <= i < |tl| && tl[i].hour == x {
        var i :| 0 <= i < |tl| && tl[i].hour == x;
        assert a[i].hour == x;
      }
    }
    BucketsSpec(s);
    forall i | 0 <= i < |bs|
      ensures Timeline(s)[i].meanScore == MeanScore(InHour(s, bs[i].hour))
    {
      FindMember(bs, i);
    }
  }
}
