# Twitter hashtag analyzer, modelled in Dafny

The analyzer takes a hashtag and pages through the Twitter search endpoint.
It scores each tweet's text with a polarity scorer and stores every usable
tweet and every author in a relational store. It geocodes the authors'
profile locations through a caching geocoder and links each author to the
stored place. It then recomputes the hashtag's totals, adds a statistics
snapshot stamped with the current time and rebuilds its 50 top contributors. Finally it reads back a report: a
summary, the ten most influential contributors, the sentiment breakdown and
the location statistics.

The model follows the backend module by module:

- `basics.dfy`: Python's `str.strip`, the blank-text test, timestamps and
  their hour bucket.
- `json.dfy`, `records.dfy`: the JSON values the endpoint answers with, and
  the decoded tweet, user and place records.
- `sentiment.dfy`: `SentimentAnalyzer`, meaning the score with its
  fallbacks, the in-place annotation of a page (an `array` method) and the
  three-way label.
- `geocoding.dfy`: `GeocodingService` as a class with a mutable cache. The
  remote lookup is a function parameter, and only successful answers are
  cached.
- `twitter_service.dfy`: `TwitterService`. The nested walk over
  instructions, entries and items becomes three levels of loops, proved
  equal to a fold over a flat list of events. Tweet and user extraction are
  proved to round-trip with payload builders.
- `tables.dfy`, `ranking.dfy`: the rows of the SQLite schema, and the
  aggregations and rankings the queries compute.
- `database.dfy`: `Database` as a class `Store` whose `contents` (all
  tables) the methods update, each stated against a value-level function
  whose properties are proved as lemmas.
- `analyzer.dfy`: `HashtagAnalyzer` and `HashtagAnalyzerApp`. The pipeline
  is stated in terms of what it leaves in the store: every kept tweet stored
  and scored, every user stored, every geocoded author linked, and the
  hashtag row recounted.

The search endpoint, the polarity scorer, the geocoding lookup and the clock
are parameters of the model.

## Model

| member | source | states |
|---|---|---|
| Basics.LStrip | twitter_hashtag_analyzer_source_clean/backend/services/sentiment_analyzer.py:18 | The left half of `strip`: the result is a suffix of the text, all that was removed is white space, and the result does not start with white space |
| Basics.RStrip | twitter_hashtag_analyzer_source_clean/backend/services/sentiment_analyzer.py:18 | The right half of `strip`: a prefix, only white space removed, and the result does not end with white space |
| Basics.LStripEmpty | twitter_hashtag_analyzer_source_clean/backend/services/sentiment_analyzer.py:18 | Left-stripping leaves nothing exactly when the text is all white space |
| Basics.RStripEmpty | twitter_hashtag_analyzer_source_clean/backend/services/sentiment_analyzer.py:18 | Right-stripping leaves nothing exactly when the text is all white space |
| Basics.BlankIffStripEmpty | twitter_hashtag_analyzer_source_clean/backend/services/sentiment_analyzer.py:18 | The blank test (`not text or text.strip() == ''`) holds exactly when stripping leaves the empty string |
| Basics.StripIdempotent | twitter_hashtag_analyzer_source_clean/backend/hashtag_analyzer.py:140-141 | Stripping an already stripped location text changes nothing |
| Basics.HourOf | twitter_hashtag_analyzer_source_clean/backend/models/database.py:462 | The hour bucket keeps the date and the hour and zeroes minutes and seconds |
| Sentiment.AnalyzeText | twitter_hashtag_analyzer_source_clean/backend/services/sentiment_analyzer.py:8-29 | A blank text scores 0, a scorer that raises gives 0, and a non-blank text whose scorer answers gets exactly that polarity |
| Sentiment.BlankIgnoresScorer | twitter_hashtag_analyzer_source_clean/backend/services/sentiment_analyzer.py:18-19 | A blank text scores 0 without consulting the scorer: any two scorers agree on it |
| Sentiment.StrippedEmptyScoresZero | twitter_hashtag_analyzer_source_clean/backend/services/sentiment_analyzer.py:18-19 | A text that strips to nothing scores 0 |
| Sentiment.ScoreInRange | twitter_hashtag_analyzer_source_clean/backend/services/sentiment_analyzer.py:15-29 | The documented range holds: a scorer within [-1, 1] yields a score within [-1, 1] |
| Sentiment.Annotate | twitter_hashtag_analyzer_source_clean/backend/services/sentiment_analyzer.py:41-43 | A tweet with content gets exactly its text's score; a tweet without content is left as it was; id and fields never change |
| Sentiment.AnnotateAll | twitter_hashtag_analyzer_source_clean/backend/services/sentiment_analyzer.py:31-45 | The page keeps its length and order, and each tweet is annotated on its own |
| Sentiment.AnnotateAllIdempotent | twitter_hashtag_analyzer_source_clean/backend/services/sentiment_analyzer.py:31-45 | Annotating a page twice is the same as annotating it once |
| Sentiment.AnalyzeTweets | twitter_hashtag_analyzer_source_clean/backend/services/sentiment_analyzer.py:31-45 | In place over an array: afterwards the array holds the annotation of its old contents |
| Sentiment.SentimentLabel | twitter_hashtag_analyzer_source_clean/backend/services/sentiment_analyzer.py:47-62 | Positive exactly above 0.1, negative exactly below -0.1, neutral exactly in [-0.1, 0.1] |
| Sentiment.LabelMonotone | twitter_hashtag_analyzer_source_clean/backend/services/sentiment_analyzer.py:47-62 | A higher score never gets a lower label |
| Geocoding.CacheGrows | twitter_hashtag_analyzer_source_clean/backend/services/geocoding_service.py:29-90 | The cache only grows: old entries keep their values, and the only possible new entry is the text asked, holding the answer returned |
| Geocoding.RepeatIsCached | twitter_hashtag_analyzer_source_clean/backend/services/geocoding_service.py:43-44 | After a successful answer, asking again gives the same answer from the cache, without a lookup and without changing the cache |
| Geocoding.FailureIsNotCached | twitter_hashtag_analyzer_source_clean/backend/services/geocoding_service.py:80-90 | A failed lookup leaves the cache unchanged, so the next call for that text looks it up again |
| Geocoding.Geocoder.constructor | twitter_hashtag_analyzer_source_clean/backend/services/geocoding_service.py:6-22 | The cache starts as the saved file's map, or empty when the file cannot be read or parsed |
| Geocoding.Geocoder.Geocode | twitter_hashtag_analyzer_source_clean/backend/services/geocoding_service.py:29-90 | Blank gives None; a cached text gives the cached place; otherwise the lookup's answer. Only a successful lookup is added to the cache, and the remote service is asked exactly when the text is non-blank and uncached |
| Geocoding.Geocoder.BatchGeocode | twitter_hashtag_analyzer_source_clean/backend/services/geocoding_service.py:92-110 | The answers are keyed by exactly the non-blank texts; each answer is what `geocode` gives against the starting cache; the cache gains exactly the successful answers and is the cache after asking each text in turn; the remote service is asked exactly the texts `Asked` lists, in order |
| Geocoding.CacheAfterAll | twitter_hashtag_analyzer_source_clean/backend/services/geocoding_service.py:92-110 | Asking a batch in turn never loses a cached text |
| Geocoding.AskedFresh | twitter_hashtag_analyzer_source_clean/backend/services/geocoding_service.py:29-110 | A batch sends to the remote service only its own texts, never a blank one and never one the starting cache holds |
| Ranking.TopBy | twitter_hashtag_analyzer_source_clean/backend/models/database.py:498-511 | `ORDER BY score DESC LIMIT n`: length min(n, keys), or all keys for a negative limit; distinct keys; scores non-increasing; no key left out scores above one that was chosen |
| Ranking.RankByCount | twitter_hashtag_analyzer_source_clean/backend/models/database.py:380-395 | The same guarantees for a ranking by whole-number count |
| Tables.TweetRowOf | twitter_hashtag_analyzer_source_clean/backend/models/database.py:131-161 | The stored row carries the tweet's id, hashtag and author; a missing score is stored as 0 |
| Tables.UserRowOf | twitter_hashtag_analyzer_source_clean/backend/models/database.py:163-219 | The stored row carries the user's id, username and follower count |
| Tables.OfHashtag | twitter_hashtag_analyzer_source_clean/backend/models/database.py:294 | `WHERE hashtag_id = ?` keeps exactly the rows of that hashtag |
| Tables.CountIf | twitter_hashtag_analyzer_source_clean/backend/models/database.py:331-349 | A conditional count is at most the row count, and equals it exactly when every row satisfies the condition |
| Tables.CountComplement | twitter_hashtag_analyzer_source_clean/backend/models/database.py:447-449 | A condition and its negation together count every row |
| Tables.CountPartition3 | twitter_hashtag_analyzer_source_clean/backend/models/database.py:522-538 | Three exclusive and exhaustive conditions together count every row |
| Tables.UsersBound | twitter_hashtag_analyzer_source_clean/backend/models/database.py:300-304 | There are never more distinct contributors than tweets |
| Tables.ScoreSumBounds | twitter_hashtag_analyzer_source_clean/backend/models/database.py:307-311 | The score sum lies between n·lo and n·hi when every score lies in [lo, hi] |
| Tables.MeanBounds | twitter_hashtag_analyzer_source_clean/backend/models/database.py:307-311 | `AVG(...) or 0` stays within any bounds (around 0) that every score keeps |
| Tables.TweetTypesShape | twitter_hashtag_analyzer_source_clean/backend/models/database.py:443-456 | Originals plus tweets that are a retweet or a reply make up all the tweets, and each type count is at most the total |
| Tables.BeforeTrichotomy | twitter_hashtag_analyzer_source_clean/backend/models/database.py:467-468 | The hour order is a strict total order: irreflexive, asymmetric, and any two hours are equal or ordered |
| Tables.BeforeTransitive | twitter_hashtag_analyzer_source_clean/backend/models/database.py:467-468 | The hour order is transitive |
| Tables.AddToBucketsHours | twitter_hashtag_analyzer_source_clean/backend/models/database.py:459-472 | Grouping one more row adds its hour and no other |
| Tables.AddToBucketsAscending | twitter_hashtag_analyzer_source_clean/backend/models/database.py:459-472 | Grouping one more row keeps the groups in ascending hour order |
| Tables.AddToBucketsFind | twitter_hashtag_analyzer_source_clean/backend/models/database.py:459-472 | Grouping one more row updates the group of its own hour and leaves every other group as it was |
| Tables.AddToBucketsTotal | twitter_hashtag_analyzer_source_clean/backend/models/database.py:459-472 | Grouping one more row adds one to the total count |
| Tables.BucketsSpec | twitter_hashtag_analyzer_source_clean/backend/models/database.py:459-472 | `GROUP BY hour ORDER BY hour` gives ascending groups, exactly one per hour that occurs; each group holds exactly that hour's rows; the counts add up to the number of rows |
| Tables.ActivitySpec | twitter_hashtag_analyzer_source_clean/backend/models/database.py:458-472 | The activity series has strictly ascending hours, exactly the hours with tweets; each has its hour's tweet count (positive) and a distinct-user count no larger |
| Tables.InHourNonEmpty | twitter_hashtag_analyzer_source_clean/backend/models/database.py:459-472 | An hour that occurs among the tweets has at least one tweet |
| Tables.DistributionSpec | twitter_hashtag_analyzer_source_clean/backend/models/database.py:522-538 | A tone appears exactly when some tweet has it, with its count; the three counts add up to the number of tweets |
| Tables.TimelineSpec | twitter_hashtag_analyzer_source_clean/backend/models/database.py:540-553 | One point per hour with tweets, ascending, each point the mean score of that hour's tweets |
| TwitterService.EnsureHashPrefix | twitter_hashtag_analyzer_source_clean/backend/services/twitter_service.py:25-27 | The query starts with `#`, and is either the hashtag itself or the hashtag with `#` prepended |
| TwitterService.EnsureHashPrefixIdempotent | twitter_hashtag_analyzer_source_clean/backend/services/twitter_service.py:25-27 | Prefixing twice is prefixing once; a `#`-prefixed tag is unchanged; an unprefixed tag gets exactly one `#` |
| TwitterService.StripAtSign | twitter_hashtag_analyzer_source_clean/backend/services/twitter_service.py:53-55 | One leading `@` is removed; a name without it is unchanged |
| TwitterService.TweetFlags | twitter_hashtag_analyzer_source_clean/backend/services/twitter_service.py:249-256 | Retweet exactly when `retweeted_status_result` is present; reply exactly when the reply id is present and non-empty; media exactly when `entities.media` is present |
| TwitterService.TweetLegacyFlags | twitter_hashtag_analyzer_source_clean/backend/services/twitter_service.py:249-256 | The payload built for a tweet encodes its three flags in the keys the extractor tests |
| TwitterService.TweetLegacyCounts | twitter_hashtag_analyzer_source_clean/backend/services/twitter_service.py:232-259 | The payload built for a tweet holds its text, counts, date and author under the keys the extractor reads |
| TwitterService.TweetRoundTrip | twitter_hashtag_analyzer_source_clean/backend/services/twitter_service.py:211-267 | Extracting the payload built from a tweet gives back that tweet: the extractor loses no field |
| TwitterService.TweetWithoutLegacy | twitter_hashtag_analyzer_source_clean/backend/services/twitter_service.py:222-232 | A tweet payload without `legacy` yields only its id, with no content |
| TwitterService.UserLegacyFields | twitter_hashtag_analyzer_source_clean/backend/services/twitter_service.py:185-204 | The payload built for a user holds each profile field under the key the extractor reads, with a date exactly when the user has one |
| TwitterService.UserRoundTrip | twitter_hashtag_analyzer_source_clean/backend/services/twitter_service.py:166-209 | Extracting the payload built from a user gives back that user |
| TwitterService.UserVerified | twitter_hashtag_analyzer_source_clean/backend/services/twitter_service.py:204 | Verified exactly when `legacy.verified` or `is_blue_verified` is truthy |
| TwitterService.ItemsAreTweets | twitter_hashtag_analyzer_source_clean/backend/services/twitter_service.py:113-127 | Every item the walk takes from an item list is a `TimelineTweet` |
| TwitterService.EntriesAreTweets | twitter_hashtag_analyzer_source_clean/backend/services/twitter_service.py:102-111 | Every item taken from an entry list is a `TimelineTweet`, and an entry that is not a `TimelineTimelineItem` contributes nothing |
| TwitterService.InstructionsAreTweets | twitter_hashtag_analyzer_source_clean/backend/services/twitter_service.py:98-100 | Every item taken from an instruction list is a `TimelineTweet` |
| TwitterService.ItemsEventsAppend | twitter_hashtag_analyzer_source_clean/backend/services/twitter_service.py:114-140 | Walking two item lists one after the other is walking their concatenation |
| TwitterService.EntriesEventsAppend | twitter_hashtag_analyzer_source_clean/backend/services/twitter_service.py:102-140 | Walking two entry lists one after the other is walking their concatenation |
| TwitterService.InstructionsEventsAppend | twitter_hashtag_analyzer_source_clean/backend/services/twitter_service.py:98-140 | Walking two instruction lists one after the other is walking their concatenation |
| TwitterService.FoldAppend | twitter_hashtag_analyzer_source_clean/backend/services/twitter_service.py:98-142 | Accumulating over a concatenation is accumulating over each part in turn |
| TwitterService.FoldOne | twitter_hashtag_analyzer_source_clean/backend/services/twitter_service.py:128-140 | Accumulating one event is one step |
| TwitterService.FoldAfterRaise | twitter_hashtag_analyzer_source_clean/backend/services/twitter_service.py:141-142 | Once the walk has raised, nothing more is accumulated |
| TwitterService.TweetsOfAppend | twitter_hashtag_analyzer_source_clean/backend/services/twitter_service.py:135-140 | The tweets of a concatenation are the tweets of each part, in order |
| TwitterService.FoldTweets | twitter_hashtag_analyzer_source_clean/backend/services/twitter_service.py:135-140 | Without a raise, the walk collects the tweet of every item in payload order, skipping tweets that do not decode |
| TwitterService.FoldUsersLast | twitter_hashtag_analyzer_source_clean/backend/services/twitter_service.py:128-133 | The users after one more item are the users before it, plus that item's user |
| TwitterService.FoldUsersFromItems | twitter_hashtag_analyzer_source_clean/backend/services/twitter_service.py:128-133 | Every collected user is filed under its own id and came from some item |
| TwitterService.FoldUsersLastWins | twitter_hashtag_analyzer_source_clean/backend/services/twitter_service.py:128-133 | When a user id occurs in several items, the last occurrence is the one kept |
| TwitterService.FoldKeepsKeys | twitter_hashtag_analyzer_source_clean/backend/services/twitter_service.py:133 | Accumulating keeps every user filed under its own id |
| TwitterService.PageUsersKeyed | twitter_hashtag_analyzer_source_clean/backend/services/twitter_service.py:66-144 | Every user of a decoded page is filed under its own id |
| TwitterService.EmptyResponse | twitter_hashtag_analyzer_source_clean/backend/services/twitter_service.py:83-84 | A falsy response, or one without `result`, decodes to the empty page without a cursor |
| TwitterService.PageTweets | twitter_hashtag_analyzer_source_clean/backend/services/twitter_service.py:94-144 | A decoded page's tweets are exactly the tweets of the `TimelineTweet` items, in order, when nothing raised |
| TwitterService.TakeItem | twitter_hashtag_analyzer_source_clean/backend/services/twitter_service.py:114-140 | One item wrapper handled by the loop body adds exactly what the fold over its events adds |
| TwitterService.WalkItems | twitter_hashtag_analyzer_source_clean/backend/services/twitter_service.py:113-140 | The item loop accumulates what the fold over the items' events does |
| TwitterService.TakeEntry | twitter_hashtag_analyzer_source_clean/backend/services/twitter_service.py:102-140 | One entry handled by the loop body adds exactly what the fold over its events adds |
| TwitterService.WalkEntries | twitter_hashtag_analyzer_source_clean/backend/services/twitter_service.py:102-140 | The entry loop accumulates what the fold over the entries' events does |
| TwitterService.TakeInstruction | twitter_hashtag_analyzer_source_clean/backend/services/twitter_service.py:98-140 | One instruction handled by the loop body adds exactly what the fold over its events adds |
| TwitterService.WalkInstructions | twitter_hashtag_analyzer_source_clean/backend/services/twitter_service.py:98-140 | The instruction loop accumulates what the fold over the instructions' events does |
| TwitterService.ProcessSearchResults | twitter_hashtag_analyzer_source_clean/backend/services/twitter_service.py:66-144 | The nested loops compute the page that the event fold defines, whose properties are the lemmas above |
| TwitterService.SearchHashtag | twitter_hashtag_analyzer_source_clean/backend/services/twitter_service.py:12-41 | The request carries the `#`-prefixed query, the count and type, and `''` for a falsy cursor; a failed call is an error; otherwise the result is the decoded answer |
| TwitterService.ProfileRoundTrip | twitter_hashtag_analyzer_source_clean/backend/services/twitter_service.py:146-164 | A profile answer wrapping a user payload at `result.data.user.result` decodes to that user |
| TwitterService.GetUserProfile | twitter_hashtag_analyzer_source_clean/backend/services/twitter_service.py:43-64 | A failed call for the `@`-stripped name is an error |
| Database.IndexOfKey | twitter_hashtag_analyzer_source_clean/backend/models/database.py:115-119 | The lookup by a key column (a hashtag's name here, a location's text at database.py:246-250) finds a row holding that key, or reports that none holds it |
| Database.GetOrCreateSpec | twitter_hashtag_analyzer_source_clean/backend/models/database.py:113-129 | The returned row has the name and its id indexes it; the table only grows, by a row exactly when the name was new; the table's ids and names stay valid |
| Database.GetOrCreateTwice | twitter_hashtag_analyzer_source_clean/backend/models/database.py:113-129 | A second call with the same name changes nothing and returns the same row |
| Database.InsertTweetSpec | twitter_hashtag_analyzer_source_clean/backend/models/database.py:131-161 | A new id appends the tweet's row; a known id is rejected and leaves the table as it was; ids stay distinct |
| Database.FirstWriteWins | twitter_hashtag_analyzer_source_clean/backend/models/database.py:159-161 | Saving a tweet with an id already stored changes nothing: the first write wins |
| Database.UpsertSpec | twitter_hashtag_analyzer_source_clean/backend/models/database.py:163-219 | Insert-or-update: the user's row becomes the new one, every other user is untouched, and the key set gains the id |
| Database.SaveLocationSpec | twitter_hashtag_analyzer_source_clean/backend/models/database.py:221-268 | An empty text gives no id and no change; otherwise the id indexes the row with that text, the table grows by at most one, and other rows and all texts are kept; without both coordinates an existing row is untouched and a new row is not geocoded |
| Database.SaveLocationWrites | twitter_hashtag_analyzer_source_clean/backend/models/database.py:226-268 | A new text becomes row `len + 1` with the given coordinates, country and city, geocoded exactly when both coordinates are truthy; an existing text returns its own id, and its row is overwritten with the given values and marked geocoded exactly when both coordinates are truthy, otherwise the table is unchanged |
| Database.ZeroCoordinateIsAbsent | twitter_hashtag_analyzer_source_clean/backend/models/database.py:239 | A latitude of 0.0 counts as missing (truthiness): the row is stored as not geocoded, and an existing row is not updated |
| Database.Recounted | twitter_hashtag_analyzer_source_clean/backend/models/database.py:290-325 | The recounted row keeps id, name and creation time and holds the tweet count, distinct contributors (no more than tweets) and mean score |
| Database.SnapshotOf | twitter_hashtag_analyzer_source_clean/backend/models/database.py:327-369 | The snapshot is for this hashtag at this time, with the tweet count; contributors, retweets, replies and media never exceed it |
| Database.ByUser | twitter_hashtag_analyzer_source_clean/backend/models/database.py:386-388 | `GROUP BY user_id` keeps exactly one user's rows |
| Database.ContributorHasTweets | twitter_hashtag_analyzer_source_clean/backend/models/database.py:380-395 | Every contributor has at least one tweet |
| Database.ContributorOf | twitter_hashtag_analyzer_source_clean/backend/models/database.py:397-428 | The contributor row is for this hashtag and user, with the user's tweet count; retweets and replies never exceed it |
| Database.InfluenceBounds | twitter_hashtag_analyzer_source_clean/backend/models/database.py:403-412 | The influence is at least the tweet count, and without a stored user at most 2.2 times it |
| Database.Places | twitter_hashtag_analyzer_source_clean/backend/models/database.py:601-615 | At most one entry per location row, each with a positive user count |
| Database.PlacesSpec | twitter_hashtag_analyzer_source_clean/backend/models/database.py:475-489 | The places are exactly the geocoded locations that have linked contributors, each with the number of distinct linked contributors |
| Database.Countries | twitter_hashtag_analyzer_source_clean/backend/models/database.py:564-579 | Exactly the countries with at least one linked contributor |
| Database.Cities | twitter_hashtag_analyzer_source_clean/backend/models/database.py:582-598 | Exactly the (city, country) pairs of location rows with a city and at least one linked contributor |
| Database.Store.constructor | twitter_hashtag_analyzer_source_clean/backend/models/database.py:7-111 | A new store has all tables empty |
| Database.Store.GetOrCreateHashtag | twitter_hashtag_analyzer_source_clean/backend/models/database.py:113-129 | Only the hashtags table changes, as `GetOrCreateSpec` describes; the row returned has the name and sits at its id |
| Database.Store.SaveTweet | twitter_hashtag_analyzer_source_clean/backend/models/database.py:131-161 | A tweet without content raises and changes nothing; otherwise it answers whether the id was new, and only the tweets table changes, as `InsertTweetSpec` describes |
| Database.Store.SaveUser | twitter_hashtag_analyzer_source_clean/backend/models/database.py:163-219 | A user without profile fields raises and changes nothing; otherwise it answers true, and only the users table changes, as `UpsertSpec` describes |
| Database.Store.SaveLocation | twitter_hashtag_analyzer_source_clean/backend/models/database.py:221-268 | Only the locations table changes, to the table that `SaveLocationSpec` and `SaveLocationWrites` describe, and the id returned is that of the row holding the text |
| Database.Store.LinkUserLocation | twitter_hashtag_analyzer_source_clean/backend/models/database.py:270-288 | An empty user or a zero location changes nothing; otherwise the link is added; the answer is whether the link is new |
| Database.Store.UpdateHashtagStats | twitter_hashtag_analyzer_source_clean/backend/models/database.py:290-369 | The hashtag row is recounted from its tweets, one snapshot is appended, and no other table changes |
| Database.Store.UpdateTopContributors | twitter_hashtag_analyzer_source_clean/backend/models/database.py:371-430 | The hashtag's contributor rows are replaced by those of its 50 users with the most tweets, each with its counts and influence; other hashtags' rows and all other tables are kept |
| Database.Store.HashtagSummary | twitter_hashtag_analyzer_source_clean/backend/models/database.py:432-496 | None exactly for an unknown id; otherwise the stored row, with no tweet-type breakdown exactly when the hashtag has no tweets |
| Database.Store.TopContributors | twitter_hashtag_analyzer_source_clean/backend/models/database.py:498-511 | Up to `limit` stored contributors joined with their users, distinct, by non-increasing influence, none left out above one chosen |
| Database.Store.SentimentAnalysis | twitter_hashtag_analyzer_source_clean/backend/models/database.py:513-559 | As written: raises exactly when the hashtag exists; otherwise its overall score is 0 |
| Database.Store.SentimentOverview | twitter_hashtag_analyzer_source_clean/backend/models/database.py:513-559 | As intended: the overall score is the hashtag's stored score (0 when unknown), and it agrees with the code as written wherever that does not raise |
| Database.Store.LocationStats | twitter_hashtag_analyzer_source_clean/backend/models/database.py:561-621 | The countries are every country with linked contributors, distinct, by count; the cities are min(50, pairs) distinct linked (city, country) pairs, each with its own contributor count, by count, none left out above one chosen; the places are as `PlacesSpec` describes |
| Database.RankByTweets | twitter_hashtag_analyzer_source_clean/backend/models/database.py:380-395 | Up to `limit` distinct contributors by non-increasing tweet count, none left out above one chosen |
| Database.InsertRanked | twitter_hashtag_analyzer_source_clean/backend/models/database.py:397-428 | The insert loop adds one contributor row per ranked user and keeps every other row |
| Database.RankCountries | twitter_hashtag_analyzer_source_clean/backend/models/database.py:564-579 | Every key appears once, with its positive count, in non-increasing order |
| Database.CountriesCover | twitter_hashtag_analyzer_source_clean/backend/models/database.py:564-579 | A list that follows a ranking holding every key names every key |
| Database.RankCities | twitter_hashtag_analyzer_source_clean/backend/models/database.py:582-598 | The top min(50, keys) pairs, distinct, each with its positive count, non-increasing, none left out above one chosen |
| Database.Candidates | twitter_hashtag_analyzer_source_clean/backend/models/database.py:500-509 | The join keeps exactly the users with a contributor row for the hashtag and a stored profile |
| Database.RankByInfluence | twitter_hashtag_analyzer_source_clean/backend/models/database.py:498-511 | Up to `limit` distinct candidates by non-increasing influence, none left out above one chosen |
| Database.RankContributors | twitter_hashtag_analyzer_source_clean/backend/models/database.py:498-511 | The ranked candidates, each joined with its own stored contributor row and user |
| Analyzer.HashOptional | twitter_hashtag_analyzer_source_clean/backend/hashtag_analyzer.py:36-39 | A trimmed name and the same name with `#` clean up to the same hashtag |
| Analyzer.OnlyOneHashRemoved | twitter_hashtag_analyzer_source_clean/backend/hashtag_analyzer.py:38-39 | Only one `#` is removed, so cleaning is not idempotent: `##name` becomes `#name` |
| Analyzer.StripNotBlank | twitter_hashtag_analyzer_source_clean/backend/hashtag_analyzer.py:140-151 | A non-blank location strips to a non-empty, non-blank text, so it is never skipped by the geocoder and never refused by the store |
| Analyzer.KeptOf | twitter_hashtag_analyzer_source_clean/backend/hashtag_analyzer.py:105-112 | The kept tweets are exactly the page's tweets with an id and an author, in page order |
| Analyzer.SaveAllSpec | twitter_hashtag_analyzer_source_clean/backend/hashtag_analyzer.py:105-112 | Saving a batch keeps ids distinct, only appends, and leaves every tweet of the batch stored under its id |
| Analyzer.ListOf | twitter_hashtag_analyzer_source_clean/backend/hashtag_analyzer.py:144 | `list(set)` holds every element of the set and nothing else |
| Analyzer.HashtagAnalyzer.constructor | twitter_hashtag_analyzer_source_clean/backend/hashtag_analyzer.py:12-22 | The analyzer holds the given store, geocoder, endpoint, scorer and clock, and has sent no request yet, so its request log is empty and trivially matches the endpoint |
| Analyzer.HashtagAnalyzer.SaveBatch | twitter_hashtag_analyzer_source_clean/backend/hashtag_analyzer.py:105-112 | Keeps exactly the storable tweets, and the tweets table becomes the old one with them saved in order |
| Analyzer.HashtagAnalyzer.SaveUsers | twitter_hashtag_analyzer_source_clean/backend/hashtag_analyzer.py:115-117 | Succeeds exactly when every user has profile fields; then the users table holds each page user's row and keeps the others |
| Analyzer.HashtagAnalyzer.StorePage | twitter_hashtag_analyzer_source_clean/backend/hashtag_analyzer.py:98-117 | The page is scored, its storable tweets are saved (each then stored and scored) and its users are upserted; it fails exactly when a user lacks profile fields |
| Analyzer.HashtagAnalyzer.FetchPage | twitter_hashtag_analyzer_source_clean/backend/hashtag_analyzer.py:84-92 | Exactly one request is sent, with the `#`-prefixed query, the given count and type, and the cursor or `''`; it is logged with its answer, which is what the endpoint's reply decodes to; the users of a decoded page are filed under their ids |
| Analyzer.HashtagAnalyzer.CollectTweets | twitter_hashtag_analyzer_source_clean/backend/hashtag_analyzer.py:58-128 | Only the tweets and users tables change. On success (`Finished`): the requests sent are exactly one per decoded page, the `i`-th asking for `Min(count - tweets on earlier pages, 100)` from the previous page's bottom cursor (`''` first); every page but the last had tweets, a bottom cursor and left tweets wanted, and the last did not; the result is the kept tweets of the pages in order and their users merged in order (a page without tweets adding none), all stored and scored; the tweets table is exactly the old one with those tweets saved in order, and the users table exactly the old one with those users' rows upserted (`Saved`). On failure (`Broke`): the same for the pages before, then a request that raised or could not be decoded, or a page with a user lacking profile fields; the tweets table is exactly the old one with the kept tweets of every decoded page saved. At most `count` requests, all for `#hashtag`, 1 to 100 tweets each |
| Analyzer.HashtagAnalyzer.CollectPage | twitter_hashtag_analyzer_source_clean/backend/hashtag_analyzer.py:83-126 | One pass of the loop from a loop state (`Collecting`, with the tables so far `Saved` from the loop's start): the next request is sent and logged; a page with tweets is stored, so the tweets and users tables stay exactly the start's with everything gathered saved; the loop goes on (with `remaining` down by the whole page length and the page's bottom cursor) exactly when the page had tweets and a truthy bottom cursor, ends on an empty page or a missing or falsy cursor, and fails on a failed request or a user without profile fields, the page's kept tweets then still saved |
| Analyzer.HashtagAnalyzer.SavePlace | twitter_hashtag_analyzer_source_clean/backend/hashtag_analyzer.py:152-166 | Nothing changes without a geocoded place. Otherwise the locations table becomes exactly the one `save_location` leaves for that text, latitude, longitude, country and city (`PlaceSaved`); for a user with an id the links table gains exactly the pair of that user and the id `save_location` returns; a user without an id adds no link |
| Analyzer.HashtagAnalyzer.LinkUser | twitter_hashtag_analyzer_source_clean/backend/hashtag_analyzer.py:147-166 | A user whose stripped location was geocoded is linked to a row with that text; the locations table becomes exactly the one `save_location` leaves for that text and the geocoder's answer, and is unchanged otherwise; new rows hold this user's place text, and a new link exists only when that place was geocoded and points at a row holding its text |
| Analyzer.HashtagAnalyzer.LinkUsers | twitter_hashtag_analyzer_source_clean/backend/hashtag_analyzer.py:147-166 | Both directions of linking: every user with an id whose place was geocoded is linked to a row with that text, and every new link belongs to a user whose place was geocoded and points at a row holding that place's text. Every row is stated exactly (`PlacesWritten`): an old row whose text was geocoded with both coordinates truthy is overwritten with the answer's fields and marked geocoded, any other old row is unchanged, each new row is a geocoded place text with its answer's fields, and each geocoded text has a row |
| Analyzer.HashtagAnalyzer.LinkNext | twitter_hashtag_analyzer_source_clean/backend/hashtag_analyzer.py:147-166 | Handling one more user keeps the linking state (`Linking`: only locations and links changed, old rows kept or overwritten with their text's answer, new rows exactly the answers for geocoded place texts of the users, every new link fits, every handled user with a geocoded place is linked and that place's row holds its answer) with that user done |
| Analyzer.HashtagAnalyzer.ProcessLocations | twitter_hashtag_analyzer_source_clean/backend/hashtag_analyzer.py:130-166 | Each distinct place text is geocoded; the cache gains exactly the successful answers (`CacheGained`); every user with an id and a geocoded place is linked to it, and every new link is such a user's, to a row holding their place text; the locations table holds exactly the rows `save_location` writes for those answers (`PlacesWritten`); only locations and links change |
| Analyzer.HashtagAnalyzer.AnalysisResults | twitter_hashtag_analyzer_source_clean/backend/hashtag_analyzer.py:168-195 | The report is the hashtag's summary, exactly the ten-contributor ranking `get_top_contributors` gives (`TopRows`), the intended sentiment overview, and the location statistics `get_location_stats` gives (`LocationsReported`) |
| Analyzer.HashtagAnalyzer.Gather | twitter_hashtag_analyzer_source_clean/backend/hashtag_analyzer.py:45-49 | Collecting is as `CollectTweets` states: on success `Finished`, with the tweets and users tables exactly the old ones with the kept tweets saved and the merged users upserted (`Saved`); on failure `Broke`, with the tweets table exactly the old one with every decoded page's kept tweets saved, the users table only grown and the geocoding cache unchanged. After a success every collected user's geocoded place is linked, every new link is such a user's (`PlacesLinked`, old links kept), every location row is exact (`PlacesWritten`) and the cache gains exactly the answers (`CacheGained`). The hashtags, snapshots and contributors tables are not touched |
| Analyzer.HashtagAnalyzer.Refresh | twitter_hashtag_analyzer_source_clean/backend/hashtag_analyzer.py:51-56 | The store is exactly the old one after `update_hashtag_stats` (`StatsUpdated`: row `h` recounted from its stored tweets with the clock's time, one snapshot of those tweets appended with the next id) and then `update_top_contributors` (`ContributorsRebuilt`); the report is as `AnalysisResults` states, its overall sentiment the row's mean; nothing else changes |
| Analyzer.HashtagAnalyzer.AnalyzeHashtag | twitter_hashtag_analyzer_source_clean/backend/hashtag_analyzer.py:24-56 | A failure is a failed collection (`Broke`) leaving `Aborted`: the hashtag's row fetched or created, the tweets table exactly the old one with the kept tweets of the pages decoded before the failure saved, the users table only grown, every other table and the geocoding cache unchanged. A success (`Analyzed`, through `RunStored`): the pages were requested and stopped as `_collect_tweets` does; the row is the one `get_or_create_hashtag` gives for the cleaned name; the tweets and users tables are exactly the old ones with the kept tweets saved and the merged users upserted; the users' places are linked with every location row exact and the cache gaining exactly the answers; the store is exactly the one `update_hashtag_stats` leaves on the fetched row (recounted, one more snapshot); the contributors are rebuilt; the report reads all of it back; the sentiment query as written raises for that row |
| Analyzer.ExtendsTrans | twitter_hashtag_analyzer_source_clean/backend/models/database.py:221-268 | The locations table's growth, with texts kept, composes |
| Analyzer.LinkedToKept | twitter_hashtag_analyzer_source_clean/backend/models/database.py:270-288 | A user's link to a place survives further links and rows |
| Analyzer.AllLinkedStep | twitter_hashtag_analyzer_source_clean/backend/hashtag_analyzer.py:147-166 | Handling one more user keeps every earlier user's link |
| Analyzer.RequestsForStep | twitter_hashtag_analyzer_source_clean/backend/hashtag_analyzer.py:83-92 | One more request of the right query, type and size keeps every request well formed |
| Analyzer.RecordedStep | twitter_hashtag_analyzer_source_clean/backend/hashtag_analyzer.py:105-117 | Storing one more page keeps everything gathered before stored, and adds the page's tweets and users |
| Analyzer.KeptScored | twitter_hashtag_analyzer_source_clean/backend/hashtag_analyzer.py:101-112 | Every tweet kept from a scored page carries its text's score |
| Analyzer.LogStep | twitter_hashtag_analyzer_source_clean/backend/hashtag_analyzer.py:87-92 | Logging one more request with the answer its reply decodes to keeps every logged answer the one its request got |
| Analyzer.LoggedError | twitter_hashtag_analyzer_source_clean/backend/hashtag_analyzer.py:87-95 | A logged error is a request that raised or an answer that could not be decoded |
| Analyzer.PagesAnswered | twitter_hashtag_analyzer_source_clean/backend/hashtag_analyzer.py:83-95 | Each logged page is the decoded reply to the `PageRequest` that asked for it |
| Analyzer.PageRequest | twitter_hashtag_analyzer_source_clean/backend/hashtag_analyzer.py:80-92 | A request asks for at most 100 tweets; the first asks for `Min(count, 100)` with the empty cursor |
| Analyzer.StoppedAfter | twitter_hashtag_analyzer_source_clean/backend/hashtag_analyzer.py:83-126 | A page without tweets, without a truthy bottom cursor, or after which no tweets remain wanted, ends the loop |
| Analyzer.RequestNext | twitter_hashtag_analyzer_source_clean/backend/hashtag_analyzer.py:84-92 | The request the loop sends is the `PageRequest` of the pages so far: `Min(remaining, 100)` from the current cursor |
| Analyzer.SumLenStep | twitter_hashtag_analyzer_source_clean/backend/hashtag_analyzer.py:120 | `remaining` drops by the whole page length |
| Analyzer.GatheredStep | twitter_hashtag_analyzer_source_clean/backend/hashtag_analyzer.py:104-111 | A page adds its kept tweets after those gathered before |
| Analyzer.MergedStep | twitter_hashtag_analyzer_source_clean/backend/hashtag_analyzer.py:114-116 | A page with tweets merges its users over those before; an empty page adds none |
| Analyzer.ChainedStep | twitter_hashtag_analyzer_source_clean/backend/hashtag_analyzer.py:83-126 | A page fetched while tweets remain makes the page before it one that went on |
| Analyzer.PagedGrow | twitter_hashtag_analyzer_source_clean/backend/hashtag_analyzer.py:87-92 | One more request keeps the pages logged before it |
| Analyzer.PagedStep | twitter_hashtag_analyzer_source_clean/backend/hashtag_analyzer.py:87-124 | The answer to the latest request becomes the next page |
| Analyzer.PageRequestPrefix | twitter_hashtag_analyzer_source_clean/backend/hashtag_analyzer.py:84-124 | The request for an earlier page does not depend on the pages after it |
| Analyzer.PageLogged | twitter_hashtag_analyzer_source_clean/backend/hashtag_analyzer.py:83-124 | A decoded page answering the next request joins the pages: requests stay well formed and bounded by `count`, the pages stay chained, and the page adds its length, its kept tweets and (with tweets) its users |
| Analyzer.BrokeFetch | twitter_hashtag_analyzer_source_clean/backend/hashtag_analyzer.py:87-95 | A request that raises or cannot be decoded ends the loop with an exception |
| Analyzer.FinishedEmpty | twitter_hashtag_analyzer_source_clean/backend/hashtag_analyzer.py:94-95 | An empty page ends the loop, gathering nothing more |
| Analyzer.BrokeUsers | twitter_hashtag_analyzer_source_clean/backend/hashtag_analyzer.py:114-116 | A page with a user lacking profile fields ends the loop with an exception |
| Analyzer.CollectingNext | twitter_hashtag_analyzer_source_clean/backend/hashtag_analyzer.py:98-124 | A stored page with tweets and a truthy bottom cursor moves the loop on, with `remaining` down by its length and its bottom cursor next |
| Analyzer.FinishedLast | twitter_hashtag_analyzer_source_clean/backend/hashtag_analyzer.py:120-126 | A stored page with tweets but no truthy bottom cursor ends the loop |
| Analyzer.CollectingDone | twitter_hashtag_analyzer_source_clean/backend/hashtag_analyzer.py:83 | The loop ends when no tweets remain wanted; with `count <= 0` no request is sent |
| Analyzer.NormalizeHashtag | twitter_hashtag_analyzer_source_clean/backend/hashtag_analyzer.py:36-39 | The cleaned name is the stripped text or the stripped text without one leading `#`, and the `#` is removed exactly when the stripped text starts with one |
| Analyzer.Gathered | twitter_hashtag_analyzer_source_clean/backend/hashtag_analyzer.py:104-112 | Everything gathered from the pages is a storable tweet (it has an id and an author) |
| Analyzer.SaveAllAppend | twitter_hashtag_analyzer_source_clean/backend/hashtag_analyzer.py:105-112 | Saving two batches one after the other leaves the same tweets table as saving their concatenation |
| Analyzer.UsersAfter | twitter_hashtag_analyzer_source_clean/backend/hashtag_analyzer.py:114-117 | The users table after upserting a set of users: its keys are the old ones and the users' ids; a user's row is built from that user, and every other row is unchanged |
| Analyzer.UsersAfterStep | twitter_hashtag_analyzer_source_clean/backend/hashtag_analyzer.py:114-117 | Upserting one more page's users after the users merged so far upserts the merged users with the page's winning |
| Analyzer.UsersAfterValues | twitter_hashtag_analyzer_source_clean/backend/hashtag_analyzer.py:114-117 | Each row after that second upsert is the one the merged upsert gives |
| Analyzer.SavedStep | twitter_hashtag_analyzer_source_clean/backend/hashtag_analyzer.py:98-117 | Storing one more page after the saved pages leaves the tweets and users tables exactly the start's with all pages so far saved and upserted |
| Analyzer.HashtagAnalyzer.KeepPage | twitter_hashtag_analyzer_source_clean/backend/hashtag_analyzer.py:98-117 | The page is stored; it fails exactly when a user lacks profile fields; on success the page's kept tweets join those recorded and saved and its users those upserted; on failure the kept tweets are still saved |
| Analyzer.PlaceSavedRows | twitter_hashtag_analyzer_source_clean/backend/models/database.py:221-268 | `save_location` keeps every other row, overwrites a row with that text only when both coordinates are truthy, appends a new text as the next row, and leaves a row with the text |
| Analyzer.OldRowsStep | twitter_hashtag_analyzer_source_clean/backend/hashtag_analyzer.py:152-166 | Saving one more geocoded place keeps every old row either unchanged or overwritten with its text's answer |
| Analyzer.NewRowsStep | twitter_hashtag_analyzer_source_clean/backend/hashtag_analyzer.py:152-166 | Saving one more geocoded place keeps every row added during the loop the answer for a geocoded place text |
| Analyzer.PlacedForKept | twitter_hashtag_analyzer_source_clean/backend/hashtag_analyzer.py:152-166 | A place already saved keeps its row when another text is saved |
| Analyzer.PlacedForSaved | twitter_hashtag_analyzer_source_clean/backend/hashtag_analyzer.py:152-166 | A place saved just now has its row, overwritten with its answer when both coordinates are truthy |
| Analyzer.DonePlacedStep | twitter_hashtag_analyzer_source_clean/backend/hashtag_analyzer.py:147-166 | Handling one more user keeps every handled user's geocoded place saved with its answer |
| Analyzer.PlacingStep | twitter_hashtag_analyzer_source_clean/backend/hashtag_analyzer.py:147-166 | Handling one more user keeps the location rows stated exactly (`Placing`) |
| Analyzer.PlacingDone | twitter_hashtag_analyzer_source_clean/backend/hashtag_analyzer.py:147-166 | Once every user is handled, every location row is exact (`PlacesWritten`) |
| Analyzer.HashtagAnalyzer.Rebuild | twitter_hashtag_analyzer_source_clean/backend/hashtag_analyzer.py:53 | Only the contributors table changes, rebuilt as `update_top_contributors` does |
| Analyzer.HashtagAnalyzer.Finish | twitter_hashtag_analyzer_source_clean/backend/hashtag_analyzer.py:52-56 | After a successful gathering, recounting and reporting leave what the whole run promises (`RunStored`) and the report `analyze_hashtag` answers |
| Analyzer.RunStoredIntro | twitter_hashtag_analyzer_source_clean/backend/hashtag_analyzer.py:42-53 | Get-or-create, gathering and the recount compose into `RunStored`: the tables after them relate to the store before the run as stated there |
| Analyzer.HashtagAnalyzerApp.constructor | twitter_hashtag_analyzer_source_clean/backend/hashtag_analyzer.py:204-211 | The application wraps the given analyzer |
| Analyzer.HashtagAnalyzerApp.AnalyzeHashtag | twitter_hashtag_analyzer_source_clean/backend/hashtag_analyzer.py:213-229 | An exception becomes an error answer, and every error answer is a failed collection for some decoded pages (`Broke`) leaving the store as `Aborted` states and the geocoding cache unchanged; an answer with a report is one `analyze_hashtag` gives for some decoded pages, as `Analyzed` states |

## Left out

- The SQLite engine, the SQL text, `commit` and the table creation are not modelled. The tables are values in `Store.contents`, and each query is the function over them that it computes.
- `Database.close` and `HashtagAnalyzer.close` release handles only, so they are not modelled.
- The frontend, the test-data generator and the command-line entry points are not part of this model.
- TextBlob is the `polarity` parameter; `None` stands for a scorer that raises.
- The Nominatim request, its rate-limit sleep and its answer parsing (geocoding_service.py:47-78) are the `lookup` parameter; `None` stands for any non-200, empty or raising answer.
- Reading and writing the geocoding cache file are left out (I/O). The constructor takes the loaded map, or nothing when loading fails.
- The data API client is the `api` parameter; `None` stands for a call that raises.
- `datetime.now`, `strptime` and `strftime` are the `Clock` parameter. The store's `CURRENT_TIMESTAMP` (UTC) and the snapshot's local `datetime.now` are both `clock.now`.
- A user whose `created_at` does not parse is stored with `''`; the model stores no date. The two mean the same to every query modelled.
- JSON is a small value type. Python's `float` becomes `real`, with no rounding, and numbers in payloads are integers.
- Dictionary and set iteration order is left open: the loops pick any pending key (`:|`). Contracts that depend on order are stated for any order.
- Ties in `ORDER BY ... DESC` are left open, so which of several equal keys make a cut is not fixed.
- `TwitterService.GetUserProfile`: only the failure path is stated. A successful answer is `ProcessUserProfile` of the answer, whose round trip is `ProfileRoundTrip`. The pipeline does not call it.
- `Tables.TweetTypes`: over no tweets, SQLite's `SUM` gives four `NULL`s. The model gives `None` for the whole breakdown.
- `Analyzer.HashtagAnalyzer.AnalysisResults` uses the corrected sentiment query; see Findings.
- `Analyzer.HashtagAnalyzer.AnalyzeHashtag` returns a report on every successful run, read with the corrected sentiment query. As written, the source raises at database.py:520 for the hashtag it has just stored, so such a run ends in that exception; see Findings.
- `Analyzer.HashtagAnalyzerApp.AnalyzeHashtag` answers with that report; the source as written answers every such run with `{"error": ...}` instead (database.py:520; see Findings).
- `Analyzer.HashtagAnalyzer.CollectTweets`: when a page has a user without profile fields, `save_user` raises partway through the page's users, and which of them were saved before depends on dictionary order. So after a failure the users table is only stated to keep its old ids; the tweets table is stated exactly.
- `Analyzer.HashtagAnalyzer.Gather` and `Analyzer.HashtagAnalyzer.AnalyzeHashtag` (`Aborted`): the same bound on the users table after a failed collection.
- `TwitterService.InstructionEvents`: payloads are assumed well typed. A node that is not an object counts as absent, so a `null` or numeric instruction is skipped. In Python, `in` on `None` or a number raises `TypeError`, which ends the walk and keeps only the tweets found before it (twitter_service.py:99, 141).
- `TwitterService.EntryEvents`: the same for a `null` or numeric entry. An `entries` or `items` value that is a string or an object raises in the model, while Python iterates its characters or keys, skips each, and goes on to later tweets.
- `TwitterService.ItemEvents`: the same for a `null` or numeric item wrapper, item or `user_results`.
- `TwitterService.ExtractTweet`: a leaf of the wrong type reads as its default. A numeric `rest_id` becomes `""` and the tweet is dropped, which Python keeps. `full_text: null` is stored as `""`, where the store's `NOT NULL` column (database.py:33) would refuse the row.
- `TwitterService.ExtractUser`: `followers_count: null` reads as 0, where the contributor rebuild would raise on `None / 1000`.
- `TwitterService.PageTweets` is stated over the event walk above, so it inherits its departures on wrongly typed nodes.
- `TwitterService.ProcessSearchResults` equals that event walk, with the same departures on wrongly typed nodes.

## Findings

| source | as written | input that shows it | evidently intended | confidence | as-written member | corrected member |
|---|---|---|---|---|---|---|
| twitter_hashtag_analyzer_source_clean/backend/models/database.py:520 | The overall score calls `fetchone()` twice. The test consumes the only row, so the value branch indexes `None` and raises `TypeError` whenever the hashtag exists. An unknown hashtag gives 0. | Any stored hashtag id, for example the one `analyze_hashtag` has just created. Every successful analysis therefore ends in this exception, and the application answers with an error. | The overall score is the hashtag's stored `sentiment_score`. | not executed | Database.Store.SentimentAnalysis | Database.Store.SentimentOverview |
