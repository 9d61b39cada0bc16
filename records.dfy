/**
 * The records the service layer hands around: a tweet and a user as the
 * decoder builds them from the search payload (the Python dictionaries of
 * the original), and a geocoding answer.
 */
module Records {
  import opened Basics

  /** The fields a tweet payload's `legacy` object yields. */
  datatype TweetInfo = TweetInfo(
    content: string,
    retweetCount: int,
    likeCount: int,
    replyCount: int,
    createdAt: Timestamp,
    isRetweet: bool,
    isReply: bool,
    hasMedia: bool,
    userId: string,
    hashtag: string)

  /** A decoded tweet. `info` is absent when the payload had no `legacy`
      object, in which case the record holds only its id;
      `sentimentScore` is absent until the sentiment pass annotates it. */
  datatype TweetRecord = TweetRecord(id: string, info: Option<TweetInfo>, sentimentScore: Option<real>)

  /** The fields a user payload's `legacy` object yields. `accountCreatedAt`
      is absent when the date was missing or did not parse (the empty string
      of the original). */
  datatype UserInfo = UserInfo(
    username: string,
    displayName: string,
    profileImageUrl: string,
    followersCount: int,
    followingCount: int,
    tweetCount: int,
    location: string,
    accountCreatedAt: Option<Timestamp>,
    isVerified: bool)

  /** A decoded user; `info` is absent when the payload had no `legacy` object. */
  datatype UserRecord = UserRecord(id: string, info: Option<UserInfo>)

  /** What the geocoder answers for a place name. */
  datatype GeoData = GeoData(latitude: real, longitude: real, country: string, city: string)
}
