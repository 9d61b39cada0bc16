/**
 * The sentiment adapter: a polarity scorer wrapped with the fallbacks of the
 * analyzer (blank text and a failing scorer both give 0), the in-place
 * annotation of a page of tweets, and the three-way label.
 */
module Sentiment {
  import opened Basics
  import opened Records

  /** `analyze_text`. `polarity` stands for TextBlob's polarity of a text;
      `None` is a scorer that raised. */
  function AnalyzeText(text: string, polarity: string -> Option<real>): (score: real)
    ensures Blank(text) ==> score == 0.0
    ensures polarity(text).None? ==> score == 0.0
    ensures score == 0.0 || polarity(text) == Some(score)
    ensures !Blank(text) && polarity(text).Some? ==> score == polarity(text).value
  {
    if Blank(text) then 0.0
    else match polarity(text)
      case Some(p) => p
      case None => 0.0
  }

  /** Blank text is scored without consulting the scorer: any two scorers agree on it. */
  lemma BlankIgnoresScorer(text: string, f: string -> Option<real>, g: string -> Option<real>)
    requires Blank(text)
    ensures AnalyzeText(text, f) == AnalyzeText(text, g) == 0.0
  {
  }

  /** Text that strips to nothing scores 0. */
  lemma StrippedEmptyScoresZero(text: string, polarity: string -> Option<real>)
    requires Strip(text) == ""
    ensures AnalyzeText(text, polarity) == 0.0
  {
    BlankIffStripEmpty(text);
  }

  /** A scorer that stays within [-1, 1] keeps the score within [-1, 1]. */
  lemma ScoreInRange(text: string, polarity: string -> Option<real>)
    requires forall s :: polarity(s).Some? ==> -1.0 <= polarity(s).value <= 1.0
    ensures -1.0 <= AnalyzeText(text, polarity) <= 1.0
  {
  }

  /** One tweet of `analyze_tweets`: a record with content (it has `info`)
      gets its score; any other record is left as it is. */
  function Annotate(t: TweetRecord, polarity: string -> Option<real>): (r: TweetRecord)
    ensures r.id == t.id && r.info == t.info
    ensures t.info.Some? ==> r.sentimentScore == Some(AnalyzeText(t.info.value.content, polarity))
    ensures t.info.None? ==> r == t
  {
    if t.info.Some? then t.(sentimentScore := Some(AnalyzeText(t.info.value.content, polarity))) else t
  }

  /** The whole page annotated, element by element. */
  function AnnotateAll(ts: seq<TweetRecord>, polarity: string -> Option<real>): (rs: seq<TweetRecord>)
    ensures |rs| == |ts|
    ensures forall k :: 0 <= k < |ts| ==> rs[k] == Annotate(ts[k], polarity)
  {
    if ts == [] then [] else [Annotate(ts[0], polarity)] + AnnotateAll(ts[1..], polarity)
  }

  /** Annotation keeps length, order and ids, scores exactly the tweets with
      content, and annotating twice is annotating once. */
  lemma AnnotateAllIdempotent(ts: seq<TweetRecord>, polarity: string -> Option<real>)
    ensures AnnotateAll(AnnotateAll(ts, polarity), polarity) == AnnotateAll(ts, polarity)
  {
  }

  /** `analyze_tweets`: annotates the page in place. */
  method AnalyzeTweets(tweets: array<TweetRecord>, polarity: string -> Option<real>)
    modifies tweets
    ensures tweets[..] == AnnotateAll(old(tweets[..]), polarity)
  {
    var i := 0;
    while i < tweets.Length
      invariant 0 <= i <= tweets.Length
      invariant forall k :: 0 <= k < i ==> tweets[k] == Annotate(old(tweets[k]), polarity)
      invariant forall k :: i <= k < tweets.Length ==> tweets[k] == old(tweets[k])
    {
      if tweets[i].info.Some? {
        tweets[i] := tweets[i].(sentimentScore := Some(AnalyzeText(tweets[i].info.value.content, polarity)));
      }
      i := i + 1;
    }
  }

  /** The three labels, in the order negative < neutral < positive. */
  datatype Label = Negative | Neutral | Positive

  function Rank(l: Label): int
  {
    match l
    case Negative => 0
    case Neutral => 1
    case Positive => 2
  }

  /** `get_sentiment_label`: above 0.1 is positive, below -0.1 negative,
      anything in between (bounds included) neutral. */
  function SentimentLabel(score: real): (l: Label)
    ensures l == Positive <==> score > 0.1
    ensures l == Negative <==> score < -0.1
    ensures l == Neutral <==> -0.1 <= score <= 0.1
  {
    if score > 0.1 then Positive
    else if score < -0.1 then Negative
    else Neutral
  }

  /** A higher score never gets a lower label. */
  lemma LabelMonotone(s1: real, s2: real)
    requires s1 <= s2
    ensures Rank(SentimentLabel(s1)) <= Rank(SentimentLabel(s2))
  {
  }
}
