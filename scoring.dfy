/** The match tier and the score message of `calculate_relevance`. */
module Scoring {

  /** The three verdicts the score message can end with. */
  datatype Tier = Great | Good | Low

  /** `match_percentage = similarity_score * 100`, on exact reals rather than floats. */
  function MatchPercentage(similarity: real): real
  {
    similarity * 100.0
  }

  /** The `if`/`elif`/`else` on the match percentage: both thresholds are strict. */
  function TierOf(percentage: real): (t: Tier)
    ensures t == Great <==> percentage > 80.0
    ensures t == Good <==> 60.0 < percentage <= 80.0
    ensures t == Low <==> percentage <= 60.0
  {
    if percentage > 80.0 then Great
    else if percentage > 60.0 then Good
    else Low
  }

  /** The sentence appended to the score message for each tier. */
  function Phrase(t: Tier): string
  {
    match t
    case Great => "🔥 **Great match! Your resume is highly relevant.**"
    case Good => "✅ **Good match. You might need some tweaks.**"
    case Low => "⚠️ **Low match. Consider adjusting your resume to match the job better.**"
  }

  /** A higher tier means a better match. */
  function Rank(t: Tier): nat
  {
    match t
    case Low => 0
    case Good => 1
    case Great => 2
  }

  /** The message `result`: the two formatted number lines, here `header`, then the tier's phrase. */
  function ScoreMessage(header: string, similarity: real): (m: string)
    ensures EndsWith(m, Phrase(TierOf(MatchPercentage(similarity))))
    ensures |header| <= |m| && m[..|header|] == header
  {
    header + Phrase(TierOf(MatchPercentage(similarity)))
  }

  predicate EndsWith(s: string, suffix: string)
  {
    |suffix| <= |s| && s[|s| - |suffix|..] == suffix
  }

  /** A better percentage never gives a worse tier. */
  lemma TierMonotone(p: real, q: real)
    requires p <= q
    ensures Rank(TierOf(p)) <= Rank(TierOf(q))
  {
  }

  /** The tiers in terms of the cosine similarity itself: above 0.8, above 0.6, the rest. */
  lemma TierOfSimilarity(similarity: real)
    ensures TierOf(MatchPercentage(similarity)) == Great <==> similarity > 0.8
    ensures TierOf(MatchPercentage(similarity)) == Good <==> 0.6 < similarity <= 0.8
    ensures TierOf(MatchPercentage(similarity)) == Low <==> similarity <= 0.6
  {
  }

  /** No phrase is a tail of another one: they differ four characters from the end. */
  lemma PhrasesDistinguishable(t: Tier, u: Tier, s: string)
    requires EndsWith(s, Phrase(t)) && EndsWith(s, Phrase(u))
    ensures t == u
  {
    var p, q := Phrase(t), Phrase(u);
    assert s[|s| - 4] == s[|s| - |p|..][|p| - 4] == p[|p| - 4];
    assert s[|s| - 4] == s[|s| - |q|..][|q| - 4] == q[|q| - 4];
  }

  /** The score message names exactly one tier, the one of its similarity. */
  lemma MessageNamesItsTier(header: string, similarity: real, t: Tier)
    ensures EndsWith(ScoreMessage(header, similarity), Phrase(t)) <==> t == TierOf(MatchPercentage(similarity))
  {
    var m := ScoreMessage(header, similarity);
    if EndsWith(m, Phrase(t)) {
      PhrasesDistinguishable(t, TierOf(MatchPercentage(similarity)), m);
    }
  }
}
