/** Post-processing of the image-verification reply into a verdict
    {verified, confidence in [0, 100], feedback}. The request itself is not
    modelled: the reply text, and what JSON parsing made of it, are inputs. */
module Gemini {
  import opened Types
  import Strings

  /** What `JSON.parse` made of the reply: the three fields it found
      (a missing field is `None`), or a parse failure with the raw text. */
  datatype Reply =
    | Parsed(verified: Option<bool>, confidence: Option<int>, feedback: Option<string>)
    | Unparsed(text: string)

  datatype PhotoKind = WorkoutPhoto | MealPhoto

  function Clamp100(x: int): (c: int)
    ensures 0 <= c <= 100
    ensures 0 <= x <= 100 ==> c == x
    ensures x < 0 ==> c == 0
    ensures x > 100 ==> c == 100
  {
    if x < 0 then 0 else if x > 100 then 100 else x
  }

  /** The default feedback when the parsed reply has none. */
  function DefaultFeedback(kind: PhotoKind): string
  {
    match kind
    case WorkoutPhoto => "Unable to analyze image"
    case MealPhoto => "Unable to analyze meal"
  }

  /** The words that make an unparsable reply count as verified. */
  function FallbackWords(kind: PhotoKind): (string, string)
  {
    match kind
    case WorkoutPhoto => ("verified", "legitimate")
    case MealPhoto => ("healthy", "nutritious")
  }

  /** Confidence given to an unparsable reply, when verified and when not. */
  function FallbackConfidence(kind: PhotoKind, verified: bool): int
  {
    match kind
    case WorkoutPhoto => if verified then 75 else 25
    case MealPhoto => if verified then 70 else 30
  }

  /** The feedback length kept from an unparsable reply. */
  const FeedbackLimit := 200

  function Normalize(kind: PhotoKind, reply: Reply): (v: AiVerdict)
    ensures 0 <= v.confidence <= 100
    ensures reply.Parsed? ==>
      && (v.verified <==> reply.verified == Some(true))
      && (reply.confidence.None? ==> v.confidence == 0)
      && (reply.confidence.Some? ==> v.confidence == Clamp100(reply.confidence.value))
      && (reply.feedback.Some? && |reply.feedback.value| > 0 ==> v.feedback == reply.feedback.value)
      && (reply.feedback.None? || |reply.feedback.value| == 0 ==> v.feedback == DefaultFeedback(kind))
    ensures reply.Unparsed? ==>
      var lower := Strings.ToLower(reply.text);
      && (v.verified <==> Strings.Contains(lower, FallbackWords(kind).0)
                          || Strings.Contains(lower, FallbackWords(kind).1))
      && v.confidence == FallbackConfidence(kind, v.verified)
      && |v.feedback| <= FeedbackLimit && |v.feedback| <= |reply.text|
      && |v.feedback| == (if |reply.text| <= FeedbackLimit then |reply.text| else FeedbackLimit)
      && v.feedback == reply.text[..|v.feedback|]
      && (|reply.text| <= FeedbackLimit ==> v.feedback == reply.text)
  {
    match reply
    case Parsed(ver, conf, fb) =>
      AiVerdict(
        ver == Some(true),
        Clamp100(match conf case Some(c) => c case None => 0),
        match fb
        case Some(f) => if |f| > 0 then f else DefaultFeedback(kind)
        case None => DefaultFeedback(kind))
    case Unparsed(text) =>
      var lower := Strings.ToLower(text);
      var ok := Strings.Contains(lower, FallbackWords(kind).0) || Strings.Contains(lower, FallbackWords(kind).1);
      AiVerdict(ok, FallbackConfidence(kind, ok), Strings.Take(text, FeedbackLimit))
  }

  /** The fallback is a substring test, so an unparsable reply that says the
      photo is "not verified" is taken as verified. */
  lemma {:induction false} NegatedVerdictCountsAsVerified(t: string, i: int)
    requires Strings.OccursAt(t, "not verified", i)
    ensures Normalize(WorkoutPhoto, Unparsed(t)).verified
    ensures Normalize(WorkoutPhoto, Unparsed(t)).confidence == 75
  {
    var lower := Strings.ToLower(t);
    forall j | 0 <= j < 8
      ensures lower[i + 4 + j] == "verified"[j]
    {
      assert t[i + 4 + j] == t[i..i + 12][4 + j];
    }
    assert lower[i + 4..i + 12] == "verified";
    assert Strings.OccursAt(lower, "verified", i + 4);
  }

  /** A parsed reply with an out-of-range confidence is clamped, not rejected. */
  lemma ConfidenceClamped()
    ensures Normalize(MealPhoto, Parsed(Some(true), Some(250), None)) ==
      AiVerdict(true, 100, "Unable to analyze meal")
    ensures Normalize(MealPhoto, Parsed(None, Some(-3), Some("ok"))) == AiVerdict(false, 0, "ok")
  {
  }
}
