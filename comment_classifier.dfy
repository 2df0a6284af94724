/** The comment classifier: how the language model's answer about one comment
  * is turned into a classification, and the classifier's running token and
  * cost totals. The model call itself and JSON decoding are parameters. */
module CommentClassifier {
  import opened Wrappers
  import opened Text

  /** The categories a classification may carry. */
  const Categories: seq<string> :=
    ["price_objection", "doubt", "product_question", "positive", "negative", "complaint", "other"]

  const Sentiments: seq<string> := ["positive", "neutral", "negative"]

  /** The configured model's prices, in US dollars per million tokens. */
  const InputPricePerMillion: real := 0.25
  const OutputPricePerMillion: real := 1.25

  const UsdToInr: real := 83.0

  datatype Usage = Usage(inputTokens: nat, outputTokens: nat, costUsd: real)

  /** A classification; `usage` is absent from the failure results. */
  datatype Classification = Classification(
    success: bool,
    category: string,
    sentiment: string,
    confidence: real,
    suggestedReply: string,
    shouldReply: bool,
    usage: Option<Usage>)

  /** The result whenever the classifier cannot answer. */
  const FailureResult: Classification := Classification(false, "other", "neutral", 0.0, "", false, None)

  /** The result for an empty or one-character comment: no call is made. */
  const ShortResult: Classification := Classification(true, "other", "neutral", 1.0, "", false, Some(Usage(0, 0, 0.0)))

  /** The confidence field of the model's answer: absent, convertible to a number, or not. */
  datatype ConfidenceField = Missing | Number(value: real) | NotNumber

  /** The fields read from the model's JSON object; `None` is a missing field. */
  datatype Answer = Answer(
    category: Option<string>,
    sentiment: Option<string>,
    confidence: ConfidenceField,
    suggestedReply: Option<string>,
    shouldReply: Option<bool>)

  /** What JSON decoding makes of a text: not JSON, JSON but not an object, or an object. */
  datatype Decoded = Invalid | NotAnObject | Object(answer: Answer)

  /** The model call: an API error, or an answer text with its token counts. */
  datatype ModelResponse = ApiError | Response(inputTokens: nat, outputTokens: nat, text: string)

  // ---------------------------------------------------------------------------
  // Normalisation of the answer
  // ---------------------------------------------------------------------------

  /** A category outside the seven allowed ones, or a missing one, becomes `other`. */
  function NormalizeCategory(c: Option<string>): string
  {
    var v := c.UnwrapOr("other");
    if v in Categories then v else "other"
  }

  /** A sentiment outside positive, neutral and negative, or a missing one, becomes `neutral`. */
  function NormalizeSentiment(s: Option<string>): string
  {
    var v := s.UnwrapOr("neutral");
    if v in Sentiments then v else "neutral"
  }

  lemma NormalizeCategoryMeaning(c: Option<string>)
    ensures NormalizeCategory(c) in Categories
    ensures c.Some? && c.value in Categories ==> NormalizeCategory(c) == c.value
    ensures c.None? || c.value !in Categories ==> NormalizeCategory(c) == "other"
    ensures NormalizeCategory(Some(NormalizeCategory(c))) == NormalizeCategory(c)
  {
  }

  lemma NormalizeSentimentMeaning(s: Option<string>)
    ensures NormalizeSentiment(s) in Sentiments
    ensures s.Some? && s.value in Sentiments ==> NormalizeSentiment(s) == s.value
    ensures s.None? || s.value !in Sentiments ==> NormalizeSentiment(s) == "neutral"
    ensures NormalizeSentiment(Some(NormalizeSentiment(s))) == NormalizeSentiment(s)
  {
  }

  function Min(a: real, b: real): real
  {
    if a <= b then a else b
  }

  function Max(a: real, b: real): real
  {
    if a >= b then a else b
  }

  /** The confidence clamped to [0, 1]. */
  function Clamp(x: real): (r: real)
    ensures 0.0 <= r <= 1.0
    ensures 0.0 <= x <= 1.0 ==> r == x
    ensures x < 0.0 ==> r == 0.0
    ensures x > 1.0 ==> r == 1.0
  {
    Max(0.0, Min(1.0, x))
  }

  // ---------------------------------------------------------------------------
  // Extracting the JSON text from the answer
  // ---------------------------------------------------------------------------

  const Fence: string := "```"

  /** No code fence starts anywhere in `s`. */
  predicate FenceFree(s: string)
    decreases |s|
  {
    |s| < 3 || (s[..3] != Fence && FenceFree(s[1..]))
  }

  /** The text before the first code fence of `s`, or all of `s` when it has none. */
  function UpToFence(s: string): (r: string)
    ensures |r| <= |s| && r == s[..|r|]
    decreases |s|
  {
    if |s| < 3 then s
    else if s[..3] == Fence then []
    else [s[0]] + UpToFence(s[1..])
  }

  lemma {:induction false} UpToFenceIsFenceFree(s: string)
    ensures FenceFree(UpToFence(s))
    decreases |s|
  {
    if |s| >= 3 && s[..3] != Fence {
      UpToFenceIsFenceFree(s[1..]);
      var r := UpToFence(s[1..]);
      assert UpToFence(s) == [s[0]] + r;
      if |r| < 3 {
        assert FenceFree([s[0]] + r) by {
          if |[s[0]] + r| >= 3 {
            assert ([s[0]] + r)[..3] != Fence by {
              if |r| == 2 {
                assert ([s[0]] + r)[..3] == [s[0]] + s[1..3] == s[..3];
              }
            }
          }
        }
      } else {
        assert ([s[0]] + r)[..3] == [s[0]] + r[..2] == s[..3];
        assert ([s[0]] + r)[1..] == r;
      }
    }
  }

  /** `s` without a leading `json` tag. */
  function DropJsonTag(s: string): string
  {
    if |s| >= 4 && s[..4] == "json" then s[4..] else s
  }

  /** A fenced answer keeps the text between its first two fences, without a
    * leading `json` tag; any other answer is kept whole. */
  function StripFence(t: string): string
  {
    if |t| >= 3 && t[..3] == Fence then DropJsonTag(UpToFence(t[3..])) else t
  }

  lemma OpeningFenceStripped(u: string)
    ensures StripFence(Fence + u) == DropJsonTag(UpToFence(u))
  {
    assert (Fence + u)[..3] == Fence;
    assert (Fence + u)[3..] == u;
  }

  /** A block without fences, not ending in a backquote, is cut off exactly at the fence that follows it. */
  lemma {:induction false} UpToFenceStopsAtFence(b: string, rest: string)
    requires FenceFree(b) && (b == [] || b[|b| - 1] != '`')
    ensures UpToFence(b + Fence + rest) == b
    decreases |b|
  {
    var s := b + Fence + rest;
    if b == [] {
      assert s[..3] == Fence;
    } else {
      assert s[..3] != Fence by {
        if |b| >= 3 {
          assert s[..3] == b[..3];
        } else if |b| == 2 {
          assert s[1] == b[1];
        } else {
          assert s[0] == b[0];
        }
      }
      var tail := b[1..];
      assert FenceFree(tail) by {
        if |b| >= 3 {
        } else {
          assert |tail| < 3;
        }
      }
      assert s[1..] == tail + Fence + rest;
      UpToFenceStopsAtFence(tail, rest);
      assert [b[0]] + tail == b;
    }
  }

  /** An answer wrapped in a code block is reduced to the block's text, with a leading `json` tag dropped. */
  lemma FencedBlockExtracted(b: string, rest: string)
    requires FenceFree(b) && (b == [] || b[|b| - 1] != '`')
    ensures StripFence(Fence + (b + Fence + rest)) == if |b| >= 4 && b[..4] == "json" then b[4..] else b
  {
    OpeningFenceStripped(b + Fence + rest);
    UpToFenceStopsAtFence(b, rest);
  }

  lemma UnfencedKept(t: string)
    requires |t| < 3 || t[..3] != Fence
    ensures StripFence(t) == t
  {
  }

  predicate IsBrace(c: char)
  {
    c == '{' || c == '}'
  }

  /** The first brace at or after `from`, or `|s|` when there is none. */
  function NextBrace(s: string, from: nat): (k: nat)
    requires from <= |s|
    ensures from <= k <= |s|
    ensures k < |s| ==> IsBrace(s[k])
    decreases |s| - from
  {
    if from == |s| then |s|
    else if IsBrace(s[from]) then from
    else NextBrace(s, from + 1)
  }

  lemma {:induction false} NextBraceSkips(s: string, from: nat)
    requires from <= |s|
    ensures forall j :: from <= j < NextBrace(s, from) ==> !IsBrace(s[j])
    decreases |s| - from
  {
    if from < |s| && !IsBrace(s[from]) {
      NextBraceSkips(s, from + 1);
    }
  }

  /** The leftmost brace-delimited span without inner braces, searched from `i`:
    * the fallback that picks a flat JSON object out of a longer answer. */
  function FlatObjectFrom(s: string, i: nat): (r: Option<string>)
    requires i <= |s|
    ensures r.Some? ==> |r.value| >= 2 && r.value[0] == '{' && r.value[|r.value| - 1] == '}'
    decreases |s| - i
  {
    if i == |s| then None
    else if s[i] == '{' && NextBrace(s, i + 1) < |s| && s[NextBrace(s, i + 1)] == '}' then
      Some(s[i..NextBrace(s, i + 1) + 1])
    else FlatObjectFrom(s, i + 1)
  }

  function FlatObject(s: string): Option<string>
  {
    FlatObjectFrom(s, 0)
  }

  /** The span found has no brace between its delimiters. */
  lemma {:induction false} FlatObjectIsFlat(s: string, i: nat)
    requires i <= |s|
    ensures var r := FlatObjectFrom(s, i);
      r.Some? ==> forall k :: 0 < k < |r.value| - 1 ==> !IsBrace(r.value[k])
    decreases |s| - i
  {
    if i < |s| {
      if s[i] == '{' && NextBrace(s, i + 1) < |s| && s[NextBrace(s, i + 1)] == '}' {
        NextBraceSkips(s, i + 1);
        var m := s[i..NextBrace(s, i + 1) + 1];
        assert forall k :: 0 < k < |m| - 1 ==> m[k] == s[i + k];
      } else {
        assert FlatObjectFrom(s, i) == FlatObjectFrom(s, i + 1);
        FlatObjectIsFlat(s, i + 1);
      }
    }
  }

  /** Whenever the answer holds a brace-delimited span without inner braces at or
    * after `i`, the search finds one. */
  lemma {:induction false} FlatObjectFound(s: string, i: nat, open: nat, close: nat)
    requires i <= open < close < |s| && s[open] == '{' && s[close] == '}'
    requires forall k :: open < k < close ==> !IsBrace(s[k])
    ensures FlatObjectFrom(s, i).Some?
    decreases open - i
  {
    if i < open {
      if !(s[i] == '{' && NextBrace(s, i + 1) < |s| && s[NextBrace(s, i + 1)] == '}') {
        FlatObjectFound(s, i + 1, open, close);
      }
    } else {
      NextBraceSkips(s, open + 1);
      assert NextBrace(s, open + 1) == close;
    }
  }

  // ---------------------------------------------------------------------------
  // The classification
  // ---------------------------------------------------------------------------

  /** The cost of one call at the configured model's prices. */
  function CallCost(inputTokens: nat, outputTokens: nat): (c: real)
    ensures c >= 0.0
  {
    (inputTokens as real) * InputPricePerMillion / 1000000.0
      + (outputTokens as real) * OutputPricePerMillion / 1000000.0
  }

  /** The decoded answer: the JSON text itself, or else the first flat object in it. */
  function DecodeAnswer(t: string, decode: string -> Decoded): Decoded
  {
    match decode(t)
    case Invalid =>
      (match FlatObject(t)
       case Some(m) => decode(m)
       case None => Invalid)
    case decoded => decoded
  }

  /** The classification made from a model answer that decoded to an object. */
  function FromAnswer(a: Answer, usage: Usage): Classification
    requires !a.confidence.NotNumber?
  {
    var raw := if a.confidence.Number? then a.confidence.value else 0.5;
    Classification(true, NormalizeCategory(a.category), NormalizeSentiment(a.sentiment), Clamp(raw),
      a.suggestedReply.UnwrapOr(""), a.shouldReply.UnwrapOr(true), Some(usage))
  }

  /** The classification once the model has been called. */
  function Outcome(response: ModelResponse, decode: string -> Decoded): Classification
  {
    match response
    case ApiError => FailureResult
    case Response(i, o, text) =>
      match DecodeAnswer(StripFence(Strip(text)), decode)
      case Object(a) =>
        if a.confidence.NotNumber? then FailureResult else FromAnswer(a, Usage(i, o, CallCost(i, o)))
      case _ => FailureResult
  }

  /** Whether a comment is sent to the model at all. */
  predicate LongEnough(commentText: string)
  {
    commentText != [] && |Strip(commentText)| >= 2
  }

  function Classify(available: bool, commentText: string, response: ModelResponse,
                    decode: string -> Decoded): Classification
  {
    if !available then FailureResult
    else if !LongEnough(commentText) then ShortResult
    else Outcome(response, decode)
  }

  /** Every classification carries an allowed category, an allowed sentiment and
    * a confidence within [0, 1]. */
  lemma ClassificationInRange(available: bool, commentText: string, response: ModelResponse,
                              decode: string -> Decoded)
    ensures var r := Classify(available, commentText, response, decode);
      r.category in Categories && r.sentiment in Sentiments && 0.0 <= r.confidence <= 1.0
  {
    var r := Classify(available, commentText, response, decode);
    if available && LongEnough(commentText) && response.Response? {
      match DecodeAnswer(StripFence(Strip(response.text)), decode)
      case Object(a) =>
        if !a.confidence.NotNumber? {
          NormalizeCategoryMeaning(a.category);
          NormalizeSentimentMeaning(a.sentiment);
        }
      case _ =>
    }
  }

  /** The answer's fields as decoded: the confidence defaults to 0.5, the reply
    * flag to true, and a successful classification reports the call's tokens. */
  lemma AnswerDefaults(a: Answer, i: nat, o: nat)
    requires a.confidence.Missing?
    ensures FromAnswer(a, Usage(i, o, CallCost(i, o))).confidence == 0.5
    ensures a.shouldReply.None? ==> FromAnswer(a, Usage(i, o, CallCost(i, o))).shouldReply
    ensures FromAnswer(a, Usage(i, o, CallCost(i, o))).usage == Some(Usage(i, o, CallCost(i, o)))
  {
  }

  /** A failed classification is always the same fallback, and a success other
    * than the short-comment one comes from a model answer. */
  lemma FailureIsFallback(available: bool, commentText: string, response: ModelResponse,
                          decode: string -> Decoded)
    ensures var r := Classify(available, commentText, response, decode);
      !r.success ==> r == FailureResult
    ensures !available ==> Classify(available, commentText, response, decode) == FailureResult
    ensures available && !LongEnough(commentText) ==> Classify(available, commentText, response, decode) == ShortResult
    ensures response.ApiError? ==>
      !Classify(available, commentText, response, decode).success
      || Classify(available, commentText, response, decode) == ShortResult
  {
  }

  datatype UsageStats = UsageStats(totalInputTokens: nat, totalOutputTokens: nat, totalTokens: nat,
                                   totalCostUsd: real, totalCostInr: real)

  /** The classifier: whether a model client could be created, and the totals
    * of every call it made. */
  class Classifier {
    var available: bool
    var totalInputTokens: nat
    var totalOutputTokens: nat
    var totalCostUsd: real

    ghost predicate Valid()
      reads this
    {
      totalCostUsd >= 0.0
    }

    /** A client exists only when the client package is installed, an API key is
      * given and non-empty, and the client starts. */
    constructor(packageInstalled: bool, apiKey: Option<string>, clientStarts: bool)
      ensures available == (packageInstalled && apiKey.Some? && apiKey.value != "" && clientStarts)
      ensures totalInputTokens == 0 && totalOutputTokens == 0 && totalCostUsd == 0.0
      ensures Valid()
    {
      totalInputTokens := 0;
      totalOutputTokens := 0;
      totalCostUsd := 0.0;
      available := packageInstalled && apiKey.Some? && apiKey.value != "" && clientStarts;
    }

    /** Classify one comment. The totals grow by the call's tokens and cost
      * whenever the model answers, even when its answer cannot be used. */
    method ClassifyComment(commentText: string, response: ModelResponse, decode: string -> Decoded)
      returns (r: Classification)
      requires Valid()
      modifies this
      ensures Valid() && available == old(available)
      ensures r == Classify(available, commentText, response, decode)
      ensures available && LongEnough(commentText) && response.Response? ==>
        totalInputTokens == old(totalInputTokens) + response.inputTokens
        && totalOutputTokens == old(totalOutputTokens) + response.outputTokens
        && totalCostUsd == old(totalCostUsd) + CallCost(response.inputTokens, response.outputTokens)
      ensures !(available && LongEnough(commentText) && response.Response?) ==>
        totalInputTokens == old(totalInputTokens) && totalOutputTokens == old(totalOutputTokens)
        && totalCostUsd == old(totalCostUsd)
      ensures totalInputTokens >= old(totalInputTokens) && totalOutputTokens >= old(totalOutputTokens)
        && totalCostUsd >= old(totalCostUsd)
    {
      if !available {
        return FailureResult;
      }
      if !LongEnough(commentText) {
        return ShortResult;
      }
      match response
      case ApiError =>
        r := FailureResult;
      case Response(inputTokens, outputTokens, text) =>
        AddUsage(inputTokens, outputTokens);
        r := Outcome(response, decode);
    }

    /** Add one call's tokens and cost to the totals. */
    method AddUsage(inputTokens: nat, outputTokens: nat)
      requires Valid()
      modifies this
      ensures Valid() && available == old(available)
      ensures totalInputTokens == old(totalInputTokens) + inputTokens
      ensures totalOutputTokens == old(totalOutputTokens) + outputTokens
      ensures totalCostUsd == old(totalCostUsd) + CallCost(inputTokens, outputTokens)
    {
      var cost := CallCost(inputTokens, outputTokens);
      totalInputTokens := totalInputTokens + inputTokens;
      totalOutputTokens := totalOutputTokens + outputTokens;
      totalCostUsd := totalCostUsd + cost;
    }

    method GetUsageStats() returns (stats: UsageStats)
      ensures stats.totalInputTokens == totalInputTokens && stats.totalOutputTokens == totalOutputTokens
      ensures stats.totalTokens == totalInputTokens + totalOutputTokens
      ensures stats.totalCostUsd == totalCostUsd && stats.totalCostInr == totalCostUsd * UsdToInr
    {
      stats := UsageStats(totalInputTokens, totalOutputTokens, totalInputTokens + totalOutputTokens,
                          totalCostUsd, totalCostUsd * UsdToInr);
    }

    method ResetUsageStats()
      modifies this
      ensures totalInputTokens == 0 && totalOutputTokens == 0 && totalCostUsd == 0.0
      ensures available == old(available)
      ensures Valid()
    {
      totalInputTokens := 0;
      totalOutputTokens := 0;
      totalCostUsd := 0.0;
    }
  }
}
