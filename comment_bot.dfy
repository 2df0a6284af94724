/** The comment bot's commenter history: one record per commenter, updated
  * each time one of their comments is classified, plus the category emoji
  * lookup and the guard that turns an empty comment update into a no-op. */
module CommentBot {
  import opened Wrappers

  /** The seven counted categories, in the order the record lists its counters. */
  const CounterCategories: seq<string> :=
    ["price_objection", "doubt", "product_question", "negative", "positive", "complaint", "other"]

  const CountSuffix: string := "_count"

  /** The counter columns of a commenter record, in the same order. */
  const CounterKeys: seq<string> :=
    ["price_objection_count", "doubt_count", "product_question_count", "negative_count",
     "positive_count", "complaint_count", "other_count"]

  /** One count per counter column. */
  type Counters = s: seq<nat> | |s| == 7 witness [0, 0, 0, 0, 0, 0, 0]

  const NoCounts: Counters := [0, 0, 0, 0, 0, 0, 0]

  datatype CommenterRecord = CommenterRecord(
    name: string,
    totalComments: nat,
    counts: Counters,
    dominantCategory: Option<string>,
    dominantSentiment: Option<string>,
    ads: seq<string>,
    uniqueAdsCount: nat,
    isRepeatObjector: bool,
    isPotentialCustomer: bool,
    isTroll: bool)

  /** The first position of `x` in `xs`, if it occurs. */
  function IndexOf<T(==)>(xs: seq<T>, x: T): (r: Option<nat>)
    ensures r.Some? ==> r.value < |xs| && xs[r.value] == x
  {
    if xs == [] then None
    else if xs[0] == x then Some(0)
    else match IndexOf(xs[1..], x)
      case Some(i) => Some(i + 1)
      case None => None
  }

  /** The position found is the first one, and nothing is found only when `x` is absent. */
  lemma {:induction false} IndexOfFirst<T>(xs: seq<T>, x: T)
    ensures IndexOf(xs, x).Some? ==> x !in xs[..IndexOf(xs, x).value]
    ensures IndexOf(xs, x).None? <==> x !in xs
    decreases |xs|
  {
    if xs != [] && xs[0] != x {
      IndexOfFirst(xs[1..], x);
      assert xs == [xs[0]] + xs[1..];
      match IndexOf(xs[1..], x)
      case Some(i) =>
        assert xs[..i + 1] == [xs[0]] + xs[1..][..i];
      case None =>
    }
  }

  lemma {:induction false} IndexOfIs<T>(xs: seq<T>, x: T, i: nat)
    requires i < |xs| && xs[i] == x && x !in xs[..i]
    ensures IndexOf(xs, x) == Some(i)
    decreases i
  {
    if i > 0 {
      assert xs[0] in xs[..i];
      assert xs[1..][..i - 1] == xs[1..i];
      assert forall y :: y in xs[1..i] ==> y in xs[..i];
      IndexOfIs(xs[1..], x, i - 1);
    }
  }

  /** Equal strings stay equal once a common suffix is taken off. */
  lemma SuffixCancel(a: string, b: string, s: string)
    requires a + s == b + s
    ensures a == b
  {
    assert |a| == |b|;
    assert a == (a + s)[..|a|];
    assert b == (b + s)[..|b|];
  }

  lemma CounterKeysNameCategories()
    ensures forall i :: 0 <= i < 7 ==> CounterKeys[i] == CounterCategories[i] + CountSuffix
  {
    assert CounterKeys[0] == CounterCategories[0] + CountSuffix;
    assert CounterKeys[1] == CounterCategories[1] + CountSuffix;
    assert CounterKeys[2] == CounterCategories[2] + CountSuffix;
    assert CounterKeys[3] == CounterCategories[3] + CountSuffix;
    assert CounterKeys[4] == CounterCategories[4] + CountSuffix;
    assert CounterKeys[5] == CounterCategories[5] + CountSuffix;
    assert CounterKeys[6] == CounterCategories[6] + CountSuffix;
  }

  /** The counter a comment's category selects: none for a missing or empty
    * category, otherwise the counter column named after it, if there is one. */
  function CounterIndex(category: Option<string>): (r: Option<nat>)
    ensures r.Some? ==> r.value < 7
  {
    if category.None? || category.value == "" then None
    else IndexOf(CounterKeys, category.value + CountSuffix)
  }

  /** Looking the column up by `{category}_count` selects exactly the named
    * category: a known category selects its own counter, any other selects none. */
  lemma CounterIndexByName(category: Option<string>)
    ensures CounterIndex(category).Some? <==> category.Some? && category.value in CounterCategories
    ensures CounterIndex(category).Some? ==> CounterCategories[CounterIndex(category).value] == category.value
  {
    CounterKeysNameCategories();
    if category.Some? && category.value != "" {
      var key := category.value + CountSuffix;
      IndexOfFirst(CounterKeys, key);
      match IndexOf(CounterKeys, key)
      case Some(i) =>
        SuffixCancel(category.value, CounterCategories[i], CountSuffix);
      case None =>
    }
  }

  /** The counters after one comment: the counter at `k`, if any, goes up by one. */
  function BumpedAt(counts: Counters, k: Option<nat>): Counters
  {
    if k.Some? && k.value < 7 then counts[k.value := counts[k.value] + 1] else counts
  }

  /** The counters after one comment: the counter the category selects goes up by one. */
  function Bumped(counts: Counters, category: Option<string>): Counters
  {
    BumpedAt(counts, CounterIndex(category))
  }

  /** The counters of a commenter seen for the first time: the selected counter is one. */
  function Started(category: Option<string>): Counters
  {
    match CounterIndex(category)
    case Some(k) => NoCounts[k := 1]
    case None => NoCounts
  }

  function Largest(s: seq<nat>): nat
    decreases |s|
  {
    if s == [] then 0
    else if s[0] >= Largest(s[1..]) then s[0]
    else Largest(s[1..])
  }

  lemma {:induction false} LargestBounds(s: seq<nat>)
    ensures forall i :: 0 <= i < |s| ==> s[i] <= Largest(s)
    ensures s != [] ==> Largest(s) in s
    decreases |s|
  {
    if s != [] {
      LargestBounds(s[1..]);
      assert forall i :: 1 <= i < |s| ==> s[i] == s[1..][i - 1];
    }
  }

  /** The position of the dominant counter: the first one holding the largest
    * count, when that count is positive. */
  function DominantIndex(counts: Counters): Option<nat>
  {
    var top := Largest(counts);
    if top == 0 then None else IndexOf(counts, top)
  }

  /** The name, drawn from `names`, of the dominant counter. */
  function DominantIn(counts: Counters, names: seq<string>): Option<string>
  {
    match DominantIndex(counts)
    case Some(i) => if i < |names| then Some(names[i]) else None
    case None => None
  }

  function DominantOf(counts: Counters): Option<string>
  {
    DominantIn(counts, CounterCategories)
  }

  /** The dominant category is the first category with the most comments, and
    * there is none exactly when every counter is zero. */
  lemma DominantIndexMeaning(counts: Counters)
    ensures DominantIndex(counts).None? <==> forall j :: 0 <= j < 7 ==> counts[j] == 0
    ensures DominantIndex(counts).Some? ==>
      var i := DominantIndex(counts).value;
      i < 7 && counts[i] > 0 && DominantOf(counts) == Some(CounterCategories[i])
      && (forall j :: 0 <= j < 7 ==> counts[j] <= counts[i])
      && (forall j :: 0 <= j < i ==> counts[j] < counts[i])
  {
    LargestBounds(counts);
    var top := Largest(counts);
    if top != 0 {
      IndexOfFirst(counts, top);
      var i := IndexOf(counts, top).value;
      forall j | 0 <= j < i
        ensures counts[j] < counts[i]
      {
        assert counts[j] in counts[..i];
      }
    }
  }

  /** The dominant-category scan: the first counter equal to the maximum and
    * positive, named from `names`. */
  method DominantCategoryIn(counts: Counters, names: seq<string>) returns (dominant: Option<string>)
    requires |names| == |counts|
    ensures dominant == DominantIn(counts, names)
  {
    LargestBounds(counts);
    var maxCount := Largest(counts);
    dominant := None;
    var i := 0;
    while i < |counts|
      invariant 0 <= i <= |counts|
      invariant forall j :: 0 <= j < i ==> !(counts[j] == maxCount && counts[j] > 0)
    {
      if counts[i] == maxCount && counts[i] > 0 {
        assert maxCount !in counts[..i];
        IndexOfIs(counts, maxCount, i);
        dominant := Some(names[i]);
        return;
      }
      i := i + 1;
    }
  }

  method DominantCategory(counts: Counters) returns (dominant: Option<string>)
    ensures dominant == DominantOf(counts)
  {
    dominant := DominantCategoryIn(counts, CounterCategories);
  }

  function Count(counts: Counters, category: string): nat
  {
    match IndexOf(CounterCategories, category)
    case Some(i) => counts[i]
    case None => 0
  }

  /** An ad name counts only when it is given and non-empty. */
  predicate Named(adName: Option<string>)
  {
    adName.Some? && adName.value != ""
  }

  /** The ads a commenter has commented on: a named ad not yet listed is appended. */
  function AdsAfter(ads: seq<string>, adName: Option<string>): seq<string>
  {
    if Named(adName) && adName.value !in ads then ads + [adName.value] else ads
  }

  predicate Distinct(s: seq<string>)
  {
    forall i, j :: 0 <= i < j < |s| ==> s[i] != s[j]
  }

  /** What every stored record keeps: the unique-ads count is the length of a
    * list of distinct, non-empty ad names. */
  predicate WellFormed(r: CommenterRecord)
  {
    r.uniqueAdsCount == |r.ads| && Distinct(r.ads) && forall k :: 0 <= k < |r.ads| ==> r.ads[k] != ""
  }

  /** The record after one comment by this commenter, given their record so far. */
  function Upserted(existing: Option<CommenterRecord>, name: string, category: Option<string>,
                    sentiment: Option<string>, adName: Option<string>): CommenterRecord
  {
    match existing
    case Some(e) => RecordAfter(e, name, Bumped(e.counts, category), AdsAfter(e.ads, adName), sentiment)
    case None =>
      var ads := if Named(adName) then [adName.value] else [];
      CommenterRecord(name, 1, Started(category), category, sentiment, ads, |ads|, false, false, false)
  }

  /** An existing record once its counters and ads list are updated: one more
    * comment, the dominant category and the flags recomputed from the counters,
    * and the sentiment replaced only when one is given. */
  function RecordAfter(e: CommenterRecord, name: string, counts: Counters, ads: seq<string>,
                       sentiment: Option<string>): CommenterRecord
  {
    RecordAfterIn(e, name, counts, ads, sentiment, CounterCategories)
  }

  /** The same, with the dominant category named from `names`. */
  function RecordAfterIn(e: CommenterRecord, name: string, counts: Counters, ads: seq<string>,
                         sentiment: Option<string>, names: seq<string>): CommenterRecord
  {
    CommenterRecord(name, e.totalComments + 1, counts, DominantIn(counts, names),
      if sentiment.Some? then sentiment else e.dominantSentiment,
      ads, |ads|, counts[0] >= 3, counts[2] >= 2 || counts[4] >= 2, counts[3] >= 3 || counts[5] >= 3)
  }

  /** The counters a new comment starts from. */
  function BaseCounts(existing: Option<CommenterRecord>): Counters
  {
    match existing
    case Some(e) => e.counts
    case None => NoCounts
  }

  function BaseTotal(existing: Option<CommenterRecord>): nat
  {
    match existing
    case Some(e) => e.totalComments
    case None => 0
  }

  /** Every comment adds exactly one to the total, and one to the counter of its
    * category when that is one of the seven; every other counter is unchanged. */
  lemma UpsertCounts(existing: Option<CommenterRecord>, name: string, category: Option<string>,
                     sentiment: Option<string>, adName: Option<string>)
    ensures var r := Upserted(existing, name, category, sentiment, adName);
      r.totalComments == BaseTotal(existing) + 1
      && r.name == name
      && forall i :: 0 <= i < 7 ==>
        r.counts[i] == BaseCounts(existing)[i]
          + (if category.Some? && category.value == CounterCategories[i] then 1 else 0)
  {
    BumpedCounts(BaseCounts(existing), category);
    StartedIsBumped(category);
  }

  lemma StartedIsBumped(category: Option<string>)
    ensures Started(category) == Bumped(NoCounts, category)
  {
  }

  /** Bumping adds one to the counter named by the category, and to no other. */
  lemma BumpedCounts(base: Counters, category: Option<string>)
    ensures forall i :: 0 <= i < 7 ==>
      Bumped(base, category)[i] == base[i] + (if category.Some? && category.value == CounterCategories[i] then 1 else 0)
  {
    CounterIndexByName(category);
    CategoriesAllDistinct();
  }

  /** An unknown, empty or missing category leaves every counter as it was. */
  lemma UnknownCategoryCountsNothing(existing: Option<CommenterRecord>, name: string, category: Option<string>,
                                     sentiment: Option<string>, adName: Option<string>)
    requires category.None? || category.value !in CounterCategories
    ensures Upserted(existing, name, category, sentiment, adName).counts == BaseCounts(existing)
  {
    CounterIndexByName(category);
  }

  /** A named ad is appended exactly when it is not listed yet, the unique-ads
    * count is the list's length, and a well-formed record stays well formed. */
  lemma UpsertAds(existing: Option<CommenterRecord>, name: string, category: Option<string>,
                  sentiment: Option<string>, adName: Option<string>)
    requires existing.Some? ==> WellFormed(existing.value)
    ensures var r := Upserted(existing, name, category, sentiment, adName);
      var before := if existing.Some? then existing.value.ads else [];
      WellFormed(r)
      && (Named(adName) && adName.value !in before ==> r.ads == before + [adName.value])
      && (!Named(adName) || adName.value in before ==> r.ads == before)
  {
  }

  /** The flags follow the counters: a repeat objector has at least three price
    * objections, a potential customer at least two product questions or two
    * positive comments, a troll at least three negative comments or three complaints. */
  lemma UpsertFlags(existing: CommenterRecord, name: string, category: Option<string>,
                    sentiment: Option<string>, adName: Option<string>)
    ensures var r := Upserted(Some(existing), name, category, sentiment, adName);
      (r.isRepeatObjector <==> Count(r.counts, "price_objection") >= 3)
      && (r.isPotentialCustomer <==> Count(r.counts, "product_question") >= 2 || Count(r.counts, "positive") >= 2)
      && (r.isTroll <==> Count(r.counts, "negative") >= 3 || Count(r.counts, "complaint") >= 3)
  {
    CountByName(Upserted(Some(existing), name, category, sentiment, adName).counts);
  }

  lemma CountByName(counts: Counters)
    ensures Count(counts, "price_objection") == counts[0]
    ensures Count(counts, "product_question") == counts[2]
    ensures Count(counts, "negative") == counts[3]
    ensures Count(counts, "positive") == counts[4]
    ensures Count(counts, "complaint") == counts[5]
  {
    CategoriesAllDistinct();
    IndexOfDistinct(CounterCategories, 0);
    IndexOfDistinct(CounterCategories, 2);
    IndexOfDistinct(CounterCategories, 3);
    IndexOfDistinct(CounterCategories, 4);
    IndexOfDistinct(CounterCategories, 5);
  }

  lemma CategoriesAllDistinct()
    ensures forall i, j :: 0 <= i < j < 7 ==> CounterCategories[i] != CounterCategories[j]
  {
  }

  /** In a list without repeats every element is found at its own position. */
  lemma IndexOfDistinct<T>(xs: seq<T>, i: nat)
    requires i < |xs| && forall j, k :: 0 <= j < k < |xs| ==> xs[j] != xs[k]
    ensures IndexOf(xs, xs[i]) == Some(i)
  {
    IndexOfIs(xs, xs[i], i);
  }

  /** An update recomputes the dominant category from the new counters and keeps
    * the previous sentiment when none is given. A first comment records its
    * category as given, which agrees with the counters whenever the category is
    * one of the seven. */
  lemma UpsertDominant(existing: Option<CommenterRecord>, name: string, category: Option<string>,
                       sentiment: Option<string>, adName: Option<string>)
    ensures var r := Upserted(existing, name, category, sentiment, adName);
      (existing.Some? ==>
        r.dominantCategory == DominantOf(r.counts)
        && r.dominantSentiment == (if sentiment.Some? then sentiment else existing.value.dominantSentiment))
      && (existing.None? ==> r.dominantCategory == category && r.dominantSentiment == sentiment)
      && (existing.None? && category.Some? && category.value in CounterCategories ==>
        r.dominantCategory == DominantOf(r.counts))
  {
    if existing.None? && category.Some? && category.value in CounterCategories {
      StartedDominant(category);
    }
  }

  /** A first comment in one of the seven categories makes that category dominant. */
  lemma StartedDominant(category: Option<string>)
    requires category.Some? && category.value in CounterCategories
    ensures DominantOf(Started(category)) == category
  {
    CounterIndexByName(category);
    var k := CounterIndex(category).value;
    var counts := Started(category);
    assert counts == NoCounts[k := 1];
    LargestBounds(counts);
    assert Largest(counts) == 1 by {
      assert counts[k] == 1;
      assert forall j :: 0 <= j < 7 ==> counts[j] <= 1;
    }
    assert forall j :: 0 <= j < k ==> counts[j] == 0;
    assert 1 !in counts[..k];
    IndexOfIs(counts, 1, k);
  }

  /** The commenter history table, keyed by the commenter's id. */
  class CommenterHistory {
    var records: map<string, CommenterRecord>

    ghost predicate Valid()
      reads this
    {
      forall id :: id in records ==> WellFormed(records[id])
    }

    constructor()
      ensures records == map[] && Valid()
    {
      records := map[];
    }

    /** Create or update the record of a commenter after one more comment. */
    method Upsert(commenterId: string, commenterName: string, category: Option<string>,
                  sentiment: Option<string>, adName: Option<string>) returns (ok: bool)
      requires Valid()
      modifies this
      ensures Valid() && ok
      ensures records == old(records)[commenterId :=
        Upserted(if commenterId in old(records) then Some(old(records)[commenterId]) else None,
                 commenterName, category, sentiment, adName)]
    {
      ghost var existing := if commenterId in records then Some(records[commenterId]) else None;
      UpsertAds(existing, commenterName, category, sentiment, adName);
      var r;
      if commenterId in records {
        r := UpdatedRecord(records[commenterId], commenterName, category, sentiment, adName);
      } else {
        r := CreatedRecord(commenterName, category, sentiment, adName);
      }
      records := records[commenterId := r];
      ok := true;
    }
  }

  /** The update of an existing record: one more comment, the category's
    * counter bumped, the ad appended when new, then the dominant category
    * and the flags recomputed. */
  method UpdatedRecord(e: CommenterRecord, commenterName: string, category: Option<string>,
                       sentiment: Option<string>, adName: Option<string>) returns (r: CommenterRecord)
    ensures r == Upserted(Some(e), commenterName, category, sentiment, adName)
  {
    r := UpdatedRecordWith(e, commenterName, CounterIndex(category), sentiment, adName, CounterCategories);
  }

  /** The update with the selected counter `k` and the category names given. */
  method UpdatedRecordWith(e: CommenterRecord, commenterName: string, k: Option<nat>,
                           sentiment: Option<string>, adName: Option<string>, names: seq<string>)
    returns (r: CommenterRecord)
    requires |names| == 7
    ensures r == RecordAfterIn(e, commenterName, BumpedAt(e.counts, k), AdsAfter(e.ads, adName), sentiment, names)
  {
    var total := e.totalComments + 1;
    var counts := e.counts;
    if k.Some? && k.value < 7 {
      counts := counts[k.value := counts[k.value] + 1];
    }
    var ads := AppendAd(e.ads, adName);
    var dominant := DominantCategoryIn(counts, names);
    var repeatObjector := counts[0] >= 3;
    var potentialCustomer := counts[2] >= 2 || counts[4] >= 2;
    var troll := counts[3] >= 3 || counts[5] >= 3;
    var keptSentiment := if sentiment.Some? then sentiment else e.dominantSentiment;
    assert counts == BumpedAt(e.counts, k);
    r := CommenterRecord(commenterName, total, counts, dominant, keptSentiment,
      ads, |ads|, repeatObjector, potentialCustomer, troll);
  }

  /** Append a named ad to the list unless it is already there. */
  method AppendAd(ads: seq<string>, adName: Option<string>) returns (after: seq<string>)
    ensures after == AdsAfter(ads, adName)
  {
    after := ads;
    if Named(adName) && adName.value !in after {
      after := after + [adName.value];
    }
  }

  /** The record of a first comment: every counter zero but the category's, which is one. */
  method CreatedRecord(commenterName: string, category: Option<string>, sentiment: Option<string>,
                       adName: Option<string>) returns (r: CommenterRecord)
    ensures r == Upserted(None, commenterName, category, sentiment, adName)
  {
    var counts := NoCounts;
    var k := CounterIndex(category);
    if k.Some? {
      counts := counts[k.value := 1];
    }
    var ads := if Named(adName) then [adName.value] else [];
    r := CommenterRecord(commenterName, 1, counts, category, sentiment, ads, |ads|, false, false, false);
  }

  /** The categories as the interface lists them: name, label and emoji. */
  const CommentCategories: seq<(string, string, string)> := [
    ("price_objection", "Price Objection", "💰"),
    ("doubt", "Doubt/Skepticism", "🤔"),
    ("product_question", "Product Question", "❓"),
    ("positive", "Positive/Interest", "😊"),
    ("negative", "Negative Feedback", "😞"),
    ("complaint", "Complaint", "😤"),
    ("other", "Other", "📝")]

  const DefaultEmoji: string := "📝"

  /** The emoji of the first table entry named `category`, or the default. */
  function EmojiIn(table: seq<(string, string, string)>, category: string): string
  {
    if table == [] then DefaultEmoji
    else if table[0].0 == category then table[0].2
    else EmojiIn(table[1..], category)
  }

  function CategoryEmoji(category: string): string
  {
    EmojiIn(CommentCategories, category)
  }

  lemma {:induction false} EmojiInAt(table: seq<(string, string, string)>, i: nat)
    requires i < |table| && forall j :: 0 <= j < i ==> table[j].0 != table[i].0
    ensures EmojiIn(table, table[i].0) == table[i].2
    decreases i
  {
    if i > 0 {
      EmojiInAt(table[1..], i - 1);
    }
  }

  lemma {:induction false} EmojiInMissing(table: seq<(string, string, string)>, category: string)
    requires forall j :: 0 <= j < |table| ==> table[j].0 != category
    ensures EmojiIn(table, category) == DefaultEmoji
    decreases |table|
  {
    if table != [] {
      EmojiInMissing(table[1..], category);
    }
  }

  /** Each listed category gets its own emoji and any other string the default. */
  lemma CategoryEmojiLookup(category: string)
    ensures forall i :: 0 <= i < |CommentCategories| && CommentCategories[i].0 == category ==>
      CategoryEmoji(category) == CommentCategories[i].2
    ensures (forall i :: 0 <= i < |CommentCategories| ==> CommentCategories[i].0 != category) ==>
      CategoryEmoji(category) == DefaultEmoji
  {
    forall i | 0 <= i < |CommentCategories| && CommentCategories[i].0 == category
      ensures CategoryEmoji(category) == CommentCategories[i].2
    {
      EmojiInAt(CommentCategories, i);
    }
    if forall i :: 0 <= i < |CommentCategories| ==> CommentCategories[i].0 != category {
      EmojiInMissing(CommentCategories, category);
    }
  }

  /** The stored comments, keyed by their Facebook id, each a map of field values. */
  class CommentTable {
    var comments: map<string, map<string, string>>

    constructor()
      ensures comments == map[]
    {
      comments := map[];
    }

    /** Overwrite the given fields of one comment. An empty update does nothing
      * and reports failure; otherwise success means the comment existed. */
    method UpdateComment(commentId: string, updates: map<string, string>) returns (ok: bool)
      modifies this
      ensures |updates| == 0 ==> !ok && comments == old(comments)
      ensures |updates| > 0 ==> ok == (commentId in old(comments))
      ensures |updates| > 0 && commentId in old(comments) ==>
        comments == old(comments)[commentId := old(comments)[commentId] + updates]
      ensures commentId !in old(comments) ==> comments == old(comments)
    {
      if |updates| == 0 {
        return false;
      }
      if commentId in comments {
        comments := comments[commentId := comments[commentId] + updates];
        ok := true;
      } else {
        ok := false;
      }
    }
  }
}
