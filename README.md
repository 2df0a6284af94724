# guitarbro-dashboard core, modelled in Dafny

The dashboard serves an online guitar-course business. This project models
its decision logic and the data plumbing around it. Each module follows one
Python source file.

- **Ad scaling engine** (`AdScaling`, `src/ad_scaling_logic.py`).
  - It reads one ad's daily Facebook-Ads history.
  - It first puts the ad in a spend phase: LAUNCH below 5,000 INR, VALIDATION
    below 15,000 INR, LONGEVITY from 15,000 INR on.
  - It then decides KILL, LAST CHANCE, MONITOR or CONTINUE from these inputs:
    - the stop loss: 1,000 INR per purchase, minus spend;
    - a 3..12 creative score built from CTR, hook-rate and CPM tiers;
    - a trend over the last three days;
    - the stop-loss trajectory since the 5,000 INR mark;
    - a multi-window ROAS decay pattern over the most recent 3k/5k/7k/10k INR
      of spend.
- **Ads data module** (`FbAds`, `src/fb_ads_module.py`).
  - Covers the dashboard's older ad score and its recommendation, and the
    trend arrows.
  - Covers true, rolling and last-X-spend ROAS, and the weighted average.
  - Covers the column mapping into the scaling engine.
  - Covers the composite-key upsert of ad rows with its new/updated/unchanged
    counters.
- **Hosted ads table** (`SupabaseFbAds`, `src/supabase_fb_ads_db.py`).
  - Covers the column-name translation to and from the hosted table, and its
    round trip.
  - Covers the hosted upsert loop.
- **Logistics parsers** (`LogisticsParsers`, `src/logistics_parsers.py`).
  - Covers phone, order-id and e-mail normalisation, and the safe casts.
  - Covers payment classification.
  - Covers the Shopify export aggregation: line items grouped into orders.
  - Covers the Prozo shipment import with its status mapping.
- **Logistics engine** (`LogisticsEngine`, `src/logistics_engine.py`).
  - Covers matching Shopify orders to Prozo shipments into unified rows, with
    dispatch bands, refund, cancellation and revenue category.
  - Covers the dashboard metrics and the grouped breakdowns.
- **User journey tracker**, in three modules:
  - `JourneyLoader` (`user-journey-tracker/data_loader.py`): the CSV loaders;
  - `JourneyMatching` (`user-journey-tracker/matching_engine.py`): matching a
    Zoom participant to an order by exact e-mail, then fuzzy e-mail, then
    exact name, then fuzzy name, each step with its fixed confidence;
  - `JourneyUsers` (`user-journey-tracker/matching_engine.py`): the
    unified-user table and the per-meeting statistics.
  - `src/user_journey_module.py` is a copy of these three files for the
    dashboard. Its normalisers, extractors, matcher and statistics are the
    same, so each is defined once. The one difference: a new or imported user
    takes city, state and pincode from the billing address only, never the
    shipping one. `JourneyUsers.UnifiedUsers` has a flag for this.
- **Comment bot**, in three modules:
  - `CommentBot` (`src/fb_comment_bot_module.py`): the comment table and the
    commenter history with its dominant category;
  - `CommentClassifier` (`src/comment_classifier.py`): the comment classifier
    and its reply parsing and usage counters;
  - `FacebookApi` (`src/facebook_api.py`): the Graph API client's error
    classification, retry loop, comment pagination, reply guard and storage
    formatting.
- **Shared helpers:**
  - `Text`: ASCII strip, case mapping, substring search and digit scanning;
  - `Wrappers`: `Option` and `Result`.

Modelling conventions:
- Money, rates and percentages are `real`.
- A missing cell is an `Option`.
- The database, HTTP, the model vendor and the clock are not modelled. Where the
  logic depends on what they return, that is a parameter: lookups,
  write results, attempt outcomes, parsed numbers and similarity ratios.
- Loops in the source are methods with loop invariants. Each is proved equal
  to a recursive specification function, and the properties are proved about
  that function.
- Objects whose state the source updates in place are classes:
  - the unified-order table;
  - the unified-user table;
  - the commenter history;
  - the comment table;
  - the classifier's usage counters.

One place where the code and its own comments disagree, and the model follows
the code: the module's self-test in `src/ad_scaling_logic.py` expects scores
12 and 9 for its first two examples. The tiers as written give 11 and 8, and
`AdScaling.SelfCheckExamples` proves 11 and 8.

## Model

Definitions without a contract of their own (CategorizeDispatch, ClassifyDecayPattern, CompositeKey, Match, Classify, Upserted, Aggregate, ToSupabase and the like) have no row: each is covered by the rows of the lemmas and methods that state its properties.

| member | source | states |
|---|---|---|
| AdScaling.SortByDate | src/ad_scaling_logic.py:713 | the history comes back in ascending date order, as a permutation of the input |
| AdScaling.Truncate | src/ad_scaling_logic.py:721 | Python's `int()` of a float, truncation toward zero on both signs |
| AdScaling.StopLoss | src/ad_scaling_logic.py:64-66 | stop loss plus spend is 1,000 INR per purchase; non-negative exactly when spend is covered |
| AdScaling.ScalingRoas | src/ad_scaling_logic.py:69-73 | 0 for no spend, otherwise ROAS times spend is the conversion value |
| AdScaling.CtrPoints | src/ad_scaling_logic.py:99-106 | the CTR tier is worth 1..4 points |
| AdScaling.HookPoints | src/ad_scaling_logic.py:108-117 | the hook-rate tier is worth 1..4 points |
| AdScaling.CpmPoints | src/ad_scaling_logic.py:119-127 | the CPM tier is worth 1..4 points |
| AdScaling.ScalingAdScore | src/ad_scaling_logic.py:76-129 | the score lies in 3..12; 12 exactly when all three metrics reach their top tier, 3 exactly when all are in their bottom tier |
| AdScaling.DayScore | src/ad_scaling_logic.py:725-739 | the per-day score added to every row lies in 3..12 |
| AdScaling.HookFractionAndPercentAgree | src/ad_scaling_logic.py:109 | a hook rate given as a fraction scores like the same rate given in percent |
| AdScaling.ScalingAdScoreMonotone | src/ad_scaling_logic.py:76-129 | a better CTR, a better hook rate or a cheaper CPM never lowers the score |
| AdScaling.SelfCheckExamples | src/ad_scaling_logic.py:864-878 | the module's own score, stop-loss and phase examples (scores 11, 8, 3 as the tiers compute them) |
| AdScaling.ChangeBeyondTenPercent | src/ad_scaling_logic.py:165-170 | for a positive day-1 value, the percentage change passes +10 exactly when the average exceeds 110% of day 1, and passes -10 exactly when it is below 90% |
| AdScaling.MetricPoints | src/ad_scaling_logic.py:164-194 | a metric scores +1 exactly when it improved (day 1 positive and the average beyond 110% of it, or below 90% for CPM), -1 exactly when it declined the other way, and 0 otherwise, including a non-positive day 1 |
| AdScaling.CpmScoredInReverse | src/ad_scaling_logic.py:188-194 | CPM is scored with the opposite sign: a fall is an improvement |
| AdScaling.Scores | src/ad_scaling_logic.py:156 | the score column holds each day's score |
| AdScaling.PointsOf | src/ad_scaling_logic.py:161-194 | the summed metric points are the number of improved metrics minus the number of declined ones |
| AdScaling.TrendPoints | src/ad_scaling_logic.py:155-194 | the trend points are the number of the four metrics that improved minus the number that declined, so within -4..4 |
| AdScaling.TrendOfPoints | src/ad_scaling_logic.py:196-202 | IMPROVING exactly at 2 points or more, DECLINING exactly at -2 or less, STABLE otherwise |
| AdScaling.CalculateTrend | src/ad_scaling_logic.py:136-202 | N/A exactly below three days; otherwise, over the date-sorted history, IMPROVING exactly when improvements outnumber declines by two or more, DECLINING exactly when declines outnumber improvements by two or more, STABLE exactly in between |
| AdScaling.CalculateTrajectory | src/ad_scaling_logic.py:205-222 | N/A exactly without a 5k stop loss; IMPROVING exactly above +300 INR, WORSENING exactly below -300 INR |
| AdScaling.FirstReach | src/ad_scaling_logic.py:246-261 | the window is the shortest non-empty prefix whose spend reaches the threshold; none exists when no prefix reaches it |
| AdScaling.FirstReachUnique | src/ad_scaling_logic.py:246-261 | any minimal reaching prefix is the window found |
| AdScaling.FirstReachNone | src/ad_scaling_logic.py:263-264 | when no prefix reaches the threshold there is no window |
| AdScaling.AccumulateWindow | src/ad_scaling_logic.py:246-264 | the accumulate-and-break loop returns the ROAS of that window, or None |
| AdScaling.ComputeLastXSpendRoas | src/ad_scaling_logic.py:229-266 | newest-first sort and the loop compute the last-X-spend ROAS |
| AdScaling.WindowsNested | src/ad_scaling_logic.py:229-266 | a window that exists for a larger threshold exists for every smaller one |
| AdScaling.LastXSpendRoasNoneIffShort | src/ad_scaling_logic.py:241-264 | with non-negative spend, the window is missing exactly when the whole history spent less than the threshold |
| AdScaling.SortedTotals | src/ad_scaling_logic.py:713-718 | sorting the history changes none of the spend, purchase and value totals |
| AdScaling.ComputeAllSpendWindows | src/ad_scaling_logic.py:269-280 | the four Longevity windows; L10K present implies L7K, L7K implies L5K, L5K implies L3K |
| AdScaling.PrefixUntilExit | src/ad_scaling_logic.py:761-770 | the forward loop stops at the first prefix reaching 5,000 INR, or at the end |
| AdScaling.AccumulateUntil | src/ad_scaling_logic.py:761-768 | the loop's spend and purchase totals are those of that prefix |
| AdScaling.ComputeStopLossAt5k | src/ad_scaling_logic.py:757-770 | the stop loss at the 5k mark, over the prefix the loop stops at |
| AdScaling.CalculateDecay | src/ad_scaling_logic.py:287-295 | 0 for a non-positive baseline; otherwise positive exactly when ROAS fell, 0 exactly when unchanged, and the current ROAS is the baseline scaled down by the decay |
| AdScaling.DecayPatternRules | src/ad_scaling_logic.py:298-372 | no decays without a baseline; one decay per present window; INSUFFICIENT DATA exactly when L3K or L7K is missing; the velocity is L3K decay minus L7K decay |
| AdScaling.MissingWindowsFilled | src/ad_scaling_logic.py:344-347 | a missing L5K counts as L3K, a missing L10K as L7K |
| AdScaling.StrictlyWorseningIsAccelerating | src/ad_scaling_logic.py:353-358 | decays worsening strictly from L10K to L3K classify as ACCELERATING |
| AdScaling.DecaySelfCheck | src/ad_scaling_logic.py:881-886 | the module's decay example: decays 30, 70/3, 50/3 and 10, pattern ACCELERATING, velocity 40/3 |
| AdScaling.DetectPhase | src/ad_scaling_logic.py:379-390 | LAUNCH exactly below 5,000 INR, VALIDATION exactly in 5,000..15,000 INR, LONGEVITY exactly from 15,000 INR |
| AdScaling.DetectPhaseMonotone | src/ad_scaling_logic.py:379-390 | more spend never moves an ad to an earlier phase |
| AdScaling.LaunchPhaseStatus | src/ad_scaling_logic.py:397-476 | the Launch verdict is one of the four statuses |
| AdScaling.LaunchHardStops | src/ad_scaling_logic.py:414-430 | MONITOR while learning below 2,500 INR; KILL below the hard stop; LAST CHANCE at best below the critical stop loss |
| AdScaling.LaunchMonotoneInScore | src/ad_scaling_logic.py:432-476 | a higher ad score never worsens the Launch verdict |
| AdScaling.LaunchMonotoneInStopLoss | src/ad_scaling_logic.py:422-476 | a better stop loss never worsens the Launch verdict |
| AdScaling.ValidationPhaseStatus | src/ad_scaling_logic.py:483-565 | the Validation verdict is one of the four statuses |
| AdScaling.ValidationHardStops | src/ad_scaling_logic.py:505-521 | KILL below the hard stop and in the warning zone when worsening; CONTINUE when profitable with acceptable ROAS |
| AdScaling.ValidationMonotoneInRoas | src/ad_scaling_logic.py:512-565 | a higher ROAS never worsens the Validation verdict |
| AdScaling.LongevityPhaseStatus | src/ad_scaling_logic.py:572-680 | the Longevity verdict is one of the four statuses |
| AdScaling.LongevityRules | src/ad_scaling_logic.py:604-645 | KILL below ROAS 2.0; at least MONITOR in the safe zone; a recovering pattern gives CONTINUE in the good zone and MONITOR in the concern zone |
| AdScaling.AdStatusOf | src/ad_scaling_logic.py:687-812 | an empty history gets a no-phase MONITOR; otherwise the phase of the total spend, MONITOR below 2,500 INR, KILL from 15,000 INR at a ROAS below 2.0 |
| AdScaling.PhaseStatus | src/ad_scaling_logic.py:742-812 | the phase dispatch keeps the learning-spend and low-ROAS rules |
| AdScaling.GetAdStatus | src/ad_scaling_logic.py:687-812 | the orchestrator with its loops computes `AdStatusOf` |
| AdScaling.RowFor | src/ad_scaling_logic.py:830-848 | an ad whose history fails to load, or whose status computation raises, gets an error row carrying the message; otherwise its row is its status |
| AdScaling.StatusRowOf | src/ad_scaling_logic.py:830-848 | the loop body computes the ad's batch row |
| AdScaling.AllRows | src/ad_scaling_logic.py:819-850 | one row per ad name |
| AdScaling.AllRowsAt | src/ad_scaling_logic.py:819-850 | row i is the row of ad i, so the rows follow the names in order and one failing ad leaves the others' rows as they are |
| AdScaling.GetAllAdsStatus | src/ad_scaling_logic.py:819-850 | the batch loop computes the rows of all the ads |
| FbAds.RecommendationFor | src/fb_ads_module.py:256-263 | Scale exactly at 10 or more, Test exactly at 8..9, Rework exactly at 6..7, Kill exactly below 6 |
| FbAds.DecimalHookPoints | src/fb_ads_module.py:232-240 | the hook tier on the decimal form of the rate is worth 1..4 points |
| FbAds.CalculateAdScore | src/fb_ads_module.py:207-265 | the score lies in 3..12 and carries the recommendation of its score |
| FbAds.MissingInputsScoreLowest | src/fb_ads_module.py:214-220 | missing CTR, hook rate and CPM drop every component to its lowest tier; a missing CPM scores as 999 |
| FbAds.ScoresAgreeOnFractions | src/fb_ads_module.py:222-253 | for a hook rate given as a fraction below 1 this score equals the scaling engine's score |
| FbAds.ScoresDisagreeOnPercentForm | src/fb_ads_module.py:232-240 | a hook rate written in percent scores top tier here and bottom tier in the scaling engine |
| FbAds.TrendArrow | src/fb_ads_module.py:268-280 | flat when there is no previous value; up exactly above a +5% change and down exactly below -5% otherwise |
| FbAds.SpendColumn | src/fb_ads_module.py:308 | the coerced spend column: a non-numeric cell counts as 0 |
| FbAds.ValueColumn | src/fb_ads_module.py:307 | the coerced conversion-value column: a non-numeric cell counts as 0 |
| FbAds.TrueRoas | src/fb_ads_module.py:300-311 | 0 for no rows or zero total spend; otherwise ROAS times total spend is the total conversion value |
| FbAds.RatioOrZero | src/fb_ads_module.py:330 | 0 for a window without spend; otherwise value over spend |
| FbAds.CalculateRollingRoas | src/fb_ads_module.py:314-331 | one entry per row; None exactly for the first days-1 rows; otherwise the value-over-spend ratio of the last `days` rows |
| FbAds.LastSpendEntryDefined | src/fb_ads_module.py:344-347 | an entry is None exactly while the spend so far is below the threshold |
| FbAds.CalculateLastSpendRoas | src/fb_ads_module.py:334-357 | one entry per row, the ROAS of the shortest backward window reaching the threshold, None exactly while the spend so far is below it |
| FbAds.Complete | src/fb_ads_module.py:372 | `dropna()`: a pair is kept exactly when some row has both a value and a weight and carries it |
| FbAds.WeightedAverage | src/fb_ads_module.py:367-376 | 0 without complete rows or with weights summing to 0; otherwise average times total weight is the sum of value times weight |
| FbAds.Mean | src/fb_ads_module.py:367-376 | the plain mean the weighted average reduces to |
| FbAds.EqualWeightsGiveMean | src/fb_ads_module.py:367-376 | with one common non-zero weight the weighted average is the plain mean |
| FbAds.TargetsAreMapValues | src/fb_ads_module.py:65-75 | the target columns are exactly the values of the scaling column map |
| FbAds.Names | src/fb_ads_module.py:80 | the column names of a frame, in order |
| FbAds.MapColumnsForScaling | src/fb_ads_module.py:78-85 | known columns are renamed in place with their cells kept; every target column then exists; appended columns are missing targets filled with 0, none added twice |
| FbAds.SplitOn | src/fb_ads_module.py:403 | splitting at a separator gives at least one part |
| FbAds.CompositeKeyFields | src/fb_ads_module.py:398-403 | a composite key splits back into its four fields when no field contains the separator |
| FbAds.CompositeKeyInjective | src/fb_ads_module.py:398-403 | two rows without '\|' in their fields share a key only when all four fields agree |
| FbAds.CountRow | src/fb_ads_module.py:518-527 | each row raises exactly one of the three counters |
| FbAds.UploadOutcomeWith | src/fb_ads_module.py:396-527 | after the upload the counters have grown by the number of rows |
| FbAds.UploadFbAdsData | src/fb_ads_module.py:382-530 | the upload loop computes the counters and stored keys of `UploadOutcome`; new + updated + unchanged is the number of rows |
| FbAds.UploadRows | src/fb_ads_module.py:396-527 | the same loop with the key function as a parameter |
| FbAds.AllKeysStored | src/fb_ads_module.py:455-516 | when every write succeeds every key ends up stored |
| FbAds.NewRowsAreFreshKeys | src/fb_ads_module.py:406-524 | when every write succeeds the new-row counter grows by the number of distinct keys not stored before |
| FbAds.WrittenStep | src/fb_ads_module.py:518-524 | a successful first write stores its key and counts it as new exactly when the key was unknown |
| SupabaseFbAds.Clean | src/supabase_fb_ads_db.py:89-91 | NaN and None become None; every other value is kept |
| SupabaseFbAds.Swapped | src/supabase_fb_ads_db.py:66 | the reverse map swaps every pair |
| SupabaseFbAds.WithId | src/supabase_fb_ads_db.py:102-104 | the id is copied when present; every other key is left as converted |
| SupabaseFbAds.RenameColumns | src/supabase_fb_ads_db.py:85-92 | the conversion loop builds the renamed row |
| SupabaseFbAds.ConvertRowToSupabase | src/supabase_fb_ads_db.py:83-93 | the forward conversion |
| SupabaseFbAds.ConvertRowFromSupabase | src/supabase_fb_ads_db.py:96-105 | the backward conversion, then the id |
| SupabaseFbAds.RenamedKeys | src/supabase_fb_ads_db.py:86-92 | a target key is present exactly when one of its source keys is |
| SupabaseFbAds.RenamedValue | src/supabase_fb_ads_db.py:86-92 | with distinct targets each present source value lands under its own target, cleaned when asked |
| SupabaseFbAds.ToSupabaseKeepsMappedKeys | src/supabase_fb_ads_db.py:83-93 | the forward conversion keeps only mapped keys and leaves no NaN |
| SupabaseFbAds.ToSupabaseDistinct | src/supabase_fb_ads_db.py:25-63 | no two export headers share a hosted column name |
| SupabaseFbAds.IdIsNotATarget | src/supabase_fb_ads_db.py:25-63 | "id" is not a hosted column name of the map |
| SupabaseFbAds.RoundTripKeys | src/supabase_fb_ads_db.py:66-105 | the headers present after the round trip are exactly the mapped headers of the row |
| SupabaseFbAds.RoundTripValue | src/supabase_fb_ads_db.py:66-105 | each mapped header holds its cleaned original value after the round trip |
| SupabaseFbAds.RoundTripOver | src/supabase_fb_ads_db.py:66-105 | the round trip over any map whose targets are distinct and exclude "id" |
| SupabaseFbAds.RoundTrip | src/supabase_fb_ads_db.py:25-105 | converting to hosted names and back gives the row restricted to the mapped headers, with NaN turned into None |
| SupabaseFbAds.LastWriter | src/supabase_fb_ads_db.py:99-101 | every value in a renamed row comes from a pair that targets that key |
| SupabaseFbAds.PreparedRowCarriesKey | src/supabase_fb_ads_db.py:126-146 | the upserted row carries the same composite key as the rows in the ads module |
| SupabaseFbAds.OutcomeOf | src/supabase_fb_ads_db.py:148-160 | unchanged exactly when the upsert failed; updated exactly when it succeeded on a known key |
| SupabaseFbAds.CountOutcome | src/supabase_fb_ads_db.py:120-160 | each counter is at most the number of rows |
| SupabaseFbAds.CountsPartitionRows | src/supabase_fb_ads_db.py:120-160 | every row is counted exactly once |
| SupabaseFbAds.FreshUploadIsAllNew | src/supabase_fb_ads_db.py:153-156 | when no key was known and every upsert succeeds, every row is new |
| SupabaseFbAds.UploadFbAdsData | src/supabase_fb_ads_db.py:108-163 | nothing is counted without a client; otherwise the counters count the outcomes and sum to the number of rows |
| LogisticsParsers.PhoneFromDigits | src/logistics_parsers.py:38-50 | ten digits come out exactly for 10 digits, 12 starting 91, 11 starting 0 or 13 starting 091, and they are the last ten digits of the input |
| LogisticsParsers.NormalizePhone | src/logistics_parsers.py:23-50 | a normalised phone is ten digits; a missing cell gives none |
| LogisticsParsers.NormalizePhoneLastTen | src/logistics_parsers.py:23-50 | a normalised phone is the last ten digits of the raw cell, present exactly when the cell's digits have an accepted form |
| LogisticsParsers.PhoneDropsCountryCode | src/logistics_parsers.py:40-42 | with a 91 country code the phone is the ten digits after it |
| LogisticsParsers.PhoneOfWrongLengthRejected | src/logistics_parsers.py:36-50 | fewer than 10 or more than 13 digits are rejected |
| LogisticsParsers.NormalizePhoneIdempotent | src/logistics_parsers.py:23-50 | normalising a normalised phone changes nothing |
| LogisticsParsers.NormalizedPhoneFixed | src/logistics_parsers.py:31-48 | ten digits are their own normal form |
| LogisticsParsers.SafeStr | src/logistics_parsers.py:101-105 | the trimmed text, and none exactly when nothing is left |
| LogisticsParsers.Truncate | src/logistics_parsers.py:91-98 | `int(float(x))` truncates toward zero on both signs |
| LogisticsParsers.SafeInt | src/logistics_parsers.py:91-98 | a number exactly when the cell parsed as one |
| LogisticsParsers.NormalizeOrderId | src/logistics_parsers.py:53-66 | the trimmed id, without one leading '#'; none when nothing is left |
| LogisticsParsers.OrderIdDropsOneHash | src/logistics_parsers.py:62-64 | exactly one leading '#' is removed and the rest is kept |
| LogisticsParsers.OrderIdOfHashOnly | src/logistics_parsers.py:62-66 | a lone '#' is no order id |
| LogisticsParsers.NormalizeEmail | src/logistics_parsers.py:69-78 | the trimmed lower-cased address, present exactly when it contains '@' |
| LogisticsParsers.NormalizeEmailIdempotent | src/logistics_parsers.py:69-78 | normalising a normalised address changes nothing |
| LogisticsParsers.ClassifyPaymentMethod | src/logistics_parsers.py:145-181 | a cash marker gives COD; partially paid gives partial; paid, a refunded prepaid gateway or an unlisted status with razorpay give prepaid; pending, and a voided or refunded order without a prepaid marker, give COD; unknown exactly for an unlisted status without razorpay; each case as an if-and-only-if |
| LogisticsParsers.StatusByKeyword | src/logistics_parsers.py:447-457 | the keyword fallback always yields one of the five categories |
| LogisticsParsers.StatusByKeywordMeaning | src/logistics_parsers.py:447-457 | the keyword fallback: delivered exactly with DELIVER and no RTO, rto exactly with RTO, unknown exactly without any keyword |
| LogisticsParsers.MapProzoStatus | src/logistics_parsers.py:434-457 | the table entry of the upper-cased trimmed status when listed, otherwise the keyword fallback |
| LogisticsParsers.ProzoStatusCategories | src/logistics_parsers.py:434-457 | with the shipped table every status falls in one of five categories |
| LogisticsParsers.TableBeforeKeywords | src/logistics_parsers.py:444-445 | a listed status keeps its table category whatever its keywords say |
| LogisticsParsers.FailedDeliveryKeywordMisread | src/logistics_db.py:347 | the keywords alone would call FAILED_DELIVERY delivered; the table keeps it in transit |
| LogisticsParsers.OrderIdColumnOf | src/logistics_parsers.py:267 | the normalised order id of every row |
| LogisticsParsers.LineQuantity | src/logistics_parsers.py:283 | a missing or zero quantity counts as 1 |
| LogisticsParsers.AddItem | src/logistics_parsers.py:318-320 | adding a line item appends its name ('' when missing) and its quantity and changes nothing else |
| LogisticsParsers.AggregateWith | src/logistics_parsers.py:270-320 | the id list and the order map hold the same ids |
| LogisticsParsers.AggregateShopifyRows | src/logistics_parsers.py:266-320 | the aggregation pass computes `Aggregate` over the normalised id column |
| LogisticsParsers.AggregateRows | src/logistics_parsers.py:273-320 | the aggregation loop computes the fold |
| LogisticsParsers.FirstRow | src/logistics_parsers.py:290 | the first row carrying an order id, or -1 when none does |
| LogisticsParsers.AbsentOrderIsEmpty | src/logistics_parsers.py:273-320 | an order no row carries has no quantity and no names |
| LogisticsParsers.AggregateCharacterised | src/logistics_parsers.py:273-320 | an order exists exactly when a row carries its id; its quantity and names are those of its rows; its other fields come from its first row |
| LogisticsParsers.AggregateIdsDistinct | src/logistics_parsers.py:290-291 | each order is listed once |
| LogisticsParsers.AggregateItems | src/logistics_parsers.py:279-287 | one line item per row with an order id, in row order |
| LogisticsParsers.Finish | src/logistics_parsers.py:328-333 | the finished order carries its payment class and its non-empty line-item names joined with ", "; missing names join to an empty text |
| LogisticsParsers.Count | src/logistics_parsers.py:364-389 | each order raises exactly one counter |
| LogisticsParsers.Tally | src/logistics_parsers.py:323-390 | new + updated + failed is the number of orders |
| LogisticsParsers.FinishedOrdersAt | src/logistics_parsers.py:327-333 | each finished order is the finished form of the order listed there |
| LogisticsParsers.ImportOrders | src/logistics_parsers.py:323-390 | the import loop computes the tally and the finished orders |
| LogisticsParsers.ImportOrdersWith | src/logistics_parsers.py:327-390 | the same loop, with the finishing step as a parameter |
| LogisticsParsers.ParseShopify | src/logistics_parsers.py:243-427 | zero counts and failure when a required column is missing; otherwise every aggregated order is counted once |
| LogisticsParsers.FirstPresent | src/logistics_parsers.py:514-522 | the first candidate column present in the report; none exactly when none is present |
| LogisticsParsers.ShipmentOf | src/logistics_parsers.py:547-575 | the record of a row carries its AWB |
| LogisticsParsers.ProzoStep | src/logistics_parsers.py:542-635 | no AWB or a raising statement is failed; an AWB already stored, before the import or by an earlier row, is updated; otherwise new and stored from then on |
| LogisticsParsers.ProzoOutcome | src/logistics_parsers.py:541-635 | every report row is counted once, and the stored AWBs only grow |
| LogisticsParsers.ProzoFailedCount | src/logistics_parsers.py:542-635 | the failed counter is the number of rows without an AWB or whose statements raise |
| LogisticsParsers.ProzoWithoutErrors | src/logistics_parsers.py:541-635 | when no statement raises: every AWB ends up stored, new counts the distinct AWBs not stored before, failed counts the rows without an AWB |
| LogisticsParsers.RepeatedAwbIsNewThenUpdated | src/logistics_parsers.py:577-633 | two rows with the same AWB new to the table count one new record and one update |
| LogisticsParsers.ShipmentsWith | src/logistics_parsers.py:541-635 | at most one shipment record per report row |
| LogisticsParsers.ShipmentsHaveAwb | src/logistics_parsers.py:542-545 | every shipment record has a non-empty AWB |
| LogisticsParsers.MissingAwbFails | src/logistics_parsers.py:542-545 | a row without an AWB is counted as failed and stores nothing |
| LogisticsParsers.ImportShipments | src/logistics_parsers.py:541-635 | the row loop computes the counters and the stored AWBs of ProzoOutcome, its lookups seeing the report's own inserts, and the shipment records |
| LogisticsParsers.ImportShipmentsWith | src/logistics_parsers.py:541-635 | the same loop with the record builder as a parameter |
| LogisticsParsers.ParseProzo | src/logistics_parsers.py:509-653 | zero counts, failure and nothing stored without AWB, Status or an order-id column; otherwise the counters and stored AWBs of ProzoOutcome, every row counted once |
| LogisticsEngine.DispatchHours | src/logistics_engine.py:18-37 | none exactly when a time is missing or the pickup precedes the order; otherwise non-negative hours that are the elapsed seconds over 3600 |
| LogisticsEngine.DispatchBandsMonotone | src/logistics_engine.py:40-52 | a slower dispatch never lands in a faster band |
| LogisticsEngine.DispatchBandsBySeconds | src/logistics_engine.py:18-52 | not dispatched exactly without a valid pickup; fast exactly within 86,400 s, normal exactly within 172,800 s, delayed beyond |
| Wrappers.OrElse | src/logistics_engine.py:154-158 | Python's `or` on optional strings: the first value when present and non-empty, otherwise the second |
| LogisticsEngine.WithDropFallback | src/logistics_engine.py:153-172 | a customer field falls back to the shipment's drop field exactly when the order has none and a shipment exists |
| LogisticsEngine.DeliveryStatus | src/logistics_engine.py:99-133 | 'cancelled' exactly when voided or the shipment is cancelled; otherwise the shipment status; 'not_shipped' or 'cancelled' without a shipment |
| LogisticsEngine.RevenueOf | src/logistics_engine.py:145-151 | actual exactly when delivered and not refunded; pending exactly while in transit or not shipped; lost exactly otherwise |
| LogisticsEngine.UnifiedRowOf | src/logistics_engine.py:96-219 | the row's flags, revenue category and dispatch band follow its status; order fields, refund, cancellation, AWB, dispatch hours and phone fallback as the order and its shipment give them |
| LogisticsEngine.RefundKeepsStatus | src/logistics_engine.py:120-126 | a refund marks the order and leaves its delivery status unchanged |
| LogisticsEngine.KeyShopify | src/logistics_engine.py:72 | orders keyed by id, without empty ids; the id list and the key set agree |
| LogisticsEngine.KeyShopifyDistinct | src/logistics_engine.py:72 | each keyed order appears once in the id list |
| LogisticsEngine.KeyProzo | src/logistics_engine.py:88 | shipments keyed by order id, without empty ids |
| LogisticsEngine.LastShipmentWins | src/logistics_engine.py:88 | a shipment is kept for its order exactly when no later shipment carries that id |
| LogisticsEngine.KeyProzoDomain | src/logistics_engine.py:88 | an order id is keyed exactly when some shipment carries it |
| LogisticsEngine.UnifiedRowsWith | src/logistics_engine.py:96-219 | one row per listed order |
| LogisticsEngine.MatchedCount | src/logistics_engine.py:100-118 | the matched count is at most the number of orders |
| LogisticsEngine.UnifiedRowsAt | src/logistics_engine.py:96-219 | row i is the unified row of order i and its shipment, and is well formed |
| LogisticsEngine.BuildRows | src/logistics_engine.py:93-219 | the matching loop builds one row per order; matched + not shipped is the number of orders |
| LogisticsEngine.UnifiedStore.constructor | src/logistics_engine.py:91 | an empty unified table |
| LogisticsEngine.UnifiedStore.RunMatching | src/logistics_engine.py:59-228 | without Shopify orders: the early summary, table untouched; otherwise the table is replaced by the unified rows and the summary counts them, matched + not shipped = total |
| LogisticsEngine.Filtered | src/logistics_engine.py:248-256 | the date filter keeps only in-range rows of the input, all of them when no bound is set |
| LogisticsEngine.FilteredIsKeep | src/logistics_engine.py:248-256 | the date filter is the in-range selection of the rows, in order |
| LogisticsEngine.FilteredMultiset | src/logistics_engine.py:248-256 | each in-range row is kept as often as it occurs, every other row is dropped |
| LogisticsEngine.FilteredKeepsInRange | src/logistics_engine.py:248-256 | every in-range row is kept |
| LogisticsEngine.FilteredConcat | src/logistics_engine.py:248-256 | filtering keeps the rows' order |
| LogisticsEngine.Percent | src/logistics_engine.py:428-440 | 0 for a zero base; within 0..100 for a part of the base |
| LogisticsEngine.Aov | src/logistics_engine.py:299-300 | 0 without orders; otherwise average times count is the amount |
| LogisticsEngine.AverageDispatch | src/logistics_engine.py:364-371 | none exactly without dispatched rows or with a zero average; otherwise average times count is the sum |
| LogisticsEngine.DashboardMetrics | src/logistics_engine.py:235-466 | the counts filter by the row flags; cancelled excludes RTO; rates, AOVs and the lost percentage are 0 on a zero base; rates lie in 0..100 |
| LogisticsEngine.RevenueCountsPartition | src/logistics_engine.py:145-151 | every row falls in exactly one revenue category |
| LogisticsEngine.RevenueSumsPartition | src/logistics_engine.py:145-151 | the three revenue amounts add up to the total |
| LogisticsEngine.MetricsPartition | src/logistics_engine.py:258-296 | on matched rows, delivered + pending + lost orders is all orders and their revenues the projected revenue |
| LogisticsEngine.CancelledExcludesNoRto | src/logistics_engine.py:396-403 | on matched rows excluding RTO from the cancelled figures changes nothing |
| LogisticsEngine.HoursSumNonNegative | src/logistics_engine.py:35 | known dispatch hours are never negative |
| LogisticsEngine.AverageDispatchPositive | src/logistics_engine.py:364-371 | the reported average dispatch time is positive whenever there is one |
| LogisticsEngine.GroupByCounts | src/logistics_engine.py:305-362 | a group exists exactly for the keys some row has, and counts those rows |
| LogisticsEngine.SalesEntryOf | src/logistics_engine.py:314-341 | a breakdown entry keeps its group's count and total; 0% without orders |
| LogisticsEngine.DispatchEntryOf | src/logistics_engine.py:355-362 | a dispatch entry keeps its group's count and averages its known hours; 0% without orders |
| LogisticsEngine.GroupRows | src/logistics_engine.py:314-362 | the grouping loop computes the groups and their counts |
| LogisticsEngine.Breakdowns | src/logistics_engine.py:302-362 | the payment, delivery and dispatch breakdowns of the filtered rows |
| JourneyLoader.SearchFrom | user-journey-tracker/data_loader.py:66 | the first match at or after a position; none exactly when no position matches, as `re.search` scans |
| JourneyLoader.RazorpayAt | user-journey-tracker/data_loader.py:66-68 | a Razorpay id found starts with `order_` (any case), has more after it, and is all word characters |
| JourneyLoader.PaymentTypeAt | user-journey-tracker/data_loader.py:71-73 | a payment type found is a non-empty lower-case word |
| JourneyLoader.ExtractFromNoteAttributes | user-journey-tracker/data_loader.py:50-75 | nothing for a missing or empty note; the Razorpay id is absent exactly when no position of the note matches |
| JourneyLoader.RtoRiskAt | user-journey-tracker/data_loader.py:86 | a risk tag found names low, medium or high |
| JourneyLoader.ExtractRtoRisk | user-journey-tracker/data_loader.py:78-90 | a level only from non-empty tags, and none exactly when no position of the lower-cased tags matches |
| JourneyLoader.SkipsTo | user-journey-tracker/data_loader.py:86 | the optional whitespace of the pattern ends at the first non-space |
| JourneyLoader.RiskTagRecognised | user-journey-tracker/data_loader.py:85-88 | a tag written `rto risk - <level>` is recognised where it stands |
| JourneyLoader.ClassifyPaymentMethod | user-journey-tracker/data_loader.py:93-112 | unknown exactly when missing or empty; razorpay before cash on delivery before Snapmint before manual, otherwise other |
| JourneyLoader.KeepFirst | user-journey-tracker/data_loader.py:131 | the first row of each order number is kept |
| JourneyLoader.KeepFirstDistinct | user-journey-tracker/data_loader.py:129-133 | the kept rows carry every order number once: as many rows as distinct numbers, pairwise different |
| JourneyLoader.NameInNames | user-journey-tracker/data_loader.py:131 | every row's order number is among the order numbers |
| JourneyLoader.DedupeByName | user-journey-tracker/data_loader.py:131 | the dedup loop keeps the first row of each order number, in row order |
| JourneyLoader.LoadShopifyCsv | user-journey-tracker/data_loader.py:115-214 | total rows, unique orders and duplicates removed, with unique + removed = total, and one stored order per kept row |
| JourneyLoader.StoreOrders | user-journey-tracker/data_loader.py:138-209 | the insert loop stores one order per kept row, in order |
| JourneyLoader.ReplaceAllUnit | user-journey-tracker/data_loader.py:270 | replacing a unit after a spaceless number leaves the number |
| JourneyLoader.ReplaceAllNoMatch | user-journey-tracker/data_loader.py:270 | a spaceless text without the unit is left as it is |
| JourneyLoader.StripUnitOfNumber | user-journey-tracker/data_loader.py:270 | "45 mins", "45 min" and "45" all read as the number |
| JourneyLoader.DurationMinutes | user-journey-tracker/data_loader.py:268-272 | 0 when missing or not a number; otherwise the number with its unit removed, truncated toward zero |
| JourneyLoader.AttendanceOf | user-journey-tracker/data_loader.py:264-277 | the record keeps the normalised email and the parsed minutes, and is internal exactly for the company domain |
| JourneyLoader.InternalCount | user-journey-tracker/data_loader.py:276-279 | the internal count never exceeds the number of records |
| JourneyLoader.LoadZoomCsv | user-journey-tracker/data_loader.py:217-306 | one record per participant row with the internal ones counted; the topic (default "Unknown") and the date; the external count is the number of distinct external addresses over every record stored for the meeting, earlier loads included |
| JourneyLoader.ExternalCountIsExternalEmails | user-journey-tracker/data_loader.py:323-351 | the deduplicated view's external count is the number of distinct non-empty addresses outside the company among the records |
| JourneyLoader.SessionsPositive | user-journey-tracker/data_loader.py:337-341 | an address has a group exactly when some record carries it |
| JourneyLoader.SessionsConcat | user-journey-tracker/data_loader.py:334-341 | sessions and minutes of an address add up over appended records |
| JourneyLoader.ReloadPilesUp | user-journey-tracker/data_loader.py:281-306 | re-loading a meeting keeps the external count but adds the records' sessions and minutes a second time |
| JourneyLoader.StoreAttendance | user-journey-tracker/data_loader.py:258-297 | the insert loop builds one record per row and counts the internal ones |
| JourneyLoader.Dedupe | user-journey-tracker/data_loader.py:323-342 | groups only for non-empty emails, internal exactly for the company domain |
| JourneyLoader.DedupeCharacterised | user-journey-tracker/data_loader.py:323-342 | one participant per non-empty email with sessions, counting its sessions and summing its minutes |
| JourneyLoader.ZeroSessionsZeroMinutes | user-journey-tracker/data_loader.py:334-337 | an email without sessions has no minutes |
| JourneyLoader.ExternalCount | user-journey-tracker/data_loader.py:346-351 | the external count never exceeds the number of participants |
| JourneyLoader.MeetingDate | user-journey-tracker/data_loader.py:246-247 | the start time up to its first space, empty when missing |
| JourneyLoader.FirstToken | user-journey-tracker/data_loader.py:247 | a spaceless prefix that stops at the first space |
| JourneyMatching.StripTitle | user-journey-tracker/matching_engine.py:39 | the result is a suffix of the name; a changed name started with the title and now starts with no whitespace |
| JourneyMatching.TitleRemoved | user-journey-tracker/matching_engine.py:39 | a title followed by whitespace is removed with the whitespace |
| JourneyMatching.DottedTitleRemoved | user-journey-tracker/matching_engine.py:39 | a title followed by a dot and whitespace is removed with both |
| JourneyMatching.StripTitles | user-journey-tracker/matching_engine.py:37-39 | removing the titles in turn never lengthens the name |
| JourneyMatching.StripTitlesNoop | user-journey-tracker/matching_engine.py:37-39 | a name no title applies to is left as it is |
| JourneyMatching.KeepLettersAndSpaces | user-journey-tracker/matching_engine.py:42 | only lower-case letters and whitespace remain |
| JourneyMatching.KeepLettersAndSpacesNoop | user-journey-tracker/matching_engine.py:42 | a text of letters and whitespace is left as it is |
| JourneyMatching.Words | user-journey-tracker/matching_engine.py:45 | a text with a non-space has at least one word |
| JourneyMatching.WordsAreWords | user-journey-tracker/matching_engine.py:45 | every word is a non-empty run without whitespace |
| JourneyMatching.WordsOfLetters | user-journey-tracker/matching_engine.py:42-45 | the words of a text of letters and whitespace are non-empty words of letters |
| JourneyMatching.JoinTidy | user-journey-tracker/matching_engine.py:45 | words joined by single spaces form a tidy text |
| JourneyMatching.CollapseTidy | user-journey-tracker/matching_engine.py:45 | a tidy text is its own words joined by single spaces |
| JourneyMatching.NormalizeName | user-journey-tracker/matching_engine.py:23-47 | none for a missing or blank name; a normalised name is non-empty |
| JourneyMatching.NormalizeNameTidy | user-journey-tracker/matching_engine.py:34-47 | a normalised name is lower-case words of letters separated by single spaces |
| JourneyMatching.NormalizeNameStable | user-journey-tracker/matching_engine.py:23-47 | a tidy name that no title applies to normalises to itself |
| JourneyMatching.LocalPart | user-journey-tracker/matching_engine.py:68-69 | the address up to its first '@' |
| JourneyMatching.EmailFuzzyMatch | user-journey-tracker/matching_engine.py:50-74 | no comparison for a missing or invalid address; otherwise the local parts' similarity, a match exactly at the threshold or above |
| JourneyMatching.EmailDomainIgnored | user-journey-tracker/matching_engine.py:67-72 | two addresses with the same local part compare alike, whatever their domains |
| JourneyMatching.Reversed | user-journey-tracker/matching_engine.py:105 | the words in reverse order |
| JourneyMatching.CompareNames | user-journey-tracker/matching_engine.py:93-110 | a match exactly when the direct or, for two multi-word names, the reversed similarity reaches the threshold; the reported confidence is the one that matched, or the direct one |
| JourneyMatching.NameFuzzyMatch | user-journey-tracker/matching_engine.py:77-110 | no comparison for a missing or empty normal form; otherwise the comparison of the normal forms |
| JourneyMatching.OneWordNameComparedDirectly | user-journey-tracker/matching_engine.py:103 | word order is tried only when both names have two words or more |
| JourneyMatching.EmailComparisonInRange | user-journey-tracker/matching_engine.py:72-74 | with a measure in 0..1 the address confidence lies in 0..1 |
| JourneyMatching.CompareNamesInRange | user-journey-tracker/matching_engine.py:93-110 | with a measure in 0..1 the name confidence lies in 0..1 |
| JourneyMatching.NameComparisonInRange | user-journey-tracker/matching_engine.py:77-110 | the same for names given as cells |
| JourneyMatching.LowerCell | user-journey-tracker/matching_engine.py:205 | SQL `LOWER` keeps a missing value missing |
| JourneyMatching.Latest | user-journey-tracker/matching_engine.py:147-153 | none exactly when no row is selected; otherwise a selected row no older than any other |
| JourneyMatching.First | user-journey-tracker/matching_engine.py:250-254 | none exactly when no row is selected; otherwise the first selected row |
| JourneyMatching.DistinctEmails | user-journey-tracker/matching_engine.py:168-169 | every stored address once, and nothing else |
| JourneyMatching.BestOf | user-journey-tracker/matching_engine.py:171-178 | the scan's best confidence bounds every match; 0 only with no key; otherwise it belongs to a winning candidate |
| JourneyMatching.BestOfSnoc | user-journey-tracker/matching_engine.py:225-228 | one more candidate replaces the best exactly when it is a strictly better match |
| JourneyMatching.BestOfRepeat | user-journey-tracker/matching_engine.py:225-228 | a repeat of an earlier candidate, wherever it stands after it, does not change the scan, so dropping later duplicates scans like all rows |
| JourneyMatching.BestOfAtMostOne | user-journey-tracker/matching_engine.py:171-178 | confidences of at most 1 give a best of at most 1 |
| JourneyMatching.ScanBest | user-journey-tracker/matching_engine.py:174-178 | the best-so-far loop computes `BestOf` |
| JourneyMatching.EmailCandidates | user-journey-tracker/matching_engine.py:174-175 | one candidate per distinct stored address, with its comparison |
| JourneyMatching.CandidatePair | user-journey-tracker/matching_engine.py:234-247 | a row's candidates carry its key and one of its comparisons |
| JourneyMatching.NameAgainst | user-journey-tracker/matching_engine.py:236-244 | a filled-in name column is compared by the fuzzy name match |
| JourneyMatching.RowCandidates | user-journey-tracker/matching_engine.py:234-247 | the candidates of a row are keyed by its order number and a match among them clears the name threshold |
| JourneyMatching.NameCandidates | user-journey-tracker/matching_engine.py:234-247 | every candidate comes from some row, and every match clears the name threshold |
| JourneyMatching.RowCandidatesInRange | user-journey-tracker/matching_engine.py:234-247 | with a measure in 0..1 a row's candidates have confidence at most 1 |
| JourneyMatching.RowCandidatesBounded | user-journey-tracker/matching_engine.py:234-247 | a row's candidates are bounded by the comparisons of its two columns |
| JourneyMatching.NameCandidatesInRange | user-journey-tracker/matching_engine.py:234-247 | with a measure in 0..1 every name candidate has confidence at most 1 |
| JourneyMatching.EmailCandidatesInRange | user-journey-tracker/matching_engine.py:174-175 | with a measure in 0..1 every address candidate has confidence at most 1 |
| JourneyMatching.Found | user-journey-tracker/matching_engine.py:156-162 | a found match carries its order and that order's number |
| JourneyMatching.Waterfall | user-journey-tracker/matching_engine.py:113-269 | matched exactly with an order from the table; exact e-mail at confidence 1 on that address; fuzzy e-mail at 0.85 or more; exact name at 0.7 on that name; fuzzy name at 0.75 x 0.85 or more; otherwise unmatched |
| JourneyMatching.WaterfallPriority | user-journey-tracker/matching_engine.py:145-265 | each step decides exactly when it finds an order and every earlier step found none |
| JourneyMatching.ExactEmailWins | user-journey-tracker/matching_engine.py:145-164 | an address that appears on an order is matched by exact e-mail at confidence 1 |
| JourneyMatching.FuzzyEmailBestAtMostOne | user-journey-tracker/matching_engine.py:166-178 | the best address similarity is at most 1 |
| JourneyMatching.FuzzyNameBestAtMostOne | user-journey-tracker/matching_engine.py:222-247 | the best name similarity is at most 1 |
| JourneyMatching.WaterfallConfidenceInRange | user-journey-tracker/matching_engine.py:145-265 | every confidence lies in 0..1, and a fuzzy name match never exceeds 0.85 |
| JourneyMatching.FuzzyNameBestClears | user-journey-tracker/matching_engine.py:231-247 | a fuzzy name scan that ends on a key ends at or above 0.75 |
| JourneyMatching.FuzzyNameFloorNeverRejects | user-journey-tracker/matching_engine.py:249 | the 0.6 floor never rejects a fuzzy name winner, since every name match already clears 0.75 |
| JourneyMatching.WaterfallCases | user-journey-tracker/matching_engine.py:145-269 | the outcome step by step: the order each step finds, with that step's confidence, or unmatched |
| JourneyMatching.FindMatchingOrder | user-journey-tracker/matching_engine.py:113-269 | the matcher with its two best-so-far loops computes the waterfall on the normalised address and name |
| JourneyUsers.FindUser | user-journey-tracker/matching_engine.py:354-358 | the first user, in table order, with that e-mail or phone, and none exactly when no user has either; a missing value matches nothing |
| JourneyUsers.Attended | user-journey-tracker/matching_engine.py:363-381 | the participant's id is appended to the attendance ids, attendances grow by one, the latest event is this one, "ordered" becomes "engaged", and nothing else changes |
| JourneyUsers.Place | user-journey-tracker/matching_engine.py:400-403 | the billing field, or the shipping field where the billing one is missing |
| JourneyUsers.NewMatchedUser | user-journey-tracker/matching_engine.py:384-425 | a new user is engaged with one attendance and one order, carries the match's confidence and method, and needs review exactly when the confidence is below 0.8 |
| JourneyUsers.AfterMatch | user-journey-tracker/matching_engine.py:350-426 | the table keeps its length when a user with the contact exists and grows by one otherwise |
| JourneyUsers.AfterMatchTouchesOne | user-journey-tracker/matching_engine.py:360-426 | every user other than the one found is unchanged |
| JourneyUsers.AfterMatchStage | user-journey-tracker/matching_engine.py:370-420 | the user a match lands on ends engaged unless it already had a stage other than "ordered"; a new one needs review exactly below 0.8 |
| JourneyUsers.MatchRecordedOnce | user-journey-tracker/matching_engine.py:350-426 | recording a second match with the same contact updates the user the first one created instead of adding another |
| JourneyUsers.KnownEmails | user-journey-tracker/matching_engine.py:465 | exactly the stored e-mails of the users |
| JourneyUsers.KnownNumbers | user-journey-tracker/matching_engine.py:466 | exactly the stored order numbers of the users |
| JourneyUsers.ToImport | user-journey-tracker/matching_engine.py:463-468 | the selected orders are orders of the table that no user holds by e-mail or number, and every such order is selected |
| JourneyUsers.DirectImportUser | user-journey-tracker/matching_engine.py:484-507 | an imported user is "ordered", confidence 1.0 by direct import, with no attendance, one order and a missing total taken as 0 |
| JourneyUsers.DirectImports | user-journey-tracker/matching_engine.py:472-508 | one imported user per selected order, in order |
| JourneyUsers.NullEmailImportedOnlyIntoEmptyTable | user-journey-tracker/matching_engine.py:465-466 | `NOT IN` selects an order without an e-mail only while no user has an e-mail, and likewise for order numbers |
| JourneyUsers.ImportedOnce | user-journey-tracker/matching_engine.py:463-508 | an order imported with an e-mail or number is not selected again by the next import |
| JourneyUsers.External | user-journey-tracker/matching_engine.py:283-287 | the meeting's participants that are not internal, all of them and no others |
| JourneyUsers.MatchOf | user-journey-tracker/matching_engine.py:303-306 | a participant's match carries an order and a counted method whenever it is matched |
| JourneyUsers.MatchesBy | user-journey-tracker/matching_engine.py:302-306 | one match per participant |
| JourneyUsers.MatchesByAt | user-journey-tracker/matching_engine.py:302-306 | entry k is the match of participant k |
| JourneyUsers.Matches | user-journey-tracker/matching_engine.py:302-306 | one well-formed match per participant |
| JourneyUsers.MatchesAt | user-journey-tracker/matching_engine.py:302-306 | entry k is participant k's waterfall match |
| JourneyUsers.MatchesSnoc | user-journey-tracker/matching_engine.py:302-306 | one more participant adds that participant's match at the end |
| JourneyUsers.WellFormedPrefix | user-journey-tracker/matching_engine.py:302-310 | a prefix of well-formed matches is well formed |
| JourneyUsers.CountMethod | user-journey-tracker/matching_engine.py:310 | one of the four counted methods increments its own counter and no other |
| JourneyUsers.CountOne | user-journey-tracker/matching_engine.py:308-329 | one participant adds one result line and leaves the total as set up front |
| JourneyUsers.Tally | user-journey-tracker/matching_engine.py:289-329 | every participant is counted as matched or unmatched, and result line k is participant k's match |
| JourneyUsers.StatsOf | user-journey-tracker/matching_engine.py:289-329 | the total is the number of participants and equals matched plus unmatched |
| JourneyUsers.TallyMethods | user-journey-tracker/matching_engine.py:293-310 | the per-method counts add up to the matched count |
| JourneyUsers.StatsMethods | user-journey-tracker/matching_engine.py:293-310 | the same for a meeting's statistics |
| JourneyUsers.StatsResult | user-journey-tracker/matching_engine.py:322-329 | result line k reports participant k's waterfall match |
| JourneyUsers.RecordOne | user-journey-tracker/matching_engine.py:308-318 | a match adds at most one user and a miss adds none |
| JourneyUsers.TallySnoc | user-journey-tracker/matching_engine.py:302-329 | one more participant extends the tally by that participant's count |
| JourneyUsers.RecordAllSnoc | user-journey-tracker/matching_engine.py:302-318 | one more participant records that participant's match on the table so far |
| JourneyUsers.MeetingStep | user-journey-tracker/matching_engine.py:302-306 | the loop step: the next match extends the matches so far |
| JourneyUsers.NextMatch | user-journey-tracker/matching_engine.py:303-306 | the matcher's call on the next participant extends the matches so far |
| JourneyUsers.RecordAllGrowth | user-journey-tracker/matching_engine.py:302-318 | recording never removes users and adds at most one per counted match |
| JourneyUsers.MatchAllGrowth | user-journey-tracker/matching_engine.py:302-332 | a meeting's run adds at most as many users as it counts matches |
| JourneyUsers.UnifiedUsers.constructor | user-journey-tracker/matching_engine.py:347-348 | an empty users table |
| JourneyUsers.UnifiedUsers.RecordMatch | user-journey-tracker/matching_engine.py:335-449 | the table becomes the one after the match, and the result is the position of the user found or of the new last user |
| JourneyUsers.UnifiedUsers.ImportOrders | user-journey-tracker/matching_engine.py:452-510 | the table gains one imported user per order selected against the table as it was, and the result is their number |
| JourneyUsers.UnifiedUsers.CountAndRecord | user-journey-tracker/matching_engine.py:308-329 | the statistics gain this participant's count and line, and the table records the match |
| JourneyUsers.UnifiedUsers.RunMatchingForMeeting | user-journey-tracker/matching_engine.py:272-332 | the statistics are those of matching the meeting's external participants, and the table is the one after recording all their matches |
| CommentBot.IndexOf | src/fb_comment_bot_module.py:732-733 | a found position holds the looked-up value |
| CommentBot.IndexOfFirst | src/fb_comment_bot_module.py:732-733 | the position found is the first one, and none is found exactly when the value is absent |
| CommentBot.IndexOfIs | src/fb_comment_bot_module.py:732-733 | the first occurrence of a value is found |
| CommentBot.CounterKeysNameCategories | src/fb_comment_bot_module.py:721-729 | the seven counter columns are the categories with `_count` appended |
| CommentBot.CounterIndex | src/fb_comment_bot_module.py:731-734 | a category picks one of the seven counters or none |
| CommentBot.CounterIndexByName | src/fb_comment_bot_module.py:731-734 | a counter is picked exactly for a counted category, and it is that category's own counter |
| CommentBot.LargestBounds | src/fb_comment_bot_module.py:742 | the maximum bounds every count and is one of them |
| CommentBot.DominantIndexMeaning | src/fb_comment_bot_module.py:742-747 | no dominant category exactly when every count is 0; otherwise the first category, in column order, whose count is the largest |
| CommentBot.DominantCategoryIn | src/fb_comment_bot_module.py:742-747 | the scan for the first largest non-zero count computes the dominant category |
| CommentBot.DominantCategory | src/fb_comment_bot_module.py:742-747 | the same over the seven category names |
| CommentBot.UpsertCounts | src/fb_comment_bot_module.py:713-804 | an upsert adds one comment and one to the counter of a counted category, starting from zero counts for a new commenter |
| CommentBot.StartedIsBumped | src/fb_comment_bot_module.py:797-804 | a new commenter's counters are zero counters bumped once |
| CommentBot.BumpedCounts | src/fb_comment_bot_module.py:731-734 | bumping adds one to the category's counter and nothing to the others |
| CommentBot.UnknownCategoryCountsNothing | src/fb_comment_bot_module.py:731-734 | a missing or unknown category changes no counter |
| CommentBot.UpsertAds | src/fb_comment_bot_module.py:737-806 | the ads list stays free of repeats and gains the ad exactly when it is named and new |
| CommentBot.UpsertFlags | src/fb_comment_bot_module.py:750-758 | repeat objector at 3 price objections; potential customer at 2 product questions or 2 positives; troll at 3 negatives or 3 complaints |
| CommentBot.CountByName | src/fb_comment_bot_module.py:721-729 | each named count reads its own column |
| CommentBot.CategoriesAllDistinct | src/fb_comment_bot_module.py:797-800 | the seven counted categories are distinct |
| CommentBot.IndexOfDistinct | src/fb_comment_bot_module.py:732-733 | in a list without repeats every value is found at its own position |
| CommentBot.UpsertDominant | src/fb_comment_bot_module.py:742-826 | an update stores the dominant category of the new counts and keeps the old sentiment when none is given; an insert stores the category and sentiment as given |
| CommentBot.StartedDominant | src/fb_comment_bot_module.py:797-826 | for a counted category the insert's stored category is also its dominant one |
| CommentBot.CommenterHistory.constructor | src/fb_comment_bot_module.py:702-703 | an empty history table |
| CommentBot.CommenterHistory.Upsert | src/fb_comment_bot_module.py:677-832 | the commenter's record becomes the upserted one, no other record changes, and the result is true |
| CommentBot.UpdatedRecord | src/fb_comment_bot_module.py:713-794 | the update of an existing record is the upserted record |
| CommentBot.UpdatedRecordWith | src/fb_comment_bot_module.py:713-794 | the update with a picked counter is the record after that bump and that ad |
| CommentBot.AppendAd | src/fb_comment_bot_module.py:737-739 | the ad list after one comment on the named ad |
| CommentBot.CreatedRecord | src/fb_comment_bot_module.py:795-828 | the insert of a new commenter is the upserted record |
| CommentBot.EmojiInAt | src/fb_comment_bot_module.py:1405-1410 | the lookup returns the emoji of the first row with that category |
| CommentBot.EmojiInMissing | src/fb_comment_bot_module.py:1405-1410 | a category in no row gets the default emoji |
| CommentBot.CategoryEmojiLookup | src/fb_comment_bot_module.py:1405-1410 | each listed category gets its emoji from the category table, and any other the default |
| CommentBot.CommentTable.constructor | src/fb_comment_bot_module.py:473-474 | an empty comments table |
| CommentBot.CommentTable.UpdateComment | src/fb_comment_bot_module.py:455-489 | no updates answer false and change nothing; otherwise the answer is whether the comment exists, whose fields are then overwritten by the updates |
| CommentClassifier.NormalizeCategoryMeaning | src/comment_classifier.py:263-266 | the stored category is one of the seven, the given one when it is one of them and "other" otherwise, and normalising again changes nothing |
| CommentClassifier.NormalizeSentimentMeaning | src/comment_classifier.py:268-270 | the stored sentiment is one of three, the given one when it is one of them and "neutral" otherwise, and normalising again changes nothing |
| CommentClassifier.Clamp | src/comment_classifier.py:273 | the confidence lies in 0..1, is kept when already there, and is cut to the nearer end otherwise |
| CommentClassifier.UpToFence | src/comment_classifier.py:248 | a prefix of the text |
| CommentClassifier.UpToFenceIsFenceFree | src/comment_classifier.py:248 | the prefix before the next fence holds no fence |
| CommentClassifier.OpeningFenceStripped | src/comment_classifier.py:247-250 | an answer opening with a fence keeps the text up to the next fence, less a leading "json" |
| CommentClassifier.UpToFenceStopsAtFence | src/comment_classifier.py:248 | the split stops at the first fence |
| CommentClassifier.FencedBlockExtracted | src/comment_classifier.py:247-250 | a fenced block yields exactly its contents, less a leading "json" |
| CommentClassifier.UnfencedKept | src/comment_classifier.py:247 | an answer without an opening fence is kept as it is |
| CommentClassifier.NextBrace | src/comment_classifier.py:256 | the next brace at or after a position, or the end |
| CommentClassifier.NextBraceSkips | src/comment_classifier.py:256 | no brace lies before the one found |
| CommentClassifier.FlatObjectFrom | src/comment_classifier.py:256 | a found object opens with `{` and closes with `}` |
| CommentClassifier.FlatObjectIsFlat | src/comment_classifier.py:256 | a found object has no brace inside it |
| CommentClassifier.FlatObjectFound | src/comment_classifier.py:256-258 | the search succeeds whenever a brace pair with no brace between exists |
| CommentClassifier.CallCost | src/comment_classifier.py:231-233 | the cost of a call at the per-million token prices is never negative |
| CommentClassifier.ClassificationInRange | src/comment_classifier.py:182-309 | every result has one of the seven categories, one of the three sentiments and a confidence in 0..1 |
| CommentClassifier.AnswerDefaults | src/comment_classifier.py:272-285 | a missing confidence is 0.5, a missing reply flag is true, and the call's tokens and cost are reported |
| CommentClassifier.FailureIsFallback | src/comment_classifier.py:182-309 | every failure is the same fallback; an unavailable classifier fails; a short comment gets the short-comment result; an API error fails once the model is called |
| CommentClassifier.Classifier.constructor | src/comment_classifier.py:120-150 | available exactly when the package is installed, a non-empty key is given and the client starts; all totals are zero |
| CommentClassifier.Classifier.ClassifyComment | src/comment_classifier.py:152-309 | the result is the classification of the comment and answer; the totals grow by the call's tokens and cost exactly when the model answered, and never shrink |
| CommentClassifier.Classifier.AddUsage | src/comment_classifier.py:236-239 | the totals grow by the call's tokens and cost |
| CommentClassifier.Classifier.GetUsageStats | src/comment_classifier.py:311-319 | the totals, their sum, and the cost in rupees at 83 per dollar |
| CommentClassifier.Classifier.ResetUsageStats | src/comment_classifier.py:321-325 | every total is zero again and the availability is unchanged |
| FacebookApi.Connect | src/facebook_api.py:84-103 | a client exactly when a page id and token are given or configured, reporting the missing page id first; the client holds the values used and the Graph API base URL |
| FacebookApi.HandleError | src/facebook_api.py:189-210 | rate limit for codes 4, 17, 32, 613; authentication for 102, 190; permission, with its message prefix, for 10, 200, 230, 270; otherwise generic; code, subcode and trace id carried |
| FacebookApi.ReplyOutcome | src/facebook_api.py:154-160 | an answer is returned as it is, an error body as the handled error |
| FacebookApi.AttemptsFrom | src/facebook_api.py:136-170 | the attempts made lie between those already made and the retry limit |
| FacebookApi.MakeRequest | src/facebook_api.py:105-172 | the retry loop computes the request's outcome and makes between 1 and 3 attempts |
| FacebookApi.GivesUpAfterRetries | src/facebook_api.py:136-172 | when every remaining attempt times out or fails to connect, the request fails with the retries-exceeded error after 3 attempts |
| FacebookApi.FirstReplyDecides | src/facebook_api.py:136-170 | the first attempt that gets a reply decides the outcome, after that many attempts |
| FacebookApi.PageSize | src/facebook_api.py:338 | the page size is the limit, capped at 100 |
| FacebookApi.Take | src/facebook_api.py:367 | Python's slice to the limit: a prefix of the list, of length the limit for a non-negative one and counted from the end for a negative one |
| FacebookApi.GetPostComments | src/facebook_api.py:314-367 | the pagination loop computes the comments collected up to the limit |
| FacebookApi.CollectFromExtends | src/facebook_api.py:351-364 | pagination only appends to the comments collected so far |
| FacebookApi.PostCommentsBounded | src/facebook_api.py:346-367 | at most the limit is returned, and the result and the first page agree on their common prefix |
| FacebookApi.ReplyText | src/facebook_api.py:432-439 | none exactly for a blank message; otherwise the message cut to 8000 characters |
| FacebookApi.ReplyToComment | src/facebook_api.py:414-450 | the empty-message error exactly for a blank message |
| FacebookApi.FormatCommentForStorage | src/facebook_api.py:584-623 | thread depth 1 exactly for a comment with a parent, the parent's id when it has one, the given post and ad names, "Unknown" for a nameless commenter, an empty text for a missing one, and a pending reply |
| Text.TrimStart | src/logistics_parsers.py:74 | a suffix with no leading whitespace, all that was dropped being whitespace |
| Text.TrimEnd | src/logistics_parsers.py:74 | a prefix with no trailing whitespace, all that was dropped being whitespace |
| Text.Strip | src/logistics_parsers.py:74 | Python's `str.strip`: no whitespace at either end |
| Text.StripEmptyIffBlank | src/logistics_parsers.py:105 | stripping leaves nothing exactly for a blank text, the case `or None` turns into a missing value |
| Text.StripIdempotent | src/logistics_parsers.py:74 | stripping twice is stripping once |
| Text.Lower | src/logistics_parsers.py:74 | `str.lower` letter by letter, keeping the length |
| Text.LowerIdempotent | src/logistics_parsers.py:74 | lower-casing twice is lower-casing once |
| Text.LowerStrip | src/logistics_parsers.py:74 | stripping and lower-casing commute |
| Text.Digits | src/logistics_parsers.py:36 | only the digits of the text remain, never more characters than the text has |
| Text.DigitsOfChar | src/logistics_parsers.py:36 | one character is kept exactly when it is a digit |
| Text.DigitsConcat | src/logistics_parsers.py:36 | the digits of a concatenation are the digits of each part, in order, so every digit is kept in place |
| Text.DigitsOfStrip | src/logistics_parsers.py:31-36 | stripping the cell first drops no digit |
| Text.DigitsOfDigits | src/logistics_parsers.py:36 | a text of digits is kept as it is |
| Text.NonEmpty | src/logistics_parsers.py:329 | `filter(None, …)`: every non-empty part kept as often as it occurs, nothing else |
| Text.NonEmptyConcat | src/logistics_parsers.py:329 | the filter keeps the parts' order |
| Text.NonEmptyJoinSnoc | src/logistics_parsers.py:319-329 | one more line-item name: an empty one changes nothing, the first non-empty one is the whole text, a later one is appended after the separator |

## Left out

- Streamlit rendering (every `render_*` function and the app entry points) is UI only.
- SQLite and Supabase are not modelled. This covers connections, schema creation, the Supabase client branches and the `match_audit_log` insert. Tables are sequences or maps, and a write's answer is a parameter. Where one import looks up keys it may have written itself (the Prozo AWBs, and the Facebook ads keys in `FbAds.UploadRows`), the set of stored keys is threaded through the rows. The Shopify import looks up each order id once, so a fixed answer per id is enough there. `SupabaseFbAds.UploadFbAdsData` threads nothing: whether each row's key is already known is a free per-row parameter, so a key repeated within one upload is not tied to its earlier write.
- Query-only wrappers in `src/logistics_engine.py` have no decision logic: `get_user_journey_data`, `get_line_items_data`, `get_date_range` and `get_sku_level_sales`.
- `get_date_range` in `src/supabase_fb_ads_db.py` and `get_matching_stats` are plain SQL aggregates.
- `LogisticsParsers.ParseProzo`: a repeated AWB leaves one stored record, written by its last row; the model returns the record built for each row and the set of stored AWBs, not the stored contents per AWB.
- `JourneyLoader.LoadZoomCsv`: the meeting's earlier raw attendance rows are a parameter (`stored`), since the raw table has no unique key and is never cleared; the deduplicated view's participant name, first join and last leave, and the raw rows' join, leave and guest columns are not modelled.
- `JourneyMatching.Latest`: `ORDER BY created_at DESC` compares the stored TEXT timestamps; the model compares integer seconds, which agree with the text order only when every timestamp has the same format.
- Row order of `fetchone`, `fetchall` and `SELECT DISTINCT` is not modelled. The model takes table order; `JourneyMatching.BestOfRepeat` shows that dropping later duplicates does not change a scan, but a DISTINCT that also reorders rows can change which of two equally good candidates wins.
- pandas NaN is not modelled. A missing cell is `None`, and the ad engine's day records hold numbers.
- `datetime.strptime` and `parse_date` are not modelled. Dates are integer seconds or already-parsed values, and a date that does not parse is a missing value.
- `float()` on a text cell is outside the model. `safe_float` is taken as already parsed, and only its "missing on failure" outcome is kept.
- Float rounding is not modelled: `round(hours, 2)`, the one-decimal averages, INR/USD cost rounding and currency formatting. All arithmetic is on exact reals.
- Reason strings of the status trees, log messages and exception texts are dropped. Only phase, status and error kind are modelled.
- Python's `str.strip` strips Unicode whitespace. The model strips the ASCII characters Python counts as whitespace (space, tab, line feed, vertical tab, form feed, carriage return and 0x1C-0x1F) and none of the non-ASCII ones, such as U+00A0.
- `str.lower` and `str.upper` act on ASCII letters only.
- The regular expressions are hand-written scanners. These are the special-character filter, the whitespace collapse, the digit filter, the duration unit and the JSON-object search. Their `\w`, `\s` and `\d`/`\D` classes are ASCII only (`JourneyLoader.IsWordChar`, `Text.IsSpace`, `Text.IsDigit`), whereas Python's `str` patterns match the Unicode word, space and digit characters as well; `re.sub(r'\D', '', …)` would keep, for instance, Devanagari digits that `Text.Digits` drops.
- `difflib.SequenceMatcher.ratio` is a function parameter, assumed to lie in 0..1 where a lemma needs it.
- Sort ties are not modelled. The history sort is a stable insertion sort by date, whereas pandas' default sort is not stable, so rows with equal dates may come out in a different order.
- Columns the rules only carry through (campaign, ad set, product, addresses and the like) are kept only where a rule reads them.
- `get_trend_with_color` only wraps `FbAds.TrendArrow` in HTML.
- JSON encoding of the ads list in the commenter history is not modelled; the list itself is.
- `json.loads` is a decoding parameter (`CommentClassifier.Classify`). So is the model vendor's reply, given as tokens and text or an API error.
- The classifier's prompt building and the 500-character cut of the comment only build the model's input, so they are left out.
- The logging call on a missing API key is left out.
- `datetime.now()` timestamps (upsert times, `updated_at`, `CURRENT_TIMESTAMP`) are clock values, so they are dropped.
- `CommentBot.CommenterHistory.Upsert`: the result is always true, since the database raising an error is not modelled.
- `CommentBot.UpsertDominant`: for a new commenter the stored dominant category is the raw category, even when it is not one of the seven counted ones, as the insert path writes it; the model keeps that behaviour.
- `FacebookApi.MakeRequest`: the HTTP session, the injection of the access token into the query, the rate-limit header logging and the five-second sleeps are not modelled. Each attempt's outcome is a parameter: a reply, a timeout or a connection error.
- The unsupported-HTTP-method error in `_make_request` cannot arise from the callers in the model, so it is left out.
- `FacebookApi.GetPostComments`: the Graph API's `after` cursor and the `since` filter are inside the page-fetch parameter.
- Graph API endpoints outside the comment flow are plain HTTP wrappers with no rules of their own. These are `get_page_info`, `get_page_posts`, `get_ad_posts`, `get_post_details`, `get_comment_replies`, `get_comment`, `delete_comment`, `hide_comment`, `validate_token`, `get_rate_limit_status`, `parse_facebook_datetime` and `get_facebook_api`.
- `src/comment_fetcher.py`, `src/config.py` and the `src/logistics_db.py` helpers are not part of this model, apart from the Prozo status table, which is a parameter.
