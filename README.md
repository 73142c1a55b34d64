# Disaster Relief Optimizer, modelled in Dafny

This project models the decision logic of the Disaster Relief Optimizer and proves properties of it:

- **The priority-based resource allocator** (`ResourceAllocator`):
  - per-person base needs with severity multipliers;
  - the partial, case-insensitive disaster-type adjustment;
  - the priority ranking and its stable sort;
  - the walk that serves disasters in priority order, from a shrinking stock, with a fair-share rule under scarcity;
  - the fulfilment rates;
  - the allocation summary;
  - the single-disaster entry point.
- **Data preprocessing**:
  - the severity labels computed from deaths, people affected and damages;
  - the mapping of unseen categories to `'Unknown'` before label encoding;
  - the fixed feature order;
  - the renaming of column names.
- **The dashboard's own rules**:
  - the rule-based severity predictor with its confidence table;
  - the per-person resource calculation against a fixed stock.
- **Demo-mode authentication**:
  - the email and password validators;
  - the ordered checks of a signup;
  - the in-memory user table that signup extends and login reads.
- **The user profile store**:
  - role permissions with their fallback;
  - profile creation and updates;
  - the login counter and the statistics counters;
  - the activity log capped at its 100 most recent entries;
  - activity queries with Python's negative-slice semantics;
  - permission checks.

Modelling conventions:

- Python floats are exact `real`s. `int()` is `Common.Trunc`, which truncates toward zero.
- A dictionary lookup that raises `KeyError` becomes a `Failure` of a `Result`.
- A resource dictionary with the four kinds (Food Kits, Water Packs, Medicine Kits, Shelter Units) is a `PerKind` vector. The caller's stock stays a `map`, so that a missing kind fails as in the source.
- Objects that the source updates in place are classes:
  - `Auth.SupabaseAuth` holds the demo table.
  - `UserProfile.UserProfileManager` holds the profile and activity maps that stand for its JSON files.
- Loops that build results step by step are methods with loop invariants. Each is proved equal to a specification function, and the properties are proved about that function.

Modules:

| file | module | models |
|---|---|---|
| common.dfy | Common | Option, Result, Min/Max, Python `int()` |
| text.dfy | Text | ASCII case, `str.lower()`, substring test |
| resources.dfy | Resources | resource kinds, per-kind vectors, severities |
| need_estimator.dfy | NeedEstimator | `calculate_base_need` |
| disaster_types.dfy | DisasterTypes | `disaster_adjustments`, `adjust_for_disaster_type` |
| priority.dfy | Priority | `_calculate_priority_score`, the sort |
| allocator.dfy | Allocator | `allocate_resources` and its helpers, `allocate_single_disaster` |
| scarcity_example.dfy | ScarcityExample | one concrete run under scarcity |
| preprocessing.dfy | Preprocessing | severity labels, encoding, features, column names |
| dashboard.dfy | Dashboard | `predict_severity`, `calculate_resource_allocation` |
| auth.dfy | Auth | demo-mode `SupabaseAuth` |
| user_profile.dfy | UserProfile | `UserProfileManager` |

## Model

| member | source | states |
|---|---|---|
| Common.Trunc | src/resource_allocator.py:60 | `int()` of a non-negative value is its floor; of a negative value it rounds toward zero |
| Resources.KindIndex | src/resource_allocator.py:19 | each of the four resource types has exactly one position in `resource_types` |
| Resources.KindsListsEveryKindOnce | src/resource_allocator.py:19 | `resource_types` lists all four kinds, each once |
| Resources.SumBounds | src/resource_allocator.py:222-230 | a grant between zero and the need sums to at most the total need |
| NeedEstimator.CalculateBaseNeed | src/resource_allocator.py:39-62 | each kind is `max(1, int(people * rate * multiplier))`, and so at least 1 |
| NeedEstimator.AtLeastOneUnit | src/resource_allocator.py:60 | `max(1, int(x))` is 1 below one unit and the floor above |
| NeedEstimator.BaseNeedGrowsWithPeople | src/resource_allocator.py:39-62 | more people never lowers any base need |
| NeedEstimator.DisasterNeed | src/resource_allocator.py:104-113 | the adjusted need of a disaster is never negative |
| NeedEstimator.DroughtCanZeroMedicine | src/resource_allocator.py:34 | one Low-severity person in a drought needs 1 base medicine kit, but 0 after the 0.8 factor |
| NeedEstimator.DroughtHalvesNothingButZeroesOneMedicine | src/resource_allocator.py:77-79 | the drought row takes a base medicine need of 1 to 0 |
| DisasterTypes.FirstMatch | src/resource_allocator.py:70-73 | the first key, in table order, whose text contains the type or is contained in it; none when no key matches |
| DisasterTypes.FactorsFor | src/resource_allocator.py:64-74 | no matching key gives no factors; every factor lies between 0.8 and 1.6 |
| DisasterTypes.ApplyFactors | src/resource_allocator.py:76-81 | each kind is `int(need * factor)` where a factor exists, unchanged otherwise |
| DisasterTypes.ScaledKeepsNonNegative | src/resource_allocator.py:79 | a non-negative need stays non-negative after a non-negative factor |
| DisasterTypes.FragmentsMatchFlood | src/resource_allocator.py:66-73 | the empty type, `"d"` and `"FLOOD"` all select the flood row: the match is partial and ignores case |
| DisasterTypes.FloodRowFor | src/resource_allocator.py:70-73 | any type that the flood key matches selects the flood row, as `flood` comes first |
| DisasterTypes.DroughtUsesItsOwnRow | src/resource_allocator.py:34 | `"drought"` selects the drought row, and no earlier key matches it |
| DisasterTypes.NoSharedCharMeansNoMatch | src/resource_allocator.py:71 | a key and a type, each holding a character the other lacks, do not match |
| Text.ToLower | src/resource_allocator.py:66 | lower-casing keeps the length and maps each ASCII capital to its small letter |
| Text.ContainsIsOccurrence | src/resource_allocator.py:71 | Python's `in` on strings holds exactly when the needle occurs at some position |
| Priority.SeverityRank | src/resource_allocator.py:164-166 | High 3, Medium 2, Low 1, and any other label 1 |
| Priority.PriorityScore | src/resource_allocator.py:162-175 | the score is the severity rank with `max(1, people_affected)` |
| Priority.SeverityDominatesPopulation | src/resource_allocator.py:173 | a higher severity outranks any population; in one band more people rank higher; 0 and 1 tie |
| Priority.ComesBeforeTransitive | src/resource_allocator.py:132 | the sort order is transitive |
| Priority.ComesBeforeTotal | src/resource_allocator.py:132 | any two distinct disasters are ordered |
| Priority.SortByPriority | src/resource_allocator.py:132 | the sort is a permutation of its input |
| Priority.SortIsSorted | src/resource_allocator.py:132 | the result is sorted by descending score, with ties in input order (the sort is stable) |
| Priority.InsertKeepsSorted | src/resource_allocator.py:132 | inserting into a sorted list keeps it sorted |
| Allocator.SeverityWeight | src/resource_allocator.py:13-17 | a weight exists exactly for High, Medium and Low, and lies in (0, 0.5] |
| Allocator.FairShare | src/resource_allocator.py:200-206 | the fair share is `min(int(available * needed / total * weight), available, needed)`, between 0 and the smaller of need and stock |
| Allocator.FairShareWithinWeight | src/resource_allocator.py:203 | the fair share is at most the weighted fraction of the stock |
| Allocator.Grant | src/resource_allocator.py:189-208 | a need the stock covers is granted in full; otherwise an unknown severity raises `KeyError` |
| Allocator.GrantBounds | src/resource_allocator.py:192-206 | every grant lies between 0 and the smaller of need and stock |
| Allocator.FulfillmentRateBounds | src/resource_allocator.py:222-230 | the rate lies in [0, 1] and is 1 when the need is granted in full |
| Allocator.FullRateIsOne | src/resource_allocator.py:227-230 | granting exactly the need gives rate 1, also for a zero need |
| Allocator.SingleAllocationSucceeds | src/resource_allocator.py:177-220 | one disaster's allocation succeeds exactly when every kind's grant does |
| Allocator.SingleAllocationRecord | src/resource_allocator.py:210-220 | the record copies the disaster's fields and holds the grants, `needed - allocated` and the rate |
| Allocator.AllocateToSingleDisaster | src/resource_allocator.py:177-220 | the loop over resource types computes the single-disaster allocation |
| Allocator.GrantFor | src/resource_allocator.py:189-208 | the per-kind branch computes the grant rule |
| Allocator.Deducted | src/resource_allocator.py:147-149 | deducting succeeds exactly when the pool has all four kinds |
| Allocator.DeductAllocation | src/resource_allocator.py:147-149 | the loop that subtracts each grant from the remaining stock |
| Allocator.Infos | src/resource_allocator.py:102-125 | one record per input disaster, in input order, with index `i` |
| Allocator.CollectNeeds | src/resource_allocator.py:98-129 | the first loop builds the records and the total needs |
| Allocator.TotalNeedsSort | src/resource_allocator.py:128-132 | sorting does not change the total needs |
| Allocator.WalkSorted | src/resource_allocator.py:134-149 | the serving loop computes the walk over the sorted records |
| Allocator.AllocateResources | src/resource_allocator.py:83-160 | the method computes the whole allocation report |
| Allocator.SumGranted | src/resource_allocator.py:240-244 | the loop computes the total allocated per kind |
| Allocator.UtilisationFor | src/resource_allocator.py:246-253 | the loop computes `allocated / available * 100`, or 0 for an empty stock |
| Allocator.GroupRates | src/resource_allocator.py:255-259 | grouping succeeds exactly when every severity is High, Medium or Low, and yields the rates of each band in order |
| Allocator.PrepareAllocationSummary | src/resource_allocator.py:232-279 | the summary holds the counts, utilisation, band averages, totals and remaining stock |
| Allocator.AllocationSteps | src/resource_allocator.py:98-160 | a successful run has one allocation per disaster; its totals are the sums of needs and grants; its stock is the pool minus every grant |
| Allocator.AllocationsInPriorityOrder | src/resource_allocator.py:131-145 | allocations come in non-increasing priority order, ties in input order, with distinct disasters |
| Allocator.AllocationsDescribeInputs | src/resource_allocator.py:115-123 | each allocation describes the input disaster its index names |
| Allocator.EveryDisasterServed | src/resource_allocator.py:138-145 | every input disaster receives an allocation |
| Allocator.AllocationSucceedsWhenWellFormed | src/resource_allocator.py:83-160 | a run succeeds when the pool has all four kinds and every severity is known |
| Allocator.AllocationFailsExactly | src/resource_allocator.py:83-160 | a run fails exactly when there are disasters and the pool lacks a kind or a severity is unknown |
| Allocator.SuccessMeansKnownInputs | src/resource_allocator.py:256-259 | a successful run means every input severity was High, Medium or Low |
| Allocator.NoOverAllocation | src/resource_allocator.py:188-208 | with a non-negative pool, each grant lies between 0 and the smaller of need and the stock left before it, and each unmet need is non-negative |
| Allocator.RemainingNeverNegative | src/resource_allocator.py:147-149 | with a non-negative pool, the remaining stock stays non-negative |
| Allocator.AllocatedWithinPool | src/resource_allocator.py:240-244 | the total allocated per kind lies between 0 and the pool |
| Allocator.FastPathOrFairShare | src/resource_allocator.py:192-208 | each grant is the full need when the stock left covers it, and the weighted fair share otherwise |
| Allocator.SummaryOfRun | src/resource_allocator.py:268-279 | the summary counts the disasters and people and holds the utilisation and the band averages |
| Allocator.UtilisationBounded | src/resource_allocator.py:246-253 | with a non-negative pool every utilisation lies in [0, 100] |
| Allocator.AverageFulfilmentBounded | src/resource_allocator.py:261-266 | every band average lies in [0, 100] |
| Allocator.FulfilmentRatesBounded | src/resource_allocator.py:219 | every allocation's rate lies in [0, 1] |
| Allocator.AmplePoolMeetsEveryNeed | src/resource_allocator.py:192-195 | a pool that covers the total needs meets every need in full, with rate 1, and keeps pool minus needs |
| Allocator.EmptyPoolGrantsNothing | src/resource_allocator.py:196-208 | an all-zero pool grants nothing, leaves every need unmet and remains as it was |
| Allocator.SingleDisasterFails | src/resource_allocator.py:281-300 | the single-disaster call fails exactly when the pool lacks a kind or the severity is unknown |
| Allocator.SingleDisasterResult | src/resource_allocator.py:288-298 | on success it returns the sole allocation of a one-disaster run |
| Allocator.AllocateSingleDisaster | src/resource_allocator.py:281-300 | the method computes the single-disaster result |
| ScarcityExample.HighCanFareWorseThanLow | src/resource_allocator.py:192-208 | a High and a Low flood of 10 people with stock (11, 20, 3, 2): High is met to 9/40 and Low in full |
| ScarcityExample.HighGetsAFairShare | src/resource_allocator.py:200-206 | in that run High is granted 3 food, 6 water and nothing else |
| Preprocessing.SubScore | src/data_preprocessing.py:75-100 | 3 at or above the medium threshold, 2 at or above the low one, 1 below |
| Preprocessing.SeverityScore | src/data_preprocessing.py:72-102 | the score lies between 3 and 9 |
| Preprocessing.LabelFor | src/data_preprocessing.py:104-112 | High from 7, Medium from 5 to 6, Low below 5 |
| Preprocessing.CreateSeverityLabels | src/data_preprocessing.py:66-116 | one label per row, each the label of that row's score |
| Preprocessing.LabelReadsOnlyThreeMetrics | src/data_preprocessing.py:76-94 | the label depends only on deaths, people affected and damages |
| Preprocessing.EmptyRowIsLow | src/data_preprocessing.py:76-94 | missing metrics count as 0, which scores 3 and gives Low |
| Preprocessing.LabelIsMonotone | src/data_preprocessing.py:72-112 | larger metrics never lower the score or the label |
| Preprocessing.SubScoreIsMonotone | src/data_preprocessing.py:77-82 | a larger metric never lowers its sub-score |
| Preprocessing.ThresholdsAreInclusive | src/data_preprocessing.py:17-21 | the thresholds count as reached at equality |
| Preprocessing.IndexOf | src/data_preprocessing.py:145 | the first position of a class, or none exactly when it is absent |
| Preprocessing.AsText | src/data_preprocessing.py:135 | `astype(str)` leaves text cells unchanged |
| Preprocessing.Transform | src/data_preprocessing.py:145 | `transform` succeeds exactly when every value is a known class, and codes each by its position |
| Preprocessing.EncodeColumnSpec | src/data_preprocessing.py:133-145 | encoding succeeds exactly when every value is known or `'Unknown'` is a class; each code names the value, or `'Unknown'` for an unseen one |
| Preprocessing.UnseenBecomesUnknown | src/data_preprocessing.py:139-143 | an unseen value is coded as `'Unknown'` when that class exists |
| Preprocessing.EncodeCategoricalFeatures | src/data_preprocessing.py:118-147 | succeeds exactly when every encodable column encodes, keeps the column set, and leaves each column encoded or untouched |
| Preprocessing.PresentMembers | src/data_preprocessing.py:173 | filtering keeps exactly the listed columns that are present |
| Preprocessing.FeaturesInFixedOrder | src/data_preprocessing.py:172-173 | the features are the present ones, without repeats, in the fixed order |
| Preprocessing.AllFeaturesPresent | src/data_preprocessing.py:229-230 | with every feature present, the selection is the full fixed list |
| Preprocessing.NormaliseColumnName | src/data_preprocessing.py:41 | the renamed column has the same length and no spaces or ASCII capitals |
| Preprocessing.CleanColumnNames | src/data_preprocessing.py:41 | every column is renamed, in order |
| Preprocessing.NormaliseCharacterwise | src/data_preprocessing.py:41 | a space becomes `_`, a capital its small letter, anything else stays |
| Preprocessing.NormaliseIsIdempotent | src/data_preprocessing.py:41 | renaming twice is renaming once |
| Preprocessing.NormalisedNamesAreFixed | src/data_preprocessing.py:41 | names already lower-case with underscores are unchanged |
| Dashboard.ImpactScore | dashboard_working.py:255-284 | the rule-based score lies between 30 and 105 |
| Dashboard.ScoreLabel | dashboard_working.py:286-292 | High from 70, Medium from 50 to 69, Low below 50 |
| Dashboard.PredictSeverity | dashboard_working.py:251-292 | the prediction is the label of the score, with that label's confidence table |
| Dashboard.LabelIsMostConfident | dashboard_working.py:287-292 | the predicted label always has the highest confidence, and the three confidences add up to 1 |
| Dashboard.BoundariesFallLow | dashboard_working.py:258-279 | the thresholds are strict: 10000 people, 100 deaths and 10M damages score Medium, one more of each scores High |
| Dashboard.TypeBonusIsExact | dashboard_working.py:282-284 | only the exact names earthquake, tsunami and cyclone add 5 points |
| Dashboard.PredictionIsMonotone | dashboard_working.py:255-292 | larger inputs never lower the score or the label |
| Dashboard.TypeFactorAtLeastOne | dashboard_working.py:315-330 | every type factor is at least 1 |
| Dashboard.NeedIsNonNegative | dashboard_working.py:331 | every need is non-negative |
| Dashboard.ComputeNeeds | dashboard_working.py:326-331 | the loop computes `int(people * rate * type factor * multiplier)` for each kind |
| Dashboard.GrantFromStock | dashboard_working.py:342-353 | the loop grants `min(needed, available)` per kind and totals both |
| Dashboard.Granted | dashboard_working.py:349 | each grant is the smaller of need and stock |
| Dashboard.CalculateResourceAllocation | dashboard_working.py:294-361 | the result holds the needs, the capped grants and the fulfilment rate |
| Dashboard.AllocationBounds | dashboard_working.py:346-355 | grants lie within need and stock; the rate is in [0, 1] and is 1 exactly when the stock covers every need |
| Dashboard.ResultWithinBounds | dashboard_working.py:355 | the method's result has a rate in [0, 1] that is 1 exactly when the stock covers every need |
| Dashboard.NeedsExamples | dashboard_working.py:298-331 | sample needs: Low flood of 1 needs no shelter; `"Flood"` gets no adjustment; an unknown severity uses 0.5 |
| Dashboard.NeedGrowsWithPeople | dashboard_working.py:331 | more people never lowers a need |
| Auth.ValidateEmailMatchesPattern | src/auth.py:71-74 | an address is valid exactly when it is local part, `@`, domain, `.`, two or more letters, with one optional trailing newline |
| Auth.ShortAddressIsValid | src/auth.py:73 | `a@b.co` is accepted, with or without a final newline |
| Auth.MalformedAddressesAreRefused | src/auth.py:73 | a one-letter ending, a second `@` and an empty local part are refused |
| Auth.FirstIndex | src/auth.py:73 | the first position of a character, or none when absent |
| Auth.LastIndex | src/auth.py:73 | the last position of a character, or none when absent |
| Auth.ValidatePassword | src/auth.py:76-84 | valid exactly with 6+ characters, a letter and a digit; otherwise the first failing rule's message |
| Auth.SignupCheck | src/auth.py:86-100 | the checks run in source order, and the first failure gives its message |
| Auth.SupabaseAuth.constructor | src/auth.py:52-65 | a new authenticator holds the two demo accounts |
| Auth.SupabaseAuth.InitDemoUsers | src/auth.py:52-65 | the table becomes exactly the two demo accounts |
| Auth.SupabaseAuth.SignupUser | src/auth.py:86-105 | the outcome and new table are those of the ordered checks, then the demo signup |
| Auth.SupabaseAuth.SignupDemoUser | src/auth.py:107-118 | an existing email is refused and the table unchanged; otherwise the email is added with role user |
| Auth.DemoLogin | src/auth.py:161-178 | succeeds exactly when the account exists and the digests agree, returning that account's session |
| Auth.Login | src/auth.py:151-159 | succeeds exactly when both fields are non-empty and the demo login succeeds |
| Auth.SupabaseAuth.LoginUser | src/auth.py:151-159 | the method computes the login outcome without changing the table |
| Auth.SupabaseAuth.LoginDemoUser | src/auth.py:161-178 | the lookup and digest comparison compute the demo login |
| Auth.SignupChangesAtMostOneEntry | src/auth.py:86-118 | a signup succeeds exactly when the checks pass and the email is new; a failure keeps the table; a success adds only that email |
| Auth.SignupThenLogin | src/auth.py:107-178 | after a successful signup, that password logs in with role user and any other password fails |
| Auth.DuplicateSignupRefused | src/auth.py:109-110 | signing up an existing email fails and changes nothing |
| Auth.DemoUsersAreTheTwoAccounts | src/auth.py:54-65 | the initial table has exactly admin (admin123) and user (user123), with their roles |
| Auth.LoginMessages | src/auth.py:153-178 | each failing login gives the source's message |
| UserProfile.RolePermissions | src/user_profile.py:105-121 | admin has 8, manager 6, any other role the 3 user permissions; the user list is in every role; only admin manages users |
| UserProfile.InitialStats | src/user_profile.py:93-98 | a new profile has the four counters, all 0 except `login_count` 1 |
| UserProfile.NewProfile | src/user_profile.py:79-99 | a new profile has the given ids and role, default preferences, the role's permissions and the initial counters |
| UserProfile.UserProfileManager.CreateProfile | src/user_profile.py:75-103 | the new profile is returned and stored, replacing any earlier one |
| UserProfile.UserProfileManager.GetProfile | src/user_profile.py:123-126 | the stored profile, or none for an unknown user |
| UserProfile.Merged | src/user_profile.py:132-133 | the given keys replace their fields, `updated_at` is stamped, and the rest is kept |
| UserProfile.UserProfileManager.UpdateProfile | src/user_profile.py:128-134 | an existing profile is merged; an unknown user gets nothing |
| UserProfile.LoggedIn | src/user_profile.py:140-141 | a login sets the time and raises `login_count` by one, leaving the rest; no counter raises `KeyError` |
| UserProfile.UserProfileManager.UpdateLastLogin | src/user_profile.py:136-142 | an existing profile records the login; `KeyError` and unknown users leave the store unchanged |
| UserProfile.LoginsAreCounted | src/user_profile.py:136-142 | n logins raise `login_count` by exactly n and leave the other counters alone |
| UserProfile.NewProfileCountsLogins | src/user_profile.py:97-141 | a new profile after n further logins has counted n + 1 |
| UserProfile.Trimmed | src/user_profile.py:157-161 | logging appends the entry and keeps the most recent 100, in order |
| UserProfile.UserProfileManager.LogActivity | src/user_profile.py:144-163 | the user's log becomes the trimmed log with the new entry, details `{}` when none are given |
| UserProfile.ReplayKeepsMostRecent | src/user_profile.py:157-161 | after any run of logging the log is the last 100 entries of everything logged |
| UserProfile.Recent | src/user_profile.py:169 | `[-limit:]`: a suffix; `limit` entries for positive limits, all for 0, all but `-limit` for negative ones |
| UserProfile.DefaultLimitGivesFifty | src/user_profile.py:165 | the default limit returns the 50 most recent entries |
| UserProfile.UserProfileManager.GetUserActivity | src/user_profile.py:165-169 | a stored history gives its recent slice; an unknown user gives `[]` |
| UserProfile.WithStat | src/user_profile.py:175-178 | an existing counter grows by the amount; a missing one is created equal to it; others are kept |
| UserProfile.UserProfileManager.IncrementStat | src/user_profile.py:171-179 | an existing profile's counter is incremented; an unknown user gets nothing |
| UserProfile.IncrementsAccumulate | src/user_profile.py:175-178 | two increments of one counter add up |
| UserProfile.IncrementsCommute | src/user_profile.py:175-178 | increments of different counters commute |
| UserProfile.UserProfileManager.HasPermission | src/user_profile.py:185-190 | false without a profile, otherwise membership in the stored list |
| UserProfile.CreatedProfileHasRolePermissions | src/user_profile.py:75-103 | right after creation a user holds exactly the role's permissions |
| UserProfile.RoleChangeGrantsRolePermissions | src/user_profile.py:128-134 | a role change with the role's permissions grants exactly those and keeps the counters |

## Left out

- Input and output are not modelled, and neither is the state they would feed:
  - the Streamlit pages;
  - file and CSV reading;
  - the JSON persistence of profiles and activity (the two maps stand for the files);
  - `print`;
  - the Supabase network paths;
  - `datetime.now()`, which every operation that stamps a record receives as a `now` string.
- SHA-256 is not computed. A digest is modelled as the password it came from, so two digests agree exactly when the passwords do.
- The regular expressions are not modelled as general regular expressions: each is written as the character-class predicate it checks.
- `str.lower()` lower-cases ASCII letters only. Non-ASCII case folding is not modelled.
- The `fit=True` path of `encode_categorical_features` is not modelled, because it is scikit-learn's `LabelEncoder.fit_transform`. The encoder is given by its `classes_`.
- Missing-value filling in `clean_data` (`fillna`, median, `dropna`) and `normalize_features` are not modelled; they are pandas and scikit-learn numerics. NaN and fractional cells do not occur: metric cells are integers.
- `create_severity_labels` assigns `df['severity']`. The model returns the label list instead of writing it into a frame.
- Priority.PriorityScore: the score `rank * 100 + log10(max(1, people))` is modelled as the pair (rank, max(1, people)) compared lexicographically. The two orders agree while `log10` of a population is below 100.
- Floating-point rounding is not modelled. Rates and factors are exact rationals, so where a binary float product lands just below a whole number, Python's `int()` may give one unit less than the model.
- UserProfile.Merged: `update_profile` accepts arbitrary keys. The model's update record carries the keys the application sends (email, role, preferences, permissions); it cannot overwrite `user_id`, `stats` or the timestamps.
- UserProfile.UserProfileManager.LogActivity: activity details are a string-to-string map rather than arbitrary JSON values.
- `get_all_users` and `create_profile_interface` are not modelled: the first only returns the stored map, and the second is user interface.

## Where the code and its description disagree

The model follows the code in each case.

- **Fulfilment under scarcity.** Disasters are described as being served in priority order, so that higher severities do better. But in the code, a resource short of need gets `int(available * needed / total_needed * weight)`. That is a fraction of the stock, so a high-priority disaster can leave enough for a later, lower one.
  - `ScarcityExample.HighCanFareWorseThanLow` exhibits this.
  - A High and a Low flood of 10 people each, with stock (11 food, 20 water, 3 medicine, 2 shelter), end with High met to 9/40 and Low met in full.
- **Partial type matching.** The disaster-type lookup matches partially and ignores case, in both directions. So `"d"`, `""` and `"FLOOD"` all pick the flood row (`DisasterTypes.FragmentsMatchFlood`). The dashboard's own calculation matches exactly and is case-sensitive, so `"Flood"` gets no adjustment there (`Dashboard.NeedsExamples`).
- **The pool is not validated.** A negative stock entry is accepted: the fair share of a negative stock is negative, so the grant is negative too. The non-negativity lemmas therefore assume a non-negative pool.
- **Missing resource kinds.** A pool missing one of the four kinds fails with `KeyError` at the first deduction (`Allocator.AllocationFailsExactly`).
- **Unknown severities.** A severity other than High, Medium or Low always fails a non-empty run, because the summary indexes `severity_stats` by it.
- **The `{}` branch is unreachable.** `allocate_single_disaster` can never return its empty `{}` branch for a successful run, because a one-disaster run has one allocation.
