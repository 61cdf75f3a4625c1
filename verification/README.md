# Signals experiment core in Dafny

This is a Dafny model of the decision and payment logic of the oTree "signals" experiment.

Participants see an image of 400 red and blue dots. They report a belief about how many dots are red, and choose a first-period consumption c1 in a two-period savings problem. At the end, one recorded round is paid, either by its consumption utility or by a binary belief lottery.

The model covers:

- **Round schedules.** Each one is built in round 1 and read at position `round_number - 1`. There are three kinds:
  - The shared `create_session` in `helper_functions.py`, used by t0_baseline and t3. It zips 12 (red count, y1) pairs with their image names and shuffles them as one unit.
  - The t1 and t4 schedules. These shuffle the (red count, income factor) pairs and the image names independently. t1 pairs its ten red counts with both factors, which gives 20 pairs and 20 images. t4 uses the six red counts of `get_red_counts()`, which gives 12 pairs and 12 images. t4 also shuffles a list of 10 borrower and 10 saver roles, of which only the first 12 positions are ever read.
  - The training schedule. It permutes the four (pi, x) combinations.
- **Per-round fields.**
  - h_true = r/400.
  - The price regime pi. The high regime is 2 in the helper but 1.5 in t1 and t4. Both values are kept.
  - p2 = pi * P1.
  - In the helper, y2 and c1_max.
- **Two consumption models.**
  - The helper's exchange-endowment form: c2 = y2 + R s / p2, with c1_max = floor(y1 + y2/2).
  - t1's income-multiplier form: c2 = (pi x Y1 + R s) / p2, with a closed-form c1_max.
- **The payoff table** built for the Choice page.
- **Belief handling.** The report is normalised to h_hat = raw/400. The binary lottery pays the prize exactly when U <= max(0, 1 - |h_hat - b|), where b is 1 when h_true > 0.5 and 0 otherwise.
- **The round ledger** `main_rounds`. `record_main_round` only appends to it.
- **The payoff app's final payment**, computed once per participant.
- **The page validators:**
  - the c1 range check;
  - the belief range 0..400;
  - t3's two-field check, which tests the belief first;
  - the intro comprehension test.
- **`load_questions`**, working row by row over a sheet given as a sequence of rows of cells.

`participant.vars` is an explicit record, `Participant.Vars`. It has one map per shape of stored value, keyed by the literal key strings the apps use, so an absent key is an absent map entry. Session config entries are a `Payoff.Config` record of options.

Randomness is an input:

- A `random.shuffle` is Fisher–Yates under explicit draws (`Shuffling.Shuffle`), and any permutation can arise from some draws.
- `randrange`, `random.choice` and `random.random` in the payoff app become the `index`, `payType` and `uDraw` parameters.

Arithmetic is exact (`real`), and display rounding is not modelled.

The model keeps several behaviours of the code that look unintended:

- t1 and t4 set `p.r` and never `p.red_count`. Their ledger entries therefore carry the field default 0 as the red count (`T1.T1Snapshot`, `T4.T4Snapshot`).
- With belief pay switched off, a drawn "belief" type is still recorded as the payoff type, while consumption is paid (`Payoff.DisabledBeliefPaysConsumption`).
- The empty-ledger branch of `set_final_payoff` sets `final_payoff` and leaves oTree's `payoff` at 0.
- t0_baseline stores its schedule under "t0" but labels its ledger entries "t0_baseline".
- The payoff app's doc string describes a quadratic scoring rule. The code uses the distance to the binarised state instead (`Helpers.LotteryIsNotTheDescribedRule`).

Modules follow the source files:

| module | source file |
|---|---|
| `Helpers` | `helper_functions.py` |
| `ExchangeRounds`, `T0Baseline`, `T3` | t0_baseline and t3 |
| `FactorRounds`, `T1`, `T4` | t1 and t4 |
| `Training` | training |
| `Payoff` | payoff |
| `QuestionReader`, `Intro` | intro |

`Base`, `Shuffling`, `Participant` and `Forms` hold the shared vocabulary.

## Model

| member | source | states |
|---|---|---|
| Helpers.SynthesizeFilenames | Otree/signals/helper_functions.py:103-116 | An explicit list of exactly 20 names is returned unchanged. Without a list, or with any other length, the result is 2n synthesised names: name i is the "x1" image of red count i, and name n+i is its "x2" image. |
| Helpers.Synthesized | Otree/signals/helper_functions.py:104-111 | The fallback list has length 2n: the "x1" names first, then the "x2" names, each in red-count order. |
| Helpers.SynthNameSuffix | Otree/signals/helper_functions.py:108-110 | Every synthesised name ends in "_<variant>.png". |
| Helpers.HelperPi | Otree/signals/helper_functions.py:45 | The helper's price multiplier is the high price 2 above 200 red dots and the low price 0.5 otherwise. |
| Helpers.ExchangePairsAreCombinations | Otree/signals/helper_functions.py:15-16 | The pair list has 12 entries and no repeats. A pair is in it exactly when its red count is one of get_red_counts() and its y1 one of get_income_profile(). |
| Helpers.MasterPairing | Otree/signals/helper_functions.py:15-19 | Before shuffling, the image at each position carries that position's red count, with "x1" exactly when y1 = 5. |
| Helpers.CombinedShuffleKeepsPairing | Otree/signals/helper_functions.py:28-34 | Zipping, shuffling as one unit and unzipping is the same as shuffling both lists with the same draws. Every round's image still carries its pair's red count and income variant. |
| Helpers.BuildExchange | Otree/signals/helper_functions.py:24-37 | Round 1 stores the two shuffled lists under "<treatment>_schedule" and "<treatment>_images" and changes nothing else. The stored schedule is a permutation of the 12 pairs, and the images stay paired with it. |
| Helpers.CalcC1Max | Otree/signals/helper_functions.py:164-165 | c1_max is the largest integer not above y1 + y2/2. |
| Helpers.DeriveExchange | Otree/signals/helper_functions.py:42-49 | A round's fields, derived from its pair: h_true * 400 = r; pi is the helper's multiplier; p2 = pi * P1; for a y1 from the income profile, y1 + y2 = 20; c1_max = calc_c1_max(y1, y2). |
| Helpers.ReadExchange | Otree/signals/helper_functions.py:39-40 | Reading a round succeeds exactly when both keys are stored and the round's position is within both lists. On success the fields are those derived from the entries at position round_number - 1. Otherwise the error is a KeyError or IndexError for the first list read, the schedule before the images. |
| Helpers.CreateSession | Otree/signals/helper_functions.py:13-49 | Round 1 builds the schedule from the draws, and later rounds leave the store alone. Every round's fields are what reading position round_number - 1 of the resulting store gives. A later round fails exactly when the stored lists lack the key or the position, and with the error of that read. |
| Helpers.BuiltScheduleServesRound | Otree/signals/helper_functions.py:22-49 | Once round 1 has built the schedule, rounds 1..12 all succeed and the store stays built. Each round gets a red count from the list, a y1 from the income profile, y1 + y2 = 20, and the image that carries its pair. |
| Helpers.CalcC2 | Otree/signals/helper_functions.py:173-175 | Budget identity: p2 * (c2 - y2) = R * (y1 - p1 * c1). |
| Helpers.C2Given | Otree/signals/helper_functions.py:168-169 | The same identity, on the player's stored y1, y2 and p2 and the chosen c1. |
| Helpers.UGiven | Otree/signals/helper_functions.py:176-177 | u = c1 * c2. When both consumptions are at least 1, u is at least each of them. |
| Helpers.CalcC2Decreasing | Otree/signals/helper_functions.py:173-175 | With P1 = R = 1 and p2 > 0, c2 does not increase as c1 increases. |
| Helpers.HelperC1MaxBinding | Otree/signals/helper_functions.py:164-175 | For y1 in {5, 15} and y2 = 20 - y1, under pi = 0.5: c2 >= 1 exactly when c1 <= c1_max, and c2 = 1 at c1_max. Under pi = 2, every c1 <= c1_max gives c2 >= 1. |
| Helpers.BuildPayoffTable | Otree/signals/helper_functions.py:65-100 | The table has floor(c1_max) rows (none when that is below 1), with c1 = 1, 2, ... in order. In each row and for each regime (0.5 and 2), the infeasible flag is set exactly when c2 < 1. The utility is absent exactly when the row is infeasible, and is c1 * c2 otherwise. P1 must be non-zero only when there is a row to compute. |
| Helpers.HelperTableFeasible | Otree/signals/helper_functions.py:72-99 | For the helper's own rounds no row is infeasible under either regime. The last row's low-price utility equals c1_max. |
| Helpers.RecordMainRound | Otree/signals/helper_functions.py:120-142 | The ledger then exists and has exactly one more entry. Earlier entries are unchanged, and the new entry carries the app label and the player's fields. Nothing else in the store changes. |
| Helpers.NewExchangePlayer | Otree/signals/helper_functions.py:42-49 | A player who has just received the round's fields has none of the answers or outcomes set. |
| Helpers.ExchangeSnapshot | Otree/signals/helper_functions.py:125-140 | The ledger entry copies the round, c1, c2, u, h_true, h_hat, the raw report, y1, pi and the red count. |
| Helpers.BinaryState | Otree/signals/helper_functions.py:152 | The binarised state is 1 exactly when h_true > 0.5, and 0 otherwise. |
| Helpers.RunBinaryLottery | Otree/signals/helper_functions.py:146-160 | A missing h_hat or h_true counts as 0. The threshold is max(0, 1 - \|h_hat - b\|) and lies in [0, 1]. For a report in [0, 1] it is the probability the report gives the realised binary state. The prize is paid exactly when U <= threshold, and 0 otherwise. |
| Helpers.DescribedWinProbability | Otree/signals/payoff/__init__.py:5-9 | The quadratic rule the payoff app's doc string describes never exceeds certainty, and a truthful report wins under it for sure. |
| Helpers.LotteryIsNotTheDescribedRule | Otree/signals/helper_functions.py:146-160 | For every true share strictly between 0 and 1, a report equal to it wins for sure under the described quadratic rule. Under the implemented rule it wins with probability max(h_true, 1 - h_true), which is below 1. At a share of 0.3 it wins with probability 0.7, and U = 0.8 loses. |
| Shuffling.Shuffle | Otree/signals/helper_functions.py:29 | A shuffle keeps the length and the multiset of elements. |
| Shuffling.ShuffleMembers | Otree/signals/helper_functions.py:29 | A value is in the shuffled list exactly when it was in the original. |
| Shuffling.ShuffleDistinct | Otree/signals/t1/__init__.py:89-90 | Shuffling a list without repeats gives a list without repeats. |
| Shuffling.ShuffleMap | Otree/signals/helper_functions.py:28-34 | Shuffling commutes with mapping a function over the list. |
| Shuffling.ShuffleIdentity | Otree/signals/t1/__init__.py:89-90 | The draws that swap nothing leave the list in its order. |
| Shuffling.ZipShuffle | Otree/signals/helper_functions.py:28-34 | Unzipping a shuffled zip gives the two lists shuffled with the same draws. |
| Shuffling.ShuffleKeepsRelation | Otree/signals/helper_functions.py:28-34 | A relation that holds position by position between two lists still holds after both are shuffled with the same draws. |
| Forms.ChoiceError | Otree/signals/t0_baseline/__init__.py:104-110 | The c1 check passes exactly when c1 is present and in [1, c1_max]. A missing c1 and an out-of-range c1 give their own errors. |
| Forms.BeliefError | Otree/signals/t0_baseline/__init__.py:141-147 | The belief check passes exactly when the report is present and in [0, 400]. A missing report and an out-of-range report give their own errors. |
| Forms.Normalize | Otree/signals/t0_baseline/__init__.py:153-154 | h_hat * 400 gives back the raw report. Every report the belief check accepts gives an h_hat in [0, 1]. |
| ExchangeRounds.StartRound | Otree/signals/t0_baseline/__init__.py:75-85 | Starting a round succeeds exactly when create_session does. It gives create_session's store and a player holding its round fields, with no answers yet. |
| ExchangeRounds.RoundIsServed | Otree/signals/helper_functions.py:22-49 | After round 1 has built the schedule, every round up to 12 starts. The player's fields are valid and the store stays built. |
| ExchangeRounds.FinishRound | Otree/signals/t0_baseline/__init__.py:149-159 | The page that completes a round does the following: h_hat * 400 = raw; c2 satisfies the budget identity on the stored y1, y2, p2 and the chosen c1; u = c1 * c2. Only those three player fields change, and exactly one ledger entry, labelled by the app, is appended. |
| ExchangeRounds.AcceptedAnswersRecordFeasibleEntry | Otree/signals/t0_baseline/__init__.py:104-159 | For a round from the shared schedule, a c1 and a report that both validators accept give a new ledger entry with the app's label, h_hat in [0, 1], c2 >= 1 and u >= c1. |
| T0Baseline.BeliefNext | Otree/signals/t0_baseline/__init__.py:149-159 | Leaving the Belief page gives h_hat * 400 = raw, c2 by the budget identity and u = c1 * c2. No other player field changes. Exactly one entry, labelled "t0_baseline" and holding the player's fields, is appended; earlier entries and the rest of the store are kept. |
| T0Baseline.RoundStoresUnderTreatmentKeys | Otree/signals/t0_baseline/__init__.py:85 | The app's lists are stored under "t0_schedule" and "t0_images", which are not keyed by its ledger label. |
| T0Baseline.RoundRecordsFeasibleEntry | Otree/signals/t0_baseline/__init__.py:95-159 | Every round up to 12 starts. Accepted Choice and Belief answers then append one feasible entry labelled "t0_baseline". |
| T3.ChoiceBeliefError | Otree/signals/t3/__init__.py:99-111 | The page passes exactly when both the belief and the c1 pass. A failing belief is reported whatever c1 is, and with a valid belief the c1 error is reported. |
| T3.SubmitNext | Otree/signals/t3/__init__.py:113-121 | Submitting gives h_hat * 400 = raw, c2 by the budget identity and u = c1 * c2. No other player field changes. Exactly one entry, labelled "t3" and holding the player's fields, is appended; earlier entries and the rest of the store are kept. |
| T3.RoundStoresUnderTreatmentKeys | Otree/signals/t3/__init__.py:64 | The app's lists are stored under "t3_schedule" and "t3_images". |
| T3.RoundRecordsFeasibleEntry | Otree/signals/t3/__init__.py:91-121 | Every round up to 12 starts. Answers that ChoiceBelief accepts then append one feasible entry labelled "t3". |
| FactorRounds.FactorPairsAreCombinations | Otree/signals/t1/__init__.py:82 | For distinct red counts, the pair list has no repeats and holds exactly the combinations of a red count with a factor in {0.5, 1.5}. |
| FactorRounds.FactorPi | Otree/signals/t1/__init__.py:103 | The multiplier in t1 and t4 is 1.5 above 200 red dots and 0.5 otherwise. |
| FactorRounds.BuildFactor | Otree/signals/t1/__init__.py:88-95 | Round 1 stores the pairs shuffled with one set of draws and the images shuffled with another, under the treatment's two keys. No other key changes, and each stored list is a permutation of its master list. |
| FactorRounds.BuiltScheduleIsPermutation | Otree/signals/t1/__init__.py:89-94 | The stored schedule has no repeats and holds exactly the (r, x) combinations. |
| FactorRounds.DeriveFactor | Otree/signals/t1/__init__.py:100-105 | The fields derived from a pair: x, r, h_true * 400 = r, pi by the app's rule, p2 = pi * P1, and the image. |
| FactorRounds.ReadFactor | Otree/signals/t1/__init__.py:97-98 | Reading a round succeeds exactly when both keys are stored and the position is within both lists. On success the fields come from the entries at position round_number - 1. Otherwise the error is a KeyError or IndexError for the first list read, the schedule before the images. |
| FactorRounds.BuiltFactorServesRound | Otree/signals/t1/__init__.py:97-105 | A built store serves every round up to 2n. Each round's pair is one of the combinations and its image one of the synthesised names. |
| FactorRounds.IdentityBuildReadsInOrder | Otree/signals/t1/__init__.py:88-98 | With the draws that swap nothing, round n plays the n-th pair with the n-th name. |
| T1.CalcC1Max | Otree/signals/t1/__init__.py:57-59 | R * P1 * c1_max = pi * x * Y1 + R * Y1 - p2. |
| T1.C2Given | Otree/signals/t1/__init__.py:61-64 | p2 * c2 = pi * x * Y1 + R * (Y1 - P1 * c1). |
| T1.UGiven | Otree/signals/t1/__init__.py:66-67 | p2 * u = c1 * (pi * x * Y1 + R * (Y1 - P1 * c1)), that is, u is c1 times the c2 it implies. |
| T1.C2AtC1MaxIsOne | Otree/signals/t1/__init__.py:57-64 | At the closed-form c1_max, c2 is exactly 1. |
| T1.C2StrictlyDecreasing | Otree/signals/t1/__init__.py:61-64 | With R, P1 and p2 positive, a larger c1 gives a strictly smaller c2. |
| T1.AcceptedChoiceFeasible | Otree/signals/t1/__init__.py:133-139 | Every c1 the Choice validator accepts gives c2 >= 1. |
| T1.ReadRound | Otree/signals/t1/__init__.py:97-106 | A round's player exists exactly when the schedule read succeeds, and otherwise fails with the same error. It carries the round's fields and the closed-form c1_max, and no answers yet. |
| T1.CreatingSession | Otree/signals/t1/__init__.py:71-106 | Round 1 builds both lists with independent draws, and later rounds leave the store alone. Every round then reads its own position. |
| T1.ScheduleIsPermutation | Otree/signals/t1/__init__.py:80-95 | "t1_schedule" is a permutation of the 20 distinct (r, x) pairs, and "t1_images" is a permutation of the 20 synthesised names. |
| T1.ImagesNotPaired | Otree/signals/t1/__init__.py:88-98 | Pairing is not preserved. With the draws that swap nothing, round 2 plays 120 red dots but shows the image made for 185, which differs from every image of 120. |
| T1.SynthNamesDiffer | Otree/signals/helper_functions.py:108-110 | Three-digit red counts with different tens digits give different image names. |
| T1.T1Snapshot | Otree/signals/t1/__init__.py:38-43 | A t1 ledger entry has no y1, and its red count is the unset field's default 0. The round, answers, outcomes, h_true and pi are copied. |
| T1.ChoiceNext | Otree/signals/t1/__init__.py:141-150 | Leaving Choice gives h_hat * 400 = raw, c2 = c2_given(c1) and u = c1 * c2. Only those three fields change, and exactly one entry labelled "t1" is appended. |
| T1.C1MaxAtLeastTwelve | Otree/signals/t1/__init__.py:57-59 | For every round of the schedule, c1_max >= 12, so the accepted c1 range is never empty. |
| T1.FeasibleChoiceRecordsFeasibleEntry | Otree/signals/t1/__init__.py:141-150 | A c1 >= 1 that keeps c2 >= 1, together with an accepted report, appends an entry labelled "t1" with h_hat in [0, 1], c2 >= 1 and u >= c1. |
| T1.AcceptedAnswersRecordFeasibleEntry | Otree/signals/t1/__init__.py:133-176 | For a round of the schedule, answers both validators accept append such a feasible entry. |
| T1.RoundIsServed | Otree/signals/t1/__init__.py:86-106 | Once the schedule is built, every round up to 20 starts. The store stays built, the fields are valid, and c1_max is the closed form and at least 12. |
| T1.RoundRecordsFeasibleEntry | Otree/signals/t1/__init__.py:71-150 | A whole round: it starts, and accepted answers append one feasible entry labelled "t1". |
| T4.RolesMaster | Otree/signals/t4/__init__.py:77 | The master list has 20 slots: borrowers in the first 10, savers in the last 10. |
| T4.RolesMasterBalanced | Otree/signals/t4/__init__.py:77 | The master list holds exactly 10 borrowers and 10 savers. |
| T4.ShuffledRolesBalanced | Otree/signals/t4/__init__.py:90-91 | Whatever the draws, the shuffled roles keep 20 slots, 10 of each role. |
| T4.BuildT4 | Otree/signals/t4/__init__.py:83-95 | Round 1 builds the pairs and images as t1 does, and adds the roles shuffled with draws of their own under "t4_roles". The role list is a permutation of the master list. |
| T4.C1ForRole | Otree/signals/t4/__init__.py:110-113 | With Y1 = 10, a borrower's c1 is exactly 7 and a saver's exactly 13, so the c1 identifies the role. |
| T4.ReadRound | Otree/signals/t4/__init__.py:97-113 | A round's player exists exactly when the schedule read succeeds and the role list covers the round. Schedule errors come first. The player's role is the one at position round_number - 1, and its c1 is fixed by that role. |
| T4.CreatingSession | Otree/signals/t4/__init__.py:66-113 | Round 1 builds the three lists, and later rounds leave the store alone. Every round reads its own position of each. |
| T4.T4Snapshot | Otree/signals/t4/__init__.py:39-60 | A t4 ledger entry has no y1, its red count is the default 0, and its c1 is the role's. |
| T4.BeliefNext | Otree/signals/t4/__init__.py:163-171 | Leaving Belief gives h_hat * 400 = raw, c2 by the budget identity for the role's c1, and u = c1 * c2. Only those fields change, and exactly one entry labelled "t4" is appended. |
| T4.AcceptedBeliefRecordsEntry | Otree/signals/t4/__init__.py:151-171 | An accepted report appends one entry labelled "t4" with h_hat in [0, 1] and the role's c1. |
| T4.BuiltStoreServesRound | Otree/signals/t4/__init__.py:97-107 | A built store serves rounds 1..12 with valid fields and p2 != 0, and keeps 20 role slots, 10 of each. |
| T4.RoundIsServed | Otree/signals/t4/__init__.py:82-113 | Once the store is built, every round up to 12 starts. The store stays built with 10 borrowers and 10 savers, and the fields are valid. |
| Training.CombosAreAllPairs | Otree/signals/training/__init__.py:17-26 | The combination list has no repeats and holds exactly the pairs of a pi from PIS and an x from XS. |
| Training.Combos | Otree/signals/training/__init__.py:26 | There are exactly NUM_ROUNDS = 4 combinations. |
| Training.BuildTraining | Otree/signals/training/__init__.py:28-31 | Round 1 stores the shuffled combinations under "training_schedule", and nothing else changes. |
| Training.CreatingSession | Otree/signals/training/__init__.py:25-39 | Round 1 always succeeds, and later rounds leave the store alone. A round succeeds exactly when the key is stored and covers the round. Otherwise it fails with KeyError or IndexError as appropriate. The player gets the stored (pi, x) and p2 = pi * P1. |
| Training.ChoiceError | Otree/signals/training/__init__.py:68-72 | The check passes exactly when c1 is in [1, c1_max], and otherwise gives the range error. |
| Training.ChoiceNext | Otree/signals/training/__init__.py:74-77 | c2 satisfies the budget identity and u = c1 * c2. Only the player changes: the store, ledger included, is not touched. |
| Training.ScheduleIsPermutation | Otree/signals/training/__init__.py:25-35 | The stored schedule has 4 entries without repeats and holds exactly the (pi, x) combinations. A fifth round fails with IndexError. |
| Training.RoundPlaysScheduleEntry | Otree/signals/training/__init__.py:33-38 | Round n (1..4) plays the n-th stored combination, with p2 in {0.5, 1.5}. |
| Training.ScheduleEntryIsCombo | Otree/signals/training/__init__.py:26-31 | Every stored entry pairs a pi and an x from {0.5, 1.5}. |
| Payoff.BeliefEnabled | Otree/signals/payoff/__init__.py:43-44 | Belief pay is on unless the config entry is present and false. |
| Payoff.SetFinalPayoff | Otree/signals/payoff/__init__.py:46-84 | An empty ledger records consumption, index 0, "n/a", round 0 and 0 points, and sets final_payoff to the show-up fee. Otherwise the drawn entry's treatment and round are recorded. With a non-empty ledger, the payment fails exactly when a config amount is missing. The consumption type, or any type with belief pay off, pays u (0 when unset) times the rate plus the fee. The belief type pays the lottery's points times the rate plus the fee, and records the red count and raw report. |
| Payoff.Final | Otree/signals/payoff/__init__.py:86-92 | While the flag is unset the payment is made and the flag is set. Once it is set, the store and the player are returned unchanged. |
| Payoff.FinalIsOnce | Otree/signals/payoff/__init__.py:89-91 | Showing Final again, whatever is drawn then, changes neither the store nor the player. |
| Payoff.DisabledBeliefPaysConsumption | Otree/signals/payoff/__init__.py:74-76 | With belief pay off, drawing "belief" pays exactly what drawing "consumption" pays, runs no lottery, and still records "belief" as the type. |
| Payoff.BeliefPaymentIsFeeOrPrize | Otree/signals/payoff/__init__.py:77-84 | A belief payment's threshold lies in [0, 1]. The payment is prize * rate + fee when U <= threshold, and the fee alone otherwise. |
| QuestionReader.ToInt | Otree/signals/intro/question_reader.py:33 | int() of an integer cell is that integer; int() of a text cell is the parse of its text. |
| QuestionReader.ParseInt | Otree/signals/intro/question_reader.py:33 | A successful parse needs a non-empty text, and an unsigned run of digits parses to a non-negative number. |
| QuestionReader.DigitsValueNatStr | Otree/signals/intro/question_reader.py:33 | Reading back the decimal digits of n gives n. |
| QuestionReader.ParseIntStr | Otree/signals/intro/question_reader.py:33-37 | int(str(i)) = i for every integer. |
| QuestionReader.Answers | Otree/signals/intro/question_reader.py:27-28 | opts[:4] holds at most four answers: the cells after the position column, in order. |
| QuestionReader.ReadRow | Otree/signals/intro/question_reader.py:25-37 | A blank row is skipped. A row too short to unpack fails. A row fails as invalid exactly when the label, the position, or one of four answers is missing. A complete row fails with NotAnInteger exactly when its position does not parse, and with InvalidCorrectPosition exactly when it parses outside 1..4. It is accepted exactly when it parses inside 1..4. An accepted row gives the label, the position as its int(), and four choices numbered 1..4 carrying the stringified answers. The model tags each error with its row number. |
| QuestionReader.ReadRows | Otree/signals/intro/question_reader.py:24-37 | Every question read is well formed, and there are no more of them than rows. An error names one of the rows read. |
| QuestionReader.LoadQuestions | Otree/signals/intro/question_reader.py:9-41 | Rows are read from sheet row 2 on. The first bad row's error is the load's error. Otherwise the load succeeds exactly when some row holds a question, and returns the questions of the rows in order; a sheet with no question rows fails. |
| QuestionReader.ReadRowsAppend | Otree/signals/intro/question_reader.py:24-37 | Reading a + b is reading a and then b, so questions keep sheet order and the first bad row decides the error. |
| QuestionReader.BlankRowSkipped | Otree/signals/intro/question_reader.py:25-26 | A blank row in front changes nothing: the sheet reads exactly as the rows after it, numbered from the next row, with the same questions or the same error. |
| QuestionReader.ExtraColumnsIgnored | Otree/signals/intro/question_reader.py:27-28 | Columns after the fourth answer do not change what a row reads as. |
| Intro.ImportAsWritten | Otree/signals/intro/__init__.py:12-53 | The guard fails exactly below four questions. The import succeeds exactly from five questions on. |
| Intro.FourQuestionsPassGuardThenFail | Otree/signals/intro/__init__.py:16 | Four questions pass the guard, and the import then fails reading QUESTIONS[4]. |
| Intro.Import | Otree/signals/intro/__init__.py:27-53 | With the guard at five, the import succeeds exactly from five questions on, and otherwise reports the shortage. Fields q1..q5 carry the labels and choices of questions 1..5 in order. |
| Intro.ImportAgreesWithAsWritten | Otree/signals/intro/__init__.py:16-53 | Both imports succeed on the same inputs and then build the same fields. They differ exactly on four questions. |
| Intro.ComprehensionErrors | Otree/signals/intro/__init__.py:69-83 | No errors exactly when all five answers are right. Otherwise a field is flagged exactly when its answer is wrong or missing, and every message is the same fixed text. |
| Intro.AnswerKey | Otree/signals/intro/__init__.py:72-78 | The key maps each field q1..q5 to its question's right position. |
| Intro.AnswerKeyPasses | Otree/signals/intro/__init__.py:69-83 | For loaded questions, the answer key passes the test, and each key answer is one of the offered choices. |
| Intro.FieldNamesDistinct | Otree/signals/intro/__init__.py:67 | The five field names are different from one another. |
| Intro.OnlyWrongFieldFlagged | Otree/signals/intro/__init__.py:79-83 | A submission whose only wrong answer is field j gets exactly one message, on field j. |
| Intro.OneWrongAnswerFlagsOnlyIt | Otree/signals/intro/__init__.py:69-83 | Changing one answer of the key to a wrong value flags exactly that field. |

## Left out

- Randomness: the distribution of the draws is not modelled.
  - The permutation, the ledger index, the payoff type and U are inputs.
  - The index must lie in range, as `randrange` guarantees.
- oTree plumbing: page classes, templates, `page_sequence`, wait pages, `timeout_seconds` and the time tracking in t0_baseline (`time.time`) are not modelled. Neither are `build_vars_for_template_choice` and the pages' `vars_for_template`, which only assemble display data.
- Page order is stated as preconditions instead. Completing a round requires c1 and the report to be present, as they are when the earlier pages of the sequence have run.
- Display rounding is not modelled: `round(., 2)` on table utilities and on the lottery threshold, and `{c1_max:.2f}` in messages. Values are exact reals.
- Message texts: validators return which check failed (a `FormError`), not the wording.
- Helpers.BuildPayoffTable: in t1 and t4 the table is never built as written. t1 calls `build_payoff_table` with four arguments (Otree/signals/t1/__init__.py:130), and t4 passes the arguments in a different order (Otree/signals/t4/__init__.py:136-138). The table is modelled with the helper's own signature only.
- T4.CreatingSession: t4 calls `calc_c1_max(p, C)` with two arguments, while the helper takes one, and the t4 player has no y1 or y2. So c1_max is an input here.
- T4.BeliefNext: likewise, the incomes y1 and y2 that `c2_given` would read are inputs.
- Training.CreatingSession: training makes the same two-argument `calc_c1_max` call, so c1_max is an input.
- Training.ChoiceNext: the training player has no y1 or y2, so those incomes are inputs.
- ExchangeRounds.FinishRound: the t0_baseline and t3 players do not declare y1 or y2 as fields either (Otree/signals/t0_baseline/__init__.py:44-71, Otree/signals/t3/__init__.py:31-51). create_session sets them (Otree/signals/helper_functions.py:42,46) and c2_given reads them on a later page (Otree/signals/helper_functions.py:169). The model assumes those values survive between pages. How oTree treats undeclared player attributes is not part of this model.
- Helpers.ExchangeSnapshot: under the same assumption, the ledger entry carries the round's y1, where `getattr(player, "y1", None)` would give None if the attribute did not survive.
- Helpers.C2Given: reads y1 and y2 from the round fields under the same assumption.
- `synthesize_filenames` with an explicit list is modelled, but every caller passes None.
- Workbook loading (`openpyxl`): only Text and Int cells are modelled.
- QuestionReader.ReadRow: the model tags every row error with its sheet row. The source's unpack error (Otree/signals/intro/question_reader.py:27) and int() error (Otree/signals/intro/question_reader.py:33) are Python's own ValueErrors and name no row. Only the messages at lines 32 and 34 include it.
- Helpers.DescribedWinProbability: states that a truthful report wins for sure, but not that only a truthful report does. That converse needs a strict positivity bound on a real square, which is not proved here. The rule is described in a doc string and is not implemented.
  - A sheet is a sequence of rows of optional cell values.
  - Float, Bool and date cells are not modelled.
  - `int()` of text accepts an optional sign and ASCII digits. Surrounding whitespace, underscores and non-ASCII digits are not accepted.
  - `str()` of a cell is modelled for text and integers only.
- Payoff: `U_draw` and `won_belief` are declared on the payoff player but never set, so they are not modelled. The currency type of `final_payoff` is a plain real.
- Concurrency around the `final_payoff_set` flag: Final is modelled sequentially.
- Otree/signals/dots.py (image generation), Otree/signals/waitSequence/__init__.py and Otree/udemy/divide_numbers_treatment/__init__.py hold no experiment logic and are not modelled.
- `get_round_count()` returns 1 and every treatment app declares NUM_ROUNDS = 1. The round lemmas quantify over all rounds a built schedule can serve (12 or 20), not just the first.
- The incentive properties of the belief lottery are not proved; only its bounds and payout cases are.

## Findings

| source | as written | input that shows it | evidently intended | confidence | as-written member | corrected member |
|---|---|---|---|---|---|---|
| Otree/signals/intro/__init__.py:16 | The constants guard asserts `len(QUESTIONS) >= 4`, but fields q1..q5 read QUESTIONS[0..4] | A sheet with exactly four questions passes the guard, then importing the app fails with an IndexError on QUESTIONS[4] | At least five questions, as the guard's own message says | high (not executed) | Intro.ImportAsWritten, shown by Intro.FourQuestionsPassGuardThenFail | Intro.Import, related by Intro.ImportAgreesWithAsWritten |
