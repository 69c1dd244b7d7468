# Algoselector decision policy in Dafny

Algoselector is a command-line wizard. It asks a non-expert about their problem and data, then suggests whether machine learning is needed at all and which family of algorithms to start with. This project models the wizard's decision policy. That policy is made of three fixed rule trees and a small data-scale classifier, and each of them turns questionnaire answers into the messages the wizard prints. All of it lives in `algoselector.py`.

The model is made of pure functions from answer records to the sequence of recommendations printed, in print order:

- `text.dfy` (`Text`): the two yes-tests the rules use, built on `str.lower()`. The feasibility gate tests whether the lower-cased answer equals `"y"`. The recommenders test whether the lower-cased answer contains a `'y'`.
- `records.dfy` (`Records`): the answers each rule reads. Free-text answers stay strings. Answers that the source passes through `int()` are integers.
- `feasibility.dfy` (`Feasibility`): the branching of `run_mainwiz`. It covers the verdict printed and the questions asked on the way to it.
- `data_scale.dfy` (`DataScale`): `data_size`, `ftod_ratio` and the two rating flags computed at the head of `decide_supervised`.
- `supervised.dfy` (`Supervised`): the rest of `decide_supervised`. High-scale data gets one recommendation. Low-scale data gets one or two, because the `from_b` flag lets the binary branch run after an earlier message.
- `reinforced.dfy` (`Reinforced`): `decide_reinforced`, which always gives exactly one recommendation.

Where the source does not run as written, the model follows the evident intent:

- The two tests at `algoselector.py:526-527` are missing their `and`. They are modelled as a conjunction.
- The bare or misspelt names `ri_values`, `ri_value`, `gen_values` and `self.get_values` are read as the wizard's answer dictionaries.
- `str.tolower()` is read as `str.lower()`.
- `data_output_type` (line 628) is read as the same field as `data_type_output` (line 620).
- `int()` is assumed to succeed on every numeric answer a rule reads, so those answers are integers in the records.

Where the source's own prompts and docstrings promise more than its tests deliver, the model follows the tests:

- The availability help text offers `Y/N/U - Yes/No/Unknown` (`algoselector.py:80`). The gate treats every answer other than `y`/`Y` alike: `U`, `N` and even `yes` all lead to the creativity question (line 470, else branch at 487).
- The same answer is read by two different tests. The gate compares the whole lower-cased answer with `y` (line 470). The recommenders look for a `y` anywhere in it (for example line 629). So `yes` counts as yes only for the recommenders.
- The size help texts ask for the units K/M/G and T/M/B, written in upper case (lines 341 and 351). The code lower-cases the bytes answer but searches the samples answer as typed (lines 552, 570 and 576). So only a lower-case `t` or `m` in the samples answer has any effect. The help text's unit letter `T` and its own example `1M` (also the default, line 353) do not.
- The docstring of `decide_supervised` asks which supervised learning to use (line 547). On low-scale data the code prints one or two recommendations in one pass (lines 614-641).

## Model

| member | source | states |
|---|---|---|
| Text.Lower | algoselector.py:470 | lower-casing keeps the length and lower-cases each character in place |
| Text.LowerContains | algoselector.py:551 | a lower-case letter occurs in the lower-cased string iff the original holds it in either case |
| Text.HasYes | algoselector.py:629-633 | the recommenders' yes-test holds iff the answer contains `y` or `Y` anywhere |
| Text.IsYes | algoselector.py:470 | the gate's yes-test holds iff the answer is exactly `"y"` or `"Y"` |
| Text.ExactYes | algoselector.py:470 | only `"y"` and `"Y"` lower-case to `"y"` |
| Text.YesTestsDiffer | algoselector.py:470-490 | `"yes"` passes the substring test but not the gate's exact test; `"N"`, `"NA"` and `"U"` pass neither |
| Feasibility.Gate | algoselector.py:464-493 | exactly one message; "need ML" iff (availability yes, programmability not yes, knowledge or pattern yes) or (availability not yes, creativity yes), otherwise "ML is not required" |
| Feasibility.Asked | algoselector.py:468-489 | 2 to 4 questions, the k-th from the wizard of level k (availability first); creativity iff availability not yes; programmability iff availability yes; knowledge iff availability yes and programmability not yes; pattern iff availability yes and programmability and knowledge not yes |
| Feasibility.Message | algoselector.py:474-493 | the gate's two messages as printed without colour codes; only "ML is not required" ends in an extra newline |
| Feasibility.GateReadsOnlyAsked | algoselector.py:468-493 | two answer sets that agree on the questions asked get the same questions and the same verdict |
| Feasibility.UnsureAvailabilityAsksCreativity | algoselector.py:487-493 | availability `U`, `N` or `yes` leads to the creativity question, and the verdict is "need ML" iff creativity is `y`/`Y` |
| Feasibility.StopOnProgrammability | algoselector.py:470-474 | availability and programmability yes give "ML is not required" without asking about patterns |
| Feasibility.ContinueViaPattern | algoselector.py:478-484 | availability yes, programmability and knowledge no, pattern yes give "need ML" after all four levels |
| DataScale.SmallData | algoselector.py:551-552 | the shared size test holds iff the bytes answer has `k`/`K` or the samples answer has a lower-case `t` |
| DataScale.DataSize | algoselector.py:549-555 | `data_size` is low iff the bytes answer has `k`/`K` or the samples answer has a lower-case `t` |
| DataScale.SizeBucket | algoselector.py:569-581 | the K/T bucket is taken iff the data size is low; the M bucket iff the size is high and the bytes answer has `m`/`M` or the samples answer a lower-case `m` |
| DataScale.FtodRatio | algoselector.py:568-585 | the ratio is high iff the feature count is strictly above its bucket's threshold (50, 5000, 500000); when the data size is low, iff the count is above 50 |
| DataScale.Interpretable | algoselector.py:557-560 | the interpretability flag is set iff the interpretability rating is at least 3 |
| DataScale.Faster | algoselector.py:562-565 | the speed flag is set iff the speed rating is at least 3 |
| DataScale.RatingBoundary | algoselector.py:557-565 | a rating of 3 is important and 2 is not, importance is monotone, and this applies to both interpretability and speed |
| DataScale.RatioFlipsAtThreshold | algoselector.py:569-585 | for any answers, the ratio is low at the bucket's threshold and high one above it |
| DataScale.RatioBoundaries | algoselector.py:569-585 | concrete answers: 50/51, 5000/5001 and 500000/500001 features are the low/high boundaries of the three buckets |
| DataScale.UpperCaseSamplesIgnored | algoselector.py:551-552 | samples `10T` with bytes `1G` is high-scale data, and samples `1M` with bytes `1G` lands in the billions bucket; samples `10t` is low-scale |
| Supervised.HighScale | algoselector.py:587-610 | one of Decision Tree, Random Forest, RNN, CNN, Naive Bayes or ANN; each one iff its path condition over interpretability, speed, column, signal type and output probability holds |
| Supervised.Regression | algoselector.py:620-624 | linear models iff the input/output relation answer contains `y`/`Y`, otherwise polynomial/non-linear SVM |
| Supervised.BinaryBranch | algoselector.py:627-641 | KNN iff the output type is not 4; otherwise Naive Bayes, LASSO/Ridge, Logistic Regression or polynomial/non-linear SVM, each iff its probability, conditional-independence and correlation answers select it |
| Supervised.LowScale | algoselector.py:611-641 | 1 or 2 messages; the SVM message comes first iff the ratio is low; exactly 1 message iff the ratio is high and the output type is not 2; the exact pair for each of the four ratio/output-type cases |
| Supervised.DecideSupervised | algoselector.py:545-641 | 1 or 2 messages; exactly 1 iff the data size is high or (the ratio is high and the output type is not 2); the SVM message is printed, and printed first, iff the size is low and there are at most 50 features; the result is the high-scale branch's one recommendation on high-scale data and the low-scale branch's messages on low-scale data |
| Supervised.HighScaleIgnoresRatio | algoselector.py:587-610 | on high-scale data the result does not depend on the feature count, the output type or the relation, independence and correlation answers |
| Supervised.InterpretableHighScale | algoselector.py:589-595 | interpretable high-scale data gives Decision Tree when the speed rating is at least 3, else Random Forest |
| Supervised.CnnScenario | algoselector.py:596-601 | high-scale data with interpretability rating 1 and image signals gives CNN alone |
| Supervised.ContinuousHighRatioAlsoKnn | algoselector.py:614-641 | low-scale data with more than 50 features and continuous output prints the regression message and then KNN |
| Supervised.Message | algoselector.py:591-641 | each message is the common "Start with Supervised Learning - " prefix followed by the algorithm's name (`Supervised.Name`, the texts printed at lines 591-641) |
| Supervised.MessagesDistinct | algoselector.py:591-641 | different recommendations print different messages |
| Reinforced.DecideReinforced | algoselector.py:521-542 | exactly one message; AlphaZero iff output type 2 and both preference and availability are yes; the model-based family, Policy Gradient, Monte Carlo/TD and SARSA/Q-learning each iff their path condition holds |
| Reinforced.AvailabilityOnlyForContinuous | algoselector.py:525-542 | for any output type other than 2, changing the availability answer never changes the result |
| Reinforced.PreferenceDominates | algoselector.py:531-533 | for output types other than 2, preferring model-based learning gives the model-based family whatever the other answers are |
| Reinforced.ValueStateScenario | algoselector.py:536-540 | discrete output, no preference, value-based, state-only gives Monte Carlo/TD |
| Reinforced.AlphaZeroScenario | algoselector.py:525-528 | continuous output with preference `Y` and availability `yes` gives AlphaZero |
| Reinforced.Message | algoselector.py:528-542 | the five messages as printed; only AlphaZero's starts with "Start with", and every other one starts with "Reinforcement Learning models to consider" |
| Reinforced.MessagesDistinct | algoselector.py:528-542 | different families print different messages |

## Left out

- Wizard construction (`main_wizard_l1` to `l4`, `gen_wizard`, `reinforced_wizard`) is left out. It is prompt text, help strings and defaults handed to the external `pypsi` library.
- Session plumbing is left out: running each wizard against the shell, and storing its answers in the instance's dictionaries (`run_generic_wizard`, `run_reinforced_wizard`, the `.run(self.shell)` calls). The rules take the answers as parameters instead. `Feasibility.Asked` records which gate questions a pass reaches.
- Terminal colours (`bcolors`) are left out. Messages are modelled as labels, and `Message` functions give their text without colour codes.
- Process code (`signal_handler`, `main`, the interrupt and out-of-memory handling, `sys.exit`) is left out. `main` runs only the reinforcement wizard and calls no decision function.
- The empty stubs `supervized_wizard`, `unsupervized_wizard`, `run_learningtype_wizard` and `run_unsupwiz` are left out. They contain no logic.
- Answers no rule reads are not carried: goal, accuracy, ease of implementation, text type, "features well defined", distribution, missing values, `ri_info`, and the numeric part of the size answers.
- `int()` parsing is left out. A non-numeric answer that a rule passes through `int()` (such as the default `Features` for the column question) would raise `ValueError` in the source. Here those answers are integers by type.
- Text.Lower: models `str.lower()` on ASCII letters only. Python also lower-cases other Unicode letters (the Kelvin sign lower-cases to `k`, for one), and the model leaves them unchanged.
- DataScale.SmallData, DataScale.DataSize, DataScale.SizeBucket, DataScale.FtodRatio: inherit that limit. A bytes answer written with the Kelvin sign (U+212A) is low-scale data in the source but high-scale data here.
