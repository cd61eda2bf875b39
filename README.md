# Reward generator of social-robotics-reward, modelled in Dafny

The reward function of `social_robotics_reward` watches a person through two sensor streams,
video frames and audio segments, and turns what it sees into a stream of scalar rewards.
`RewardFunction.gen(period_s)` does the following:

- it primes itself with the first video frame and then the first audio frame;
- it pulls from whichever stream lags, taking video on a tie;
- it closes a tumbling window once the earlier of the two latest timestamps is at least
  `period_s` past the previous close;
- it classifies the frames stamped before the close, validates the emotion tables and scores
  each modality with fixed linear coefficients;
- it yields a `RewardSignal` and keeps only the frames stamped at or after the close.

The model has four modules:

- `Wrappers` (`wrappers.dfy`): `Option` and `Result`.
- `Frames` (`frames.dfy`): timestamped frames and the split of a buffer at a close.
  `Before` keeps the frames included in a window and `From` the frames kept for the next one.
  The module proves that the split loses and duplicates nothing and keeps sorted buffers sorted.
- `Emotion` (`emotion.dfy`): scoring one window.
  - Each face's partial distributions are flattened, later labels winning.
  - A table's column set and its `empty` flag follow pandas.
  - The tables are validated, audio first. The reward is the mean over every cell of the
    rows × labels product matrix.
  - The coefficient series and the combination of the two rewards.
- `RewardFunction` (`reward_function.dfy`): the generator itself.
  - `Generate` specifies the whole output as a function of the two finite frame sequences and
    the classifiers. It is built from `Run`, one merge step, and `AfterPull`, the window check
    after a pull.
  - `Gen` is the loop of `gen`, with the buffers as `seq` variables it appends to and rebinds.
    It is proved to produce exactly the signals and the ending that `Generate` gives.
  - The lemmas state what a run guarantees: windows are spaced by at least a period, every stamp
    is a stream timestamp, and there is at most one signal per pulled frame. They also state how
    a run ends. For sorted sources they state that each buffer is exactly the pulled frames
    stamped at or after `timestamp_last`. Every window a run yields is therefore scored on
    exactly the source frames in `[timestamp_last, timestamp_current)`.
- `Scenario` (`scenario.dfy`): one run worked out completely.

Each frame source is a finite sequence of `(timestamp, payload)` frames. Timestamps are
`real`. The classifiers are function parameters: audio maps a payload to one distribution,
and video maps a payload to the faces it detects, each face a list of partial distributions.
`gen` ends in one of three ways, given by `Outcome`:

- `EndOfStream`: a pull inside the loop found a source exhausted. The open window is dropped
  and the generator returns normally, as the `except StopIteration` handler does.
- `SourceEmpty`: a source had no first frame. Priming happens before the `try`, so this
  `StopIteration` is not caught. Since PEP 479 it leaves the generator as a `RuntimeError`.
- `LabelError`: a window's table carried the wrong labels (the `ValueError`).

Sorted sources are not required: the algorithm never relies on order. Most lemmas hold for
arbitrary timestamps. The exceptions assume sorted sources:

- `Frames.PartitionKeepsSorted` and `Frames.SortedPartitionIsSplit`;
- `RewardFunction.MergeKeepsOrdered`, `RewardFunction.PruneKeepsOrdered`,
  `RewardFunction.WindowIsHalfOpen`, `RewardFunction.BufferedWindow`,
  `RewardFunction.RunFromSources` and `RewardFunction.GenerateFromSources`.

`Ordered` and `Buffered` are implications whose premise is that the sources are sorted, so they
hold for every source.

The reward follows the code, not the intuition that a fully happy window scores 1. Multiplying
the coefficient series by the table and taking `.to_numpy().mean()` averages over every cell.
That is the mean per-row dot product divided by the number of labels: 3 for audio, 7 for video.
In `Scenario.HappyRun` every frame is fully `happy`: video at 0, 0.2, 0.4 and 0.6 s, audio at
0 and 0.5 s, period 0.5 s. The one window at 0.5 s therefore scores 1/3 for audio and 1/7 for
video, and 1/3 + 1/7 = 10/21 combined, not 1.0, 1.0 and 2.0. The run then ends with the audio
source exhausted.

## Model

| member | source | states |
|---|---|---|
| Frames.Min | social_robotics_reward/reward_function.py:67 | The minimum of two timestamps is one of them and no larger than either. |
| Frames.Before | social_robotics_reward/reward_function.py:83-84 | The frames a window includes are exactly the buffered frames stamped strictly before the close. |
| Frames.From | social_robotics_reward/reward_function.py:131-132 | The kept frames are exactly the buffered frames stamped at or after the close. The buffer's last frame is kept when it is stamped at or after the close, so the buffer stays non-empty. |
| Frames.PartitionConserves | social_robotics_reward/reward_function.py:131-132 | The included and the kept frames together are the buffer as a multiset, and their lengths add up to its length: no frame is lost or scored twice. |
| Frames.PartitionKeepsSorted | social_robotics_reward/reward_function.py:131-132 | Both parts of a sorted buffer are sorted. |
| Frames.SortedPartitionIsSplit | social_robotics_reward/reward_function.py:83-84 | For a sorted buffer the included frames are a prefix and the kept frames the rest: concatenated they give back the buffer in order. |
| Frames.FromConcat | social_robotics_reward/reward_function.py:131-132 | Keeping the frames at or after a stamp distributes over concatenation, so frames appended later are filtered on their own. |
| Frames.BeforeConcat | social_robotics_reward/reward_function.py:83-84 | Taking the frames before a stamp distributes over concatenation. |
| Frames.FromFrom | social_robotics_reward/reward_function.py:131-133 | Pruning at one close and then at a later one keeps what pruning once at the later close keeps. |
| Frames.Between | social_robotics_reward/reward_function.py:83-84 | The frames of a source in `[lo, hi)` are exactly its frames stamped at or after `lo` and strictly before `hi`. |
| Emotion.FlattenKeys | social_robotics_reward/reward_function.py:87 | A flattened face reports exactly the labels that some of its partial distributions report. |
| Emotion.FlattenLastWins | social_robotics_reward/reward_function.py:87 | A label reported several times takes the probability of its last report. |
| Emotion.LabelsMembership | social_robotics_reward/reward_function.py:114 | The label set of a coefficient series is exactly the set of its labels. |
| Emotion.ColumnsMembership | social_robotics_reward/reward_function.py:93-94 | The columns of a data frame built from dict rows are the labels some row reports. |
| Emotion.CoefficientLabelCounts | social_robotics_reward/reward_function.py:100-113 | The audio series has 3 distinct labels and the video series 7, so the product matrices are 3 and 7 columns wide. |
| Emotion.Product | social_robotics_reward/reward_function.py:118-119 | The product matrix has one row per table row and one column per coefficient. |
| Emotion.Reward | social_robotics_reward/reward_function.py:118-119 | A modality's reward is absent exactly when its table is empty in the pandas sense: no rows or no columns. |
| Emotion.RewardIsMeanDotOverLabels | social_robotics_reward/reward_function.py:118-119 | A present reward is the mean over rows of the coefficient-weighted row sum, divided by the number of labels. |
| Emotion.Combine | social_robotics_reward/reward_function.py:120 | The combined reward is 0 when both rewards are absent, and the present reward when one is absent. Otherwise it is their sum. |
| Emotion.Score | social_robotics_reward/reward_function.py:114-120 | Scoring fails exactly when a table is non-empty with the wrong label set. An audio mismatch is reported before a video one, with the offending and the expected labels. An empty table is never rejected and leaves its reward absent. |
| Emotion.AllHappyReward | social_robotics_reward/reward_function.py:118-119 | A table whose rows are all certain of `happy` scores the happy coefficient divided by the label count. |
| Emotion.AllHappyAudio | social_robotics_reward/reward_function.py:100-104 | An all-happy audio window scores 1/3. |
| Emotion.AllHappyVideo | social_robotics_reward/reward_function.py:105-113 | An all-happy video window scores 1/7, not 1. |
| RewardFunction.VideoRowsOfFrame | social_robotics_reward/reward_function.py:87-89 | A video frame contributes one table row per detected face, the face's flattened distribution. |
| RewardFunction.VideoRowsAppend | social_robotics_reward/reward_function.py:87-89 | The video rows of consecutive frames are the rows of each frame in frame order. |
| RewardFunction.RowsComplete | social_robotics_reward/reward_function.py:93-94 | With classifiers that always report the same labels, neither table of a window has a missing cell. |
| RewardFunction.Start | social_robotics_reward/reward_function.py:65-67 | Priming buffers one frame of each source, and `timestamp_last` starts at the earlier of their two timestamps. |
| RewardFunction.Merge | social_robotics_reward/reward_function.py:75-78 | A successful pull keeps both buffers non-empty, each ending with its source's latest frame. The two cursors together advance by exactly one. |
| RewardFunction.MergeStep | social_robotics_reward/reward_function.py:75-78 | Audio is pulled exactly when its last timestamp is strictly before video's; otherwise, ties included, video is. Exactly that source's cursor advances by one and its frame is appended. The other buffer, its cursor and `timestamp_last` are unchanged, and the step stops exactly when the source it must pull from is exhausted. |
| RewardFunction.MergeKeepsOrdered | social_robotics_reward/reward_function.py:75-78 | For sorted sources a pull keeps the buffers sorted and at or after `timestamp_last`. |
| RewardFunction.WindowSignal | social_robotics_reward/reward_function.py:83-129 | A closing window is rejected exactly when a table is mismatched, audio first. Otherwise its signal is stamped with `timestamp_current` and carries the two tables. It also carries the two rewards and their combination. |
| RewardFunction.Prune | social_robotics_reward/reward_function.py:131-133 | After a close `timestamp_last` is the close and the cursors are unchanged. Both buffers are still non-empty and still end with their latest frame, so `[-1]` stays safe. |
| RewardFunction.PruneSplits | social_robotics_reward/reward_function.py:131-133 | All kept frames are stamped at or after the new `timestamp_last`, and included plus kept frames make up each buffer as a multiset. |
| RewardFunction.PruneKeepsOrdered | social_robotics_reward/reward_function.py:131-133 | Pruning keeps sorted buffers sorted and at or after the new `timestamp_last`. |
| RewardFunction.StartBuffered | social_robotics_reward/reward_function.py:65-67 | After priming, each buffer is exactly the pulled frames stamped at or after `timestamp_last`: the first frame of its source. |
| RewardFunction.MergeKeepsBuffered | social_robotics_reward/reward_function.py:75-78 | For sorted sources a pull keeps each buffer equal to the frames pulled so far that are stamped at or after `timestamp_last`. |
| RewardFunction.PruneKeepsBuffered | social_robotics_reward/reward_function.py:131-133 | Pruning at `timestamp_current` keeps each buffer equal to the pulled frames stamped at or after the new `timestamp_last`. |
| RewardFunction.BufferedWindow | social_robotics_reward/reward_function.py:83-84 | The included part of such a buffer is the part of the whole source in `[timestamp_last, timestamp_current)`, because the frames not yet pulled are stamped later. |
| RewardFunction.RunExhausted | social_robotics_reward/reward_function.py:135-137 | A pull that finds its source exhausted ends the output cleanly, without emitting the open window. |
| RewardFunction.AfterPullClosed | social_robotics_reward/reward_function.py:122-133 | A window that closes and scores is yielded before everything the pruned state goes on to yield. |
| RewardFunction.RunSpacing | social_robotics_reward/reward_function.py:82-133 | The first signal of a run is stamped at least a period after `timestamp_last`, and each next one at least a period after the one before. |
| RewardFunction.RunStampsAreStreamTimes | social_robotics_reward/reward_function.py:81-123 | Every signal is stamped with a timestamp that one of the two sources carries. |
| RewardFunction.RunSignalCount | social_robotics_reward/reward_function.py:72-82 | A run yields at most as many signals as it pulls frames (`Pulls`), and it pulls at most the frames its sources have left. |
| RewardFunction.RunOutcome | social_robotics_reward/reward_function.py:135-137 | Once primed, the generator ends either cleanly or with a label mismatch. |
| RewardFunction.GenerateOutcome | social_robotics_reward/reward_function.py:65-69 | The generator fails with no output exactly when a source has no first frame; video is primed first, so an empty video source is reported even when audio is empty too. |
| RewardFunction.GenerateSpacing | social_robotics_reward/reward_function.py:67-133 | The first signal comes at least a period after the earlier first frame and later signals at least a period apart. Every stamp is a stream timestamp. There are at most as many signals as frames pulled after priming, and those are at most the frames left after priming. |
| RewardFunction.WindowIsHalfOpen | social_robotics_reward/reward_function.py:83-84 | For sorted sources and an exact buffer, a closing window holds exactly the source frames in `[timestamp_last, timestamp_current)`, in source order. The kept frames follow it in order. |
| RewardFunction.RunFromSources | social_robotics_reward/reward_function.py:72-133 | For sorted sources every signal of a run carries the rows of exactly the source frames between the previous close (or the run's `timestamp_last`) and its own stamp. |
| RewardFunction.GenerateFromSources | social_robotics_reward/reward_function.py:65-133 | For sorted sources the first signal covers the source frames from the earlier first frame up to its close, and each later one the frames between the previous close and its own. |
| RewardFunction.Gen | social_robotics_reward/reward_function.py:61-137 | The loop yields exactly the signals, and ends exactly as, `Generate` specifies. It keeps `Buffered` as a loop invariant. |
| Scenario.FirstWindow | social_robotics_reward/reward_function.py:83-129 | With happy-only classifiers the window closing at 0.5 s holds one audio row and three video rows. It scores 1/3 for audio, 1/7 for video and 1/3 + 1/7 combined. |
| Scenario.HappyRun | social_robotics_reward/reward_function.py:61-137 | That run yields exactly one signal, at 0.5 s, and then ends because the audio source is exhausted. |

## Left out

- The frame generators (webcam, microphone, video and audio files) are replaced by finite frame
  sequences. `audio_segment_duration_s` and `audio_period_propn` only configure the audio
  generator, so they do not appear.
- The classifiers (RMN, EmotionRecognizer) and their loading are abstract functions from a
  frame's payload to distributions. Which emotions they detect is not modelled.
- IEEE floating point: timestamps, probabilities and rewards are exact reals.
- pandas NaN filling: rows with different label sets would leave missing cells. Every member
  about windows requires `FixedLabelSets`, which says each classifier reports one label set
  for every frame and face.
- Generator laziness: a consumer that stops early, or a source that never ends, is not modelled.
  `Generate` gives everything the generator yields from finite sources.
- The `RewardSignal` data frames are modelled as sequences of rows, and `__repr__` is left out.
- Errors other than exhaustion that a frame source or a classifier raises propagate out of `gen`
  unchanged. The sources and classifiers here are total, so no `Outcome` stands for them.
- The command-line entry point (argument parsing, signal handling, printing) and the
  visualisation module are not part of this model.
