/**
 * The reward generator: two timestamped frame sources are merged by always pulling from
 * the lagging one (video on a tie), the buffered frames are cut into tumbling windows on
 * the streams' own timestamps, and every closed window is scored into a RewardSignal.
 *
 * `Run` and `Generate` specify the whole generator as a function of the two finite frame
 * sequences; `Gen` is the loop itself and is proved to produce exactly what `Generate` says.
 */
module RewardFunction {
  import opened Wrappers
  import opened Frames
  import opened Emotion

  /** The two emotion classifiers as functions of a frame's payload. */
  datatype Classifiers = Classifiers(audio: nat -> Row, video: nat -> seq<Face>)

  /** What the generator yields for one closed window. */
  datatype RewardSignal = RewardSignal(
    timestamp: real,
    combinedReward: real,
    audioReward: Option<real>,
    videoReward: Option<real>,
    audioEmotions: Table,
    videoEmotions: Table)

  /** How the generator stops. */
  datatype Outcome =
    | EndOfStream(source: Modality)       // a pull inside the loop found `source` exhausted: a clean end
    | SourceEmpty(source: Modality)       // `source` had no first frame: the error escapes the generator
    | LabelError(mismatch: LabelMismatch) // a window's table had the wrong labels: the error escapes

  /** Everything the generator yields, in order, and how it stops. */
  datatype Trace = Trace(signals: seq<RewardSignal>, outcome: Outcome)

  /** One audio row per frame. */
  function AudioRows(frames: seq<Frame>, cls: Classifiers): Table {
    seq(|frames|, i requires 0 <= i < |frames| => cls.audio(frames[i].payload))
  }

  /** One video row per detected face, frame after frame. */
  function VideoRows(frames: seq<Frame>, cls: Classifiers): Table {
    if frames == [] then []
    else
      var faces := cls.video(frames[0].payload);
      seq(|faces|, i requires 0 <= i < |faces| => Flatten(faces[i])) + VideoRows(frames[1..], cls)
  }

  /** Classifying two runs of frames one after the other gives their rows one after the other. */
  lemma {:induction false} VideoRowsAppend(s: seq<Frame>, t: seq<Frame>, cls: Classifiers)
    ensures VideoRows(s + t, cls) == VideoRows(s, cls) + VideoRows(t, cls)
  {
    if s != [] {
      var st := s + t;
      assert st[0] == s[0] && st[1..] == s[1..] + t;
      VideoRowsAppend(s[1..], t, cls);
      var faces := cls.video(s[0].payload);
      var head := seq(|faces|, i requires 0 <= i < |faces| => Flatten(faces[i]));
      assert VideoRows(st, cls) == head + VideoRows(s[1..] + t, cls);
      assert VideoRows(s, cls) == head + VideoRows(s[1..], cls);
      assert head + (VideoRows(s[1..], cls) + VideoRows(t, cls)) == (head + VideoRows(s[1..], cls)) + VideoRows(t, cls);
    } else {
      assert s + t == t;
    }
  }

  /** A single video frame contributes one row per detected face: the face's flattened distribution. */
  lemma VideoRowsOfFrame(f: Frame, cls: Classifiers)
    ensures var rows := VideoRows([f], cls);
      |rows| == |cls.video(f.payload)| &&
      forall i :: 0 <= i < |rows| ==> rows[i] == Flatten(cls.video(f.payload)[i])
  {
    assert [f][1..] == [];
  }

  /**
   * Each classifier always reports the same label set, so no data frame ever has a missing
   * cell (pandas would fill it with NaN, which this model does not cover).
   */
  ghost predicate FixedLabelSets(cls: Classifiers) {
    && (forall p, q :: cls.audio(p).Keys == cls.audio(q).Keys)
    && (forall p, q, i, j :: 0 <= i < |cls.video(p)| && 0 <= j < |cls.video(q)| ==>
          Flatten(cls.video(p)[i]).Keys == Flatten(cls.video(q)[j]).Keys)
  }

  /** Rows that all report the same labels make a table without missing cells. */
  lemma UniformIsComplete(t: Table)
    requires forall i, j :: 0 <= i < |t| && 0 <= j < |t| ==> t[i].Keys == t[j].Keys
    ensures Complete(t)
  {
    ColumnsMembership(t);
    forall i | 0 <= i < |t| ensures t[i].Keys == Columns(t) {
      forall k | k in Columns(t) ensures k in t[i] {
        var j :| 0 <= j < |t| && k in t[j];
      }
    }
  }

  /** Every video row reports the labels that any face the classifier reports flattens to. */
  lemma {:induction false} VideoRowsKeys(frames: seq<Frame>, cls: Classifiers)
    requires FixedLabelSets(cls)
    ensures forall k, p, i :: 0 <= k < |VideoRows(frames, cls)| && 0 <= i < |cls.video(p)| ==>
              VideoRows(frames, cls)[k].Keys == Flatten(cls.video(p)[i]).Keys
    ensures forall k, l :: 0 <= k < |VideoRows(frames, cls)| && 0 <= l < |VideoRows(frames, cls)| ==>
              VideoRows(frames, cls)[k].Keys == VideoRows(frames, cls)[l].Keys
  {
    if frames != [] {
      VideoRowsKeys(frames[1..], cls);
      var faces := cls.video(frames[0].payload);
      var head := seq(|faces|, i requires 0 <= i < |faces| => Flatten(faces[i]));
      var rest := VideoRows(frames[1..], cls);
      var rows := VideoRows(frames, cls);
      assert rows == head + rest;
      forall k, p, i | 0 <= k < |rows| && 0 <= i < |cls.video(p)|
        ensures rows[k].Keys == Flatten(cls.video(p)[i]).Keys
      {
        if k < |head| {
          assert rows[k] == Flatten(cls.video(frames[0].payload)[k]);
        } else {
          assert rows[k] == rest[k - |head|];
        }
      }
      forall k, l | 0 <= k < |rows| && 0 <= l < |rows| ensures rows[k].Keys == rows[l].Keys {
        if k < |head| {
          assert rows[k] == Flatten(cls.video(frames[0].payload)[k]);
        } else if l < |head| {
          assert rows[l] == Flatten(cls.video(frames[0].payload)[l]);
        } else {
          assert rows[k] == rest[k - |head|] && rows[l] == rest[l - |head|];
        }
      }
    }
  }

  /** With fixed label sets, the tables of any window have no missing cell. */
  lemma RowsComplete(audioFrames: seq<Frame>, videoFrames: seq<Frame>, cls: Classifiers)
    requires FixedLabelSets(cls)
    ensures Complete(AudioRows(audioFrames, cls)) && Complete(VideoRows(videoFrames, cls))
  {
    var rows := AudioRows(audioFrames, cls);
    forall i, j | 0 <= i < |rows| && 0 <= j < |rows| ensures rows[i].Keys == rows[j].Keys {
      assert rows[i] == cls.audio(audioFrames[i].payload) && rows[j] == cls.audio(audioFrames[j].payload);
    }
    UniformIsComplete(rows);
    VideoRowsKeys(videoFrames, cls);
    UniformIsComplete(VideoRows(videoFrames, cls));
  }

  // ---------------------------------------------------------------------------
  // The generator's state between two merge steps

  /**
   * The two buffers, the cursors of the two sources (the index of the next frame to pull)
   * and `timestamp_last`, where the previous window closed.
   */
  datatype Merger = Merger(video: seq<Frame>, audio: seq<Frame>, nextVideo: nat, nextAudio: nat, last: real)

  /**
   * What holds between merge steps: both buffers are non-empty (so `[-1]` is safe) and end
   * with the frame last pulled from their source.
   */
  predicate Valid(v: seq<Frame>, a: seq<Frame>, m: Merger) {
    && 0 < m.nextVideo <= |v| && 0 < m.nextAudio <= |a|
    && |m.video| > 0 && |m.audio| > 0
    && Last(m.video) == v[m.nextVideo - 1] && Last(m.audio) == a[m.nextAudio - 1]
  }

  /**
   * What holds in addition for sorted sources: each buffer is sorted and starts no earlier
   * than the previous window's close.
   */
  predicate Ordered(v: seq<Frame>, a: seq<Frame>, m: Merger)
    requires Valid(v, a, m)
  {
    && (Sorted(v) ==> Sorted(m.video) && m.video[0].timestamp >= m.last)
    && (Sorted(a) ==> Sorted(m.audio) && m.audio[0].timestamp >= m.last)
  }

  /** The state after priming: one frame from each source, video first, and the earlier stamp. */
  function Start(v: seq<Frame>, a: seq<Frame>): (m: Merger)
    requires |v| > 0 && |a| > 0
    ensures Valid(v, a, m) && Ordered(v, a, m)
    ensures m.last == Min(v[0].timestamp, a[0].timestamp)
  {
    Merger([v[0]], [a[0]], 1, 1, Min(v[0].timestamp, a[0].timestamp))
  }

  /** The audio stream lags: its last frame is stamped strictly before video's. */
  predicate AudioLags(m: Merger)
    requires |m.video| > 0 && |m.audio| > 0
  {
    Last(m.audio).timestamp < Last(m.video).timestamp
  }

  /** A merge step either pulls a frame or finds the source it must pull from exhausted. */
  datatype Pull = Pulled(next: Merger) | Exhausted(source: Modality)

  /**
   * One merge step: pull from the lagging source, and from video when both last stamps
   * are equal (MergeStep states it in full).
   */
  function Merge(v: seq<Frame>, a: seq<Frame>, m: Merger): (p: Pull)
    requires Valid(v, a, m)
    ensures p.Pulled? ==> Valid(v, a, p.next) && p.next.nextVideo + p.next.nextAudio == m.nextVideo + m.nextAudio + 1
  {
    if AudioLags(m) then
      if m.nextAudio == |a| then Exhausted(Audio)
      else Pulled(m.(audio := m.audio + [a[m.nextAudio]], nextAudio := m.nextAudio + 1))
    else
      if m.nextVideo == |v| then Exhausted(Video)
      else Pulled(m.(video := m.video + [v[m.nextVideo]], nextVideo := m.nextVideo + 1))
  }

  /**
   * A merge step pulls audio exactly when audio's last stamp is strictly earlier than
   * video's, and video otherwise, ties included; the other buffer and `timestamp_last` stay
   * as they are, and the step stops when the source it must pull from is exhausted.
   */
  lemma MergeStep(v: seq<Frame>, a: seq<Frame>, m: Merger)
    requires Valid(v, a, m)
    ensures var p := Merge(v, a, m);
      && (p.Exhausted? <==> if AudioLags(m) then m.nextAudio == |a| else m.nextVideo == |v|)
      && (p.Exhausted? ==> p.source == if AudioLags(m) then Audio else Video)
      && (p.Pulled? ==> p.next.last == m.last)
      && (p.Pulled? && AudioLags(m) ==>
            && m.nextAudio < |a|
            && p.next.audio == m.audio + [a[m.nextAudio]] && p.next.nextAudio == m.nextAudio + 1
            && p.next.video == m.video && p.next.nextVideo == m.nextVideo)
      && (p.Pulled? && !AudioLags(m) ==>
            && m.nextVideo < |v|
            && p.next.video == m.video + [v[m.nextVideo]] && p.next.nextVideo == m.nextVideo + 1
            && p.next.audio == m.audio && p.next.nextAudio == m.nextAudio)
  {
  }

  /** A merge step keeps sorted buffers sorted and above `timestamp_last`. */
  lemma MergeKeepsOrdered(v: seq<Frame>, a: seq<Frame>, m: Merger)
    requires Valid(v, a, m) && Ordered(v, a, m) && Merge(v, a, m).Pulled?
    ensures Ordered(v, a, Merge(v, a, m).next)
  {
    MergeStep(v, a, m);
    if AudioLags(m) {
      AppendKeepsOrdered(a, m.audio, m.nextAudio, m.last);
    } else {
      AppendKeepsOrdered(v, m.video, m.nextVideo, m.last);
    }
  }

  lemma AppendKeepsOrdered(src: seq<Frame>, buf: seq<Frame>, next: nat, last: real)
    requires 0 < next < |src| && |buf| > 0 && Last(buf) == src[next - 1]
    requires Sorted(src) ==> Sorted(buf) && buf[0].timestamp >= last
    ensures Sorted(src) ==> Sorted(buf + [src[next]]) && (buf + [src[next]])[0].timestamp >= last
  {
    if Sorted(src) {
      LastIsLatest(buf);
      assert src[next - 1].timestamp <= src[next].timestamp;
      AppendKeepsSorted(buf, src[next]);
    }
  }

  /** `timestamp_current`: the earlier of the two buffers' last stamps. */
  function Current(m: Merger): real
    requires |m.video| > 0 && |m.audio| > 0
  {
    Min(Last(m.video).timestamp, Last(m.audio).timestamp)
  }

  /** The window closes once the streams have advanced by at least a period since the last close. */
  predicate Closes(m: Merger, period: real)
    requires |m.video| > 0 && |m.audio| > 0
  {
    Current(m) - m.last >= period
  }

  /**
   * Scores the window closing at `timestamp_current`: the frames of each buffer stamped
   * strictly before it are classified, the tables validated and the rewards computed
   * (WindowSignal states what comes out).
   */
  function Window(m: Merger, cls: Classifiers): Result<RewardSignal, LabelMismatch>
    requires |m.video| > 0 && |m.audio| > 0 && FixedLabelSets(cls)
  {
    var t := Current(m);
    var audio := AudioRows(Before(m.audio, t), cls);
    var video := VideoRows(Before(m.video, t), cls);
    RowsComplete(Before(m.audio, t), Before(m.video, t), cls);
    match Score(audio, video)
    case Failure(e) => Failure(e)
    case Success(s) => Success(RewardSignal(t, s.combined, s.audio, s.video, audio, video))
  }

  /**
   * A window is rejected exactly when one of its tables is non-empty with the wrong label
   * set, audio being checked first; otherwise its signal is stamped with the close, holds
   * one row per included frame or face, and carries the modality rewards and their sum.
   */
  lemma WindowSignal(m: Merger, cls: Classifiers)
    requires |m.video| > 0 && |m.audio| > 0 && FixedLabelSets(cls)
    ensures
      var r := Window(m, cls);
      var audio := AudioRows(Before(m.audio, Current(m)), cls);
      var video := VideoRows(Before(m.video, Current(m)), cls);
      && Complete(audio) && Complete(video)
      && (r.Failure? <==> Mismatched(audio, AudioCoefficients) || Mismatched(video, VideoCoefficients))
      && (r.Failure? ==> r.error.modality == if Mismatched(audio, AudioCoefficients) then Audio else Video)
      && (r.Success? ==>
            && r.value.timestamp == Current(m)
            && r.value.audioEmotions == audio && r.value.videoEmotions == video
            && r.value.audioReward == Reward(audio, AudioCoefficients)
            && r.value.videoReward == Reward(video, VideoCoefficients)
            && r.value.combinedReward == Combine(r.value.audioReward, r.value.videoReward))
  {
    RowsComplete(Before(m.audio, Current(m)), Before(m.video, Current(m)), cls);
  }

  /**
   * After a window closes, each buffer keeps only its frames stamped at or after the close,
   * and the close becomes `timestamp_last`.
   */
  function Prune(m: Merger): (r: Merger)
    requires |m.video| > 0 && |m.audio| > 0
    ensures r.last == Current(m) && r.nextVideo == m.nextVideo && r.nextAudio == m.nextAudio
    ensures |r.video| > 0 && Last(r.video) == Last(m.video)
    ensures |r.audio| > 0 && Last(r.audio) == Last(m.audio)
  {
    var t := Current(m);
    m.(video := From(m.video, t), audio := From(m.audio, t), last := t)
  }

  /**
   * Pruning splits each buffer at the close: the window's frames and the kept frames
   * together are the buffer, and every kept frame is stamped at or after the new
   * `timestamp_last`, so no frame is scored in two windows.
   */
  lemma PruneSplits(m: Merger)
    requires |m.video| > 0 && |m.audio| > 0
    ensures var r := Prune(m);
      && (forall f :: f in r.video ==> f.timestamp >= r.last)
      && (forall f :: f in r.audio ==> f.timestamp >= r.last)
      && multiset(Before(m.video, Current(m))) + multiset(r.video) == multiset(m.video)
      && multiset(Before(m.audio, Current(m))) + multiset(r.audio) == multiset(m.audio)
  {
    PartitionConserves(m.video, Current(m));
    PartitionConserves(m.audio, Current(m));
  }

  /** Pruning keeps sorted buffers sorted and above the new `timestamp_last`. */
  lemma PruneKeepsOrdered(v: seq<Frame>, a: seq<Frame>, m: Merger)
    requires Valid(v, a, m) && Ordered(v, a, m)
    ensures Valid(v, a, Prune(m)) && Ordered(v, a, Prune(m))
  {
    var r := Prune(m);
    if Sorted(v) {
      PartitionKeepsSorted(m.video, Current(m));
      assert r.video[0] in r.video;
    }
    if Sorted(a) {
      PartitionKeepsSorted(m.audio, Current(m));
      assert r.audio[0] in r.audio;
    }
  }

  /**
   * What holds for sorted sources: each buffer is exactly the frames pulled so far that are
   * stamped at or after `timestamp_last`, in source order.
   */
  predicate Buffered(v: seq<Frame>, a: seq<Frame>, m: Merger)
    requires Valid(v, a, m)
  {
    Sorted(v) && Sorted(a) ==>
      m.video == From(v[..m.nextVideo], m.last) && m.audio == From(a[..m.nextAudio], m.last)
  }

  /** Priming buffers the first frame of each source, neither earlier than `timestamp_last`. */
  lemma StartBuffered(v: seq<Frame>, a: seq<Frame>)
    requires |v| > 0 && |a| > 0
    ensures Buffered(v, a, Start(v, a))
  {
    var m := Start(v, a);
    assert v[..1][..0] == [] && a[..1][..0] == [];
    assert From(v[..1], m.last) == [v[0]];
    assert From(a[..1], m.last) == [a[0]];
  }

  /** A merge step appends the pulled frame, which a sorted source stamps no earlier than the buffered ones. */
  lemma MergeKeepsBuffered(v: seq<Frame>, a: seq<Frame>, m: Merger)
    requires Valid(v, a, m) && Buffered(v, a, m) && Merge(v, a, m).Pulled?
    ensures Buffered(v, a, Merge(v, a, m).next)
  {
    var n := Merge(v, a, m).next;
    if Sorted(v) && Sorted(a) {
      if AudioLags(m) {
        assert n == m.(audio := m.audio + [a[m.nextAudio]], nextAudio := m.nextAudio + 1);
        assert a[m.nextAudio - 1].timestamp <= a[m.nextAudio].timestamp;
        AppendKeepsBuffered(a, m.audio, m.nextAudio, m.last);
      } else {
        assert n == m.(video := m.video + [v[m.nextVideo]], nextVideo := m.nextVideo + 1);
        assert v[m.nextVideo - 1].timestamp <= v[m.nextVideo].timestamp;
        AppendKeepsBuffered(v, m.video, m.nextVideo, m.last);
      }
      ExactIsBuffered(v, a, n);
    }
  }

  lemma ExactIsBuffered(v: seq<Frame>, a: seq<Frame>, m: Merger)
    requires Valid(v, a, m)
    requires m.video == From(v[..m.nextVideo], m.last) && m.audio == From(a[..m.nextAudio], m.last)
    ensures Buffered(v, a, m)
  {
  }

  lemma AppendKeepsBuffered(src: seq<Frame>, buf: seq<Frame>, next: nat, last: real)
    requires 0 < next < |src| && |buf| > 0 && Last(buf) == src[next - 1]
    requires src[next - 1].timestamp <= src[next].timestamp
    requires buf == From(src[..next], last)
    ensures buf + [src[next]] == From(src[..next + 1], last)
  {
    assert Last(buf) in buf;
    assert src[..next + 1][..next] == src[..next];
  }

  /** Pruning at `timestamp_current`, which is no earlier than `timestamp_last`, keeps the buffers exact. */
  lemma PruneKeepsBuffered(v: seq<Frame>, a: seq<Frame>, m: Merger)
    requires Valid(v, a, m) && Buffered(v, a, m)
    ensures Valid(v, a, Prune(m)) && Buffered(v, a, Prune(m))
  {
    var r, t := Prune(m), Current(m);
    if Sorted(v) && Sorted(a) {
      assert r == m.(video := From(m.video, t), audio := From(m.audio, t), last := t);
      ExactIsAboveLast(v, m.video, m.nextVideo, m.last);
      ExactIsAboveLast(a, m.audio, m.nextAudio, m.last);
      CloseKeepsExact(v, m.video, m.nextVideo, m.last, t);
      CloseKeepsExact(a, m.audio, m.nextAudio, m.last, t);
      ExactIsBuffered(v, a, r);
    }
  }

  lemma ExactIsAboveLast(src: seq<Frame>, buf: seq<Frame>, next: nat, last: real)
    requires next <= |src| && |buf| > 0 && buf == From(src[..next], last)
    ensures Last(buf).timestamp >= last
  {
    assert Last(buf) in buf;
  }

  lemma CloseKeepsExact(src: seq<Frame>, buf: seq<Frame>, next: nat, last: real, t: real)
    requires next <= |src| && buf == From(src[..next], last) && last <= t
    ensures From(buf, t) == From(src[..next], t)
  {
    FromFrom(src[..next], last, t);
  }

  /**
   * The part of an exact buffer before a close no later than its last frame is the part
   * of the whole source stamped in `[last, close)`: the frames not pulled yet are later.
   */
  lemma BufferedWindow(src: seq<Frame>, buf: seq<Frame>, next: nat, last: real, t: real)
    requires Sorted(src) && 0 < next <= |src| && |buf| > 0 && Last(buf) == src[next - 1]
    requires buf == From(src[..next], last) && t <= Last(buf).timestamp
    ensures Before(buf, t) == Between(src, last, t)
  {
    assert src == src[..next] + src[next..];
    FromConcat(src[..next], src[next..], last);
    var later := From(src[next..], last);
    BeforeConcat(buf, later, t);
    forall f | f in later ensures f.timestamp >= t {
      var j :| 0 <= j < |src[next..]| && src[next..][j] == f;
      assert src[next - 1].timestamp <= src[next + j].timestamp;
    }
    NothingBeforeWhenAllLater(later, t);
    ConcatEmpty(Before(buf, t));
  }

  /** An exact buffer of a sorted source is sorted. */
  lemma BufferedIsSorted(src: seq<Frame>, next: nat, last: real)
    requires Sorted(src) && next <= |src|
    ensures Sorted(From(src[..next], last))
  {
    assert Sorted(src[..next]);
    PartitionKeepsSorted(src[..next], last);
  }

  /** The signals `s` followed by what `t` yields. */
  function Then(s: seq<RewardSignal>, t: Trace): Trace {
    Trace(s + t.signals, t.outcome)
  }

  lemma ThenThen(s1: seq<RewardSignal>, s2: seq<RewardSignal>, t: Trace)
    ensures Then(s1, Then(s2, t)) == Then(s1 + s2, t)
  {
    assert s1 + (s2 + t.signals) == (s1 + s2) + t.signals;
  }

  /** What the generator yields from state `m` on: a merge step, then the window check. */
  function Run(v: seq<Frame>, a: seq<Frame>, period: real, cls: Classifiers, m: Merger): Trace
    requires Valid(v, a, m) && FixedLabelSets(cls)
    decreases |v| - m.nextVideo + |a| - m.nextAudio, 1
  {
    match Merge(v, a, m)
    case Exhausted(source) => Trace([], EndOfStream(source))
    case Pulled(n) => AfterPull(v, a, period, cls, n)
  }

  /**
   * What the generator yields once a frame has been pulled into state `n`: if the window
   * closes it is scored, yielded and pruned, and the merge goes on either way.
   */
  function AfterPull(v: seq<Frame>, a: seq<Frame>, period: real, cls: Classifiers, n: Merger): Trace
    requires Valid(v, a, n) && FixedLabelSets(cls)
    decreases |v| - n.nextVideo + |a| - n.nextAudio, 2
  {
    if !Closes(n, period) then Run(v, a, period, cls, n)
    else
      match Window(n, cls)
      case Failure(e) => Trace([], LabelError(e))
      case Success(s) => Then([s], Run(v, a, period, cls, Prune(n)))
  }

  /** A merge step that finds its source exhausted ends the run cleanly; the open window is dropped. */
  lemma RunExhausted(v: seq<Frame>, a: seq<Frame>, period: real, cls: Classifiers, m: Merger, source: Modality)
    requires Valid(v, a, m) && FixedLabelSets(cls) && Merge(v, a, m) == Exhausted(source)
    ensures Run(v, a, period, cls, m) == Trace([], EndOfStream(source))
  {
  }

  lemma RunPulled(v: seq<Frame>, a: seq<Frame>, period: real, cls: Classifiers, m: Merger, n: Merger)
    requires Valid(v, a, m) && FixedLabelSets(cls) && Merge(v, a, m) == Pulled(n)
    ensures Run(v, a, period, cls, m) == AfterPull(v, a, period, cls, n)
  {
  }

  lemma AfterPullOpen(v: seq<Frame>, a: seq<Frame>, period: real, cls: Classifiers, n: Merger)
    requires Valid(v, a, n) && FixedLabelSets(cls) && !Closes(n, period)
    ensures AfterPull(v, a, period, cls, n) == Run(v, a, period, cls, n)
  {
  }

  lemma AfterPullRejected(v: seq<Frame>, a: seq<Frame>, period: real, cls: Classifiers, n: Merger)
    requires Valid(v, a, n) && FixedLabelSets(cls) && Closes(n, period) && Window(n, cls).Failure?
    ensures AfterPull(v, a, period, cls, n) == Trace([], LabelError(Window(n, cls).error))
  {
  }

  lemma AfterPullClosed(v: seq<Frame>, a: seq<Frame>, period: real, cls: Classifiers, n: Merger)
    requires Valid(v, a, n) && FixedLabelSets(cls) && Closes(n, period) && Window(n, cls).Success?
    ensures Valid(v, a, Prune(n))
    ensures AfterPull(v, a, period, cls, n) == Then([Window(n, cls).value], Run(v, a, period, cls, Prune(n)))
  {
  }

  /** What `gen(period_s)` yields for the video frames `v` and the audio frames `a`. */
  function Generate(v: seq<Frame>, a: seq<Frame>, period: real, cls: Classifiers): Trace
    requires FixedLabelSets(cls)
  {
    if |v| == 0 then Trace([], SourceEmpty(Video))
    else if |a| == 0 then Trace([], SourceEmpty(Audio))
    else Run(v, a, period, cls, Start(v, a))
  }

  // ---------------------------------------------------------------------------
  // Properties of the whole run

  /**
   * The first window of a run closes at least a period after `timestamp_last`, and each
   * later window at least a period after the one before it.
   */
  lemma {:induction false} RunSpacing(v: seq<Frame>, a: seq<Frame>, period: real, cls: Classifiers, m: Merger)
    requires Valid(v, a, m) && FixedLabelSets(cls)
    ensures Spaced(Run(v, a, period, cls, m).signals, m.last, period)
    decreases |v| - m.nextVideo + |a| - m.nextAudio, 1
  {
    if Merge(v, a, m).Pulled? {
      MergeStep(v, a, m);
      AfterPullSpacing(v, a, period, cls, Merge(v, a, m).next);
    }
  }

  lemma {:induction false} AfterPullSpacing(v: seq<Frame>, a: seq<Frame>, period: real, cls: Classifiers, n: Merger)
    requires Valid(v, a, n) && FixedLabelSets(cls)
    ensures Spaced(AfterPull(v, a, period, cls, n).signals, n.last, period)
    decreases |v| - n.nextVideo + |a| - n.nextAudio, 2
  {
    if !Closes(n, period) {
      RunSpacing(v, a, period, cls, n);
    } else if Window(n, cls).Success? {
      WindowSignal(n, cls);
      RunSpacing(v, a, period, cls, Prune(n));
      var w, rest := Window(n, cls).value, Run(v, a, period, cls, Prune(n)).signals;
      SpacedCons(w, rest, n.last, period);
    }
  }

  /** Signals `s` start at least `period` after `last` and follow each other at least `period` apart. */
  predicate Spaced(s: seq<RewardSignal>, last: real, period: real) {
    && (|s| > 0 ==> s[0].timestamp - last >= period)
    && (forall k :: 0 < k < |s| ==> s[k].timestamp - s[k - 1].timestamp >= period)
  }

  lemma SpacedCons(w: RewardSignal, rest: seq<RewardSignal>, last: real, period: real)
    requires w.timestamp - last >= period && Spaced(rest, w.timestamp, period)
    ensures Spaced([w] + rest, last, period)
  {
    var s := [w] + rest;
    forall k | 0 < k < |s| ensures s[k].timestamp - s[k - 1].timestamp >= period {
      assert s[k] == rest[k - 1];
      if k > 1 {
        assert s[k - 1] == rest[k - 2];
      }
    }
  }

  /** `t` is the timestamp of some frame of one of the two sources. */
  ghost predicate IsStreamTime(v: seq<Frame>, a: seq<Frame>, t: real) {
    (exists i :: 0 <= i < |v| && v[i].timestamp == t) || (exists i :: 0 <= i < |a| && a[i].timestamp == t)
  }

  /** Every signal of `s` is stamped with a timestamp one of the two sources carries. */
  ghost predicate StampedFrom(s: seq<RewardSignal>, v: seq<Frame>, a: seq<Frame>) {
    forall k :: 0 <= k < |s| ==> IsStreamTime(v, a, s[k].timestamp)
  }

  /** Every window closes at a timestamp one of the two sources actually carries. */
  lemma {:induction false} RunStampsAreStreamTimes(v: seq<Frame>, a: seq<Frame>, period: real, cls: Classifiers, m: Merger)
    requires Valid(v, a, m) && FixedLabelSets(cls)
    ensures StampedFrom(Run(v, a, period, cls, m).signals, v, a)
    decreases |v| - m.nextVideo + |a| - m.nextAudio, 1
  {
    if Merge(v, a, m).Pulled? {
      AfterPullStampsAreStreamTimes(v, a, period, cls, Merge(v, a, m).next);
    }
  }

  lemma {:induction false} AfterPullStampsAreStreamTimes(v: seq<Frame>, a: seq<Frame>, period: real, cls: Classifiers, n: Merger)
    requires Valid(v, a, n) && FixedLabelSets(cls)
    ensures StampedFrom(AfterPull(v, a, period, cls, n).signals, v, a)
    decreases |v| - n.nextVideo + |a| - n.nextAudio, 2
  {
    if !Closes(n, period) {
      RunStampsAreStreamTimes(v, a, period, cls, n);
    } else if Window(n, cls).Success? {
      WindowSignal(n, cls);
      RunStampsAreStreamTimes(v, a, period, cls, Prune(n));
      var w := Window(n, cls).value;
      assert IsStreamTime(v, a, w.timestamp) by {
        assert v[n.nextVideo - 1].timestamp == Last(n.video).timestamp;
        assert a[n.nextAudio - 1].timestamp == Last(n.audio).timestamp;
      }
      StampedCons(w, Run(v, a, period, cls, Prune(n)).signals, v, a);
    }
  }

  lemma StampedCons(w: RewardSignal, rest: seq<RewardSignal>, v: seq<Frame>, a: seq<Frame>)
    requires IsStreamTime(v, a, w.timestamp) && StampedFrom(rest, v, a)
    ensures StampedFrom([w] + rest, v, a)
  {
    var s := [w] + rest;
    forall k | 0 < k < |s| ensures IsStreamTime(v, a, s[k].timestamp) {
      assert s[k] == rest[k - 1];
    }
  }

  /** How many frames a run from state `m` pulls before it stops. */
  function Pulls(v: seq<Frame>, a: seq<Frame>, period: real, cls: Classifiers, m: Merger): nat
    requires Valid(v, a, m) && FixedLabelSets(cls)
    decreases |v| - m.nextVideo + |a| - m.nextAudio, 1
  {
    match Merge(v, a, m)
    case Exhausted(_) => 0
    case Pulled(n) => 1 + PullsAfter(v, a, period, cls, n)
  }

  /** How many frames a run pulls after a frame has been pulled into state `n`. */
  function PullsAfter(v: seq<Frame>, a: seq<Frame>, period: real, cls: Classifiers, n: Merger): nat
    requires Valid(v, a, n) && FixedLabelSets(cls)
    decreases |v| - n.nextVideo + |a| - n.nextAudio, 2
  {
    if !Closes(n, period) then Pulls(v, a, period, cls, n)
    else if Window(n, cls).Failure? then 0
    else Pulls(v, a, period, cls, Prune(n))
  }

  /**
   * At most one window closes per pulled frame, and a run cannot pull more frames than the
   * sources have left.
   */
  lemma {:induction false} RunSignalCount(v: seq<Frame>, a: seq<Frame>, period: real, cls: Classifiers, m: Merger)
    requires Valid(v, a, m) && FixedLabelSets(cls)
    ensures |Run(v, a, period, cls, m).signals| <= Pulls(v, a, period, cls, m) <= |v| - m.nextVideo + |a| - m.nextAudio
    decreases |v| - m.nextVideo + |a| - m.nextAudio, 1
  {
    if Merge(v, a, m).Pulled? {
      AfterPullSignalCount(v, a, period, cls, Merge(v, a, m).next);
    }
  }

  lemma {:induction false} AfterPullSignalCount(v: seq<Frame>, a: seq<Frame>, period: real, cls: Classifiers, n: Merger)
    requires Valid(v, a, n) && FixedLabelSets(cls)
    ensures |AfterPull(v, a, period, cls, n).signals| <= PullsAfter(v, a, period, cls, n) + 1
    ensures PullsAfter(v, a, period, cls, n) <= |v| - n.nextVideo + |a| - n.nextAudio
    decreases |v| - n.nextVideo + |a| - n.nextAudio, 2
  {
    if !Closes(n, period) {
      AfterPullOpen(v, a, period, cls, n);
      RunSignalCount(v, a, period, cls, n);
    } else if Window(n, cls).Success? {
      AfterPullClosed(v, a, period, cls, n);
      assert PullsAfter(v, a, period, cls, n) == Pulls(v, a, period, cls, Prune(n));
      RunSignalCount(v, a, period, cls, Prune(n));
    }
  }

  /** A run ends cleanly on an exhausted source or on a rejected window, never with a priming error. */
  lemma {:induction false} RunOutcome(v: seq<Frame>, a: seq<Frame>, period: real, cls: Classifiers, m: Merger)
    requires Valid(v, a, m) && FixedLabelSets(cls)
    ensures !Run(v, a, period, cls, m).outcome.SourceEmpty?
    decreases |v| - m.nextVideo + |a| - m.nextAudio, 1
  {
    if Merge(v, a, m).Pulled? {
      AfterPullOutcome(v, a, period, cls, Merge(v, a, m).next);
    }
  }

  lemma {:induction false} AfterPullOutcome(v: seq<Frame>, a: seq<Frame>, period: real, cls: Classifiers, n: Merger)
    requires Valid(v, a, n) && FixedLabelSets(cls)
    ensures !AfterPull(v, a, period, cls, n).outcome.SourceEmpty?
    decreases |v| - n.nextVideo + |a| - n.nextAudio, 2
  {
    if !Closes(n, period) {
      RunOutcome(v, a, period, cls, n);
    } else if Window(n, cls).Success? {
      RunOutcome(v, a, period, cls, Prune(n));
    }
  }

  /**
   * `gen` fails before yielding anything exactly when a source has no first frame (video is
   * primed first); otherwise it ends cleanly or with a label mismatch.
   */
  lemma GenerateOutcome(v: seq<Frame>, a: seq<Frame>, period: real, cls: Classifiers)
    requires FixedLabelSets(cls)
    ensures var t := Generate(v, a, period, cls);
      && (t.outcome.SourceEmpty? <==> |v| == 0 || |a| == 0)
      && (t.outcome.SourceEmpty? ==> t.signals == [] && t.outcome.source == if |v| == 0 then Video else Audio)
  {
    if |v| > 0 && |a| > 0 {
      RunOutcome(v, a, period, cls, Start(v, a));
    }
  }

  /**
   * The yielded windows are spaced by at least a period, the first one at least a period
   * after the earlier first frame, each closes at a stream timestamp, and there are at most
   * as many as frames pulled after priming, which are at most the frames left after priming.
   */
  lemma GenerateSpacing(v: seq<Frame>, a: seq<Frame>, period: real, cls: Classifiers)
    requires FixedLabelSets(cls) && |v| > 0 && |a| > 0
    ensures var s := Generate(v, a, period, cls).signals;
      && Spaced(s, Min(v[0].timestamp, a[0].timestamp), period)
      && StampedFrom(s, v, a)
      && |s| <= Pulls(v, a, period, cls, Start(v, a)) <= |v| + |a| - 2
  {
    RunSpacing(v, a, period, cls, Start(v, a));
    RunStampsAreStreamTimes(v, a, period, cls, Start(v, a));
    RunSignalCount(v, a, period, cls, Start(v, a));
  }

  /**
   * For sorted sources a closing window holds exactly the source frames stamped in
   * `[timestamp_last, timestamp_current)`, in source order, and the kept frames follow it.
   */
  lemma WindowIsHalfOpen(v: seq<Frame>, a: seq<Frame>, m: Merger)
    requires Valid(v, a, m) && Buffered(v, a, m) && Sorted(v) && Sorted(a)
    ensures Before(m.video, Current(m)) == Between(v, m.last, Current(m))
    ensures Before(m.audio, Current(m)) == Between(a, m.last, Current(m))
    ensures forall f :: f in Before(m.video, Current(m)) <==> f in v && m.last <= f.timestamp < Current(m)
    ensures forall f :: f in Before(m.audio, Current(m)) <==> f in a && m.last <= f.timestamp < Current(m)
    ensures Before(m.video, Current(m)) + Prune(m).video == m.video
    ensures Before(m.audio, Current(m)) + Prune(m).audio == m.audio
  {
    BufferedWindow(v, m.video, m.nextVideo, m.last, Current(m));
    BufferedWindow(a, m.audio, m.nextAudio, m.last, Current(m));
    BufferedIsSorted(v, m.nextVideo, m.last);
    BufferedIsSorted(a, m.nextAudio, m.last);
    SortedPartitionIsSplit(m.video, Current(m));
    SortedPartitionIsSplit(m.audio, Current(m));
  }

  /**
   * Each signal of `s` holds the rows of exactly the source frames stamped from the
   * previous close (`last` for the first signal) up to its own stamp.
   */
  ghost predicate FromSources(s: seq<RewardSignal>, v: seq<Frame>, a: seq<Frame>, last: real, cls: Classifiers) {
    && (|s| > 0 ==> WindowFrom(s[0], v, a, last, cls))
    && (forall k :: 0 < k < |s| ==> WindowFrom(s[k], v, a, s[k - 1].timestamp, cls))
  }

  /** The tables of `w` are the rows of the source frames stamped in `[lo, w.timestamp)`. */
  ghost predicate WindowFrom(w: RewardSignal, v: seq<Frame>, a: seq<Frame>, lo: real, cls: Classifiers) {
    && w.audioEmotions == AudioRows(Between(a, lo, w.timestamp), cls)
    && w.videoEmotions == VideoRows(Between(v, lo, w.timestamp), cls)
  }

  lemma FromSourcesCons(w: RewardSignal, rest: seq<RewardSignal>, v: seq<Frame>, a: seq<Frame>, last: real, cls: Classifiers)
    requires WindowFrom(w, v, a, last, cls) && FromSources(rest, v, a, w.timestamp, cls)
    ensures FromSources([w] + rest, v, a, last, cls)
  {
    var s := [w] + rest;
    forall k | 0 < k < |s| ensures WindowFrom(s[k], v, a, s[k - 1].timestamp, cls) {
      assert s[k] == rest[k - 1];
      if k > 1 {
        assert s[k - 1] == rest[k - 2];
      }
    }
  }

  /**
   * For sorted sources every window a run yields is scored on exactly the source frames
   * between the previous close and its own.
   */
  lemma {:induction false} RunFromSources(v: seq<Frame>, a: seq<Frame>, period: real, cls: Classifiers, m: Merger)
    requires Valid(v, a, m) && Buffered(v, a, m) && FixedLabelSets(cls) && Sorted(v) && Sorted(a)
    ensures FromSources(Run(v, a, period, cls, m).signals, v, a, m.last, cls)
    decreases |v| - m.nextVideo + |a| - m.nextAudio, 1
  {
    if Merge(v, a, m).Pulled? {
      MergeStep(v, a, m);
      MergeKeepsBuffered(v, a, m);
      AfterPullFromSources(v, a, period, cls, Merge(v, a, m).next);
    }
  }

  lemma {:induction false} AfterPullFromSources(v: seq<Frame>, a: seq<Frame>, period: real, cls: Classifiers, n: Merger)
    requires Valid(v, a, n) && Buffered(v, a, n) && FixedLabelSets(cls) && Sorted(v) && Sorted(a)
    ensures FromSources(AfterPull(v, a, period, cls, n).signals, v, a, n.last, cls)
    decreases |v| - n.nextVideo + |a| - n.nextAudio, 2
  {
    if !Closes(n, period) {
      RunFromSources(v, a, period, cls, n);
    } else if Window(n, cls).Success? {
      WindowSignal(n, cls);
      WindowIsHalfOpen(v, a, n);
      PruneKeepsBuffered(v, a, n);
      RunFromSources(v, a, period, cls, Prune(n));
      var w := Window(n, cls).value;
      assert WindowFrom(w, v, a, n.last, cls);
      FromSourcesCons(w, Run(v, a, period, cls, Prune(n)).signals, v, a, n.last, cls);
    }
  }

  /**
   * For sorted sources the first window yielded is scored on the source frames stamped
   * from the earlier first frame up to its close, and each later one on the frames between
   * the previous close and its own.
   */
  lemma GenerateFromSources(v: seq<Frame>, a: seq<Frame>, period: real, cls: Classifiers)
    requires FixedLabelSets(cls) && |v| > 0 && |a| > 0 && Sorted(v) && Sorted(a)
    ensures FromSources(Generate(v, a, period, cls).signals, v, a, Min(v[0].timestamp, a[0].timestamp), cls)
  {
    StartBuffered(v, a);
    RunFromSources(v, a, period, cls, Start(v, a));
  }

  // ---------------------------------------------------------------------------
  // The generator loop

  /**
   * `gen`: primes both sources, then alternates merge steps and window checks until a
   * source runs out or a window is rejected.
   */
  method Gen(video: seq<Frame>, audio: seq<Frame>, period: real, cls: Classifiers)
      returns (signals: seq<RewardSignal>, outcome: Outcome)
    requires FixedLabelSets(cls)
    ensures Trace(signals, outcome) == Generate(video, audio, period, cls)
  {
    signals := [];
    if |video| == 0 {
      outcome := SourceEmpty(Video);
      return;
    }
    var videoFrames := [video[0]];
    if |audio| == 0 {
      outcome := SourceEmpty(Audio);
      return;
    }
    var audioFrames := [audio[0]];
    var nextVideo, nextAudio := 1, 1;
    var timestampLast := Min(video[0].timestamp, audio[0].timestamp);
    ghost var whole := Generate(video, audio, period, cls);
    assert whole == Then([], Run(video, audio, period, cls, Start(video, audio)));
    StartBuffered(video, audio);

    while true
      invariant Valid(video, audio, Merger(videoFrames, audioFrames, nextVideo, nextAudio, timestampLast))
      invariant Buffered(video, audio, Merger(videoFrames, audioFrames, nextVideo, nextAudio, timestampLast))
      invariant whole == Then(signals, Run(video, audio, period, cls, Merger(videoFrames, audioFrames, nextVideo, nextAudio, timestampLast)))
      decreases |video| - nextVideo + |audio| - nextAudio
    {
      ghost var m := Merger(videoFrames, audioFrames, nextVideo, nextAudio, timestampLast);
      MergeStep(video, audio, m);
      // keep pulling from the lagging stream
      if Last(audioFrames).timestamp < Last(videoFrames).timestamp {
        if nextAudio == |audio| {
          RunExhausted(video, audio, period, cls, m, Audio);
          outcome := EndOfStream(Audio);
          assert signals + [] == signals;
          return;
        }
        audioFrames := audioFrames + [audio[nextAudio]];
        nextAudio := nextAudio + 1;
      } else {
        if nextVideo == |video| {
          RunExhausted(video, audio, period, cls, m, Video);
          outcome := EndOfStream(Video);
          assert signals + [] == signals;
          return;
        }
        videoFrames := videoFrames + [video[nextVideo]];
        nextVideo := nextVideo + 1;
      }
      ghost var n := Merger(videoFrames, audioFrames, nextVideo, nextAudio, timestampLast);
      assert Merge(video, audio, m) == Pulled(n);
      RunPulled(video, audio, period, cls, m, n);
      MergeKeepsBuffered(video, audio, m);

      // are we ready to release a reward signal?
      var timestampCurrent := Min(Last(videoFrames).timestamp, Last(audioFrames).timestamp);
      if timestampCurrent - timestampLast >= period {
        var includedVideo := Before(videoFrames, timestampCurrent);
        var includedAudio := Before(audioFrames, timestampCurrent);
        var videoEmotions := VideoRows(includedVideo, cls);
        var audioEmotions := AudioRows(includedAudio, cls);
        RowsComplete(includedAudio, includedVideo, cls);
        var scores := Score(audioEmotions, videoEmotions);
        if scores.Failure? {
          assert Window(n, cls) == Failure(scores.error);
          AfterPullRejected(video, audio, period, cls, n);
          outcome := LabelError(scores.error);
          assert signals + [] == signals;
          return;
        }
        var signal := RewardSignal(timestampCurrent, scores.value.combined, scores.value.audio, scores.value.video,
                                   audioEmotions, videoEmotions);
        assert Window(n, cls) == Success(signal);
        AfterPullClosed(video, audio, period, cls, n);
        PruneKeepsBuffered(video, audio, n);
        ThenThen(signals, [signal], Run(video, audio, period, cls, Prune(n)));
        signals := signals + [signal];
        videoFrames := From(videoFrames, timestampCurrent);
        audioFrames := From(audioFrames, timestampCurrent);
        timestampLast := timestampCurrent;
        assert Merger(videoFrames, audioFrames, nextVideo, nextAudio, timestampLast) == Prune(n);
      } else {
        AfterPullOpen(video, audio, period, cls, n);
      }
    }
  }
}
