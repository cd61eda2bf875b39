/**
 * Turning the classifier outputs of one window into rewards: the per-face flattening of
 * the video classifier's partial distributions, the tables' column sets and emptiness as
 * pandas sees them, the label-set validation, the fixed linear coefficients, and the
 * mean over the rows x labels product matrix.
 */
module Emotion {
  import opened Wrappers
  import opened Frames

  /** One emotion distribution: label to probability (one table row). */
  type Row = map<string, real>

  /** One row per audio frame, or one row per detected face. */
  type Table = seq<Row>

  /** What the video classifier reports for one face: a list of partial distributions. */
  type Face = seq<Row>

  /** A coefficient series: label and weight, labels pairwise distinct. */
  type Coefficients = seq<(string, real)>

  const AudioCoefficients: Coefficients := [("happy", 1.0), ("neutral", -0.1), ("sad", -1.0)]

  const VideoCoefficients: Coefficients :=
    [("angry", -1.0), ("disgust", -1.0), ("fear", -1.0), ("happy", 1.0),
     ("sad", -1.0), ("surprise", 0.0), ("neutral", 0.0)]

  const AudioWeight: real := 1.0
  const VideoWeight: real := 1.0

  /**
   * Merges a face's partial distributions into one row, in order, so that a label reported
   * more than once takes the probability of its last report (see FlattenKeys, FlattenLastWins).
   */
  function Flatten(face: Face): Row {
    if face == [] then map[] else Flatten(face[..|face| - 1]) + face[|face| - 1]
  }

  /** A face's row reports exactly the labels some of its partial distributions report. */
  lemma {:induction false} FlattenKeys(face: Face)
    ensures forall k :: k in Flatten(face) <==> exists i :: 0 <= i < |face| && k in face[i]
  {
    if face != [] {
      var init := face[..|face| - 1];
      FlattenKeys(init);
      forall k ensures k in Flatten(face) <==> exists i :: 0 <= i < |face| && k in face[i] {
        if k in Flatten(init) {
          var i :| 0 <= i < |init| && k in init[i];
          assert face[i] == init[i];
        }
        if exists i :: 0 <= i < |face| && k in face[i] {
          var i :| 0 <= i < |face| && k in face[i];
          if i < |init| {
            assert init[i] == face[i];
          }
        }
      }
    }
  }

  /** The probability of a label is the one from the last partial distribution reporting it. */
  lemma {:induction false} FlattenLastWins(face: Face, i: nat, k: string)
    requires i < |face| && k in face[i]
    requires forall j :: i < j < |face| ==> k !in face[j]
    ensures k in Flatten(face) && Flatten(face)[k] == face[i][k]
  {
    var init := face[..|face| - 1];
    if i < |face| - 1 {
      assert k !in face[|face| - 1];
      forall j | i < j < |init| ensures k !in init[j] {
        assert init[j] == face[j];
      }
      FlattenLastWins(init, i, k);
    }
  }

  /** The labels of a coefficient series (the index of the pandas series). */
  function Labels(c: Coefficients): set<string> {
    if c == [] then {} else {c[0].0} + Labels(c[1..])
  }

  /** The labels are exactly the first components of the coefficient series. */
  lemma {:induction false} LabelsMembership(c: Coefficients)
    ensures forall l :: l in Labels(c) <==> exists j :: 0 <= j < |c| && c[j].0 == l
  {
    if c != [] {
      LabelsMembership(c[1..]);
      forall l ensures l in Labels(c) <==> exists j :: 0 <= j < |c| && c[j].0 == l {
        if l in Labels(c[1..]) {
          var j :| 0 <= j < |c[1..]| && c[1..][j].0 == l;
          assert c[j + 1].0 == l;
        }
        if exists j :: 0 <= j < |c| && c[j].0 == l {
          var j :| 0 <= j < |c| && c[j].0 == l;
          if j > 0 {
            assert c[1..][j - 1].0 == l;
          }
        }
      }
    }
  }

  predicate DistinctLabels(c: Coefficients) {
    forall i, j :: 0 <= i < j < |c| ==> c[i].0 != c[j].0
  }

  /** The column set of the data frame built from `t`: every label any row reports. */
  function Columns(t: Table): set<string> {
    if t == [] then {} else Columns(t[..|t| - 1]) + t[|t| - 1].Keys
  }

  /** The columns are exactly the labels some row reports. */
  lemma {:induction false} ColumnsMembership(t: Table)
    ensures forall k :: k in Columns(t) <==> exists i :: 0 <= i < |t| && k in t[i]
  {
    if t != [] {
      var init := t[..|t| - 1];
      ColumnsMembership(init);
      forall k ensures k in Columns(t) <==> exists i :: 0 <= i < |t| && k in t[i] {
        if k in Columns(init) {
          var i :| 0 <= i < |init| && k in init[i];
          assert t[i] == init[i];
        }
        if exists i :: 0 <= i < |t| && k in t[i] {
          var i :| 0 <= i < |t| && k in t[i];
          if i < |init| {
            assert init[i] == t[i];
          }
        }
      }
    }
  }

  /** pandas' `empty`: the frame has no rows or no columns. */
  predicate IsEmpty(t: Table) {
    |t| == 0 || Columns(t) == {}
  }

  /** Every row reports every column, so the data frame has no missing cell. */
  predicate Complete(t: Table) {
    forall i :: 0 <= i < |t| ==> t[i].Keys == Columns(t)
  }

  /** A non-empty table whose column set is not the coefficient label set is rejected. */
  predicate Mismatched(t: Table, c: Coefficients) {
    !IsEmpty(t) && Columns(t) != Labels(c)
  }

  /** The mismatch reported for a rejected table, with the offending and the expected labels. */
  datatype LabelMismatch = LabelMismatch(modality: Modality, got: set<string>, expected: set<string>)

  function Sum(s: seq<real>): real {
    if s == [] then 0.0 else s[0] + Sum(s[1..])
  }

  /** One row of `series * df`: each coefficient times the row's probability for its label. */
  function ProductRow(row: Row, c: Coefficients): (p: seq<real>)
    requires Labels(c) <= row.Keys
    ensures |p| == |c|
  {
    LabelsMembership(c);
    seq(|c|, j requires 0 <= j < |c| => c[j].1 * row[c[j].0])
  }

  /** The rows x labels matrix `(series * df).to_numpy()`. */
  function Product(t: Table, c: Coefficients): (m: seq<seq<real>>)
    requires forall i :: 0 <= i < |t| ==> Labels(c) <= t[i].Keys
    ensures |m| == |t| && forall i :: 0 <= i < |m| ==> |m[i]| == |c|
  {
    seq(|t|, i requires 0 <= i < |t| => ProductRow(t[i], c))
  }

  function MatrixSum(m: seq<seq<real>>): real {
    if m == [] then 0.0 else Sum(m[0]) + MatrixSum(m[1..])
  }

  /** numpy's `mean()` of a matrix with `width` columns: the sum of all cells over their number. */
  function MatrixMean(m: seq<seq<real>>, width: nat): real
    requires |m| > 0 && width > 0
  {
    MatrixSum(m) / ((|m| * width) as real)
  }

  /**
   * A modality's reward: absent for an empty table, otherwise the mean over every cell
   * of the coefficient-weighted probability matrix.
   */
  function Reward(t: Table, c: Coefficients): (r: Option<real>)
    requires |c| > 0
    requires !IsEmpty(t) ==> forall i :: 0 <= i < |t| ==> t[i].Keys == Labels(c)
    ensures r.None? <==> IsEmpty(t)
  {
    if IsEmpty(t) then None else Some(MatrixMean(Product(t, c), |c|))
  }

  /** The rewards of one window together with their weighted combination. */
  datatype Scores = Scores(combined: real, audio: Option<real>, video: Option<real>)

  /** `wt_audio * (audio or 0.0) + wt_video * (video or 0.0)`. */
  function Combine(audio: Option<real>, video: Option<real>): (r: real)
    ensures audio.None? && video.None? ==> r == 0.0
    ensures audio.None? && video.Some? ==> r == video.value
    ensures audio.Some? && video.None? ==> r == audio.value
    ensures audio.Some? && video.Some? ==> r == audio.value + video.value
  {
    AudioWeight * audio.GetOr(0.0) + VideoWeight * video.GetOr(0.0)
  }

  /**
   * Validates the two tables, audio first, and scores the window. A table that would be
   * rejected stops the scoring with that modality's mismatch; an empty table is never
   * rejected and leaves its modality's reward absent.
   */
  function Score(audio: Table, video: Table): (r: Result<Scores, LabelMismatch>)
    requires Complete(audio) && Complete(video)
    ensures r.Failure? <==> Mismatched(audio, AudioCoefficients) || Mismatched(video, VideoCoefficients)
    ensures Mismatched(audio, AudioCoefficients) ==>
              r == Failure(LabelMismatch(Audio, Columns(audio), Labels(AudioCoefficients)))
    ensures !Mismatched(audio, AudioCoefficients) && Mismatched(video, VideoCoefficients) ==>
              r == Failure(LabelMismatch(Video, Columns(video), Labels(VideoCoefficients)))
    ensures r.Success? ==> (r.value.audio.None? <==> IsEmpty(audio)) && (r.value.video.None? <==> IsEmpty(video))
  {
    if Mismatched(audio, AudioCoefficients) then
      Failure(LabelMismatch(Audio, Columns(audio), Labels(AudioCoefficients)))
    else if Mismatched(video, VideoCoefficients) then
      Failure(LabelMismatch(Video, Columns(video), Labels(VideoCoefficients)))
    else
      var a := Reward(audio, AudioCoefficients);
      var v := Reward(video, VideoCoefficients);
      Success(Scores(Combine(a, v), a, v))
  }

  // ---------------------------------------------------------------------------
  // What the cell mean amounts to

  /** The dot product of a row's probabilities with the coefficients. */
  function Dot(row: Row, c: Coefficients): real
    requires Labels(c) <= row.Keys
  {
    if c == [] then 0.0 else c[0].1 * row[c[0].0] + Dot(row, c[1..])
  }

  /** The mean over the rows of their dot products with the coefficients. */
  function MeanDot(t: Table, c: Coefficients): real
    requires |t| > 0
    requires forall i :: 0 <= i < |t| ==> Labels(c) <= t[i].Keys
  {
    SumDots(t, c) / (|t| as real)
  }

  function SumDots(t: Table, c: Coefficients): real
    requires forall i :: 0 <= i < |t| ==> Labels(c) <= t[i].Keys
  {
    if t == [] then 0.0 else Dot(t[0], c) + SumDots(t[1..], c)
  }

  lemma {:induction false} ProductRowSum(row: Row, c: Coefficients)
    requires Labels(c) <= row.Keys
    ensures Sum(ProductRow(row, c)) == Dot(row, c)
  {
    if c != [] {
      assert Labels(c[1..]) <= row.Keys;
      forall j | 0 <= j < |c| - 1 ensures ProductRow(row, c)[1..][j] == ProductRow(row, c[1..])[j] {
        assert c[1..][j] == c[j + 1];
      }
      assert ProductRow(row, c)[1..] == ProductRow(row, c[1..]);
      ProductRowSum(row, c[1..]);
    }
  }

  lemma {:induction false} ProductSum(t: Table, c: Coefficients)
    requires forall i :: 0 <= i < |t| ==> Labels(c) <= t[i].Keys
    ensures MatrixSum(Product(t, c)) == SumDots(t, c)
  {
    if t != [] {
      assert Product(t, c)[1..] == Product(t[1..], c);
      ProductRowSum(t[0], c);
      ProductSum(t[1..], c);
    }
  }

  /**
   * The reward of a non-empty table is the mean per-row dot product divided by the number
   * of labels, because the mean runs over every cell of the rows x labels matrix.
   */
  lemma RewardIsMeanDotOverLabels(t: Table, c: Coefficients)
    requires |c| > 0 && !IsEmpty(t)
    requires forall i :: 0 <= i < |t| ==> t[i].Keys == Labels(c)
    ensures Reward(t, c) == Some(MeanDot(t, c) / (|c| as real))
  {
    assert forall i :: 0 <= i < |t| ==> Labels(c) <= t[i].Keys;
    var m := Product(t, c);
    assert Reward(t, c) == Some(MatrixMean(m, |c|));
    ProductSum(t, c);
    MeanOfCells(MatrixSum(m), |t|, |c|);
  }

  lemma MeanOfCells(total: real, rows: nat, width: nat)
    requires rows > 0 && width > 0
    ensures total / ((rows * width) as real) == (total / (rows as real)) / (width as real)
  {
    var n, w := rows as real, width as real;
    assert (rows * width) as real == n * w;
  }

  /** A distribution certain of `happy`: `happy` (if reported) is 1 and every other label 0. */
  predicate OnlyHappy(row: Row) {
    forall l :: l in row ==> row[l] == if l == "happy" then 1.0 else 0.0
  }

  /** The total weight the coefficients give to `happy`. */
  function HappyWeight(c: Coefficients): real {
    if c == [] then 0.0 else (if c[0].0 == "happy" then c[0].1 else 0.0) + HappyWeight(c[1..])
  }

  lemma {:induction false} DotOfOnlyHappy(row: Row, c: Coefficients)
    requires Labels(c) <= row.Keys && OnlyHappy(row)
    ensures Dot(row, c) == HappyWeight(c)
  {
    if c != [] {
      assert c[0].0 in row;
      DotOfOnlyHappy(row, c[1..]);
    }
  }

  lemma {:induction false} SumDotsOfOnlyHappy(t: Table, c: Coefficients)
    requires forall i :: 0 <= i < |t| ==> t[i].Keys == Labels(c) && OnlyHappy(t[i])
    ensures SumDots(t, c) == Times(|t|, HappyWeight(c))
  {
    if t != [] {
      DotOfOnlyHappy(t[0], c);
      SumDotsOfOnlyHappy(t[1..], c);
    }
  }

  /** `n` copies of `x` added up. */
  function Times(n: nat, x: real): real {
    if n == 0 then 0.0 else x + Times(n - 1, x)
  }

  lemma {:induction false} TimesIsProduct(n: nat, x: real)
    ensures Times(n, x) == (n as real) * x
  {
    if n > 0 {
      TimesIsProduct(n - 1, x);
    }
  }

  lemma MeanOfCopies(n: nat, x: real)
    requires n > 0
    ensures Times(n, x) / (n as real) == x
  {
    TimesIsProduct(n, x);
  }

  /**
   * A window whose every row is certain of `happy` scores the happy weight over the number
   * of labels, not the happy weight itself.
   */
  lemma AllHappyReward(t: Table, c: Coefficients)
    requires |c| > 0 && |t| > 0
    requires forall i :: 0 <= i < |t| ==> t[i].Keys == Labels(c) && OnlyHappy(t[i])
    ensures Reward(t, c) == Some(HappyWeight(c) / (|c| as real))
  {
    assert !IsEmpty(t) by {
      assert c[0].0 in Labels(c);
      assert c[0].0 in t[0];
    }
    SumDotsOfOnlyHappy(t, c);
    MeanOfCopies(|t|, HappyWeight(c));
    assert MeanDot(t, c) == HappyWeight(c);
    RewardIsMeanDotOverLabels(t, c);
  }

  /** An all-happy audio window scores 1/3. */
  lemma AllHappyAudio(audio: Table)
    requires |audio| > 0 && forall i :: 0 <= i < |audio| ==> audio[i].Keys == Labels(AudioCoefficients) && OnlyHappy(audio[i])
    ensures Reward(audio, AudioCoefficients) == Some(1.0 / 3.0)
  {
    AllHappyReward(audio, AudioCoefficients);
    AudioHappyWeight();
  }

  /** An all-happy video window scores 1/7, not 1. */
  lemma AllHappyVideo(video: Table)
    requires |video| > 0 && forall i :: 0 <= i < |video| ==> video[i].Keys == Labels(VideoCoefficients) && OnlyHappy(video[i])
    ensures Reward(video, VideoCoefficients) == Some(1.0 / 7.0)
  {
    AllHappyReward(video, VideoCoefficients);
    VideoHappyWeight();
  }

  /** The audio coefficients give `happy` the weight 1. */
  lemma AudioHappyWeight()
    ensures HappyWeight(AudioCoefficients) == 1.0
  {
    var a := AudioCoefficients;
    assert HappyWeight(a[2..]) == 0.0 by { assert a[2..][1..] == []; }
    assert HappyWeight(a[1..]) == 0.0 by { assert a[1..][1..] == a[2..]; }
  }

  /** The video coefficients give `happy` the weight 1. */
  lemma VideoHappyWeight()
    ensures HappyWeight(VideoCoefficients) == 1.0
  {
    var v := VideoCoefficients;
    assert HappyWeight(v[4..]) == 0.0 by {
      assert HappyWeight(v[6..]) == 0.0 by { assert v[6..][1..] == []; }
      assert HappyWeight(v[5..]) == 0.0 by { assert v[5..][1..] == v[6..]; }
      assert v[4..][1..] == v[5..];
    }
    assert HappyWeight(v[3..]) == 1.0 by { assert v[3..][1..] == v[4..]; }
    assert HappyWeight(v[2..]) == 1.0 by { assert v[2..][1..] == v[3..]; }
    assert HappyWeight(v[1..]) == 1.0 by { assert v[1..][1..] == v[2..]; }
  }

  /** Distinct labels give as many matrix columns as coefficients. */
  lemma {:induction false} LabelCount(c: Coefficients)
    requires DistinctLabels(c)
    ensures |Labels(c)| == |c|
  {
    if c != [] {
      assert DistinctLabels(c[1..]) by {
        forall i, j | 0 <= i < j < |c| - 1 ensures c[1..][i].0 != c[1..][j].0 {
          assert c[1..][i] == c[i + 1] && c[1..][j] == c[j + 1];
        }
      }
      LabelCount(c[1..]);
      assert forall j :: 0 <= j < |c[1..]| ==> c[1..][j].0 != c[0].0 by {
        forall j | 0 <= j < |c[1..]| ensures c[1..][j].0 != c[0].0 {
          assert c[1..][j] == c[j + 1];
        }
      }
      LabelsMembership(c[1..]);
      assert c[0].0 !in Labels(c[1..]);
    }
  }

  /** The source's coefficient series have 3 and 7 distinct labels. */
  lemma CoefficientLabelCounts()
    ensures |Labels(AudioCoefficients)| == 3 && |Labels(VideoCoefficients)| == 7
  {
    AudioLabelsDistinct();
    VideoLabelsDistinct();
    LabelCount(AudioCoefficients);
    LabelCount(VideoCoefficients);
  }

  lemma AudioLabelsDistinct()
    ensures DistinctLabels(AudioCoefficients)
  {
    var c := AudioCoefficients;
    assert c[0].0 == "happy" && c[1].0 == "neutral" && c[2].0 == "sad";
  }

  lemma VideoLabelsDistinct()
    ensures DistinctLabels(VideoCoefficients)
  {
    var c := VideoCoefficients;
    assert c[0].0 == "angry" && c[1].0 == "disgust" && c[2].0 == "fear" && c[3].0 == "happy";
    assert c[4].0 == "sad" && c[5].0 == "surprise" && c[6].0 == "neutral";
  }
}
