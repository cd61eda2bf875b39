/**
 * One run worked out end to end: video frames every 0.2 s, audio frames every 0.5 s, a
 * period of 0.5 s, and classifiers that are certain of `happy` on every frame and face.
 * The run yields one signal at 0.5 s scoring audio 1/3 and video 1/7, then stops when the
 * audio source runs out.
 */
module Scenario {
  import opened Wrappers
  import opened Frames
  import opened Emotion
  import opened RewardFunction

  const HappyAudio: Row := map["happy" := 1.0, "neutral" := 0.0, "sad" := 0.0]

  const HappyFace: Row :=
    map["angry" := 0.0, "disgust" := 0.0, "fear" := 0.0, "happy" := 1.0,
        "sad" := 0.0, "surprise" := 0.0, "neutral" := 0.0]

  /** Every audio frame classifies as `HappyAudio`; every video frame shows one face reporting `HappyFace`. */
  const Happy: Classifiers := Classifiers(p => HappyAudio, p => [[HappyFace]])

  const VideoSource: seq<Frame> := [Frame(0.0, 0), Frame(0.2, 1), Frame(0.4, 2), Frame(0.6, 3)]
  const AudioSource: seq<Frame> := [Frame(0.0, 0), Frame(0.5, 1)]

  lemma HappyIsFixed()
    ensures FixedLabelSets(Happy)
  {
  }

  lemma AudioLabelSet()
    ensures Labels(AudioCoefficients) == {"happy", "neutral", "sad"}
  {
    var c := AudioCoefficients;
    assert Labels(c[2..]) == {"sad"} by { assert c[2..][1..] == []; }
    assert Labels(c[1..]) == {"neutral", "sad"} by { assert c[1..][1..] == c[2..]; }
  }

  lemma VideoLabelSet()
    ensures Labels(VideoCoefficients) == {"angry", "disgust", "fear", "happy", "sad", "surprise", "neutral"}
  {
    var c := VideoCoefficients;
    assert Labels(c[4..]) == {"sad", "surprise", "neutral"} by {
      assert Labels(c[6..]) == {"neutral"} by { assert c[6..][1..] == []; }
      assert Labels(c[5..]) == {"surprise", "neutral"} by { assert c[5..][1..] == c[6..]; }
      assert c[4..][1..] == c[5..];
    }
    assert Labels(c[2..]) == {"fear", "happy", "sad", "surprise", "neutral"} by {
      assert Labels(c[3..]) == {"happy", "sad", "surprise", "neutral"} by { assert c[3..][1..] == c[4..]; }
      assert c[2..][1..] == c[3..];
    }
    assert Labels(c[1..]) == {"disgust", "fear", "happy", "sad", "surprise", "neutral"} by { assert c[1..][1..] == c[2..]; }
  }

  lemma HappyAudioLabels()
    ensures HappyAudio.Keys == Labels(AudioCoefficients) && OnlyHappy(HappyAudio)
  {
    AudioLabelSet();
  }

  lemma HappyFaceLabels()
    ensures HappyFace.Keys == Labels(VideoCoefficients) && OnlyHappy(HappyFace)
  {
    VideoLabelSet();
  }

  /** A merge step after which the window stays open leaves the run's future unchanged. */
  lemma OpenStep(v: seq<Frame>, a: seq<Frame>, period: real, cls: Classifiers, m: Merger, n: Merger)
    requires Valid(v, a, m) && FixedLabelSets(cls) && Merge(v, a, m) == Pulled(n) && !Closes(n, period)
    ensures Valid(v, a, n) && Run(v, a, period, cls, m) == Run(v, a, period, cls, n)
  {
    RunPulled(v, a, period, cls, m, n);
    AfterPullOpen(v, a, period, cls, n);
  }

  lemma FirstPull()
    ensures Merge(VideoSource, AudioSource, Start(VideoSource, AudioSource))
         == Pulled(Merger(VideoSource[..2], AudioSource[..1], 2, 1, 0.0))
  {
    assert Start(VideoSource, AudioSource) == Merger(VideoSource[..1], AudioSource[..1], 1, 1, 0.0);
  }

  lemma SecondPull()
    ensures Merge(VideoSource, AudioSource, Merger(VideoSource[..2], AudioSource[..1], 2, 1, 0.0))
         == Pulled(Merger(VideoSource[..2], AudioSource, 2, 2, 0.0))
  {
  }

  lemma ThirdPull()
    ensures Merge(VideoSource, AudioSource, Merger(VideoSource[..2], AudioSource, 2, 2, 0.0))
         == Pulled(Merger(VideoSource[..3], AudioSource, 3, 2, 0.0))
  {
  }

  lemma FourthPull()
    ensures Merge(VideoSource, AudioSource, Merger(VideoSource[..3], AudioSource, 3, 2, 0.0))
         == Pulled(Merger(VideoSource, AudioSource, 4, 2, 0.0))
  {
    assert VideoSource[..3] + [VideoSource[3]] == VideoSource;
  }

  /** The state right before the first window closes: all four video frames and both audio frames buffered. */
  lemma MergesUpToFirstClose()
    ensures FixedLabelSets(Happy)
    ensures var n := Merger(VideoSource, AudioSource, 4, 2, 0.0);
      Valid(VideoSource, AudioSource, n) && Generate(VideoSource, AudioSource, 0.5, Happy) == AfterPull(VideoSource, AudioSource, 0.5, Happy, n)
  {
    HappyIsFixed();
    var v, a, cls := VideoSource, AudioSource, Happy;
    var m0, m1, m2 := Start(v, a), Merger(v[..2], a[..1], 2, 1, 0.0), Merger(v[..2], a, 2, 2, 0.0);
    var m3, m4 := Merger(v[..3], a, 3, 2, 0.0), Merger(v, a, 4, 2, 0.0);
    FirstPull();
    OpenStep(v, a, 0.5, cls, m0, m1);
    SecondPull();
    OpenStep(v, a, 0.5, cls, m1, m2);
    ThirdPull();
    OpenStep(v, a, 0.5, cls, m2, m3);
    FourthPull();
    RunPulled(v, a, 0.5, cls, m3, m4);
  }

  /** The first window closes at 0.5 s over the audio frame at 0 s and the video frames at 0, 0.2 and 0.4 s. */
  lemma FirstWindowAudio()
    ensures Before(AudioSource, 0.5) == AudioSource[..1]
  {
    var a := AudioSource;
    assert Before(a[..1], 0.5) == a[..1] by { assert a[..1][..0] == []; }
    assert a[..2][..1] == a[..1];
    assert a[..2] == a;
  }

  lemma FirstWindowVideo()
    ensures Before(VideoSource, 0.5) == VideoSource[..3]
  {
    var v := VideoSource;
    assert Before(v[..1], 0.5) == v[..1] by { assert v[..1][..0] == []; }
    assert Before(v[..2], 0.5) == v[..2] by { assert v[..2][..1] == v[..1]; }
    assert Before(v[..3], 0.5) == v[..3] by { assert v[..3][..2] == v[..2]; }
    assert v[..4][..3] == v[..3];
    assert v[..4] == v;
  }

  lemma FirstWindowRows()
    ensures AudioRows(AudioSource[..1], Happy) == [HappyAudio]
    ensures VideoRows(VideoSource[..3], Happy) == [HappyFace, HappyFace, HappyFace]
  {
    var v := VideoSource[..3];
    assert Flatten([HappyFace]) == HappyFace by {
      assert [HappyFace][..0] == [];
      assert map[] + HappyFace == HappyFace;
    }
    assert VideoRows(v[2..], Happy) == [HappyFace] by { assert v[2..][1..] == []; }
    assert VideoRows(v[1..], Happy) == [HappyFace, HappyFace] by { assert v[1..][1..] == v[2..]; }
  }

  lemma FirstWindowColumns()
    ensures Columns([HappyAudio]) == HappyAudio.Keys
    ensures Columns([HappyFace, HappyFace, HappyFace]) == HappyFace.Keys
  {
    var t := [HappyFace, HappyFace, HappyFace];
    assert Columns([HappyAudio]) == Columns([]) + HappyAudio.Keys by { assert [HappyAudio][..0] == []; }
    assert Columns(t[..1]) == HappyFace.Keys by { assert t[..1][..0] == []; }
    assert Columns(t[..2]) == HappyFace.Keys by { assert t[..2][..1] == t[..1]; }
    assert Columns(t) == HappyFace.Keys by { assert t[..2] == t[..|t| - 1]; }
  }

  lemma FirstWindowScores()
    ensures Complete([HappyAudio]) && Complete([HappyFace, HappyFace, HappyFace])
    ensures Score([HappyAudio], [HappyFace, HappyFace, HappyFace])
         == Success(Scores(1.0 / 3.0 + 1.0 / 7.0, Some(1.0 / 3.0), Some(1.0 / 7.0)))
  {
    var audio, video := [HappyAudio], [HappyFace, HappyFace, HappyFace];
    HappyAudioLabels();
    HappyFaceLabels();
    FirstWindowColumns();
    AllHappyAudio(audio);
    AllHappyVideo(video);
  }

  lemma FirstWindow()
    ensures FixedLabelSets(Happy)
    ensures var n := Merger(VideoSource, AudioSource, 4, 2, 0.0);
      Window(n, Happy) == Success(RewardSignal(0.5, 1.0 / 3.0 + 1.0 / 7.0, Some(1.0 / 3.0), Some(1.0 / 7.0),
                                               [HappyAudio], [HappyFace, HappyFace, HappyFace]))
  {
    HappyIsFixed();
    FirstWindowAudio();
    FirstWindowVideo();
    FirstWindowRows();
    FirstWindowScores();
  }

  /** Pruning the first window keeps the video frame at 0.6 s and the audio frame at 0.5 s. */
  lemma FirstPrune()
    ensures Prune(Merger(VideoSource, AudioSource, 4, 2, 0.0)) == Merger(VideoSource[3..], AudioSource[1..], 4, 2, 0.5)
  {
    var v, a := VideoSource, AudioSource;
    assert Current(Merger(v, a, 4, 2, 0.0)) == 0.5;
    assert From(a[..1], 0.5) == [] by { assert a[..1][..0] == []; }
    assert a[..2][..1] == a[..1] && a[..2] == a;
    assert From(v[..3], 0.5) == [] by {
      assert From(v[..1], 0.5) == [] by { assert v[..1][..0] == []; }
      assert From(v[..2], 0.5) == [] by { assert v[..2][..1] == v[..1]; }
      assert v[..3][..2] == v[..2];
    }
    assert v[..4][..3] == v[..3] && v[..4] == v;
  }

  /** The whole run: one signal at 0.5 s, then audio runs out while the next window is still open. */
  lemma HappyRun()
    ensures FixedLabelSets(Happy)
    ensures Generate(VideoSource, AudioSource, 0.5, Happy) ==
      Trace([RewardSignal(0.5, 1.0 / 3.0 + 1.0 / 7.0, Some(1.0 / 3.0), Some(1.0 / 7.0),
                          [HappyAudio], [HappyFace, HappyFace, HappyFace])],
            EndOfStream(Audio))
  {
    MergesUpToFirstClose();
    FirstWindow();
    var v, a := VideoSource, AudioSource;
    var n := Merger(v, a, 4, 2, 0.0);
    AfterPullClosed(v, a, 0.5, Happy, n);
    FirstPrune();
    RunExhausted(v, a, 0.5, Happy, Merger(v[3..], a[1..], 4, 2, 0.5), Audio);
  }
}
