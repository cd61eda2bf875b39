/**
 * Timestamped frames as the two frame sources deliver them, and the two filters that
 * split a buffer at a window boundary: the frames stamped strictly before the boundary
 * go into the closing window, the others are kept for the next one.
 */
module Frames {

  /** The two sensor modalities, which are also the two frame sources. */
  datatype Modality = Audio | Video

  /** One frame: its stream timestamp in seconds and an identifier of its opaque payload. */
  datatype Frame = Frame(timestamp: real, payload: nat)

  /** Timestamps never decrease along `s`, as a frame source delivers them. */
  predicate Sorted(s: seq<Frame>) {
    forall i, j :: 0 <= i < j < |s| ==> s[i].timestamp <= s[j].timestamp
  }

  function Min(a: real, b: real): (m: real)
    ensures m <= a && m <= b
    ensures m == a || m == b
  {
    if a <= b then a else b
  }

  function Last(buf: seq<Frame>): Frame
    requires |buf| > 0
  {
    buf[|buf| - 1]
  }

  /** The frames of `buf` stamped strictly before `t`, in buffer order (the window's frames). */
  function Before(buf: seq<Frame>, t: real): (r: seq<Frame>)
    ensures forall f :: f in r <==> f in buf && f.timestamp < t
    ensures |r| <= |buf|
  {
    if buf == [] then []
    else if Last(buf).timestamp < t then Before(buf[..|buf| - 1], t) + [Last(buf)]
    else Before(buf[..|buf| - 1], t)
  }

  /** The frames of `buf` stamped at or after `t`, in buffer order (the frames kept for later). */
  function From(buf: seq<Frame>, t: real): (r: seq<Frame>)
    ensures forall f :: f in r <==> f in buf && f.timestamp >= t
    ensures |r| <= |buf|
    ensures |buf| > 0 && Last(buf).timestamp >= t ==> |r| > 0 && Last(r) == Last(buf)
  {
    if buf == [] then []
    else if Last(buf).timestamp >= t then From(buf[..|buf| - 1], t) + [Last(buf)]
    else From(buf[..|buf| - 1], t)
  }

  /**
   * Splitting a buffer at `t` loses no frame and duplicates none: the two parts together
   * hold exactly the frames of the buffer, each as often as the buffer does.
   */
  lemma {:induction false} PartitionConserves(buf: seq<Frame>, t: real)
    ensures multiset(Before(buf, t)) + multiset(From(buf, t)) == multiset(buf)
    ensures |Before(buf, t)| + |From(buf, t)| == |buf|
  {
    if buf != [] {
      var init := buf[..|buf| - 1];
      PartitionConserves(init, t);
      InitThenLast(buf);
    }
  }

  /** In a sorted buffer no frame is stamped later than the last one. */
  lemma LastIsLatest(buf: seq<Frame>)
    requires |buf| > 0 && Sorted(buf)
    ensures forall f :: f in buf ==> f.timestamp <= Last(buf).timestamp
  {
    forall f | f in buf ensures f.timestamp <= Last(buf).timestamp {
      var i :| 0 <= i < |buf| && buf[i] == f;
    }
  }

  /** In a sorted buffer no frame is stamped earlier than the first one. */
  lemma FirstIsEarliest(buf: seq<Frame>)
    requires |buf| > 0 && Sorted(buf)
    ensures forall f :: f in buf ==> f.timestamp >= buf[0].timestamp
  {
    forall f | f in buf ensures f.timestamp >= buf[0].timestamp {
      var i :| 0 <= i < |buf| && buf[i] == f;
    }
  }

  /** Appending a frame stamped no earlier than every frame of a sorted sequence keeps it sorted. */
  lemma AppendKeepsSorted(s: seq<Frame>, x: Frame)
    requires Sorted(s)
    requires forall f :: f in s ==> f.timestamp <= x.timestamp
    ensures Sorted(s + [x])
  {
    forall i, j | 0 <= i < j < |s| + 1 ensures (s + [x])[i].timestamp <= (s + [x])[j].timestamp {
      if j == |s| {
        assert s[i] in s;
      }
    }
  }

  /** Both parts of a sorted buffer are sorted. */
  lemma {:induction false} PartitionKeepsSorted(buf: seq<Frame>, t: real)
    requires Sorted(buf)
    ensures Sorted(Before(buf, t)) && Sorted(From(buf, t))
  {
    if buf != [] {
      var init := buf[..|buf| - 1];
      assert Sorted(init);
      PartitionKeepsSorted(init, t);
      LastIsLatest(buf);
      assert forall f :: f in init ==> f in buf;
      if Last(buf).timestamp < t {
        AppendKeepsSorted(Before(init, t), Last(buf));
      } else {
        AppendKeepsSorted(From(init, t), Last(buf));
      }
    }
  }

  /**
   * For a sorted buffer the window's frames are a prefix and the kept frames the rest:
   * concatenated they give back the buffer in its original order.
   */
  lemma {:induction false} SortedPartitionIsSplit(buf: seq<Frame>, t: real)
    requires Sorted(buf)
    ensures Before(buf, t) + From(buf, t) == buf
  {
    if buf != [] {
      var init := buf[..|buf| - 1];
      assert Sorted(init);
      SortedPartitionIsSplit(init, t);
      if Last(buf).timestamp < t {
        // every earlier frame is stamped no later than the last one, so nothing is kept
        NothingKeptBelowLatest(buf, init, t);
        SplitWithLastIncluded(buf, init, t);
      } else {
        SplitWithLastKept(buf, init, t);
      }
    }
  }

  lemma SplitWithLastIncluded(buf: seq<Frame>, init: seq<Frame>, t: real)
    requires |buf| > 0 && init == buf[..|buf| - 1] && Last(buf).timestamp < t
    requires Before(init, t) + From(init, t) == init && From(init, t) == []
    ensures Before(buf, t) + From(buf, t) == buf
  {
    assert Before(init, t) + [] == Before(init, t);
    assert Before(buf, t) + [] == Before(buf, t);
    InitThenLast(buf);
  }

  lemma SplitWithLastKept(buf: seq<Frame>, init: seq<Frame>, t: real)
    requires |buf| > 0 && init == buf[..|buf| - 1] && Last(buf).timestamp >= t
    requires Before(init, t) + From(init, t) == init
    ensures Before(buf, t) + From(buf, t) == buf
  {
    var x := Last(buf);
    assert Before(buf, t) == Before(init, t);
    assert From(buf, t) == From(init, t) + [x];
    ConcatAssociates(Before(init, t), From(init, t), [x]);
    InitThenLast(buf);
  }

  lemma InitThenLast(buf: seq<Frame>)
    requires |buf| > 0
    ensures buf == buf[..|buf| - 1] + [Last(buf)]
  {
  }

  lemma ConcatAssociates(r: seq<Frame>, s: seq<Frame>, u: seq<Frame>)
    ensures r + (s + u) == (r + s) + u
  {
  }

  lemma NothingKeptBelowLatest(buf: seq<Frame>, init: seq<Frame>, t: real)
    requires |buf| > 0 && Sorted(buf) && init == buf[..|buf| - 1] && Last(buf).timestamp < t
    ensures From(init, t) == []
  {
    LastIsLatest(buf);
    assert forall f :: f in init ==> f in buf;
    NothingKeptWhenAllEarlier(init, t);
  }

  lemma {:induction false} NothingKeptWhenAllEarlier(s: seq<Frame>, t: real)
    requires forall f :: f in s ==> f.timestamp < t
    ensures From(s, t) == []
  {
    if s != [] {
      assert Last(s) in s;
      var init := s[..|s| - 1];
      assert forall f :: f in init ==> f in s;
      NothingKeptWhenAllEarlier(init, t);
    }
  }

  lemma {:induction false} NothingBeforeWhenAllLater(s: seq<Frame>, t: real)
    requires forall f :: f in s ==> f.timestamp >= t
    ensures Before(s, t) == []
  {
    if s != [] {
      assert Last(s) in s;
      var init := s[..|s| - 1];
      assert forall f :: f in init ==> f in s;
      NothingBeforeWhenAllLater(init, t);
    }
  }

  /** Appending one frame and dropping it again gives back the sequence. */
  lemma AppendThenInit(s: seq<Frame>, x: Frame)
    ensures (s + [x])[..|s|] == s && Last(s + [x]) == x
  {
  }

  lemma InitOfConcat(x: seq<Frame>, y: seq<Frame>)
    requires |y| > 0
    ensures (x + y)[..|x + y| - 1] == x + y[..|y| - 1] && Last(x + y) == Last(y)
  {
  }

  lemma ConcatEmpty(x: seq<Frame>)
    ensures x + [] == x
  {
  }

  /** Splitting a concatenation at `t` splits each part at `t`. */
  lemma {:induction false} FromConcat(x: seq<Frame>, y: seq<Frame>, t: real)
    ensures From(x + y, t) == From(x, t) + From(y, t)
  {
    if y == [] {
      ConcatEmpty(x);
      ConcatEmpty(From(x, t));
    } else {
      var init := y[..|y| - 1];
      FromConcat(x, init, t);
      InitOfConcat(x, y);
      if Last(y).timestamp >= t {
        ConcatAssociates(From(x, t), From(init, t), [Last(y)]);
      }
    }
  }

  lemma {:induction false} BeforeConcat(x: seq<Frame>, y: seq<Frame>, t: real)
    ensures Before(x + y, t) == Before(x, t) + Before(y, t)
  {
    if y == [] {
      ConcatEmpty(x);
      ConcatEmpty(Before(x, t));
    } else {
      var init := y[..|y| - 1];
      BeforeConcat(x, init, t);
      InitOfConcat(x, y);
      if Last(y).timestamp < t {
        ConcatAssociates(Before(x, t), Before(init, t), [Last(y)]);
      }
    }
  }

  /** Keeping the frames at or after `l` and then those at or after a later `t` keeps those at or after `t`. */
  lemma {:induction false} FromFrom(x: seq<Frame>, l: real, t: real)
    requires l <= t
    ensures From(From(x, l), t) == From(x, t)
  {
    if x != [] {
      var init := x[..|x| - 1];
      FromFrom(init, l, t);
      if Last(x).timestamp >= l {
        AppendThenInit(From(init, l), Last(x));
      }
    }
  }

  /** The frames of `src` stamped in `[lo, hi)`, in source order. */
  function Between(src: seq<Frame>, lo: real, hi: real): (r: seq<Frame>)
    ensures forall f :: f in r <==> f in src && lo <= f.timestamp < hi
  {
    Before(From(src, lo), hi)
  }
}
