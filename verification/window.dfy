/**
 * The fixed-lag window over the session's per-frame deques
 * (`m_timestamp`, `m_pitchProb` in PYinVamp::process): every frame is
 * pushed at the back, and in fixed-lag mode the front is popped as soon as
 * the window holds lag + 1 frames.
 */
module FixedLagWindow {
  import opened Common

  /** One frame's update of a window. */
  function Slide<T>(w: seq<T>, x: T, lag: nat, fixedLag: bool): seq<T>
  {
    var pushed := w + [x];
    if fixedLag && |pushed| == lag + 1 then pushed[1..] else pushed
  }

  /** Whether pushing one more frame onto `w` makes the window pop its front. */
  predicate Pops<T>(w: seq<T>, lag: nat, fixedLag: bool)
  {
    fixedLag && |w| == lag
  }

  /** The window after pushing every frame of `xs`, starting empty. */
  function WindowAfter<T>(xs: seq<T>, lag: nat, fixedLag: bool): seq<T>
  {
    if xs == [] then []
    else Slide(WindowAfter(xs[..|xs| - 1], lag, fixedLag), xs[|xs| - 1], lag, fixedLag)
  }

  /**
   * In fixed-lag mode the window always holds the most recent
   * min(n, lag) frames, oldest first: FIFO order is kept and the window
   * never exceeds the lag.
   */
  lemma {:induction false} FixedLagWindowIsRecentFrames<T>(xs: seq<T>, lag: nat)
    ensures WindowAfter(xs, lag, true) == xs[|xs| - Min(|xs|, lag)..]
  {
    if xs != [] {
      var n := |xs| - 1;
      FixedLagWindowIsRecentFrames(xs[..n], lag);
      var w := WindowAfter(xs[..n], lag, true);
      var m := Min(n, lag);
      assert w == xs[n - m..n] by {
        assert xs[..n][n - m..] == xs[n - m..n];
      }
      if n >= lag {
        assert |w| == lag;
        calc {
          WindowAfter(xs, lag, true);
          (w + [xs[n]])[1..];
          (xs[n - lag..n] + [xs[n]])[1..];
          { assert xs[n - lag..n] + [xs[n]] == xs[n - lag..]; }
          xs[n - lag..][1..];
          xs[|xs| - Min(|xs|, lag)..];
        }
      } else {
        assert |w| != lag;
        assert w == xs[..n];
        assert WindowAfter(xs, lag, true) == xs[..n] + [xs[n]] == xs;
      }
    }
  }

  /** Without fixed-lag smoothing nothing is ever popped. */
  lemma {:induction false} BatchWindowKeepsEveryFrame<T>(xs: seq<T>, lag: nat)
    ensures WindowAfter(xs, lag, false) == xs
  {
    if xs != [] {
      BatchWindowKeepsEveryFrame(xs[..|xs| - 1], lag);
      assert xs[..|xs| - 1] + [xs[|xs| - 1]] == xs;
    }
  }

  /**
   * Pushing frame number n (counting from 1) pops exactly when n > lag, and
   * then the new front is frame n - lag (counting from 0): frame k is
   * emitted when frame k + lag arrives, and frame 0 is never the one emitted.
   */
  lemma FixedLagEmission<T>(xs: seq<T>, lag: nat)
    requires |xs| > 0 && lag > 0
    ensures var before := WindowAfter(xs[..|xs| - 1], lag, true);
      && (Pops(before, lag, true) <==> |xs| > lag)
      && (Pops(before, lag, true) ==>
            WindowAfter(xs, lag, true)[0] == xs[|xs| - lag] && |xs| - lag >= 1)
  {
    var n := |xs| - 1;
    FixedLagWindowIsRecentFrames(xs[..n], lag);
    FixedLagWindowIsRecentFrames(xs, lag);
  }

  /**
   * The frames whose timestamps are reported while streaming: on a push
   * that pops, the feature carries the timestamp of the front left after
   * the pop.
   */
  function Streamed<T>(xs: seq<T>, lag: nat): seq<T>
    requires lag > 0
  {
    if xs == [] then []
    else
      var n := |xs| - 1;
      var before := WindowAfter(xs[..n], lag, true);
      Streamed(xs[..n], lag) + (if Pops(before, lag, true) then [Slide(before, xs[n], lag, true)[0]] else [])
  }

  /**
   * Streaming reports frames 1 .. n - lag, each once and in order; frame 0
   * is never reported.
   */
  lemma {:induction false} StreamedFrames<T>(xs: seq<T>, lag: nat)
    requires lag > 0
    ensures |xs| <= lag ==> Streamed(xs, lag) == []
    ensures |xs| > lag ==> Streamed(xs, lag) == xs[1..|xs| - lag + 1]
  {
    if xs != [] {
      var n := |xs| - 1;
      StreamedFrames(xs[..n], lag);
      FixedLagWindowIsRecentFrames(xs[..n], lag);
      FixedLagWindowIsRecentFrames(xs, lag);
      if |xs| > lag {
        assert Slide(WindowAfter(xs[..n], lag, true), xs[n], lag, true)[0] == xs[n - lag + 1];
        if n > lag {
          assert xs[..n][1..n - lag + 1] + [xs[n - lag + 1]] == xs[1..|xs| - lag + 1];
        }
      }
    }
  }

  /**
   * Over a session of more than `lag` frames, the frames reported while
   * streaming followed by the window left at the end are frames
   * 1 .. n - lag and then n - lag .. n - 1: frame n - lag appears twice.
   */
  lemma SessionFrames<T>(xs: seq<T>, lag: nat)
    requires 0 < lag < |xs|
    ensures Streamed(xs, lag) + WindowAfter(xs, lag, true) == xs[1..|xs| - lag + 1] + xs[|xs| - lag..]
  {
    StreamedFrames(xs, lag);
    FixedLagWindowIsRecentFrames(xs, lag);
  }

  /** Two frames with a lag of one: the session reports frame 1 twice and frame 0 never. */
  lemma SessionFramesExample()
    ensures Streamed([0, 1], 1) + WindowAfter([0, 1], 1, true) == [1, 1]
  {
    SessionFrames([0, 1], 1);
    assert [0, 1][1..2] + [0, 1][1..] == [1, 1];
  }
}
