/** The feed scheduler and buffer timestamping of one push session (src/rtsp_pusher.cpp):
    the `sourceid` and `num_samples` fields of the session's shared data, driven by the
    pipeline source's need-data and enough-data signals and by the idle push task. */
module RtspPusher {

  /** GST_SECOND: one second in nanoseconds. */
  const SECOND: nat := 1_000_000_000

  /** `gst_util_uint64_scale(x, GST_SECOND, rate)`: x samples at `rate` Hz as nanoseconds,
      rounded down. */
  function Scale(x: nat, rate: int): (r: nat)
    requires rate > 0
    ensures r * rate <= x * SECOND < (r + 1) * rate
  {
    x * SECOND / rate
  }

  lemma MulLeq(a: int, b: int, rate: int)
    requires rate > 0 && a <= b
    ensures a * rate <= b * rate
  {
  }

  /** More samples never give an earlier time. */
  lemma ScaleMonotonic(a: nat, b: nat, rate: int)
    requires rate > 0 && a <= b
    ensures Scale(a, rate) <= Scale(b, rate)
  {
    var sa, sb := Scale(a, rate), Scale(b, rate);
    if sa > sb {
      MulLeq(sb + 1, sa, rate);
      MulLeq(a, b, SECOND);
    }
  }

  /** Rounding down loses less than a nanosecond on each side of a sum. */
  lemma ScaleOfSum(a: nat, b: nat, rate: int)
    requires rate > 0
    ensures Scale(a, rate) + Scale(b, rate) <= Scale(a + b, rate) <= Scale(a, rate) + Scale(b, rate) + 1
  {
    var sa, sb, s := Scale(a, rate), Scale(b, rate), Scale(a + b, rate);
    assert (a + b) * SECOND == a * SECOND + b * SECOND;
    if s < sa + sb {
      MulLeq(s + 1, sa + sb, rate);
    }
    if s > sa + sb + 1 {
      MulLeq(sa + sb + 2, s, rate);
    }
  }

  /** What the pipeline made of a pushed buffer. */
  datatype FlowReturn = FlowOk | FlowFlushing | FlowEos | FlowNotLinked | FlowError

  /** A pushed buffer: its allocated size in bytes, its timestamp and its duration (ns). */
  datatype Buffer = Buffer(size: nat, timestamp: nat, duration: nat)

  function Sum(counts: seq<nat>): nat
    decreases |counts|
  {
    if counts == [] then 0 else Sum(counts[..|counts| - 1]) + counts[|counts| - 1]
  }

  /** The sum over a prefix grows with the prefix. */
  lemma {:induction false} SumPrefixMonotonic(counts: seq<nat>, i: nat, j: nat)
    requires i <= j <= |counts|
    ensures Sum(counts[..i]) <= Sum(counts[..j])
    decreases j - i
  {
    if i < j {
      SumPrefixMonotonic(counts, i, j - 1);
      assert counts[..j][..j - 1] == counts[..j - 1];
    }
  }

  /** The timestamps of the buffers of a run whose provider returned `counts`, in order. */
  function Timestamps(counts: seq<nat>, rate: int): (ts: seq<nat>)
    requires rate > 0
  {
    seq(|counts|, k requires 0 <= k < |counts| => Scale(Sum(counts[..k + 1]), rate))
  }

  /** Successive buffers never go back in time. */
  lemma TimestampsNondecreasing(counts: seq<nat>, rate: int, i: nat, j: nat)
    requires rate > 0 && i <= j < |counts|
    ensures Timestamps(counts, rate)[i] <= Timestamps(counts, rate)[j]
  {
    SumPrefixMonotonic(counts, i + 1, j + 1);
    ScaleMonotonic(Sum(counts[..i + 1]), Sum(counts[..j + 1]), rate);
  }

  /** Each buffer's timestamp is its predecessor's plus its own duration, up to one
      nanosecond of rounding: the timestamp marks where the buffer's samples end. */
  lemma TimestampStep(counts: seq<nat>, rate: int, k: nat)
    requires rate > 0 && k + 1 < |counts|
    ensures var ts := Timestamps(counts, rate);
            ts[k] + Scale(counts[k + 1], rate) <= ts[k + 1] <= ts[k] + Scale(counts[k + 1], rate) + 1
  {
    assert counts[..k + 2][..k + 1] == counts[..k + 1];
    ScaleOfSum(Sum(counts[..k + 1]), counts[k + 1], rate);
  }

  /** The feed fields of one session. `attached` is the set of idle sources the main
      loop holds for this session; `counts` what the provider returned so far. */
  class FeedState {
    const chunkSize: nat
    const sampleRate: int
    var sourceid: nat
    var numSamples: nat
    ghost var attached: set<nat>
    ghost var counts: seq<nat>

    ghost predicate Valid()
      reads this
    {
      && sampleRate > 0
      && numSamples == Sum(counts)
      && attached <= {sourceid}
      && 0 !in attached
    }

    constructor (chunkSize: nat, sampleRate: int)
      requires sampleRate > 0
      ensures Valid() && this.chunkSize == chunkSize && this.sampleRate == sampleRate
      ensures sourceid == 0 && numSamples == 0 && attached == {} && counts == []
    {
      this.chunkSize := chunkSize;
      this.sampleRate := sampleRate;
      sourceid := 0;
      numSamples := 0;
      attached := {};
      counts := [];
    }

    /** Never more than one push task is pending. */
    lemma AtMostOnePendingTask()
      requires Valid()
      ensures |attached| <= 1
      ensures attached != {} ==> attached == {sourceid}
    {
      if attached != {} {
        assert sourceid in attached;
        assert attached == {sourceid};
      }
    }

    /** need-data: schedule the push task unless one is already scheduled. `newId` is the
        (positive) id the main loop gives the new idle source. */
    method StartFeed(newId: nat)
      requires Valid() && newId > 0
      modifies this`sourceid, this`attached
      ensures Valid()
      ensures old(sourceid) == 0 ==> sourceid == newId && attached == {newId}
      ensures old(sourceid) != 0 ==> sourceid == old(sourceid) && attached == old(attached)
    {
      if sourceid == 0 {
        sourceid := newId;
        attached := attached + {newId};
      }
    }

    /** enough-data: remove the pending task, if any. Returns the id handed to
        `g_source_remove`, or 0 when there is none. */
    method StopFeed() returns (removed: nat)
      requires Valid()
      modifies this`sourceid, this`attached
      ensures Valid()
      ensures removed == old(sourceid) && sourceid == 0 && attached == {}
    {
      removed := 0;
      if sourceid != 0 {
        removed := sourceid;
        attached := attached - {sourceid};
        sourceid := 0;
      }
    }

    /** One run of the idle push task: the provider fills a buffer of `chunkSize` bytes,
        the counter grows by what it returned, and the buffer is stamped and pushed.
        Returning false detaches the idle source, but `sourceid` is left as it was. */
    method PushData(provide: (nat, nat, int) -> nat, flow: FlowReturn) returns (keep: bool, buffer: Buffer)
      requires Valid() && sourceid in attached
      modifies this`numSamples, this`counts, this`attached
      ensures Valid()
      ensures counts == old(counts) + [provide(chunkSize, chunkSize, sampleRate)]
      ensures numSamples == old(numSamples) + provide(chunkSize, chunkSize, sampleRate)
      ensures buffer.size == chunkSize
      ensures buffer.timestamp == Scale(numSamples, sampleRate)
      ensures buffer.timestamp == Timestamps(counts, sampleRate)[|counts| - 1]
      ensures buffer.duration == Scale(provide(chunkSize, chunkSize, sampleRate), sampleRate)
      ensures keep <==> flow == FlowOk
      ensures attached == if keep then old(attached) else {}
    {
      var written := provide(chunkSize, chunkSize, sampleRate);
      numSamples := numSamples + written;
      counts := counts + [written];
      assert counts[..|counts| - 1] == old(counts);
      assert counts[..|counts|] == counts;
      buffer := Buffer(chunkSize, Scale(numSamples, sampleRate), Scale(written, sampleRate));
      keep := flow == FlowOk;
      if !keep {
        attached := attached - {sourceid};
      }
    }
  }

  /** After a failed push the main loop drops the idle source but `sourceid` keeps its
      value, so need-data schedules nothing until enough-data clears it. */
  method FeedStallsAfterFailedPush(provide: (nat, nat, int) -> nat)
  {
    var feed := new FeedState(1024, 44100);
    feed.StartFeed(7);
    assert feed.attached == {7};
    var keep, _ := feed.PushData(provide, FlowFlushing);
    assert !keep && feed.sourceid == 7 && feed.attached == {};
    feed.StartFeed(8);
    assert feed.sourceid == 7 && feed.attached == {};
    var removed := feed.StopFeed();
    assert removed == 7;
    feed.StartFeed(9);
    assert feed.attached == {9};
  }
}
