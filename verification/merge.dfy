/**
  Decoded audio (Web Audio `AudioBuffer`) and `mergeAudioBuffers`
  (script.js:526-559): the buffers are copied, channel by channel and sample
  by sample, into one freshly allocated buffer at running offsets. Samples
  are of a generic type; the copy never looks at their values.
*/
module AudioMerge {
  import opened Wrappers

  /** An `AudioBuffer`: sample rate, frame count and one sample sequence per channel. */
  datatype AudioBuffer<S> = AudioBuffer(sampleRate: nat, length: nat, channels: seq<seq<S>>)

  /** Every channel holds exactly `length` samples. */
  predicate WellFormed<S>(b: AudioBuffer<S>)
  {
    forall c :: 0 <= c < |b.channels| ==> |b.channels[c]| == b.length
  }

  datatype MergeError = NothingToMerge

  /** Sum of the frame counts. */
  function TotalLength<S>(bs: seq<AudioBuffer<S>>): nat
  {
    if bs == [] then 0 else TotalLength(bs[..|bs| - 1]) + bs[|bs| - 1].length
  }

  /** Where buffer `k` starts in the merged buffer: the total length of the buffers before it. */
  function Offset<S>(bs: seq<AudioBuffer<S>>, k: nat): nat
    requires k <= |bs|
  {
    TotalLength(bs[..k])
  }

  /** Every buffer has channel `c`. */
  predicate HasChannel<S>(bs: seq<AudioBuffer<S>>, c: nat)
  {
    forall k :: 0 <= k < |bs| ==> c < |bs[k].channels|
  }

  /** Channel `c` of all buffers, one after another. */
  function ChannelConcat<S>(bs: seq<AudioBuffer<S>>, c: nat): seq<S>
    requires HasChannel(bs, c)
  {
    if bs == [] then [] else ChannelConcat(bs[..|bs| - 1], c) + bs[|bs| - 1].channels[c]
  }

  /** A non-empty list of well-formed buffers, each with at least the first buffer's channels. */
  predicate Mergeable<S>(bs: seq<AudioBuffer<S>>)
  {
    && bs != []
    && (forall k :: 0 <= k < |bs| ==> WellFormed(bs[k]))
    && (forall k :: 0 <= k < |bs| ==> |bs[k].channels| >= |bs[0].channels|)
  }

  /** The merged buffer as a value: the first buffer's rate and channels, each channel concatenated. */
  function Merged<S>(bs: seq<AudioBuffer<S>>): (m: AudioBuffer<S>)
    requires Mergeable(bs)
    ensures WellFormed(m) && m.length == TotalLength(bs) && |m.channels| == |bs[0].channels|
  {
    ConcatLengths(bs);
    AudioBuffer(bs[0].sampleRate, TotalLength(bs),
      seq(|bs[0].channels|, c requires 0 <= c < |bs[0].channels| => ChannelConcat(bs, c)))
  }

  /** Every channel of the first buffer, concatenated across a mergeable list, spans the total length. */
  lemma ConcatLengths<S>(bs: seq<AudioBuffer<S>>)
    requires Mergeable(bs)
    ensures forall c :: 0 <= c < |bs[0].channels| ==> HasChannel(bs, c) && |ChannelConcat(bs, c)| == TotalLength(bs)
  {
    forall c | 0 <= c < |bs[0].channels|
      ensures HasChannel(bs, c) && |ChannelConcat(bs, c)| == TotalLength(bs)
    {
      ConcatLength(bs, c);
    }
  }

  /** In the merged buffer, sample `i` of verse buffer `k` sits at frame `Offset(bs, k) + i` on every channel. */
  lemma MergedPlacement<S>(bs: seq<AudioBuffer<S>>, c: nat, k: nat, i: nat)
    requires Mergeable(bs)
    requires c < |bs[0].channels| && k < |bs| && i < bs[k].length
    ensures Offset(bs, k) + i < Merged(bs).length
    ensures Merged(bs).channels[c][Offset(bs, k) + i] == bs[k].channels[c][i]
  {
    ConcatPlacement(bs, c, k, i);
    ConcatLengths(bs);
  }

  /** Channels built one by one as the concatenations make up exactly the merged buffer. */
  lemma MergedFromChannels<S>(bs: seq<AudioBuffer<S>>, channels: seq<seq<S>>)
    requires Mergeable(bs)
    requires |channels| == |bs[0].channels|
    requires forall c :: 0 <= c < |channels| ==> HasChannel(bs, c) && channels[c] == ChannelConcat(bs, c)
    ensures AudioBuffer(bs[0].sampleRate, TotalLength(bs), channels) == Merged(bs)
  {
  }

  /** Buffer `k` ends where buffer `k + 1` begins, and the last one ends at the total length. */
  lemma OffsetStep<S>(bs: seq<AudioBuffer<S>>, k: nat)
    requires k < |bs|
    ensures Offset(bs, k + 1) == Offset(bs, k) + bs[k].length
    ensures Offset(bs, k + 1) <= TotalLength(bs)
  {
    assert bs[..k + 1][..k] == bs[..k];
    OffsetBounded(bs, k + 1);
  }

  lemma {:induction false} OffsetBounded<S>(bs: seq<AudioBuffer<S>>, k: nat)
    requires k <= |bs|
    ensures Offset(bs, k) <= TotalLength(bs)
    decreases |bs|
  {
    if k < |bs| {
      var init := bs[..|bs| - 1];
      assert init[..k] == bs[..k];
      OffsetBounded(init, k);
    } else {
      assert bs[..k] == bs;
    }
  }

  /** The concatenated channel is as long as the total, when every buffer is well formed. */
  lemma {:induction false} ConcatLength<S>(bs: seq<AudioBuffer<S>>, c: nat)
    requires HasChannel(bs, c)
    requires forall k :: 0 <= k < |bs| ==> WellFormed(bs[k])
    ensures |ChannelConcat(bs, c)| == TotalLength(bs)
    decreases |bs|
  {
    if bs != [] {
      ConcatLength(bs[..|bs| - 1], c);
    }
  }

  /** Sample `i` of buffer `k` lands at position `Offset(bs, k) + i` of the concatenated channel. */
  lemma {:induction false} ConcatPlacement<S>(bs: seq<AudioBuffer<S>>, c: nat, k: nat, i: nat)
    requires HasChannel(bs, c)
    requires forall j :: 0 <= j < |bs| ==> WellFormed(bs[j])
    requires k < |bs| && i < bs[k].length
    ensures c < |bs[k].channels| && i < |bs[k].channels[c]|
    ensures Offset(bs, k) + i < |ChannelConcat(bs, c)|
    ensures ChannelConcat(bs, c)[Offset(bs, k) + i] == bs[k].channels[c][i]
    decreases |bs|
  {
    var init := bs[..|bs| - 1];
    ConcatLength(init, c);
    ConcatLength(bs, c);
    if k == |bs| - 1 {
      assert bs[..k] == init;
    } else {
      assert init[..k] == bs[..k];
      ConcatPlacement(init, c, k, i);
    }
  }

  /**
    One pass of the outer loop of `mergeAudioBuffers` (script.js:545-556):
    every channel of buffer `k` is copied into `target` at `offset`, the
    buffer's place in the concatenation; nothing outside that range changes.
  */
  method CopyBuffer<S>(target: array2<S>, buffers: seq<AudioBuffer<S>>, k: nat, offset: nat)
    requires k < |buffers| && forall j :: 0 <= j < |buffers| ==> WellFormed(buffers[j])
    requires forall c :: 0 <= c < target.Length0 ==>
      HasChannel(buffers, c) && |ChannelConcat(buffers, c)| == target.Length1
    requires offset == Offset(buffers, k) && offset + buffers[k].length <= target.Length1
    modifies target
    ensures forall c, j :: 0 <= c < target.Length0 && offset <= j < offset + buffers[k].length ==>
      target[c, j] == ChannelConcat(buffers, c)[j]
    ensures forall c, j :: 0 <= c < target.Length0 && 0 <= j < target.Length1 && !(offset <= j < offset + buffers[k].length) ==>
      target[c, j] == old(target[c, j])
  {
    var buffer := buffers[k];
    for c := 0 to target.Length0
      invariant forall c', j :: 0 <= c' < c && offset <= j < offset + buffer.length ==>
        target[c', j] == ChannelConcat(buffers, c')[j]
      invariant forall c', j :: c <= c' < target.Length0 && 0 <= j < target.Length1 ==>
        target[c', j] == old(target[c', j])
      invariant forall c', j :: 0 <= c' < c && 0 <= j < target.Length1 && !(offset <= j < offset + buffer.length) ==>
        target[c', j] == old(target[c', j])
    {
      for i := 0 to buffer.length
        invariant forall c', j :: 0 <= c' < c && offset <= j < offset + buffer.length ==>
          target[c', j] == ChannelConcat(buffers, c')[j]
        invariant forall j :: offset <= j < offset + i ==> target[c, j] == ChannelConcat(buffers, c)[j]
        invariant forall j :: 0 <= j < target.Length1 && !(offset <= j < offset + i) ==> target[c, j] == old(target[c, j])
        invariant forall c', j :: c < c' < target.Length0 && 0 <= j < target.Length1 ==>
          target[c', j] == old(target[c', j])
        invariant forall c', j :: 0 <= c' < c && 0 <= j < target.Length1 && !(offset <= j < offset + buffer.length) ==>
          target[c', j] == old(target[c', j])
      {
        ConcatPlacement(buffers, c, k, i);
        target[c, offset + i] := buffer.channels[c][i];
      }
    }
  }

  /**
    `mergeAudioBuffers(audioContext, buffers)`: an error for an empty list;
    otherwise channel count and sample rate come from the first buffer, the
    length is the sum of the lengths, and every channel is the concatenation
    of that channel of every buffer, in order. The source checks neither
    channel counts nor sample rates; `getChannelData` of a missing channel
    would throw, so callers must supply at least the first buffer's channels.
  */
  method Merge<S(0)>(buffers: seq<AudioBuffer<S>>) returns (r: Result<AudioBuffer<S>, MergeError>)
    requires forall k :: 0 <= k < |buffers| ==> WellFormed(buffers[k])
    requires forall k :: 0 <= k < |buffers| ==> |buffers[k].channels| >= |buffers[0].channels|
    ensures r.Failure? <==> buffers == []
    ensures r.Success? ==>
      && r.value.sampleRate == buffers[0].sampleRate
      && |r.value.channels| == |buffers[0].channels|
      && r.value.length == TotalLength(buffers)
      && WellFormed(r.value)
    ensures r.Success? ==> forall c :: 0 <= c < |r.value.channels| ==>
      HasChannel(buffers, c) && r.value.channels[c] == ChannelConcat(buffers, c)
    ensures r.Success? ==> Mergeable(buffers) && r.value == Merged(buffers)
  {
    if |buffers| == 0 {
      return Failure(NothingToMerge);
    }
    var numberOfChannels := |buffers[0].channels|;
    var sampleRate := buffers[0].sampleRate;
    assert forall c :: 0 <= c < numberOfChannels ==> HasChannel(buffers, c);

    var totalLength := 0;
    for k := 0 to |buffers|
      invariant totalLength == Offset(buffers, k)
    {
      OffsetStep(buffers, k);
      totalLength := totalLength + buffers[k].length;
    }
    assert buffers[..|buffers|] == buffers;

    forall c | 0 <= c < numberOfChannels ensures |ChannelConcat(buffers, c)| == totalLength {
      ConcatLength(buffers, c);
    }

    var target := new S[numberOfChannels, totalLength];
    var offset := 0;
    for k := 0 to |buffers|
      invariant offset == Offset(buffers, k) && offset <= totalLength
      invariant forall c, j :: 0 <= c < numberOfChannels && 0 <= j < offset ==>
        target[c, j] == ChannelConcat(buffers, c)[j]
    {
      OffsetStep(buffers, k);
      CopyBuffer(target, buffers, k, offset);
      offset := offset + buffers[k].length;
    }

    var channels: seq<seq<S>> := [];
    for c := 0 to numberOfChannels
      invariant |channels| == c
      invariant forall c' :: 0 <= c' < c ==> channels[c'] == ChannelConcat(buffers, c')
    {
      var data := seq(totalLength, j requires 0 <= j < totalLength reads target => target[c, j]);
      channels := channels + [data];
    }
    var merged := AudioBuffer(sampleRate, totalLength, channels);
    MergedFromChannels(buffers, channels);
    r := Success(merged);
  }
}
