/**
 * The sample relay between the audio callback and the editor: a ring of
 * pre-sized slots (Fifo) and the per-channel accumulator that cuts the
 * incoming samples into fixed-size blocks and hands them to that ring
 * (SingleChannelSampleFifo). Modelled sequentially, one producer and one
 * consumer; the lock-free memory ordering of the cursors is not part of it.
 */
module Relay {

  /** Fifo::Capacity, the number of slots of the ring. */
  const Capacity: nat := 30

  /** juce::AbstractFifo never fills its last free slot (a full ring would look
      empty), so at most Capacity - 1 items are queued at any time. */
  const Usable: nat := Capacity - 1

  /** A float sample; the relay only copies samples, it never computes with them. */
  type Sample = real

  /** juce::AudioBuffer<float>: one sequence of samples per channel. */
  type AudioBuffer = seq<seq<Sample>>

  function Min(a: int, b: int): int
  {
    if a < b then a else b
  }

  /** n silent samples. */
  function Zeros(n: nat): (r: seq<Sample>)
    ensures |r| == n
    ensures forall i :: 0 <= i < n ==> r[i] == 0.0
  {
    seq(n, _ => 0.0)
  }

  /** What setSize followed by clear() leaves in an AudioBuffer. */
  function SilentBuffer(numChannels: nat, numSamples: nat): (r: AudioBuffer)
    ensures |r| == numChannels
    ensures forall c :: 0 <= c < numChannels ==> r[c] == Zeros(numSamples)
  {
    seq(numChannels, _ => Zeros(numSamples))
  }

  // ---------------------------------------------------------------------------
  // The queue discipline, on values
  // ---------------------------------------------------------------------------

  /** The queued items after one push of t: appended while a slot is free,
      unchanged (t is dropped) when the ring is full. */
  function Offer<T>(q: seq<T>, t: T): seq<T>
  {
    if |q| < Usable then q + [t] else q
  }

  /** The queued items after pushing each item of ts in turn, with no pull in between. */
  function OfferAll<T>(q: seq<T>, ts: seq<T>): seq<T>
    decreases |ts|
  {
    if ts == [] then q else Offer(OfferAll(q, ts[..|ts| - 1]), ts[|ts| - 1])
  }

  /** A run of pushes keeps every item already queued, accepts the new items in
      their order while there is room, and drops everything after the ring fills. */
  lemma {:induction false} OfferAllAcceptsUntilFull<T>(q: seq<T>, ts: seq<T>)
    requires |q| <= Usable
    ensures OfferAll(q, ts) == q + ts[..Min(|ts|, Usable - |q|)]
    decreases |ts|
  {
    if ts != [] {
      var init := ts[..|ts| - 1];
      OfferAllAcceptsUntilFull(q, init);
      var m := Min(|init|, Usable - |q|);
      assert init[..m] == ts[..m];
      if |q| + |init| < Usable {
        assert ts[..m] + [ts[|ts| - 1]] == ts[..Min(|ts|, Usable - |q|)];
      }
    }
  }

  /** Two runs of pushes make one run: pushing a and then b is pushing a + b. */
  lemma {:induction false} OfferAllConcat<T>(q: seq<T>, a: seq<T>, b: seq<T>)
    ensures OfferAll(OfferAll(q, a), b) == OfferAll(q, a + b)
    decreases |b|
  {
    if b == [] {
      assert a + b == a;
    } else {
      OfferAllConcat(q, a, b[..|b| - 1]);
      assert (a + b)[..|a + b| - 1] == a + b[..|b| - 1];
    }
  }

  /** The same, for runs cut from one growing sequence of pushes. */
  lemma OfferAllSteps<T>(q: seq<T>, before: seq<T>, mid: seq<T>, now: seq<T>)
    requires before <= mid <= now
    ensures OfferAll(OfferAll(q, mid[|before|..]), now[|mid|..]) == OfferAll(q, now[|before|..])
  {
    OfferAllConcat(q, mid[|before|..], now[|mid|..]);
    assert mid[|before|..] + now[|mid|..] == now[|before|..];
  }

  /** Items come out in the order they went in: pushing at most Usable items into
      an empty ring queues all of them, in order. */
  lemma PushedItemsQueueInOrder<T>(ts: seq<T>)
    requires |ts| <= Usable
    ensures OfferAll([], ts) == ts
  {
    OfferAllAcceptsUntilFull([], ts);
    assert ts[..|ts|] == ts;
  }

  /** Pushing Usable + 1 items into an empty ring: the first Usable pushes are
      accepted, the last one is refused, and the queued items are the accepted
      ones in their order. */
  lemma OverflowRefusesExactlyTheLastPush<T>(ts: seq<T>)
    requires |ts| == Usable + 1
    ensures OfferAll([], ts[..Usable]) == ts[..Usable]
    ensures |OfferAll([], ts[..Usable])| == Usable
    ensures OfferAll([], ts) == OfferAll([], ts[..Usable])
  {
    OfferAllAcceptsUntilFull([], ts[..Usable]);
    assert ts[..Usable][..Usable] == ts[..Usable];
    OfferAllAcceptsUntilFull([], ts);
  }

  // ---------------------------------------------------------------------------
  // Fifo<T>
  // ---------------------------------------------------------------------------

  /** The n items of the ring r starting at slot start, wrapping around at the end. */
  function Window<T>(r: seq<T>, start: nat, n: nat): (w: seq<T>)
    requires start < |r| && n <= |r|
    ensures |w| == n
  {
    seq(n, i requires 0 <= i < n => r[if start + i < |r| then start + i else start + i - |r|])
  }

  /** Fifo<T>: Capacity pre-sized slots and the juce::AbstractFifo cursors that
      say which of them hold unread items. */
  class Fifo<T> {
    /** std::array<T, Capacity> buffers */
    const buffers: array<T>
    /** AbstractFifo's validStart: the slot of the oldest unread item. */
    var validStart: nat
    /** AbstractFifo's validEnd: the slot the next push writes. */
    var validEnd: nat
    /** Successful pushes and pulls so far. */
    ghost var pushes: nat
    ghost var pulls: nat

    ghost predicate Valid()
      reads this
    {
      buffers.Length == Capacity && validStart < Capacity && validEnd < Capacity &&
      pushes == pulls + NumReady()
    }

    /** AbstractFifo::getNumReady */
    function NumReady(): (n: nat)
      reads this
      requires validStart < Capacity && validEnd < Capacity
      ensures n <= Usable
    {
      if validEnd >= validStart then validEnd - validStart
      else Capacity - (validStart - validEnd)
    }

    /** The slot of the i-th oldest unread item. */
    function SlotOf(i: nat): nat
      reads this
    {
      if validStart + i < Capacity then validStart + i else validStart + i - Capacity
    }

    /** The unread items, oldest first. */
    ghost function Contents(): (q: seq<T>)
      reads this, buffers
      requires Valid()
      ensures |q| == NumReady()
    {
      Window(buffers[..], validStart, NumReady())
    }

    /** The std::array is default-constructed: every slot holds the empty value. */
    constructor (empty: T)
      ensures Valid() && fresh(buffers)
      ensures Contents() == [] && pushes == 0 && pulls == 0
      ensures forall k :: 0 <= k < Capacity ==> buffers[k] == empty
    {
      buffers := new T[Capacity](_ => empty);
      validStart, validEnd := 0, 0;
      pushes, pulls := 0, 0;
    }

    /** prepare: every slot is reset to the blank value (a vector of numElements
        zeros, or a silent numChannels x numSamples buffer). The cursors are not
        touched, so items still queued read back as blanks. */
    method Prepare(blank: T)
      requires Valid()
      modifies buffers
      ensures Valid()
      ensures forall k :: 0 <= k < Capacity ==> buffers[k] == blank
      ensures Contents() == seq(|old(Contents())|, _ => blank)
    {
      for k := 0 to Capacity
        invariant forall j :: 0 <= j < k ==> buffers[j] == blank
      {
        buffers[k] := blank;
      }
    }

    /** push: copy t into the next free slot, or refuse when the ring is full. */
    method Push(t: T) returns (ok: bool)
      requires Valid()
      modifies this, buffers
      ensures Valid()
      ensures ok <==> |old(Contents())| < Usable
      ensures Contents() == Offer(old(Contents()), t)
      ensures pushes == old(pushes) + (if ok then 1 else 0) && pulls == old(pulls)
    {
      ghost var q := Contents();
      // AbstractFifo::write(1): the free space counts the slot that is never filled.
      var freeSpace := if validEnd >= validStart then Capacity - (validEnd - validStart)
                       else validStart - validEnd;
      var blockSize1 := Min(1, freeSpace - 1);
      if blockSize1 > 0 {
        var startIndex1 := validEnd;
        buffers[startIndex1] := t;
        validEnd := if validEnd + 1 == Capacity then 0 else validEnd + 1;
        pushes := pushes + 1;
        ok := true;
        assert forall i :: 0 <= i < |q| ==> SlotOf(i) != startIndex1;
        assert Contents() == q + [t];
      } else {
        ok := false;
      }
    }

    /** pull: copy the oldest unread item out, or return false and leave t as it was. */
    method Pull(t: T) returns (ok: bool, out: T)
      requires Valid()
      modifies this
      ensures Valid()
      ensures ok <==> old(Contents()) != []
      ensures ok ==> out == old(Contents())[0] && Contents() == old(Contents())[1..]
      ensures !ok ==> out == t && Contents() == old(Contents())
      ensures pulls == old(pulls) + (if ok then 1 else 0) && pushes == old(pushes)
    {
      ghost var q := Contents();
      // AbstractFifo::read(1)
      var numReady := NumReady();
      var blockSize1 := Min(1, numReady);
      if blockSize1 > 0 {
        var startIndex1 := validStart;
        out := buffers[startIndex1];
        validStart := if validStart + 1 == Capacity then 0 else validStart + 1;
        pulls := pulls + 1;
        ok := true;
        assert Contents() == q[1..];
      } else {
        ok, out := false, t;
      }
    }

    /** getNumAvailableForReading: the number of unread items, which is the number
        of successful pushes minus the number of successful pulls. */
    method GetNumAvailableForReading() returns (n: nat)
      requires Valid()
      ensures n == |Contents()| && n == pushes - pulls && n <= Usable
    {
      n := NumReady();
    }
  }

  /** prepare(numElements), the overload for a Fifo of sample vectors: every
      slot becomes a vector of exactly numElements zeros. */
  method PrepareVectors(fifo: Fifo<seq<Sample>>, numElements: nat)
    requires fifo.Valid()
    modifies fifo.buffers
    ensures fifo.Valid()
    ensures forall k :: 0 <= k < Capacity ==>
              |fifo.buffers[k]| == numElements &&
              forall j :: 0 <= j < numElements ==> fifo.buffers[k][j] == 0.0
  {
    fifo.Prepare(Zeros(numElements));
  }

  // ---------------------------------------------------------------------------
  // SingleChannelSampleFifo
  // ---------------------------------------------------------------------------

  /** The Channel enum: Right is channel 0 and Left is channel 1. */
  datatype Channel = Right | Left

  function ChannelIndex(ch: Channel): (i: nat)
    ensures i < 2
  {
    match ch
    case Right => 0
    case Left => 1
  }

  /** Every block is a one-channel buffer of blockSize samples. */
  ghost predicate OneChannelBlocks(blocks: seq<AudioBuffer>, blockSize: nat)
  {
    forall k :: 0 <= k < |blocks| ==> |blocks[k]| == 1 && |blocks[k][0]| == blockSize
  }

  /** The samples of a run of one-channel blocks, block after block. */
  ghost function Joined(blocks: seq<AudioBuffer>): seq<Sample>
    requires forall k :: 0 <= k < |blocks| ==> |blocks[k]| == 1
    decreases |blocks|
  {
    if blocks == [] then [] else Joined(blocks[..|blocks| - 1]) + blocks[|blocks| - 1][0]
  }

  lemma JoinedSnoc(blocks: seq<AudioBuffer>, block: AudioBuffer)
    requires forall k :: 0 <= k < |blocks| ==> |blocks[k]| == 1
    requires |block| == 1
    ensures Joined(blocks + [block]) == Joined(blocks) + block[0]
  {
    assert (blocks + [block])[..|blocks|] == blocks;
  }

  lemma {:induction false} JoinedLength(blocks: seq<AudioBuffer>, blockSize: nat)
    requires OneChannelBlocks(blocks, blockSize)
    ensures |Joined(blocks)| == |blocks| * blockSize
    decreases |blocks|
  {
    if blocks != [] {
      var n := |blocks| - 1;
      JoinedLength(blocks[..n], blockSize);
      assert (n + 1) * blockSize == n * blockSize + blockSize;
    }
  }

  /** A step of QuotientOf's proof: Dafny does not derive this from nat bounds
      alone inside the case split. */
  lemma ProductOfNaturals(a: nat, b: nat)
    ensures a * b >= 0
  {
  }

  lemma QuotientOf(k: nat, blockSize: nat, r: nat)
    requires 0 <= r < blockSize
    ensures (k * blockSize + r) / blockSize == k
  {
    var n := k * blockSize + r;
    var q := n / blockSize;
    var s := n % blockSize;
    assert n == q * blockSize + s && 0 <= s < blockSize;
    if q > k {
      ProductOfNaturals(q - k - 1, blockSize);
      assert false;
    } else if q < k {
      ProductOfNaturals(k - q - 1, blockSize);
      assert false;
    }
  }

  /** After n >= 1 samples have been accumulated into blocks of blockSize, with
      between 1 and blockSize samples still pending, exactly (n - 1) div blockSize
      blocks have been handed on, each holding blockSize consecutive samples. */
  lemma {:induction false} HandedOnBlockCount(blocks: seq<AudioBuffer>, pending: seq<Sample>, blockSize: nat)
    requires OneChannelBlocks(blocks, blockSize)
    requires 1 <= |pending| <= blockSize
    ensures |blocks| == (|Joined(blocks) + pending| - 1) / blockSize
  {
    JoinedLength(blocks, blockSize);
    QuotientOf(|blocks|, blockSize, |pending| - 1);
  }

  lemma FlushKeepsAccount(fed: seq<Sample>, offered: seq<AudioBuffer>, full: seq<Sample>, q: seq<AudioBuffer>)
    requires OneChannelBlocks(offered, |full|)
    requires fed == Joined(offered) + full
    ensures OneChannelBlocks(offered + [[full]], |full|)
    ensures fed == Joined(offered + [[full]]) + full[..0]
    ensures OfferAll(q, (offered + [[full]])[|offered|..]) == Offer(q, [full])
  {
    JoinedSnoc(offered, [full]);
    assert (offered + [[full]])[|offered|..] == [[full]];
    assert OfferAll(q, [[full]]) == Offer(OfferAll(q, []), [full]);
  }

  lemma NoFlushKeepsQueue(offered: seq<AudioBuffer>, q: seq<AudioBuffer>)
    ensures OfferAll(q, offered[|offered|..]) == q
  {
    assert offered[|offered|..] == [];
  }

  lemma AppendKeepsAccount(fed: seq<Sample>, offered: seq<AudioBuffer>, content: seq<Sample>, index: nat, sample: Sample)
    requires index < |content|
    requires OneChannelBlocks(offered, |content|)
    requires fed == Joined(offered) + content[..index]
    ensures fed + [sample] == Joined(offered) + content[index := sample][..index + 1]
  {
    assert content[index := sample][..index + 1] == content[..index] + [sample];
  }

  /** SingleChannelSampleFifo: copies one channel of every audio buffer, sample by
      sample, into bufferToFill, and pushes bufferToFill into the Fifo when it is
      full and the next sample arrives. */
  class SingleChannelSampleFifo {
    const channelToUse: Channel
    var fifoIndex: nat
    const audioBufferFifo: Fifo<AudioBuffer>
    /** The single channel of bufferToFill; setSample writes into it in place. */
    var bufferToFill: array<Sample>
    var prepared: bool
    var size: int
    /** Samples taken since the last prepare. */
    ghost var fed: seq<Sample>
    /** Blocks offered to audioBufferFifo since the last prepare (accepted or not). */
    ghost var offered: seq<AudioBuffer>

    ghost function Repr(): set<object>
      reads this
    {
      {this, bufferToFill, audioBufferFifo, audioBufferFifo.buffers}
    }

    /** Every sample taken since the last prepare is in an offered block or
        pending in bufferToFill, and once a sample has been taken at least one
        is pending. */
    ghost predicate Valid()
      reads this, audioBufferFifo, bufferToFill
    {
      audioBufferFifo.Valid() &&
      fifoIndex <= bufferToFill.Length &&
      (prepared ==> size == bufferToFill.Length) &&
      OneChannelBlocks(offered, bufferToFill.Length) &&
      fed == Joined(offered) + bufferToFill[..fifoIndex] &&
      (fed != [] ==> 1 <= fifoIndex)
    }

    /** The state prepare(bufferSize) leaves: prepared for blocks of that size,
        a bufferToFill of that many samples, writing at index 0 and nothing
        taken yet. */
    ghost predicate PreparedFor(bufferSize: nat)
      reads this, bufferToFill
    {
      prepared && size == bufferSize && fifoIndex == 0 &&
      bufferToFill.Length == bufferSize &&
      fed == [] && offered == []
    }

    /** bufferToFill already has one channel of bufferSize samples, so
        setSize(1, bufferSize, ...) leaves it as it is. Before the first
        prepare the buffer has no channel at all. */
    predicate HasShape(bufferSize: nat)
      reads this, bufferToFill
    {
      prepared && bufferToFill.Length == bufferSize
    }

    constructor (ch: Channel)
      ensures Valid() && fresh(Repr())
      ensures channelToUse == ch && !prepared && size == 0 && fifoIndex == 0
      ensures audioBufferFifo.Contents() == []
    {
      channelToUse := ch;
      fifoIndex := 0;
      audioBufferFifo := new Fifo<AudioBuffer>([]);
      bufferToFill := new Sample[0];
      prepared := false;
      size := 0;
      fed, offered := [], [];
    }

    /** prepare: bufferToFill is resized to bufferSize samples, every Fifo slot
        becomes a silent one-channel buffer of that size, writing restarts at
        index 0, and the relay is marked prepared once all of that is done.
        The resize (setSize with avoidReallocating) keeps the buffer and its
        samples when its shape is already right; any other shape gives cleared
        storage, which the model writes as a new array of zeros. */
    method Prepare(bufferSize: nat)
      requires Valid()
      modifies this, audioBufferFifo.buffers
      ensures Valid()
      ensures prepared && size == bufferSize && fifoIndex == 0
      ensures bufferToFill.Length == bufferSize
      ensures old(HasShape(bufferSize)) ==>
                bufferToFill == old(bufferToFill) && bufferToFill[..] == old(bufferToFill[..])
      ensures !old(HasShape(bufferSize)) ==>
                fresh(bufferToFill) && bufferToFill[..] == Zeros(bufferSize)
      ensures forall k :: 0 <= k < Capacity ==> audioBufferFifo.buffers[k] == SilentBuffer(1, bufferSize)
      ensures audioBufferFifo.Contents() == seq(|old(audioBufferFifo.Contents())|, _ => SilentBuffer(1, bufferSize))
      ensures fed == [] && offered == []
    {
      var reshape := !HasShape(bufferSize);
      prepared := false;
      size := bufferSize;
      if reshape {
        bufferToFill := new Sample[bufferSize](_ => 0.0);
      }
      audioBufferFifo.Prepare(SilentBuffer(1, bufferSize));
      fifoIndex := 0;
      fed, offered := [], [];
      prepared := true;
    }

    /** The first half of pushNextSampleIntoFifo, taken when bufferToFill is
        full: it is pushed (a refusal is ignored) and writing restarts at index 0. */
    method FlushFullBuffer()
      requires Valid() && fifoIndex == bufferToFill.Length
      modifies this, audioBufferFifo, audioBufferFifo.buffers
      ensures audioBufferFifo.Valid() && fifoIndex == 0
      ensures bufferToFill == old(bufferToFill) && prepared == old(prepared) && size == old(size)
      ensures fed == old(fed) && offered == old(offered) + [[bufferToFill[..]]]
      ensures audioBufferFifo.Contents() == Offer(old(audioBufferFifo.Contents()), [bufferToFill[..]])
    {
      var block := [bufferToFill[..]];
      var ok := audioBufferFifo.Push(block);
      offered := offered + [block];
      fifoIndex := 0;
    }

    /** pushNextSampleIntoFifo: a full bufferToFill is pushed (a refusal is ignored)
        only when the next sample arrives; writing then restarts at index 0. */
    method PushNextSampleIntoFifo(sample: Sample)
      requires Valid() && bufferToFill.Length > 0
      modifies this, bufferToFill, audioBufferFifo, audioBufferFifo.buffers
      ensures Valid()
      ensures bufferToFill == old(bufferToFill) && prepared == old(prepared) && size == old(size)
      ensures fed == old(fed) + [sample]
      ensures 1 <= fifoIndex <= bufferToFill.Length
      ensures old(fifoIndex) == bufferToFill.Length ==>
                offered == old(offered) + [[old(bufferToFill[..])]] && fifoIndex == 1
      ensures old(fifoIndex) < bufferToFill.Length ==>
                offered == old(offered) && fifoIndex == old(fifoIndex) + 1
      ensures audioBufferFifo.Contents() ==
                OfferAll(old(audioBufferFifo.Contents()), offered[|old(offered)|..])
    {
      if fifoIndex == bufferToFill.Length {
        ghost var q, full, before := audioBufferFifo.Contents(), bufferToFill[..], offered;
        assert bufferToFill[..fifoIndex] == full;
        FlushFullBuffer();
        FlushKeepsAccount(fed, before, full, q);
      } else {
        NoFlushKeepsQueue(offered, audioBufferFifo.Contents());
      }
      AppendKeepsAccount(fed, offered, bufferToFill[..], fifoIndex, sample);
      bufferToFill[fifoIndex] := sample;
      fifoIndex := fifoIndex + 1;
      fed := fed + [sample];
    }

    /** update: feeds the samples of channel channelToUse, in index order. */
    method Update(buffer: AudioBuffer)
      requires Valid() && prepared
      requires ChannelIndex(channelToUse) < |buffer|
      requires buffer[ChannelIndex(channelToUse)] != [] ==> bufferToFill.Length > 0
      modifies this, bufferToFill, audioBufferFifo, audioBufferFifo.buffers
      ensures Valid() && prepared
      ensures bufferToFill == old(bufferToFill) && size == old(size)
      ensures fed == old(fed) + buffer[ChannelIndex(channelToUse)]
      ensures old(offered) <= offered
      ensures audioBufferFifo.Contents() ==
                OfferAll(old(audioBufferFifo.Contents()), offered[|old(offered)|..])
    {
      var samples := buffer[ChannelIndex(channelToUse)];
      ghost var q := audioBufferFifo.Contents();
      ghost var before := offered;
      ghost var fed0 := fed;
      for i := 0 to |samples|
        invariant Valid() && prepared
        invariant bufferToFill == old(bufferToFill) && size == old(size)
        invariant fed == fed0 + samples[..i]
        invariant before <= offered
        invariant audioBufferFifo.Contents() == OfferAll(q, offered[|before|..])
      {
        ghost var mid := offered;
        PushNextSampleIntoFifo(samples[i]);
        assert samples[..i + 1] == samples[..i] + [samples[i]];
        OfferAllSteps(q, before, mid, offered);
      }
      assert samples[..|samples|] == samples;
    }

    /** Of the samples taken since the last prepare, all but the last one to
        size are in blocks already handed on: (|fed| - 1) div size blocks. */
    lemma BlocksHandedOn()
      requires Valid() && prepared && fed != []
      ensures |offered| == (|fed| - 1) / size
    {
      HandedOnBlockCount(offered, bufferToFill[..fifoIndex], size);
    }

    /** getNumCompleteBuffersAvailable */
    method GetNumCompleteBuffersAvailable() returns (n: nat)
      requires Valid()
      ensures n == |audioBufferFifo.Contents()|
    {
      n := audioBufferFifo.GetNumAvailableForReading();
    }

    /** getAudioBuffer: pulls the oldest complete block, or returns false and leaves buf. */
    method GetAudioBuffer(buf: AudioBuffer) returns (ok: bool, out: AudioBuffer)
      requires Valid()
      modifies audioBufferFifo
      ensures Valid()
      ensures ok <==> old(audioBufferFifo.Contents()) != []
      ensures ok ==> out == old(audioBufferFifo.Contents())[0] &&
                     audioBufferFifo.Contents() == old(audioBufferFifo.Contents())[1..]
      ensures !ok ==> out == buf && audioBufferFifo.Contents() == old(audioBufferFifo.Contents())
    {
      ok, out := audioBufferFifo.Pull(buf);
    }
  }

  /** A second prepare with the same block size keeps the samples already in
      bufferToFill; only a change of block size clears them. */
  method ReprepareKeepsPendingSamples(relay: SingleChannelSampleFifo, x: Sample)
    requires relay.Valid() && relay.PreparedFor(2)
    modifies relay, relay.bufferToFill, relay.audioBufferFifo, relay.audioBufferFifo.buffers
    ensures relay.Valid() && relay.PreparedFor(2) && relay.bufferToFill[0] == x
  {
    relay.PushNextSampleIntoFifo(x);
    assert relay.offered == [] && relay.fifoIndex == 1 && Joined(relay.offered) == [];
    assert relay.fed == [x] == [] + relay.bufferToFill[..1];
    assert relay.bufferToFill[..1] == [x];
    relay.Prepare(2);
  }
}
