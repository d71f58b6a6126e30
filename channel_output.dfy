/**
 * An output destination backed by a writable channel: a block of bytes is written in
 * chunks of at most the temporary buffer's capacity, until it is all written or the
 * channel takes less than it was offered.
 */
module ChannelOutput {
  import opened Lists

  /**
   * What one channel write accepts: the answer the channel gives for this call (taken as
   * 0 once the given answers run out), never more than it was offered.
   */
  function Accepted(answers: seq<int>, size: int): (n: int)
    ensures n <= size
  {
    if answers == [] then Min(0, size) else Min(answers[0], size)
  }

  /**
   * The count the write loop reaches from `count`: it stops when all `len` bytes are
   * written, when a write accepts nothing, or when a write accepts less than offered.
   */
  function Written(cap: nat, len: int, answers: seq<int>, count: int): int
    decreases |answers|
  {
    if count >= len then count
    else
      var size := Min(cap, len - count);
      var n := Accepted(answers, size);
      if n <= 0 then count
      else if n < size || answers == [] then count + n
      else Written(cap, len, answers[1..], count + n)
  }

  /** The loop never writes more than asked, and never goes back. */
  lemma {:induction false} WrittenBounds(cap: nat, len: int, answers: seq<int>, count: int)
    requires count <= len || len <= count
    ensures count <= len ==> count <= Written(cap, len, answers, count) <= len
    ensures len <= count ==> Written(cap, len, answers, count) == count
    decreases |answers|
  {
    if count < len {
      var size := Min(cap, len - count);
      var n := Accepted(answers, size);
      if n > 0 && n >= size && answers != [] {
        WrittenBounds(cap, len, answers[1..], count + n);
      }
    }
  }

  /** A channel that takes every chunk whole writes all the bytes, given enough calls. */
  lemma {:induction false} WrittenWhole(cap: nat, len: int, answers: seq<int>, count: int)
    requires cap > 0 && 0 <= count <= len
    requires forall k :: 0 <= k < |answers| ==> answers[k] >= cap
    requires (len - count) <= |answers| * cap
    ensures Written(cap, len, answers, count) == len
    decreases |answers|
  {
    if count < len {
      var size := Min(cap, len - count);
      assert answers != [];
      if size < cap {
        assert Accepted(answers, size) == size;
      } else {
        assert (len - (count + cap)) <= |answers[1..]| * cap;
        WrittenWhole(cap, len, answers[1..], count + cap);
      }
    }
  }

  class ChannelOutputDestination {
    /** StreamConstants.TEMP_BUFFER_SIZE, which is not part of this model. */
    const cap: nat
    var hasTmpBuffer: bool
    /** The bytes the channel took, in order, and the size of each chunk offered to it. */
    var channelData: seq<int>
    var offered: seq<int>

    constructor(cap: nat)
      ensures this.cap == cap && !hasTmpBuffer && channelData == [] && offered == []
    {
      this.cap := cap;
      hasTmpBuffer := false;
      channelData := [];
      offered := [];
    }

    /**
     * `write(data, offset, len)`: the buffer is allocated if need be; chunks of at most
     * `cap` bytes taken in order from `data[offset..]` are offered to the channel until
     * the loop stops; the buffer is released when all `len` bytes were written; the
     * count written is returned.
     */
    method Write(data: seq<int>, offset: nat, len: int, answers: seq<int>) returns (count: int)
      requires len <= 0 || offset + len <= |data|
      modifies this`hasTmpBuffer, this`channelData, this`offered
      ensures count == Written(cap, len, answers, 0)
      ensures len <= 0 ==> count == 0
      ensures len >= 0 ==> 0 <= count <= len
      ensures len <= 0 ==> channelData == old(channelData)
      ensures len > 0 ==> channelData == old(channelData) + data[offset..offset + count]
      ensures hasTmpBuffer <==> count < len
      ensures forall k :: |old(offered)| <= k < |offered| ==> 0 <= offered[k] <= cap
    {
      if !hasTmpBuffer {
        hasTmpBuffer := true;
      }
      count := WriteChunks(data, offset, len, answers);
      if count >= len {
        hasTmpBuffer := false;
      }
    }

    /** The loop of `write`: chunk after chunk, until the channel stops taking them whole or all is written. */
    method WriteChunks(data: seq<int>, offset: nat, len: int, answers: seq<int>) returns (count: int)
      requires len <= 0 || offset + len <= |data|
      modifies this`channelData, this`offered
      ensures count == Written(cap, len, answers, 0)
      ensures len <= 0 ==> count == 0 && channelData == old(channelData)
      ensures len > 0 ==> 0 <= count <= len && channelData == old(channelData) + data[offset..offset + count]
      ensures forall k :: |old(offered)| <= k < |offered| ==> 0 <= offered[k] <= cap
    {
      WrittenBounds(cap, len, answers, 0);
      count := 0;
      var calls := answers;
      while count < len
        invariant len <= 0 ==> count == 0 && channelData == old(channelData)
        invariant len > 0 ==> 0 <= count <= len && channelData == old(channelData) + data[offset..offset + count]
        invariant Written(cap, len, calls, count) == Written(cap, len, answers, 0)
        invariant forall k :: |old(offered)| <= k < |offered| ==> 0 <= offered[k] <= cap
        decreases |calls|, len - count
      {
        WrittenBounds(cap, len, calls, count);
        var size := Min(cap, len - count);
        offered := offered + [size];
        var n := Accepted(calls, size);
        if n <= 0 {
          break;
        }
        assert data[offset..offset + count + n] == data[offset..offset + count] + data[offset + count..offset + count + n];
        channelData := channelData + data[offset + count..offset + count + n];
        count := count + n;
        if n < size || calls == [] {
          break;
        }
        calls := calls[1..];
      }
    }

    /** `close` does nothing. */
    method Close()
    {
    }
  }
}
