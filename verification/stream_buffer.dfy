// A FreeRTOS stream buffer as the firmware uses it: a bounded FIFO of bytes
// whose every send and receive is non-blocking (zero ticks to wait).
// Created with `xStreamBufferCreate(capacity, trigger_level)`; usable space
// equals the requested capacity.
module StreamBuffers {
  import opened Ints
  import opened Bytes

  class StreamBuffer {
    const capacity: nat
    const triggerLevel: nat
    var contents: seq<byte>

    ghost predicate Valid()
      reads this
    {
      |contents| <= capacity
    }

    constructor (capacity: nat, triggerLevel: nat)
      ensures Valid()
      ensures this.capacity == capacity && this.triggerLevel == triggerLevel
      ensures contents == []
    {
      this.capacity := capacity;
      this.triggerLevel := triggerLevel;
      contents := [];
    }

    /** xStreamBufferSpacesAvailable */
    function SpacesAvailable(): nat
      reads this
      requires Valid()
    {
      capacity - |contents|
    }

    /** xStreamBufferBytesAvailable */
    function BytesAvailable(): nat
      reads this
    {
      |contents|
    }

    /** xStreamBufferIsFull: no space is left. */
    predicate IsFull()
      reads this
      requires Valid()
    {
      SpacesAvailable() == 0
    }

    /** xStreamBufferSend with zero wait: writes as many leading bytes of data as fit. */
    method Send(data: seq<byte>) returns (sent: nat)
      requires Valid()
      modifies this
      ensures Valid()
      ensures sent == Min(|data|, old(SpacesAvailable()))
      ensures contents == old(contents) + data[..sent]
    {
      sent := Min(|data|, capacity - |contents|);
      contents := contents + data[..sent];
    }

    /** xStreamBufferReceive with zero wait: removes up to maxBytes from the front. */
    method Receive(maxBytes: nat) returns (data: seq<byte>)
      requires Valid()
      modifies this
      ensures Valid()
      ensures |data| == Min(maxBytes, |old(contents)|)
      ensures old(contents) == data + contents
    {
      var n := Min(maxBytes, |contents|);
      data := contents[..n];
      contents := contents[n..];
    }

    /**
     * xStreamBufferReset: empties the buffer, unless a task is blocked
     * sending to or receiving from it, in which case it fails and changes nothing.
     */
    method Reset(taskBlocked: bool) returns (ok: bool)
      requires Valid()
      modifies this
      ensures Valid()
      ensures ok == !taskBlocked
      ensures contents == if ok then [] else old(contents)
    {
      ok := !taskBlocked;
      if ok {
        contents := [];
      }
    }
  }
}
