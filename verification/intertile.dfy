// One port of the inter-tile transport: an ordered queue of length-prefixed
// messages. `rtos_intertile_tx` appends a message; `rtos_intertile_rx_len`
// followed by `rtos_intertile_rx_data` takes the oldest one.
module Intertile {
  import opened Bytes

  class Port {
    var messages: seq<seq<byte>>

    constructor ()
      ensures messages == []
    {
      messages := [];
    }

    /** rtos_intertile_tx */
    method Tx(data: seq<byte>)
      modifies this
      ensures messages == old(messages) + [data]
    {
      messages := messages + [data];
    }

    /**
     * rtos_intertile_rx_len + rtos_intertile_rx_data with an unbounded wait.
     * Waiting forever is not modelled: the port holds a message.
     */
    method Rx() returns (data: seq<byte>)
      requires messages != []
      modifies this
      ensures data == old(messages)[0]
      ensures messages == old(messages)[1..]
    {
      data := messages[0];
      messages := messages[1..];
    }

    /**
     * rtos_intertile_rx_len with a bounded wait, then the data: a timeout
     * reads as a length of zero and an empty payload.
     */
    method TryRx() returns (data: seq<byte>)
      modifies this
      ensures old(messages) == [] ==> data == [] && messages == []
      ensures old(messages) != [] ==> data == old(messages)[0] && messages == old(messages)[1..]
    {
      if messages == [] {
        data := [];
      } else {
        data := messages[0];
        messages := messages[1..];
      }
    }
  }
}
