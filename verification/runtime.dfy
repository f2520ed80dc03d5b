/**
 * The mutable things the Go code passes around, made sequential: the HTTP
 * client (with a ghost log of the URLs it was asked for), the out-pointers a
 * sub-fetch writes, `sync.WaitGroup`, a channel, and the destination that
 * `json.Unmarshal` fills in place.
 */
module Runtime {
  import opened Base

  /**
   * `HTTPClient` (fetchers/HTTPClient.go). `serve` is what the remote side
   * answers for each URL; `requested` records every `Get`, in order.
   */
  class Client {
    const serve: string -> Reply
    ghost var requested: seq<string>

    constructor (serve: string -> Reply)
      ensures this.serve == serve && requested == []
    {
      this.serve := serve;
      requested := [];
    }

    method Get(url: string) returns (reply: Reply)
      modifies this
      ensures reply == serve(url)
      ensures requested == old(requested) + [url]
    {
      reply := serve(url);
      requested := requested + [url];
    }
  }

  /** The two locals one sub-fetch writes through `*value` and `*err`. */
  class Slot {
    var value: real
    var err: Option<Error>

    /** Go's zero values: `var balance float64; var err1 error`. */
    constructor ()
      ensures value == 0.0 && err == None
    {
      value := 0.0;
      err := None;
    }

    function Reading(): Reading
      reads this
    {
      Base.Reading(value, err)
    }
  }

  /** `sync.WaitGroup`: the number of `Done` calls still awaited. */
  class WaitGroup {
    var pending: int

    /** A fresh group after `Add(n)`. */
    constructor (n: int)
      ensures pending == n
    {
      pending := n;
    }

    /** `Done`; Go panics when the counter would become negative. */
    method Done()
      requires pending > 0
      modifies this
      ensures pending == old(pending) - 1
    {
      pending := pending - 1;
    }
  }

  /** A buffered channel: the values sent and not yet received, oldest first. */
  class Channel<T> {
    var items: seq<T>

    constructor ()
      ensures items == []
    {
      items := [];
    }

    method Send(x: T)
      modifies this
      ensures items == old(items) + [x]
    {
      items := items + [x];
    }

    method Receive() returns (x: T)
      requires items != []
      modifies this
      ensures x == old(items)[0] && items == old(items)[1..]
    {
      x := items[0];
      items := items[1..];
    }
  }

  /** The typed destination (`response interface{}`) a JSON fetch decodes into. */
  class Payload<T> {
    var value: T

    constructor (initial: T)
      ensures value == initial
    {
      value := initial;
    }
  }
}
