/**
 * The Unix stream socket the frames leave through: what `send_fds` has
 * delivered so far and which directions `shutdown` has closed.
 */
module Socket {
  /** One `send_fds` call as the peer receives it: the payload and the descriptors attached to it. */
  datatype Message = Message(payload: seq<bv8>, fds: seq<int>)

  /** `std::net::Shutdown`. */
  datatype Shutdown = Read | Write | Both

  class UnixStream {
    var sent: seq<Message>
    var readShut: bool
    var writeShut: bool

    constructor ()
      ensures sent == [] && !readShut && !writeShut
    {
      sent := [];
      readShut := false;
      writeShut := false;
    }

    /**
     * `send_fds`: one payload with descriptors attached. After the write
     * half is shut down the kernel refuses it (EPIPE); `failure` stands for
     * every other error (ECONNRESET, ENOBUFS, ...).
     */
    method SendFds(payload: seq<bv8>, fds: seq<int>, failure: bool) returns (ok: bool)
      modifies this`sent
      ensures ok == (!failure && !writeShut)
      ensures sent == if ok then old(sent) + [Message(payload, fds)] else old(sent)
    {
      ok := !failure && !writeShut;
      if ok {
        sent := sent + [Message(payload, fds)];
      }
    }

    /** `shutdown`: closes the named directions; earlier messages stay delivered. */
    method Shutdown(how: Shutdown, failure: bool) returns (ok: bool)
      modifies this`readShut, this`writeShut
      ensures ok == !failure
      ensures readShut == (old(readShut) || (ok && how != Write))
      ensures writeShut == (old(writeShut) || (ok && how != Read))
    {
      ok := !failure;
      if ok && how != Write {
        readShut := true;
      }
      if ok && how != Read {
        writeShut := true;
      }
    }
  }
}
