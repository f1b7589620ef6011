// The host's socket, and the shared state the two host threads work on.

module CanTransport {
  import opened Wrappers
  import opened PxxCan
  import opened Cia402Drive
  import opened CanNetwork
  import opened CyclicOperation

  /** The SocketCAN transport together with the bus behind it. */
  class Transport {
    var isOpen: bool
    var links: map<nat, Link>
    var nextId: nat
    var expired: set<nat>
    var trouble: nat
    ghost var offered: seq<Frame>           // every frame handed to send()

    constructor (links: map<nat, Link>)
      ensures !isOpen && this.links == links && nextId == 1 && expired == {} && trouble == 0 && offered == []
    {
      isOpen := false;
      this.links := links;
      nextId := 1;
      expired := {};
      trouble := 0;
      offered := [];
    }

    method Open() returns (ok: bool)
      modifies this`isOpen
      ensures isOpen == ok
    {
      isOpen := false;
      ok := *;
      if ok { isOpen := true; }
    }

    method Close()
      modifies this`isOpen
      ensures !isOpen
    {
      isOpen := false;
    }

    /** The kernel may refuse the frame; otherwise every drive it concerns has it coming. */
    method Send(f: Frame, epoch: nat) returns (ok: bool)
      modifies this`links, this`nextId, this`trouble, this`offered
      ensures offered == old(offered) + [f]
      ensures !isOpen || f.length > 8 ==> !ok && links == old(links) && nextId == old(nextId) && trouble == old(trouble)
      ensures ok ==> nextId == old(nextId) + 1 && trouble == old(trouble) &&
                     links == map n | n in old(links) :: Push(old(links)[n], Decode(n, f), old(nextId), epoch)
      ensures isOpen && f.length <= 8 && !ok ==> nextId == old(nextId) && trouble == old(trouble) + 1 &&
                                                 links == map n | n in old(links) :: Miss(old(links)[n], Decode(n, f))
    {
      offered := offered + [f];
      if !isOpen || f.length > 8 {
        return false;
      }
      ok := *;
      if ok {
        links := map n | n in links :: Push(links[n], Decode(n, f), nextId, epoch);
        nextId := nextId + 1;
      } else {
        links := map n | n in links :: Miss(links[n], Decode(n, f));
        trouble := trouble + 1;
      }
    }

    /** The transaction of this request is over: from now on its answer no longer arrives (assumption on the drives). */
    method GiveUp(id: nat)
      modifies this`expired, this`trouble
      ensures expired == old(expired) + {id} && trouble == old(trouble) + 1
    {
      expired := expired + {id};
      trouble := trouble + 1;
    }
  }
}
