/** The loop of the hooked write in libco/co_hook_sys_call.cpp; the hooked send has the same one. */
module PartialWrite {

  type Byte = bv8

  lemma Appended(sent: seq<Byte>, buf: seq<Byte>, n: nat, k: nat)
    requires n + k <= |buf|
    ensures sent + buf[..n] + buf[n..][..k] == sent + buf[..n + k]
  {
    assert buf[..n] + buf[n..][..k] == buf[..n + k];
  }

  /** A descriptor in the hands of the system: what it has accepted so far, and the result of the
      last system call on it. */
  class Descriptor {
    var sent: seq<Byte>
    var last: int

    constructor ()
      ensures sent == []
    {
      sent, last := [], 0;
    }

    /** The system's own write accepts any number of bytes from the front, or fails. */
    method SysWrite(data: seq<Byte>) returns (ret: int)
      modifies this
      ensures ret <= |data| && last == ret
      ensures sent == old(sent) + (if ret > 0 then data[..ret] else [])
    {
      ret := *;
      if ret > |data| {
        ret := |data|;
      }
      if ret > 0 {
        sent := sent + data[..ret];
      }
      last := ret;
    }

    /** What the descriptor has accepted is always a prefix of the buffer, and the result is its
        length; the result of a failing system call is handed on only if nothing was accepted,
        and the loop gives up early only on such a call. */
    method Write(buf: seq<Byte>) returns (ret: int)
      modifies this
      ensures ret <= |buf|
      ensures sent == old(sent) + (if ret > 0 then buf[..ret] else [])
      ensures ret <= 0 ==> ret == last
      ensures ret < |buf| ==> last <= 0
    {
      var wrotelen := 0;
      var writeret := SysWrite(buf[wrotelen..]);
      if writeret == 0 {
        return writeret;
      }
      if writeret > 0 {
        wrotelen := wrotelen + writeret;
      }
      while wrotelen < |buf|
        invariant 0 <= wrotelen <= |buf| && sent == old(sent) + buf[..wrotelen] && writeret == last
        invariant writeret <= 0 <==> wrotelen == 0
        decreases |buf| - wrotelen
      {
        writeret := SysWrite(buf[wrotelen..]);
        if writeret <= 0 {
          break;
        }
        Appended(old(sent), buf, wrotelen, writeret);
        wrotelen := wrotelen + writeret;
      }
      if writeret <= 0 && wrotelen == 0 {
        return writeret;
      }
      return wrotelen;
    }
  }
}
