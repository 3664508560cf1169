/**
 * The echo character device of kernel/main.c: a driver-global message buffer
 * that `write` fills and `read` returns, and a driver-global stored nvlist
 * that one ioctl command queries, fetches in packed form, or replaces.
 *
 * libnv is not part of this model: an nvlist is an opaque value of type `L`,
 * and `nvlist_size`, `nvlist_pack` and `nvlist_unpack` are the functions of a
 * `Libnv<L>` value the device is created with. The kernel's copy primitives
 * (`uiomove`, `copyin`, `copyout`) either move every byte asked for or fault
 * after a number of bytes; which one happens is a `Copy` parameter.
 */
module Echo {
  import opened Common

  const BUFFER_SIZE: nat := 256

  /** FreeBSD errno values. */
  const ENOMEM: int := 12
  const EFAULT: int := 14
  const ENOTTY: int := 25
  const EOPNOTSUPP: int := 45

  /** Module events of `modeventtype_t`; MOD_SHUTDOWN (2) and MOD_QUIESCE (3)
      are the others. */
  const MOD_LOAD: int := 0
  const MOD_UNLOAD: int := 1

  /** `ECHO_IOCTL` is `_IOWR('H', 1, nvecho_t)`: the in/out direction bits,
      the 16-byte size of `nvecho_t` (a pointer and a `size_t` on a 64-bit
      target), the group 'H' and the number 1. */
  const IOC_INOUT: int := 0x4000_0000 + 0x8000_0000
  const IOCPARM_MASK: int := 0x1fff
  const NVECHO_SIZE: int := 16
  const ECHO_IOCTL: int := IOC_INOUT + (NVECHO_SIZE % (IOCPARM_MASK + 1)) * 0x1_0000 + 0x48 * 0x100 + 1

  /** The null user address. */
  const NULL: nat := 0

  /** The part of a `struct uio` the driver uses: bytes still to move and the
      file offset. */
  datatype Uio = Uio(resid: nat, offset: nat)

  /** What a copy between kernel and user memory does: move everything, or
      fault once `limit` bytes have moved. */
  datatype Copy = Complete | FaultAfter(limit: nat)

  /** The number of bytes a copy of `n` bytes moves: all of them when the
      copy completes, otherwise those before the fault. */
  function Moved(c: Copy, n: nat): (k: nat)
    ensures k <= n
    ensures c == Complete ==> k == n
    ensures c.FaultAfter? ==> (k == n <==> c.limit >= n)
    ensures c.FaultAfter? && k < n ==> k == c.limit
  {
    match c
    case Complete => n
    case FaultAfter(limit) => Min(limit, n)
  }

  /** The error a copy of `n` bytes returns: 0 when every byte moved,
      EFAULT when it stopped short. */
  function CopyError(c: Copy, n: nat): (e: int)
    ensures e == 0 || e == EFAULT
    ensures e == 0 <==> Moved(c, n) == n
    ensures c == Complete ==> e == 0
  {
    if Moved(c, n) < n then EFAULT else 0
  }

  /** The `nvecho_t` argument of the ioctl: a user address and a length. */
  datatype NvEcho = NvEcho(buf: nat, len: nat)

  /** The libnv calls the driver makes, left opaque. */
  datatype Libnv<!L> = Libnv(size: L -> nat, pack: L -> seq<byte>, unpack: seq<byte> -> Option<L>)

  /** How many bytes `echo_write` takes: the whole request, truncated to the
      buffer size. The terminator index that follows is inside the array. */
  function WriteAmount(resid: nat): (amt: nat)
    ensures amt <= resid && amt <= BUFFER_SIZE
    ensures amt == resid || amt == BUFFER_SIZE
    ensures amt < BUFFER_SIZE + 1
  {
    Min(resid, BUFFER_SIZE)
  }

  /** How many bytes `echo_read` returns: as many as asked for, but never past
      the stored length; nothing at or past the end. */
  function ReadAmount(resid: nat, length: int, offset: nat): (amount: nat)
    ensures amount <= resid
    ensures amount > 0 ==> offset + amount <= length
    ensures amount == resid || offset + amount >= length
    ensures amount == 0 <==> resid == 0 || offset >= length
  {
    Min(resid, if length - offset > 0 then length - offset else 0)
  }

  /** The driver's global state: `message` (its buffer and length) and `nvl`.
      `buffer` is null while the module is not loaded. */
  class Device<L> {
    const nv: Libnv<L>
    var buffer: array?<byte>
    var length: int
    var nvl: Option<L>

    /** Once allocated, the buffer has room for BUFFER_SIZE bytes and a
        terminator, and the stored length is within it. */
    ghost predicate Valid()
      reads this
    {
      buffer != null ==> buffer.Length == BUFFER_SIZE + 1 && 0 <= length <= BUFFER_SIZE
    }

    /** The static initial state: no message, no stored list. */
    constructor (nv: Libnv<L>)
      ensures Valid() && this.nv == nv && buffer == null && nvl == None
    {
      this.nv := nv;
      buffer := null;
      length := 0;
      nvl := None;
    }

    /** `modevent`: load allocates the message, unload releases it and the
        stored list, any other event is refused. The length of a freshly
        allocated message starts at 0. */
    method ModEvent(event: int) returns (error: int)
      requires Valid()
      modifies this
      ensures Valid()
      ensures event == MOD_LOAD ==>
        error == 0 && buffer != null && fresh(buffer) && length == 0 && nvl == old(nvl)
      ensures event == MOD_UNLOAD ==> error == 0 && buffer == null && nvl == None
      ensures event != MOD_LOAD && event != MOD_UNLOAD ==>
        error == EOPNOTSUPP && buffer == old(buffer) && length == old(length) && nvl == old(nvl)
    {
      if event == MOD_LOAD {
        buffer := new byte[BUFFER_SIZE + 1];
        length := 0;
        error := 0;
      } else if event == MOD_UNLOAD {
        buffer := null;
        nvl := None;
        error := 0;
      } else {
        error := EOPNOTSUPP;
      }
    }

    /** `echo_write`: move the first min(resid, BUFFER_SIZE) bytes of the
        user's data to the start of the buffer, whatever the file offset.
        On success the length is that amount and a terminator follows it; on
        a fault the bytes moved so far stay in the buffer, EFAULT is returned
        and the length is unchanged. */
    method Write(uio: Uio, src: seq<byte>, copy: Copy) returns (error: int, uio': Uio)
      requires Valid() && buffer != null
      requires |src| == uio.resid
      modifies this`length, buffer
      ensures Valid()
      ensures var amt := WriteAmount(uio.resid); var k := Moved(copy, amt);
        && buffer[..k] == src[..k]
        && uio' == Uio(uio.resid - k, uio.offset + k)
        && error == CopyError(copy, amt)
        && (error == 0 ==>
              length == amt && buffer[amt] == 0 && buffer[amt + 1..] == old(buffer[amt + 1..]))
        && (error != 0 ==>
              error == EFAULT && length == old(length) && buffer[k..] == old(buffer[k..]))
    {
      var amt := WriteAmount(uio.resid);
      var k := Moved(copy, amt);
      forall j | 0 <= j < k {
        buffer[j] := src[j];
      }
      uio' := Uio(uio.resid - k, uio.offset + k);
      error := CopyError(copy, amt);
      if error != 0 {
        return;
      }
      length := amt;
      buffer[amt] := 0;
    }

    /** `echo_read`: hand the user the stored bytes from the file offset on,
        no more than asked for and never past the stored length. The message
        is not changed. */
    method Read(uio: Uio, copy: Copy) returns (error: int, out: seq<byte>, uio': Uio)
      requires Valid() && buffer != null
      ensures var amount := ReadAmount(uio.resid, length, uio.offset); var k := Moved(copy, amount);
        && |out| == k
        && (k > 0 ==> uio.offset + k <= length)
        && (forall j | 0 <= j < k :: out[j] == buffer[uio.offset + j])
        && error == CopyError(copy, amount)
        && uio' == Uio(uio.resid - k, uio.offset + k)
    {
      var amount := ReadAmount(uio.resid, length, uio.offset);
      var k := Moved(copy, amount);
      out := if k > 0 then buffer[uio.offset..uio.offset + k] else [];
      uio' := Uio(uio.resid - k, uio.offset + k);
      error := CopyError(copy, amount);
    }

    /** The size query (a null `buf`): the stored list's packed size, or
        ENOMEM and a zero length when nothing is stored. */
    method IoctlQuery(udata: NvEcho) returns (error: int, out: NvEcho)
      requires udata.buf == NULL
      ensures nvl == None ==> error == ENOMEM && out == udata.(len := 0)
      ensures nvl != None ==> error == 0 && out == udata.(len := nv.size(nvl.value))
    {
      if nvl == None {
        return ENOMEM, udata.(len := 0);
      }
      out := udata.(len := nv.size(nvl.value));
      error := 0;
    }

    /** The fetch (a `buf` and a zero `len`): copy the packed stored list out
        to `buf` and report its length. With nothing stored nothing is
        written and ENOMEM is returned; when the copy faults, the bytes moved
        so far have been written, EFAULT is returned and `len` is unchanged.
        The size of the user's buffer is not checked. */
    method IoctlFetch(udata: NvEcho, copy: Copy) returns (error: int, out: NvEcho, written: seq<byte>)
      requires udata.buf != NULL && udata.len == 0
      ensures nvl == None ==> error == ENOMEM && out == udata && written == []
      ensures nvl != None ==>
        var packed := nv.pack(nvl.value); var k := Moved(copy, |packed|);
        && written == packed[..k]
        && error == CopyError(copy, |packed|)
        && (error == 0 ==> out == udata.(len := |packed|))
        && (error != 0 ==> error == EFAULT && out == udata)
    {
      if nvl == None {
        return ENOMEM, udata, [];
      }
      var packed := nv.pack(nvl.value);
      var k := Moved(copy, |packed|);
      written := packed[..k];
      error := CopyError(copy, |packed|);
      if error != 0 {
        return error, udata, written;
      }
      out := udata.(len := |packed|);
    }

    /** The store (a `buf` and a positive `len`): copy `len` bytes in from
        `buf`; on a fault keep the stored list and return EFAULT, otherwise
        replace the stored list by what those bytes unpack to, which may be
        nothing. `user` holds the bytes at `buf`. */
    method IoctlStore(udata: NvEcho, user: seq<byte>, copy: Copy) returns (error: int)
      requires udata.buf != NULL && udata.len > 0 && |user| >= udata.len
      modifies this`nvl
      ensures error == CopyError(copy, udata.len)
      ensures error != 0 ==> error == EFAULT && nvl == old(nvl)
      ensures error == 0 ==> nvl == nv.unpack(user[..udata.len])
    {
      error := CopyError(copy, udata.len);
      if error != 0 {
        return;
      }
      var kbuf := user[..udata.len];
      // The old list is destroyed and replaced by the unpack result.
      nvl := nv.unpack(kbuf);
    }

    /** `echo_ioctl`: ECHO_IOCTL chooses among the query, the fetch and the
        store by `buf` and `len`; any other command is refused with ENOTTY.
        Only a store whose copy succeeds changes the stored list. */
    method Ioctl(cmd: int, udata: NvEcho, user: seq<byte>, copy: Copy)
      returns (error: int, out: NvEcho, written: seq<byte>)
      requires udata.buf != NULL && udata.len > 0 ==> |user| >= udata.len
      modifies this`nvl
      ensures cmd != ECHO_IOCTL ==>
        error == ENOTTY && out == udata && written == [] && nvl == old(nvl)
      ensures cmd == ECHO_IOCTL && udata.buf == NULL ==>
        && nvl == old(nvl) && written == []
        && (nvl == None ==> error == ENOMEM && out == udata.(len := 0))
        && (nvl != None ==> error == 0 && out == udata.(len := nv.size(nvl.value)))
      ensures cmd == ECHO_IOCTL && udata.buf != NULL && udata.len == 0 ==>
        && nvl == old(nvl)
        && (nvl == None ==> error == ENOMEM && out == udata && written == [])
        && (nvl != None ==>
              var packed := nv.pack(nvl.value);
              && written == packed[..Moved(copy, |packed|)]
              && error == CopyError(copy, |packed|)
              && out == (if error == 0 then udata.(len := |packed|) else udata))
      ensures cmd == ECHO_IOCTL && udata.buf != NULL && udata.len > 0 ==>
        && out == udata && written == []
        && error == CopyError(copy, udata.len)
        && nvl == (if error == 0 then nv.unpack(user[..udata.len]) else old(nvl))
    {
      out, written := udata, [];
      if cmd != ECHO_IOCTL {
        error := ENOTTY;
      } else if udata.buf == NULL {
        error, out := IoctlQuery(udata);
      } else if udata.len == 0 {
        error, out, written := IoctlFetch(udata, copy);
      } else {
        error := IoctlStore(udata, user, copy);
      }
    }
  }

  /** The loader's "set" request (program/main.c): hand the device a packed
      list. When the copy succeeds the device stores what the bytes unpack to. */
  method SetSequence<L>(dev: Device<L>, addr: nat, packed: seq<byte>, copy: Copy) returns (error: int)
    requires addr != NULL && |packed| > 0
    modifies dev`nvl
    ensures error == CopyError(copy, |packed|)
    ensures error == 0 ==> dev.nvl == dev.nv.unpack(packed)
    ensures error != 0 ==> dev.nvl == old(dev.nvl)
  {
    var out, written;
    error, out, written := dev.Ioctl(ECHO_IOCTL, NvEcho(addr, |packed|), packed, copy);
    assert packed[..|packed|] == packed;
  }

  /** The loader's "get" request (program/main.c): ask for the size, allocate
      a buffer at `addr` of that size, then fetch with a zero length. With a
      list stored and a copy that succeeds, the bytes received are its packed
      form, and when libnv's size agrees with the packed length they fill the
      buffer exactly. With nothing stored the first request fails with ENOMEM.
      The stored list does not change. */
  method GetSequence<L>(dev: Device<L>, addr: nat, copy: Copy)
    returns (error: int, querySize: nat, received: seq<byte>)
    requires addr != NULL
    modifies dev`nvl
    ensures dev.nvl == old(dev.nvl)
    ensures dev.nvl == None ==> error == ENOMEM && received == []
    ensures dev.nvl != None ==>
      var packed := dev.nv.pack(dev.nvl.value);
      && querySize == dev.nv.size(dev.nvl.value)
      && error == CopyError(copy, |packed|)
      && received == packed[..Moved(copy, |packed|)]
    ensures dev.nvl != None && copy == Complete ==>
      error == 0 && received == dev.nv.pack(dev.nvl.value)
    ensures dev.nvl != None && dev.nv.size(dev.nvl.value) == |dev.nv.pack(dev.nvl.value)| ==>
      |received| <= querySize
  {
    var data := NvEcho(NULL, 0);
    var written;
    error, data, written := dev.Ioctl(ECHO_IOCTL, data, [], copy);
    querySize := 0;
    received := [];
    if error != 0 {
      return;
    }
    querySize := data.len;
    data := NvEcho(addr, 0);
    error, data, received := dev.Ioctl(ECHO_IOCTL, data, [], copy);
  }

  /** A set followed by a get: when libnv unpacks the bytes to a list and
      both copies succeed, the get returns that list packed. */
  method SetThenGet<L>(dev: Device<L>, addr: nat, packed: seq<byte>, l: L)
    returns (error: int, received: seq<byte>)
    requires addr != NULL && |packed| > 0
    requires dev.nv.unpack(packed) == Some(l)
    modifies dev`nvl
    ensures dev.nvl == Some(l)
    ensures error == 0 && received == dev.nv.pack(l)
  {
    error := SetSequence(dev, addr, packed, Complete);
    var querySize;
    error, querySize, received := GetSequence(dev, addr, Complete);
    assert received == dev.nv.pack(l)[..|dev.nv.pack(l)|];
  }

  /** The device's purpose: after a write whose copy succeeds, a read from
      offset 0 returns what was written, truncated to the buffer size and to
      the size of the read, whatever the write's offset was. */
  method EchoBack<L>(dev: Device<L>, src: seq<byte>, writeOffset: nat, readSize: nat)
    returns (out: seq<byte>)
    requires dev.Valid() && dev.buffer != null
    modifies dev`length, dev.buffer
    ensures dev.Valid()
    ensures out == src[..Min(Min(|src|, BUFFER_SIZE), readSize)]
  {
    var error, uio := dev.Write(Uio(|src|, writeOffset), src, Complete);
    error, out, uio := dev.Read(Uio(readSize, 0), Complete);
  }
}
