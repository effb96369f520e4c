/** The QBuffer that collects captured audio (SpeechRecognizer::m_audioBuffer):
    a byte array, a read/write position and an open flag. Writing stores the
    bytes at the position, growing the array when they run past its end;
    reading takes everything from the position on; closing rewinds. */
module AudioBuffer {
  import opened Native

  class ByteBuffer {
    var data: seq<byte>
    var pos: nat
    var isOpen: bool

    ghost predicate Valid()
      reads this
    {
      pos <= |data|
    }

    /** A default-constructed QBuffer: closed and empty. */
    constructor ()
      ensures Valid() && data == [] && pos == 0 && !isOpen
    {
      data, pos, isOpen := [], 0, false;
    }

    /** QBuffer::size: the number of bytes held. */
    function Size(): (n: nat)
      reads this
      ensures n == |data|
    {
      |data|
    }

    /** QIODevice::open: the device is open and rewound; the data stay. */
    method Open()
      requires Valid()
      modifies this`isOpen, this`pos
      ensures Valid() && data == old(data) && isOpen && pos == 0
    {
      isOpen, pos := true, 0;
    }

    /** QIODevice::close: the bytes stay, the position returns to zero. */
    method Close()
      requires Valid()
      modifies this`isOpen, this`pos
      ensures Valid() && data == old(data) && !isOpen && pos == 0
    {
      isOpen, pos := false, 0;
    }

    /** QBuffer::setData: ignored while the buffer is open. */
    method SetData(bytes: seq<byte>)
      requires Valid()
      modifies this
      ensures Valid() && isOpen == old(isOpen)
      ensures if old(isOpen) then data == old(data) && pos == old(pos) else data == bytes && pos == 0
    {
      if !isOpen {
        data, pos := bytes, 0;
      }
    }

    /** QIODevice::seek within the data; refused on a closed device. */
    method Seek(p: nat) returns (ok: bool)
      requires Valid() && p <= |data|
      modifies this`pos
      ensures Valid() && ok == isOpen
      ensures pos == if isOpen then p else old(pos)
    {
      ok := isOpen;
      if ok {
        pos := p;
      }
    }

    /** QIODevice::readAll: everything from the position on; nothing from a closed device. */
    method ReadAll() returns (bytes: seq<byte>)
      requires Valid()
      modifies this`pos
      ensures Valid()
      ensures if isOpen then bytes == data[old(pos)..] && pos == |data| else bytes == [] && pos == old(pos)
    {
      if isOpen {
        bytes := data[pos..];
        pos := |data|;
      } else {
        bytes := [];
      }
    }

    /** QIODevice::write: overwrites from the position, extending the data
        as needed; refused on a closed device. */
    method Write(bytes: seq<byte>)
      requires Valid()
      modifies this`data, this`pos
      ensures Valid()
      ensures if old(isOpen) then
          pos == old(pos) + |bytes|
          && data == old(data[..pos]) + bytes
             + (if old(pos) + |bytes| < |old(data)| then old(data)[old(pos) + |bytes|..] else [])
        else data == old(data) && pos == old(pos)
    {
      if isOpen {
        data := data[..pos] + bytes + (if pos + |bytes| < |data| then data[pos + |bytes|..] else []);
        pos := pos + |bytes|;
      }
    }
  }
}
