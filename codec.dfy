/**
 * The short-message codec of the binding: a MIDI short message is three
 * signed bytes (`i8` fields, so a status byte 0x90 is held as -112) packed
 * into bits 0..8 (status), 8..16 (data1) and 16..24 (data2) of a 32-bit
 * transport word; an event pairs that word with an unsigned 32-bit
 * timestamp.
 *
 * Bit operations on an `i32` are written as integer arithmetic:
 * `x >> k` is an arithmetic shift, i.e. floor division by 2^k, which is what
 * Dafny's `/` by a positive constant computes; `x & 0xFF` on a two's
 * complement word is the non-negative remainder `x % 0x100`; and
 * `((x as i32) << k) & (0xFF << k)` is `(x & 0xFF) << k`, so the three
 * masked, disjoint fields OR'ed together are their sum.
 */
module Codec {
  import opened Casts

  /** `PmMessage`: status, data1 and data2, each an `i8`. */
  datatype PmMessage = PmMessage(status: I8, data1: I8, data2: I8)

  /** `PmEvent`: a decoded message and its timestamp. */
  datatype PmEvent = PmEvent(message: PmMessage, timestamp: U32)

  /** `ffi::CPmEvent`: the packed message word and its timestamp, as the engine sees them. */
  datatype CPmEvent = CPmEvent(message: I32, timestamp: U32)

  /** Byte 0 of a word, `w & 0xFF`. */
  function Byte0(w: int): (b: int)
    ensures 0 <= b < 0x100
  {
    w % 0x100
  }

  /** Byte 1 of a word, `(w >> 8) & 0xFF`. */
  function Byte1(w: int): (b: int)
    ensures 0 <= b < 0x100
  {
    (w / 0x100) % 0x100
  }

  /** Byte 2 of a word, `(w >> 16) & 0xFF`. */
  function Byte2(w: int): (b: int)
    ensures 0 <= b < 0x100
  {
    (w / 0x1_0000) % 0x100
  }

  /** `PmMessage::wrap`: split a transport word into its three signed bytes; byte 3 is ignored. */
  function Wrap(cmessage: I32): (m: PmMessage)
    ensures m.status % 0x100 == Byte0(cmessage)
    ensures m.data1 % 0x100 == Byte1(cmessage)
    ensures m.data2 % 0x100 == Byte2(cmessage)
  {
    PmMessage(AsI8(Byte0(cmessage)), AsI8(Byte1(cmessage)), AsI8(Byte2(cmessage)))
  }

  /** `PmMessage::unwrap`: pack the three bytes into the low 24 bits of a word. */
  function Unwrap(m: PmMessage): (w: I32)
    ensures 0 <= w <= 0xFF_FFFF
  {
    (m.data2 % 0x100) * 0x1_0000 + (m.data1 % 0x100) * 0x100 + m.status % 0x100
  }

  /** The three byte positions of a word in [0, 2^24) determine it. */
  lemma ByteDecomposition(w: int)
    ensures w % 0x100_0000 == Byte2(w) * 0x1_0000 + Byte1(w) * 0x100 + Byte0(w)
  {
    var q1, q2, q3 := w / 0x100, w / 0x1_0000, w / 0x100_0000;
    assert w == q1 * 0x100 + Byte0(w);
    assert q1 / 0x100 == q2;
    assert q1 == q2 * 0x100 + Byte1(w);
    assert q2 / 0x100 == q3;
    assert q2 == q3 * 0x100 + Byte2(w);
    assert w == q3 * 0x100_0000 + (Byte2(w) * 0x1_0000 + Byte1(w) * 0x100 + Byte0(w));
  }

  /** Status sits in bits 0..8, data1 in bits 8..16, data2 in bits 16..24, and the high byte is zero. */
  lemma UnwrapLayout(m: PmMessage)
    ensures Byte0(Unwrap(m)) == m.status % 0x100
    ensures Byte1(Unwrap(m)) == m.data1 % 0x100
    ensures Byte2(Unwrap(m)) == m.data2 % 0x100
    ensures Unwrap(m) / 0x100_0000 == 0
  {
    var s, d1, d2 := m.status % 0x100, m.data1 % 0x100, m.data2 % 0x100;
    var w := Unwrap(m);
    assert w == (d2 * 0x100 + d1) * 0x100 + s;
    assert w / 0x100 == d2 * 0x100 + d1;
    assert (w / 0x100) % 0x100 == d1;
    assert w == d2 * 0x1_0000 + (d1 * 0x100 + s);
    assert w / 0x1_0000 == d2;
  }

  /** Unpacking a packed message gives back the same three bytes. */
  lemma WrapUnwrap(m: PmMessage)
    ensures Wrap(Unwrap(m)) == m
  {
    UnwrapLayout(m);
    AsI8OfResidue(m.status);
    AsI8OfResidue(m.data1);
    AsI8OfResidue(m.data2);
  }

  /** Packing an unpacked word gives back its low 24 bits, i.e. `w & 0xFFFFFF`. */
  lemma UnwrapWrap(w: I32)
    ensures Unwrap(Wrap(w)) == w % 0x100_0000
  {
    ByteDecomposition(w);
  }

  /** Distinct messages are packed into distinct words. */
  lemma UnwrapInjective(m1: PmMessage, m2: PmMessage)
    ensures Unwrap(m1) == Unwrap(m2) <==> m1 == m2
  {
    WrapUnwrap(m1);
    WrapUnwrap(m2);
  }

  /** Two words decode to the same message exactly when their low 24 bits agree. */
  lemma WrapEquivalence(w1: I32, w2: I32)
    ensures Wrap(w1) == Wrap(w2) <==> w1 % 0x100_0000 == w2 % 0x100_0000
  {
    UnwrapWrap(w1);
    UnwrapWrap(w2);
    if w1 % 0x100_0000 == w2 % 0x100_0000 {
      ByteDecomposition(w1);
      ByteDecomposition(w2);
      UnwrapLayout(Wrap(w1));
      UnwrapLayout(Wrap(w2));
    }
  }

  /** An illustrative note-on, channel 1, key 60, velocity 100: the status byte 0x90 is -112 as an `i8`, and the word is 0x643C90. */
  lemma NoteOnExample()
    ensures AsI8(0x90) == -112
    ensures Unwrap(PmMessage(-112, 60, 100)) == 0x64_3C90
    ensures Wrap(0x64_3C90) == PmMessage(-112, 60, 100)
  {
  }

  /**
   * The two notes of the library's own test: a note-on whose status `1 | 0x90`
   * wraps to -111 in an `i8` (key 36, velocity 90), and a note-off whose
   * status `1 | 0x80` wraps to -127 (key 36, velocity 0).
   */
  lemma TestNoteExample()
    ensures AsI8(1 + 0x90) == -111
    ensures Unwrap(PmMessage(AsI8(1 + 0x90), 36, 90)) == 0x5A_2491
    ensures AsI8(1 + 0x80) == -127
    ensures Unwrap(PmMessage(AsI8(1 + 0x80), 36, 0)) == 0x00_2481
  {
  }

  /** `PmEvent::wrap`: decode the message word and keep the timestamp unchanged. */
  function WrapEvent(cevent: CPmEvent): (e: PmEvent)
    ensures e.timestamp == cevent.timestamp
    ensures Unwrap(e.message) == cevent.message % 0x100_0000
  {
    UnwrapWrap(cevent.message);
    PmEvent(Wrap(cevent.message), cevent.timestamp)
  }

  /** `PmEvent::unwrap`: pack the message and keep the timestamp unchanged. */
  function UnwrapEvent(e: PmEvent): (cevent: CPmEvent)
    ensures cevent.timestamp == e.timestamp
    ensures Wrap(cevent.message) == e.message
    ensures 0 <= cevent.message <= 0xFF_FFFF
  {
    WrapUnwrap(e.message);
    CPmEvent(Unwrap(e.message), e.timestamp)
  }

  /** Decoding an encoded event gives back the event. */
  lemma WrapUnwrapEvent(e: PmEvent)
    ensures WrapEvent(UnwrapEvent(e)) == e
  {
    WrapUnwrap(e.message);
  }

  /** Encoding a decoded event keeps the timestamp and the low 24 bits of the message word. */
  lemma UnwrapWrapEvent(cevent: CPmEvent)
    ensures UnwrapEvent(WrapEvent(cevent)) == CPmEvent(cevent.message % 0x100_0000, cevent.timestamp)
  {
    UnwrapWrap(cevent.message);
  }
}
