/**
 * The three `GetBitCompressedValue` overloads, which are meant to read
 * `numBits` bits starting at bit `bitOffset` of a byte buffer and store
 * them in the by-reference `outVal`.
 *
 * Each reader takes `outVal` by value and returns its value after the call
 * (`outValAfter`). It also returns a `Trace` of what it did to the buffer
 * and with shift counts, so that bounds and shift-width requirements can
 * be stated. The 8-bit reader also returns `returnVal`, the final value of
 * its local accumulator (which the code discards). It is `None` when the
 * code never reaches it or when the model treats it as undefined (a read
 * past `dataLen`, or a shift count of 8 or more).
 */
module TesseractCommonUtils {
  import opened IntTypes

  /**
   * What a call did: the indices of `data` it read, and the variable shift
   * counts it applied, both in execution order.
   */
  datatype Trace = Trace(indices: seq<nat>, counts: seq<nat>)

  /** A shift of a byte-sized value is meaningful only for counts below this. */
  const ShiftLimit: nat := 8

  /**
   * The bounds guard of TesseractCommonUtils.h lines 11, 31 and 36: the
   * requested bit count times 8, compared with `dataLen`.
   */
  predicate Rejected(dataLen: size_t, bitOffset: size_t, numBits: uint8)
  {
    (bitOffset as int + numBits as int) * 8 > dataLen as int
  }

  /** The 8-bit overload returns before touching the buffer. */
  predicate ReturnsEarly(dataLen: size_t, bitOffset: size_t, numBits: uint8)
  {
    Rejected(dataLen, bitOffset, numBits) || bitOffset >= 8
  }

  /** TesseractCommonUtils.h line 15: the byte index `bitOffset / 8`, truncated to a byte. */
  function ByteOffset(bitOffset: size_t): (r: uint8)
    ensures bitOffset < 8 ==> r == 0
  {
    ((bitOffset as int / 8) % 0x100) as uint8
  }

  /**
   * TesseractCommonUtils.h line 16: the byte index times 8, minus `bitOffset`,
   * wrapping modulo `SizeModulus`.
   */
  function BitOffsetInByte(bitOffset: size_t): size_t
  {
    ((ByteOffset(bitOffset) as int * 8 - bitOffset as int) % SizeModulus) as size_t
  }

  /** A right shift of a byte; counts of ShiftLimit or more give 0, and callers record such a count as undefined. */
  function ShiftRight(x: bv8, count: nat): (r: bv8)
    ensures count == 0 ==> r == x
    ensures count >= ShiftLimit ==> r == 0
  {
    if count < ShiftLimit then x >> count else 0
  }

  /** A left shift of a byte, truncated to a byte; counts of ShiftLimit or more give 0, as for ShiftRight. */
  function ShiftLeft(x: bv8, count: nat): (r: bv8)
    ensures count == 0 ==> r == x
    ensures count >= ShiftLimit ==> r == 0
  {
    if count < ShiftLimit then x << count else 0
  }

  /**
   * The guard is conservative: whenever it lets a call through, the
   * requested bits lie within the buffer.
   */
  lemma GuardConservative(dataLen: size_t, bitOffset: size_t, numBits: uint8)
    requires !Rejected(dataLen, bitOffset, numBits)
    ensures bitOffset as int + numBits as int <= dataLen as int * 8
  {
  }

  /**
   * On the path that survives both guards of the 8-bit overload the byte
   * index is 0 and, for a read of at least one bit, the buffer holds at
   * least 8 bytes, so `data[0]` and `data[1]` are in bounds.
   */
  lemma SurvivorsReadFirstBytes(dataLen: size_t, bitOffset: size_t, numBits: uint8)
    requires !ReturnsEarly(dataLen, bitOffset, numBits)
    requires numBits >= 1
    ensures ByteOffset(bitOffset) == 0
    ensures dataLen >= 8
  {
  }

  /** With no bits requested at offset 0 the guard admits an empty buffer. */
  lemma GuardAdmitsEmptyBuffer()
    ensures !ReturnsEarly(0, 0, 0)
  {
  }

  /**
   * The wrap-around of TesseractCommonUtils.h line 16: at offset 0 the in-byte offset is 0, and at
   * offsets 1..7 it is `2^64 - bitOffset`, far above any valid shift count,
   * instead of `bitOffset % 8`.
   */
  lemma BitOffsetInByteWraps(bitOffset: size_t)
    requires bitOffset < 8
    ensures bitOffset == 0 ==> BitOffsetInByte(bitOffset) == 0
    ensures bitOffset > 0 ==> BitOffsetInByte(bitOffset) as int == SizeModulus - bitOffset as int
    ensures (BitOffsetInByte(bitOffset) as nat < ShiftLimit) <==> bitOffset == 0
  {
  }

  /**
   * The 8-bit overload. The out-parameter is never assigned (the assignment
   * at TesseractCommonUtils.h line 26 is commented out), so `outValAfter` is `outVal` on every path; the
   * buffer is only read (no `modifies` clause).
   */
  method GetBitCompressedValue8(data: array<bv8>, dataLen: size_t, bitOffset: size_t, numBits: uint8, outVal: bv8)
    returns (outValAfter: bv8, trace: Trace, returnVal: Option<bv8>)
    requires dataLen as int == data.Length
    requires (bitOffset as int + numBits as int) * 8 < SizeModulus
    ensures outValAfter == outVal
    ensures ReturnsEarly(dataLen, bitOffset, numBits) <==> trace == Trace([], [])
    ensures !ReturnsEarly(dataLen, bitOffset, numBits) && bitOffset == 0 ==> trace == Trace([0], [0])
    ensures !ReturnsEarly(dataLen, bitOffset, numBits) && bitOffset != 0 ==>
      var w := SizeModulus - bitOffset as int;
      trace == Trace([0, 1], [w, w, w])
    ensures !ReturnsEarly(dataLen, bitOffset, numBits) && numBits >= 1 ==> 8 <= data.Length
    ensures (forall i | i in trace.indices :: i < data.Length) <==> !(numBits == 0 && bitOffset == 0 && dataLen == 0)
    ensures (forall c | c in trace.counts :: c < ShiftLimit) <==> (ReturnsEarly(dataLen, bitOffset, numBits) || bitOffset == 0)
    ensures returnVal.Some? <==> !ReturnsEarly(dataLen, bitOffset, numBits) && bitOffset == 0 && 0 < dataLen
    ensures returnVal.Some? ==> returnVal.value == data[0]
  {
    outValAfter, trace, returnVal := outVal, Trace([], []), None;
    if Rejected(dataLen, bitOffset, numBits) {
      return;
    }
    if bitOffset >= 8 {
      return;
    }

    var acc: bv8 := 0;
    var byteOffset := ByteOffset(bitOffset);
    var bitOffsetInByte := BitOffsetInByte(bitOffset);
    BitOffsetInByteWraps(bitOffset);
    var count := bitOffsetInByte as nat;
    var countInRange := count < ShiftLimit;

    // Line 18: the first byte, shifted right by the in-byte offset, ORed into the accumulator.
    var firstInBounds := byteOffset as int < data.Length;
    var first: bv8 := if firstInBounds then data[byteOffset] else 0;
    acc := acc | ShiftRight(first, count);
    var defined := firstInBounds && countInRange;
    trace := Trace(trace.indices + [byteOffset as nat], trace.counts + [count]);

    if bitOffsetInByte > 0 {
      // Line 22: a byte of ones, shifted right by the in-byte offset.
      var mask := ShiftRight(0xFF, count);
      // Line 23: the next byte, masked, shifted left by the in-byte offset, ORed in.
      var next := byteOffset as nat + 1;
      var nextInBounds := next < data.Length;
      var second: bv8 := if nextInBounds then data[next] else 0;
      acc := acc | ShiftLeft(second & mask, count);
      defined := defined && nextInBounds && countInRange;
      trace := Trace(trace.indices + [next], trace.counts + [count, count]);
    }

    // The assignment to outVal is commented out: outValAfter keeps outVal.
    returnVal := if defined then Some(acc) else None;
    assert trace.indices[0] in trace.indices && trace.counts[0] in trace.counts;
  }

  /** The 16-bit overload: the bounds guard and nothing else, whichever way it goes. */
  method GetBitCompressedValue16(data: array<bv8>, dataLen: size_t, bitOffset: size_t, numBits: uint8, outVal: bv16)
    returns (outValAfter: bv16, trace: Trace)
    ensures outValAfter == outVal
    ensures trace == Trace([], [])
  {
    outValAfter, trace := outVal, Trace([], []);
    if Rejected(dataLen, bitOffset, numBits) {
      return;
    }
  }

  /** The 32-bit overload: the bounds guard and nothing else, whichever way it goes. */
  method GetBitCompressedValue32(data: array<bv8>, dataLen: size_t, bitOffset: size_t, numBits: uint8, outVal: bv32)
    returns (outValAfter: bv32, trace: Trace)
    ensures outValAfter == outVal
    ensures trace == Trace([], [])
  {
    outValAfter, trace := outVal, Trace([], []);
    if Rejected(dataLen, bitOffset, numBits) {
      return;
    }
  }

  // Corrected definitions, stated beside the code as written.

  /**
   * The bounds check the guard evidently intends: at least one bit, and the
   * bit range inside the buffer's `dataLen * 8` bits.
   */
  predicate RangeFits(dataLen: nat, bitOffset: nat, numBits: nat)
  {
    1 <= numBits && bitOffset + numBits <= dataLen * 8
  }

  /**
   * The corrected check admits a request exactly when every bit it names
   * lies in a byte of the buffer.
   */
  lemma RangeFitsIffBytesInBuffer(dataLen: nat, bitOffset: nat, numBits: nat)
    requires 1 <= numBits
    ensures RangeFits(dataLen, bitOffset, numBits) <==> (bitOffset + numBits - 1) / 8 < dataLen
    ensures RangeFits(dataLen, bitOffset, numBits) ==>
      forall j | bitOffset <= j < bitOffset + numBits :: j / 8 < dataLen
  {
    var last := bitOffset + numBits - 1;
    assert last / 8 < dataLen <==> last < dataLen * 8;
    if RangeFits(dataLen, bitOffset, numBits) {
      forall j | bitOffset <= j < bitOffset + numBits ensures j / 8 < dataLen {
        assert j / 8 <= last / 8;
      }
    }
  }

  /**
   * The guard as written compares bits times 8 with bytes: it refuses a
   * full byte from a one-byte buffer, and admits a zero-bit request on an
   * empty buffer, where the code then reads `data[0]`.
   */
  lemma GuardMisjudgesRange()
    ensures Rejected(1, 0, 8) && RangeFits(1, 0, 8)
    ensures !Rejected(0, 0, 0) && !RangeFits(0, 0, 0)
  {
  }

  /** The in-byte offset evidently intended at TesseractCommonUtils.h line 16. */
  function BitInByte(bitOffset: nat): (r: nat)
    ensures r < 8
    ensures (bitOffset / 8) * 8 + r == bitOffset
  {
    bitOffset % 8
  }

  /** The byte index and the corrected in-byte offset are the only such split of an offset. */
  lemma BitInByteUnique(bitOffset: nat, q: nat, r: nat)
    requires r < 8 && q * 8 + r == bitOffset
    ensures q == bitOffset / 8 && r == BitInByte(bitOffset)
  {
  }

  /** The offset computed as written differs from the intended one at every offset 1..7. */
  lemma BitOffsetInByteDiffers(bitOffset: size_t)
    requires 1 <= bitOffset <= 7
    ensures BitOffsetInByte(bitOffset) as int != BitInByte(bitOffset as nat)
  {
    BitOffsetInByteWraps(bitOffset);
  }
}
