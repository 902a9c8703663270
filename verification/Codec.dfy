/**
 * The broker protocol's packet layout: packed headers in network byte order.
 *
 *   common header   type (1 byte), counter (4)
 *   control header  text size (4), followed by the JSON text
 *   data header     topic ID (4), message type ID (4), payload size (4), followed by the payload
 *
 * The JSON text is opaque bytes here.
 */
module Codec {
  import opened Basics

  const HEADER: nat := 5
  const CONTROL_HEADER: nat := 4
  const DATA_HEADER: nat := 12
  const PAYLOAD: nat := HEADER + DATA_HEADER

  const TYPE_INVALID: byte := 0
  const TYPE_CONTROL: byte := 1
  const TYPE_DATA: byte := 2

  /** The `k` low-order bytes of `x`, most significant first. */
  function Digits(x: nat, k: nat): (w: Bytes)
    ensures |w| == k
  {
    if k == 0 then [] else Digits(x / 256, k - 1) + [x % 256]
  }

  function Number(w: Bytes): (x: nat) {
    if w == [] then 0 else Number(w[..|w| - 1]) * 256 + w[|w| - 1]
  }

  /** Big-endian image of `x` truncated to 32 bits, as `htonl` stores it. */
  function Word(x: nat): (w: Bytes)
    ensures |w| == 4
  {
    Digits(x, 4)
  }

  lemma NumberOfFour(w: Bytes)
    requires |w| == 4
    ensures Number(w) == (w[0] as int) * 0x1000000 + (w[1] as int) * 0x10000 + (w[2] as int) * 0x100 + w[3]
    ensures Number(w) < WORD
  {
    var w3, w2, w1 := w[..3], w[..2], w[..1];
    assert w3[..2] == w2 && w2[..1] == w1 && w1[..0] == [];
    assert Number(w1) == w[0];
    assert Number(w2) == Number(w1) * 256 + w[1];
    assert Number(w3) == Number(w2) * 256 + w[2];
  }

  /** The 32-bit big-endian number at offset `i`, as `ntohl` reads it. */
  function WordAt(b: Bytes, i: nat): (x: uint32)
    requires i + 4 <= |b|
  {
    NumberOfFour(b[i..i + 4]);
    Number(b[i..i + 4])
  }

  function DataHeader(counter: nat, topicId: nat, typeId: nat, size: nat): (h: Bytes)
    ensures |h| == PAYLOAD
  {
    [TYPE_DATA] + Word(counter) + Word(topicId) + Word(typeId) + Word(size)
  }

  function EncodeData(counter: nat, topicId: nat, typeId: nat, payload: Bytes): (p: Bytes)
    ensures |p| == PAYLOAD + |payload|
  {
    DataHeader(counter, topicId, typeId, |payload|) + payload
  }

  function EncodeControl(counter: nat, text: Bytes): (p: Bytes)
    ensures |p| == HEADER + CONTROL_HEADER + |text|
  {
    [TYPE_CONTROL] + Word(counter) + Word(|text|) + text
  }

  /**
   * What `decode_packet_buffer` reports. `Fault` is the case in which the end
   * offset of the text has wrapped below its begin offset, so that the JSON
   * parser is handed a reversed range.
   */
  datatype Decoded =
    | Invalid(counter: uint32)
    | Control(counter: uint32, text: Bytes)
    | Fault(counter: uint32)
    | Data(counter: uint32, topicId: uint32, typeId: uint32, size: uint32)
    | Unknown(counter: uint32, tag: byte)

  /** The 32-bit end offset that both length checks compute: it always adds the control header's size. */
  function EndOffset(size: uint32): (end: uint32) {
    Wrap(HEADER + CONTROL_HEADER + size)
  }

  /**
   * Decoding `n` received bytes at the front of a receive buffer. Headers are
   * read before any check that they fit in `n`, so the buffer itself must hold them.
   */
  function Decode(buf: Bytes, n: nat): (d: Decoded)
    requires n <= |buf| && PAYLOAD <= |buf|
  {
    if n < HEADER then Invalid(0)
    else
      var counter := WordAt(buf, 1);
      if buf[0] == TYPE_CONTROL then
        var end := EndOffset(WordAt(buf, HEADER));
        if end > n then Invalid(counter)
        else if end < HEADER + CONTROL_HEADER then Fault(counter)
        else Control(counter, buf[HEADER + CONTROL_HEADER..end])
      else if buf[0] == TYPE_DATA then
        var size := WordAt(buf, HEADER + 8);
        if EndOffset(size) > n then Invalid(counter)
        else Data(counter, WordAt(buf, HEADER), WordAt(buf, HEADER + 4), size)
      else if buf[0] == TYPE_INVALID then Invalid(counter)
      else Unknown(counter, buf[0])
  }

  /** A receive buffer after a datagram has arrived over its previous content. */
  function Overlay(stale: Bytes, datagram: Bytes): (buf: Bytes)
    ensures |buf| >= |datagram| && |buf| >= |stale|
    ensures buf[..|datagram|] == datagram
    ensures buf[|datagram|..] == if |datagram| <= |stale| then stale[|datagram|..] else []
  {
    if |datagram| <= |stale| then datagram + stale[|datagram|..] else datagram
  }

  /** `memcpy` of a subscriber's message size out of a receive buffer; empty where the copy would leave the buffer. */
  function CopyOut(buffer: Bytes, size: nat): Bytes {
    if PAYLOAD + size <= |buffer| then buffer[PAYLOAD..PAYLOAD + size] else []
  }

  function Blank(): (buf: Bytes)
    ensures |buf| == BUFFER_SIZE
  {
    seq(BUFFER_SIZE, i => 0)
  }

  /** Content of a receive buffer. */
  type Buffer = b: Bytes | |b| == BUFFER_SIZE witness Blank()

  /** Decoding a datagram received over the previous content of a buffer. */
  function DecodeOver(stale: Buffer, datagram: Bytes): (d: Decoded) {
    Decode(Overlay(stale, datagram), |datagram|)
  }

  /** Decoding a datagram received into a zeroed buffer. */
  function DecodeDatagram(datagram: Bytes): (d: Decoded) {
    DecodeOver(Blank(), datagram)
  }

  lemma Regroup(q: nat, power: nat, rest: nat, digit: nat)
    ensures (q * power + rest) * 256 + digit == q * (power * 256) + (rest * 256 + digit)
  {
  }

  lemma {:induction false} NumberOfDigits(x: nat, k: nat)
    ensures exists q: nat :: x == q * Power256(k) + Number(Digits(x, k))
  {
    if k == 0 {
      assert x == x * Power256(0) + Number(Digits(x, 0));
    } else {
      NumberOfDigits(x / 256, k - 1);
      var q: nat :| x / 256 == q * Power256(k - 1) + Number(Digits(x / 256, k - 1));
      var w := Digits(x, k);
      assert w[..k - 1] == Digits(x / 256, k - 1);
      assert x == x / 256 * 256 + x % 256 && Number(w) == Number(w[..k - 1]) * 256 + x % 256;
      Regroup(q, Power256(k - 1), Number(w[..k - 1]), x % 256);
      assert x == q * Power256(k) + Number(w);
    }
  }

  function Power256(k: nat): nat {
    if k == 0 then 1 else Power256(k - 1) * 256
  }

  lemma WordRoundTrip(x: nat)
    ensures Number(Word(x)) == Wrap(x)
  {
    NumberOfDigits(x, 4);
    assert Power256(1) == 256 && Power256(2) == 0x10000 && Power256(3) == 0x1000000 && Power256(4) == WORD;
    NumberOfFour(Word(x));
    var q: nat :| x == q * WORD + Number(Word(x));
    WrapUnique(x, q, Number(Word(x)));
  }

  /** What every word is, byte by byte: the most significant comes first. */
  lemma WordBytes(x: uint32)
    ensures var w := Word(x);
            w[0] as int * 0x100_0000 + w[1] as int * 0x1_0000 + w[2] as int * 0x100 + w[3] as int == x
  {
    WordRoundTrip(x);
    NumberOfFour(Word(x));
  }

  lemma WordAtShift(b: Bytes, pre: Bytes, x: nat, post: Bytes)
    requires b == pre + Word(x) + post
    ensures WordAt(b, |pre|) == Wrap(x)
  {
    assert b[|pre|..|pre| + 4] == Word(x);
    WordRoundTrip(x);
  }

  lemma WordAtPrefix(b: Bytes, n: nat, i: nat)
    requires i + 4 <= n <= |b|
    ensures WordAt(b[..n], i) == WordAt(b, i)
  {
    assert b[..n][i..i + 4] == b[i..i + 4];
  }

  /** The bytes of both kinds of packet, and the size of the buffer they are received in. */
  lemma EncodedBytes(counter: nat, topicId: nat, typeId: nat, payload: Bytes, text: Bytes)
    ensures EncodeData(counter, topicId, typeId, payload)
            == [2] + Word(counter) + Word(topicId) + Word(typeId) + Word(|payload|) + payload
    ensures EncodeControl(counter, text) == [1] + Word(counter) + Word(|text|) + text
    ensures |Blank()| == 64 * 1024
  {
  }

  /**
   * What every datagram is taken for, by its first byte, the words behind it,
   * and whether the 32-bit end offset lies within it.
   */
  lemma Classified(buf: Bytes, n: nat)
    requires n <= |buf| && 17 <= |buf|
    ensures var d := Decode(buf, n);
            var textEnd, dataEnd := Wrap(9 + WordAt(buf, 5)), Wrap(9 + WordAt(buf, 13));
            && d.counter == (if n < 5 then 0 else WordAt(buf, 1))
            && (d.Control? <==> n >= 5 && buf[0] == 1 && 9 <= textEnd <= n)
            && (d.Fault? <==> n >= 5 && buf[0] == 1 && textEnd < 9 && textEnd <= n)
            && (d.Data? <==> n >= 5 && buf[0] == 2 && dataEnd <= n)
            && (d.Unknown? <==> n >= 5 && buf[0] > 2)
            && (d.Control? ==> d.text == buf[9..textEnd])
            && (d.Data? ==> d.topicId == WordAt(buf, 5) && d.typeId == WordAt(buf, 9) && d.size == WordAt(buf, 13))
            && (d.Unknown? ==> d.tag == buf[0])
  {
  }

  /** The four words of a data header, whatever follows it. */
  lemma DataHeaderFields(buf: Bytes, counter: nat, topicId: nat, typeId: nat, size: nat)
    requires PAYLOAD <= |buf| && buf[..PAYLOAD] == DataHeader(counter, topicId, typeId, size)
    ensures buf[0] == TYPE_DATA && WordAt(buf, 1) == Wrap(counter)
    ensures WordAt(buf, HEADER) == Wrap(topicId) && WordAt(buf, HEADER + 4) == Wrap(typeId)
    ensures WordAt(buf, HEADER + 8) == Wrap(size)
  {
    var h := DataHeader(counter, topicId, typeId, size);
    assert buf[0] == h[0] == TYPE_DATA;
    WordAtPrefix(buf, PAYLOAD, 1);
    WordAtPrefix(buf, PAYLOAD, HEADER);
    WordAtPrefix(buf, PAYLOAD, HEADER + 4);
    WordAtPrefix(buf, PAYLOAD, HEADER + 8);
    var c, t, m, z := Word(counter), Word(topicId), Word(typeId), Word(size);
    WordAtShift(h, [TYPE_DATA], counter, t + m + z) by { assert h == [TYPE_DATA] + c + (t + m + z); }
    WordAtShift(h, [TYPE_DATA] + c, topicId, m + z) by { assert h == [TYPE_DATA] + c + t + (m + z); }
    WordAtShift(h, [TYPE_DATA] + c + t, typeId, z);
    WordAtShift(h, [TYPE_DATA] + c + t + m, size, []) by { assert h == h + []; }
  }

  lemma ControlHeaderFields(p: Bytes, counter: nat, text: Bytes)
    requires p == EncodeControl(counter, text)
    ensures p[0] == TYPE_CONTROL && WordAt(p, 1) == Wrap(counter) && WordAt(p, HEADER) == Wrap(|text|)
  {
    WordAtShift(p, [TYPE_CONTROL], counter, Word(|text|) + text) by {
      assert p == [TYPE_CONTROL] + Word(counter) + (Word(|text|) + text);
    }
    WordAtShift(p, [TYPE_CONTROL] + Word(counter), |text|, text);
  }

  lemma DataFields(p: Bytes, counter: uint32, topicId: uint32, typeId: uint32, payload: Bytes)
    requires p == EncodeData(counter, topicId, typeId, payload)
    ensures WordAt(p, 1) == counter && WordAt(p, HEADER) == topicId && WordAt(p, HEADER + 4) == typeId
    ensures p[PAYLOAD..] == payload
  {
    assert p[..PAYLOAD] == DataHeader(counter, topicId, typeId, |payload|);
    DataHeaderFields(p, counter, topicId, typeId, |payload|);
  }

  /** Round trip of data packets, over any stale buffer content. */
  lemma DataRoundTrip(stale: Bytes, counter: nat, topicId: nat, typeId: nat, payload: Bytes)
    requires PAYLOAD + |payload| < WORD
    ensures var p := EncodeData(counter, topicId, typeId, payload);
            && Decode(Overlay(stale, p), |p|)
               == Data(Wrap(counter), Wrap(topicId), Wrap(typeId), |payload|)
            && Overlay(stale, p)[PAYLOAD..PAYLOAD + |payload|] == payload
  {
    var p := EncodeData(counter, topicId, typeId, payload);
    var buf := Overlay(stale, p);
    assert buf[..PAYLOAD] == buf[..|p|][..PAYLOAD] == DataHeader(counter, topicId, typeId, |payload|);
    DataHeaderFields(buf, counter, topicId, typeId, |payload|);
    assert buf[PAYLOAD..PAYLOAD + |payload|] == buf[..|p|][PAYLOAD..] == payload;
  }

  /** Round trip of control packets, over any stale buffer content. */
  lemma ControlRoundTrip(stale: Bytes, counter: nat, text: Bytes)
    requires HEADER + CONTROL_HEADER + |text| < WORD && PAYLOAD <= |stale|
    ensures var p := EncodeControl(counter, text);
            Decode(Overlay(stale, p), |p|) == Control(Wrap(counter), text)
  {
    var p := EncodeControl(counter, text);
    var buf := Overlay(stale, p);
    var begin := HEADER + CONTROL_HEADER;
    assert buf[0] == buf[..|p|][0];
    WordAtPrefix(buf, |p|, 1);
    WordAtPrefix(buf, |p|, HEADER);
    ControlHeaderFields(p, counter, text);
    assert buf[begin..begin + |text|] == buf[..|p|][begin..] == text;
  }

  /** Words inside the datagram do not depend on what was in the buffer before. */
  lemma WordInDatagram(stale: Buffer, datagram: Bytes, i: nat)
    requires i + 4 <= |datagram|
    ensures WordAt(Overlay(stale, datagram), i) == WordAt(datagram, i)
  {
    WordAtPrefix(Overlay(stale, datagram), |datagram|, i);
  }

  /** The counter never depends on what was in the buffer before. */
  lemma CounterIgnoresStale(stale: Buffer, datagram: Bytes)
    ensures DecodeOver(stale, datagram).counter == DecodeDatagram(datagram).counter
  {
    if |datagram| >= HEADER {
      WordInDatagram(stale, datagram, 1);
      WordInDatagram(Blank(), datagram, 1);
    }
  }

  /** Nothing does for a datagram that holds a whole header. */
  lemma DecodeIgnoresStale(stale: Buffer, datagram: Bytes)
    requires |datagram| >= PAYLOAD
    ensures DecodeOver(stale, datagram) == DecodeDatagram(datagram)
  {
    var a, b := Overlay(stale, datagram), Overlay(Blank(), datagram);
    assert a[0] == datagram[0] == b[0];
    SameWords(stale, datagram, 1);
    SameWords(stale, datagram, HEADER);
    SameWords(stale, datagram, HEADER + 4);
    SameWords(stale, datagram, HEADER + 8);
    var begin, end := HEADER + CONTROL_HEADER, EndOffset(WordAt(a, HEADER));
    if begin <= end <= |datagram| {
      assert a[begin..end] == a[..|datagram|][begin..end] == b[..|datagram|][begin..end] == b[begin..end];
    }
  }

  lemma SameWords(stale: Buffer, datagram: Bytes, i: nat)
    requires i + 4 <= |datagram|
    ensures WordAt(Overlay(stale, datagram), i) == WordAt(Overlay(Blank(), datagram), i)
  {
    WordInDatagram(stale, datagram, i);
    WordInDatagram(Blank(), datagram, i);
  }

  /** Distinct data messages have distinct packets. */
  lemma DataInjective(c1: uint32, t1: uint32, m1: uint32, p1: Bytes, c2: uint32, t2: uint32, m2: uint32, p2: Bytes)
    requires PAYLOAD + |p1| < WORD && PAYLOAD + |p2| < WORD
    requires EncodeData(c1, t1, m1, p1) == EncodeData(c2, t2, m2, p2)
    ensures c1 == c2 && t1 == t2 && m1 == m2 && p1 == p2
  {
    var p := EncodeData(c1, t1, m1, p1);
    DataFields(p, c1, t1, m1, p1);
    DataFields(p, c2, t2, m2, p2);
  }

  /** Distinct control messages have distinct packets, and no control packet is a data packet. */
  lemma ControlInjective(c1: uint32, text1: Bytes, c2: uint32, text2: Bytes)
    requires HEADER + CONTROL_HEADER + |text1| < WORD && HEADER + CONTROL_HEADER + |text2| < WORD
    requires EncodeControl(c1, text1) == EncodeControl(c2, text2)
    ensures c1 == c2 && text1 == text2
    ensures forall c: nat, t: nat, m: nat, payload: Bytes :: EncodeData(c, t, m, payload) != EncodeControl(c1, text1)
  {
    var p := EncodeControl(c1, text1);
    var begin := HEADER + CONTROL_HEADER;
    assert p[begin..] == text1 && p[begin..] == text2;
    ControlHeaderFields(p, c1, text1);
    ControlHeaderFields(p, c2, text2);
    forall c: nat, t: nat, m: nat, payload: Bytes ensures EncodeData(c, t, m, payload) != p {
      assert EncodeData(c, t, m, payload)[0] == TYPE_DATA;
    }
  }

  /**
   * Which data packets the length check lets through although their payload
   * does not fit: exactly those that miss up to eight bytes, and those whose
   * size field makes the 32-bit end offset wrap.
   */
  lemma TruncatedDataAccepted(buf: Bytes, n: nat)
    requires HEADER <= n <= |buf| < WORD && PAYLOAD <= |buf| && buf[0] == TYPE_DATA
    ensures var size := WordAt(buf, HEADER + 8);
            Decode(buf, n).Data? && n < PAYLOAD + size
            <==> || n - PAYLOAD < size <= n - (HEADER + CONTROL_HEADER)
                 || WORD - (HEADER + CONTROL_HEADER) <= size <= WORD - (HEADER + CONTROL_HEADER) + n
  {
    var size := WordAt(buf, HEADER + 8);
    WrapOnce(HEADER + CONTROL_HEADER, size);
  }

  /** A concrete packet whose declared payload byte is missing, and which is accepted all the same. */
  lemma TruncatedDataExample()
    ensures var p := DataHeader(1, 0, 0, 1);
            DecodeDatagram(p) == Data(1, 0, 0, 1) && |p| < PAYLOAD + 1
  {
    var p := DataHeader(1, 0, 0, 1);
    var buf := Overlay(Blank(), p);
    assert buf[..PAYLOAD] == p;
    DataHeaderFields(buf, 1, 0, 0, 1);
  }

  /** Writing `w` behind `head`. */
  lemma Written(head: Bytes, w: Bytes, all: Bytes)
    requires |head| + |w| <= |all|
    ensures var b := head + all[|head|..];
            b[..|head|] + w + b[|head| + |w|..] == head + w + all[|head + w|..]
  {
  }

  /** `bp_control_json_to_packet_buffer`: sizes a buffer and writes headers and text into it. */
  method ControlToPacketBuffer(text: Bytes, counter: uint32) returns (buffer: array<byte>)
    ensures fresh(buffer) && buffer[..] == EncodeControl(counter, text)
  {
    var begin := HEADER + CONTROL_HEADER;
    buffer := new byte[begin + |text|];
    buffer[0] := TYPE_CONTROL;
    ghost var all, head := buffer[..], [TYPE_CONTROL];
    assert buffer[..] == head + all[1..];
    StoreWord(buffer, 1, counter);
    Written(head, Word(counter), all);
    head := head + Word(counter);
    StoreWord(buffer, HEADER, |text|);
    Written(head, Word(|text|), all);
    head := head + Word(|text|);
    var i := 0;
    while i < |text|
      invariant 0 <= i <= |text|
      invariant buffer[..begin + i] == head + text[..i]
    {
      ghost var done := buffer[..begin + i];
      buffer[begin + i] := text[i];
      assert buffer[..begin + (i + 1)] == done + [text[i]];
      assert text[..i + 1] == text[..i] + [text[i]];
      i := i + 1;
    }
    assert buffer[..] == buffer[..begin + i] && text[..i] == text;
  }

  /** Writes one word in network byte order at offset `at`. */
  method StoreWord(buffer: array<byte>, at: nat, x: nat)
    requires at + 4 <= buffer.Length
    modifies buffer
    ensures buffer[..] == old(buffer[..])[..at] + Word(x) + old(buffer[..])[at + 4..]
  {
    var w := Word(x);
    buffer[at], buffer[at + 1], buffer[at + 2], buffer[at + 3] := w[0], w[1], w[2], w[3];
  }

  /** `bp_fill_data_header`: overwrites the first 17 bytes of a message buffer and nothing else. */
  method FillDataHeader(buffer: array<byte>, counter: uint32, topicId: nat, typeId: nat, size: nat)
    requires PAYLOAD <= buffer.Length
    modifies buffer
    ensures buffer[..] == DataHeader(counter, topicId, typeId, size) + old(buffer[PAYLOAD..])
  {
    ghost var all := buffer[..];
    buffer[0] := TYPE_DATA;
    ghost var head := [TYPE_DATA];
    assert buffer[..] == head + all[1..];
    StoreWord(buffer, 1, counter);
    Written(head, Word(counter), all);
    head := head + Word(counter);
    StoreWord(buffer, HEADER, topicId);
    Written(head, Word(topicId), all);
    head := head + Word(topicId);
    StoreWord(buffer, HEADER + 4, typeId);
    Written(head, Word(typeId), all);
    head := head + Word(typeId);
    StoreWord(buffer, HEADER + 8, size);
    Written(head, Word(size), all);
    assert all[PAYLOAD..] == old(buffer[PAYLOAD..]);
  }

  method LoadWord(buffer: array<byte>, at: nat) returns (x: uint32)
    requires at + 4 <= buffer.Length
    ensures x == WordAt(buffer[..], at)
  {
    NumberOfFour(buffer[..][at..at + 4]);
    x := (buffer[at] as int) * 0x1000000 + (buffer[at + 1] as int) * 0x10000 + (buffer[at + 2] as int) * 0x100
        + buffer[at + 3];
  }

  /** `decode_packet_buffer`: fills its results step by step from the first `n` bytes of `buffer`. */
  method DecodePacketBuffer(buffer: array<byte>, n: nat) returns (d: Decoded)
    requires n <= buffer.Length && PAYLOAD <= buffer.Length
    ensures d == Decode(buffer[..], n)
  {
    if n < HEADER {
      return Invalid(0);
    }
    var tag := buffer[0];
    var counter := LoadWord(buffer, 1);
    if tag == TYPE_CONTROL {
      var size := LoadWord(buffer, HEADER);
      var end := EndOffset(size);
      if end > n {
        return Invalid(counter);
      }
      if end < HEADER + CONTROL_HEADER {
        return Fault(counter);
      }
      return Control(counter, buffer[HEADER + CONTROL_HEADER..end]);
    } else if tag == TYPE_DATA {
      var topicId := LoadWord(buffer, HEADER);
      var typeId := LoadWord(buffer, HEADER + 4);
      var size := LoadWord(buffer, HEADER + 8);
      if EndOffset(size) > n {
        return Invalid(counter);
      }
      return Data(counter, topicId, typeId, size);
    }
    return if tag == TYPE_INVALID then Invalid(counter) else Unknown(counter, tag);
  }
}
