/** Section 4 of RFC 3629 and section 2.2 of RFC 2781: what one character's bytes are, and what the next character of a
    byte string is. */
module Encodings {
  import opened Common

  datatype Encoding = Utf8 | Utf16(little: bool)

  predicate Scalar(c: int) {
    0 <= c < 0xD800 || 0xE000 <= c <= 0x10FFFF
  }

  // ---- encoding one character ----

  function Tail(x: int): Byte
    requires x >= 0
  {
    0x80 + x % 0x40
  }

  function Encode8(c: int): seq<Byte>
    requires Scalar(c)
  {
    if c < 0x80 then [c]
    else if c < 0x800 then [0xC0 + c / 0x40, Tail(c)]
    else if c < 0x1_0000 then [0xE0 + c / 0x1000, Tail(c / 0x40), Tail(c)]
    else [0xF0 + c / 0x4_0000, Tail(c / 0x1000), Tail(c / 0x40), Tail(c)]
  }

  function Unit(little: bool, u: int): seq<Byte>
    requires 0 <= u < 0x1_0000
  {
    if little then [u % 0x100, u / 0x100] else [u / 0x100, u % 0x100]
  }

  function Encode16(little: bool, c: int): seq<Byte>
    requires Scalar(c)
  {
    if c < 0x1_0000 then Unit(little, c)
    else Unit(little, 0xD800 + (c - 0x1_0000) / 0x400) + Unit(little, 0xDC00 + (c - 0x1_0000) % 0x400)
  }

  function Encode(e: Encoding, c: int): (bytes: seq<Byte>)
    requires Scalar(c)
    ensures 1 <= |bytes| <= 4
  {
    match e case Utf8 => Encode8(c) case Utf16(little) => Encode16(little, c)
  }

  // ---- the next character ----

  /** A whole character and its size, a proper beginning of one, or bytes that begin none. */
  datatype Head = Done(point: int, size: nat) | Need | Bad

  /** The number of bytes a first byte announces, none when it cannot be first. */
  function Announced(b: Byte): nat {
    if b < 0x80
    then 1
    else if b < 0xC2 then 0 else if b < 0xE0 then 2 else if b < 0xF0 then 3 else if b < 0xF5 then 4 else 0
  }

  /** The second byte's range is narrower after E0, ED, F0 and F4. */
  predicate SecondSound(first: Byte, b: Byte) {
    && 0x80 <= b < 0xC0
    && (first == 0xE0 ==> b >= 0xA0) && (first == 0xED ==> b < 0xA0)
    && (first == 0xF0 ==> b >= 0x90) && (first == 0xF4 ==> b < 0x90)
  }

  predicate Continues(b: Byte) {
    0x80 <= b < 0xC0
  }

  function Point2(a: int, b: int): int {
    (a - 0xC0) * 0x40 + (b - 0x80)
  }

  function Point3(a: int, b: int, c: int): int {
    (a - 0xE0) * 0x1000 + (b - 0x80) * 0x40 + (c - 0x80)
  }

  function Point4(a: int, b: int, c: int, d: int): int {
    (a - 0xF0) * 0x4_0000 + (b - 0x80) * 0x1000 + (c - 0x80) * 0x40 + (d - 0x80)
  }

  function Next8(data: seq<Byte>): Head {
    if data == [] then Need
    else
      var n := Announced(data[0]);
      if n == 0 then Bad
      else if n == 1 then Done(data[0], 1)
      else if |data| >= 2 && !SecondSound(data[0], data[1]) then Bad
      else if n >= 3 && |data| >= 3 && !Continues(data[2]) then Bad
      else if n == 4 && |data| >= 4 && !Continues(data[3]) then Bad
      else if |data| < n then Need
      else if n == 2 then Done(Point2(data[0], data[1]), 2)
      else if n == 3 then Done(Point3(data[0], data[1], data[2]), 3)
      else Done(Point4(data[0], data[1], data[2], data[3]), 4)
  }

  function Joined(high: int, low: int): int {
    0x100 * high + low
  }

  function Paired(u: int, v: int): int {
    0x1_0000 + (u - 0xD800) * 0x400 + (v - 0xDC00)
  }

  function UnitAt(little: bool, data: seq<Byte>, i: nat): (u: int)
    requires i + 1 < |data|
    ensures 0 <= u < 0x1_0000
  {
    if little then Joined(data[i + 1], data[i]) else Joined(data[i], data[i + 1])
  }

  function Next16(little: bool, data: seq<Byte>): Head {
    if |data| < 2 then Need
    else
      var u := UnitAt(little, data, 0);
      if u < 0xD800 || u >= 0xE000 then Done(u, 2)
      else if u >= 0xDC00 then Bad
      else if |data| < 4 then Need
      else
        var v := UnitAt(little, data, 2);
        if 0xDC00 <= v < 0xE000 then Done(Paired(u, v), 4) else Bad
  }

  function Next(e: Encoding, data: seq<Byte>): Head {
    match e case Utf8 => Next8(data) case Utf16(little) => Next16(little, data)
  }

  // ---- the two are inverse ----

  lemma Point2Encodes(a: Byte, b: Byte)
    requires 0xC2 <= a < 0xE0 && Continues(b)
    ensures 0x80 <= Point2(a, b) < 0x800 && Encode8(Point2(a, b)) == [a, b]
  {
  }

  lemma SplitsOff(x: int, low: int)
    requires 0 <= low < 0x40
    ensures (x * 0x40 + low) / 0x40 == x && (x * 0x40 + low) % 0x40 == low
  {
  }

  lemma Point3Encodes(a: Byte, b: Byte, c: Byte)
    requires 0xE0 <= a < 0xF0 && SecondSound(a, b) && Continues(c)
    ensures Scalar(Point3(a, b, c)) && 0x800 <= Point3(a, b, c) < 0x1_0000 && Encode8(Point3(a, b, c)) == [a, b, c]
  {
    var p, x, y: int := Point3(a, b, c), a - 0xE0, b - 0x80;
    var z: int := c - 0x80;
    SplitsOff(x * 0x40 + y, z);
    SplitsOff(x, y);
    assert p == (x * 0x40 + y) * 0x40 + z && p / 0x1000 == (p / 0x40) / 0x40;
  }

  lemma Point4Encodes(a: Byte, b: Byte, c: Byte, d: Byte)
    requires 0xF0 <= a < 0xF5 && SecondSound(a, b) && Continues(c) && Continues(d)
    ensures 0x1_0000 <= Point4(a, b, c, d) <= 0x10FFFF && Encode8(Point4(a, b, c, d)) == [a, b, c, d]
  {
    var p := Point4(a, b, c, d);
    assert p / 0x40 == (a - 0xF0) * 0x1000 + (b - 0x80) * 0x40 + (c - 0x80) && p % 0x40 == d - 0x80;
    assert p / 0x1000 == (a - 0xF0) * 0x40 + (b - 0x80) && (p / 0x40) % 0x40 == c - 0x80;
    assert p / 0x4_0000 == a - 0xF0 && (p / 0x1000) % 0x40 == b - 0x80;
  }

  lemma Done8IsEncoded(data: seq<Byte>)
    requires Next8(data).Done?
    ensures Scalar(Next8(data).point) && Next8(data).size <= |data|
            && Encode8(Next8(data).point) == data[..Next8(data).size]
  {
    var n := Announced(data[0]);
    if n == 2 {
      Point2Encodes(data[0], data[1]);
      assert data[..2] == [data[0], data[1]];
    } else if n == 3 {
      Point3Encodes(data[0], data[1], data[2]);
      assert data[..3] == [data[0], data[1], data[2]];
    } else if n == 4 {
      Point4Encodes(data[0], data[1], data[2], data[3]);
      assert data[..4] == [data[0], data[1], data[2], data[3]];
    } else {
      assert data[..1] == [data[0]];
    }
  }

  lemma UnitEncodes(little: bool, data: seq<Byte>, i: nat)
    requires i + 1 < |data|
    ensures Unit(little, UnitAt(little, data, i)) == data[i..i + 2]
  {
  }

  lemma PairedEncodes(little: bool, u: int, v: int)
    requires 0xD800 <= u < 0xDC00 && 0xDC00 <= v < 0xE000
    ensures 0x1_0000 <= Paired(u, v) <= 0x10FFFF && Encode16(little, Paired(u, v)) == Unit(little, u) + Unit(little, v)
  {
    var offset := Paired(u, v) - 0x1_0000;
    assert offset / 0x400 == u - 0xD800 && offset % 0x400 == v - 0xDC00;
  }

  lemma Done16IsEncoded(little: bool, data: seq<Byte>)
    requires Next16(little, data).Done?
    ensures Scalar(Next16(little, data).point) && Next16(little, data).size <= |data|
    ensures Encode16(little, Next16(little, data).point) == data[..Next16(little, data).size]
  {
    UnitEncodes(little, data, 0);
    if Next16(little, data).size == 4 {
      UnitEncodes(little, data, 2);
      PairedEncodes(little, UnitAt(little, data, 0), UnitAt(little, data, 2));
      assert data[..4] == data[0..2] + data[2..4];
    }
  }

  /** What is read as a character is that character's encoding. */
  lemma DoneIsEncoded(e: Encoding, data: seq<Byte>)
    requires Next(e, data).Done?
    ensures Scalar(Next(e, data).point) && 1 <= Next(e, data).size <= |data|
            && Encode(e, Next(e, data).point) == data[..Next(e, data).size]
  {
    match e case Utf8 => Done8IsEncoded(data); case Utf16(little) => Done16IsEncoded(little, data);
  }

  lemma PointsOf(c: int)
    requires Scalar(c)
    ensures 0x80 <= c < 0x800 ==> Point2(Encode8(c)[0], Encode8(c)[1]) == c
    ensures 0x800 <= c < 0x1_0000 ==> Point3(Encode8(c)[0], Encode8(c)[1], Encode8(c)[2]) == c
    ensures 0x1_0000 <= c ==> Point4(Encode8(c)[0], Encode8(c)[1], Encode8(c)[2], Encode8(c)[3]) == c
  {
    assert c == (c / 0x40) * 0x40 + c % 0x40;
    assert c / 0x40 == (c / 0x1000) * 0x40 + (c / 0x40) % 0x40;
    assert c / 0x1000 == (c / 0x4_0000) * 0x40 + (c / 0x1000) % 0x40;
  }

  lemma EncodedIsSound(c: int)
    requires Scalar(c)
    ensures var b := Encode8(c);
            Announced(b[0]) == |b| && (|b| >= 2 ==> SecondSound(b[0], b[1]))
            && forall i :: 2 <= i < |b| ==> Continues(b[i])
  {
  }

  lemma Encoded8IsDone(c: int, data: seq<Byte>)
    requires Scalar(c) && Encode8(c) <= data
    ensures Next8(data) == Done(c, |Encode8(c)|)
  {
    var bytes := Encode8(c);
    assert forall i :: 0 <= i < |bytes| ==> data[i] == bytes[i];
    PointsOf(c);
    EncodedIsSound(c);
  }

  lemma Encoded16IsDone(little: bool, c: int, data: seq<Byte>)
    requires Scalar(c) && Encode16(little, c) <= data
    ensures Next16(little, data) == Done(c, |Encode16(little, c)|)
  {
    var bytes := Encode16(little, c);
    assert forall i :: 0 <= i < |bytes| ==> data[i] == bytes[i];
  }

  /** A character's encoding at the start of any bytes is read as that character. */
  lemma EncodedIsDone(e: Encoding, c: int, data: seq<Byte>)
    requires Scalar(c) && Encode(e, c) <= data
    ensures Next(e, data) == Done(c, |Encode(e, c)|)
  {
    match e case Utf8 => Encoded8IsDone(c, data); case Utf16(little) => Encoded16IsDone(little, c, data);
  }

  // ---- more bytes change neither a character nor an error ----

  lemma BadStays(e: Encoding, data: seq<Byte>, more: seq<Byte>)
    requires Next(e, data).Bad?
    ensures Next(e, data + more).Bad?
  {
    var all := data + more;
    assert forall i :: 0 <= i < |data| ==> all[i] == data[i];
  }

  lemma DoneStays(e: Encoding, data: seq<Byte>, more: seq<Byte>)
    requires Next(e, data).Done?
    ensures Next(e, data + more) == Next(e, data)
  {
    DoneIsEncoded(e, data);
    EncodedIsDone(e, Next(e, data).point, data + more);
  }

  /** Where no character is read, no character's encoding stands; after an error, none whatever follows. */
  lemma NotDoneIsIllFormed(e: Encoding, data: seq<Byte>, more: seq<Byte>, c: int)
    requires !Next(e, data).Done? && Scalar(c)
    ensures !(Encode(e, c) <= data)
    ensures Next(e, data).Bad? ==> !(Encode(e, c) <= data + more)
  {
    if Encode(e, c) <= data { EncodedIsDone(e, c, data); }
    if Next(e, data).Bad? {
      BadStays(e, data, more);
      if Encode(e, c) <= data + more { EncodedIsDone(e, c, data + more); }
    }
  }
}
