/** Cutting a file into chunks changes neither what is accepted nor the text, and
    when it can change the reported offset. */
module DecodingFacts {
  import opened Common
  import opened Encodings
  import opened StrictDecoding

  ghost predicate HasNul(wide: bool, data: seq<Byte>)
    requires |data| >= Mark(wide)
  {
    wide && 0 in ScanFile(wide, data).text
  }

  /** What the outcome says about the bytes as a whole. */
  ghost predicate Means(wide: bool, data: seq<Byte>, r: Outcome)
    requires |data| >= Mark(wide)
  {
    var s := ScanFile(wide, data);
    && (r.Accepted? <==> s.end.Clean? && !HasNul(wide, data))
    && (r.Accepted? ==> r.text == s.text)
    && (r.Refused? && r.nul ==> HasNul(wide, data) && r.offset == NulOffset(s.text))
    && (r.Refused? && !r.nul ==> !s.end.Clean? && r.offset == Mark(wide) + s.used)
    && (HasNul(wide, data) && !s.end.Broken? ==> r.Refused? && r.nul)
  }

  lemma FileCut(wide: bool, a: seq<Byte>, b: seq<Byte>)
    requires |a| >= Mark(wide)
    ensures ScanFile(wide, a).end.Broken? ==> ScanFile(wide, a + b) == ScanFile(wide, a)
    ensures !ScanFile(wide, a).end.Broken? ==> ScanFile(wide, a).text <= ScanFile(wide, a + b).text
  {
    var m := Mark(wide);
    assert (a + b)[m..] == a[m..] + b;
    assert wide ==> (a + b)[..2] == a[..2];
    ScanCut(EncodingOf(wide, a), a[m..], b);
  }

  /** The first NUL of a beginning is the first NUL of the whole. */
  lemma NulInOldText(text: Text, all: Text)
    requires 0 in text && text <= all
    ensures 0 in all && NulOffset(all) == NulOffset(text)
  {
    var k := FirstNul(text);
    assert all[k] == text[k];
    assert forall i :: 0 <= i < |text| ==> all[i] == text[i];
    assert FirstNul(all) == k && all[..k] == text[..k];
  }

  lemma {:induction false} DecodeFromMeans(wide: bool, fed: seq<Byte>, chunks: seq<seq<Byte>>)
    requires wide ==> |fed + Flatten(chunks)| >= 2
    requires |fed| >= Mark(wide) ==> !ScanFile(wide, fed).end.Broken? && !HasNul(wide, fed)
    ensures Means(wide, fed + Flatten(chunks), DecodeFrom(wide, fed, chunks))
    decreases |chunks|
  {
    var data := fed + Flatten(chunks);
    if chunks == [] {
      assert data == fed;
    } else {
      var all, rest := fed + chunks[0], chunks[1..];
      assert all + Flatten(rest) == data;
      if |all| >= Mark(wide) {
        FileCut(wide, all, Flatten(rest));
        if HasNul(wide, all) && !ScanFile(wide, all).end.Broken? {
          NulInOldText(ScanFile(wide, all).text, ScanFile(wide, data).text);
        }
      }
      if |all| < Mark(wide) || (!ScanFile(wide, all).end.Broken? && !HasNul(wide, all)) {
        DecodeFromMeans(wide, all, rest);
      }
    }
  }

  /** For every byte string and every way of cutting it: it is accepted exactly when the whole decodes without a NUL,
      with the whole's text; otherwise the offset is that of the first error of the whole or of its first NUL. */
  lemma DecodeMeans(wide: bool, chunks: seq<seq<Byte>>)
    requires wide ==> HasBom(Flatten(chunks))
    ensures Means(wide, Flatten(chunks), Decode(wide, chunks))
  {
    assert [] + Flatten(chunks) == Flatten(chunks);
    DecodeFromMeans(wide, [], chunks);
  }

  /** Of UTF-8, the outcome depends on the bytes alone, and the offset is where the first ill-formed sequence starts:
      the bytes before it encode text, and no character's encoding begins there. */
  lemma Utf8OutcomeIsTheWhole(a: seq<seq<Byte>>, b: seq<seq<Byte>>, c: int)
    requires Flatten(a) == Flatten(b) && Scalar(c)
    ensures Decode(false, a) == Decode(false, b)
    ensures Decode(false, a).Accepted? ==>
              Scalars(Decode(false, a).text) && EncodeAll(Utf8, Decode(false, a).text) == Flatten(a)
    ensures Decode(false, a).Refused? ==>
              var data, n := Flatten(a), Decode(false, a).offset;
              && n < |data| && !(Encode(Utf8, c) <= data[n..])
              && exists text :: Scalars(text) && EncodeAll(Utf8, text) == data[..n]
  {
    var data := Flatten(a);
    DecodeMeans(false, a);
    DecodeMeans(false, b);
    assert data[0..] == data;
    ScanUsesEncoding(Utf8, data);
    ScanStopsAtIllFormed(Utf8, data, [], c);
    assert data[..|data|] == data;
    if Decode(false, a).Refused? {
      assert Scalars(Scan(Utf8, data).text)
             && EncodeAll(Utf8, Scan(Utf8, data).text) == data[..Decode(false, a).offset];
    }
  }

  lemma {:induction false} WidthIsBytes(little: bool, text: Text)
    requires Scalars(text)
    ensures |EncodeAll(Utf16(little), text)| == Width(text)
  {
    if text != [] {
      WidthIsBytes(little, text[1..]);
      assert text == [text[0]] + text[1..];
      WidthConcat([text[0]], text[1..]);
      assert [text[0]][..0] == [];
      assert Width([text[0]]) == |Encode(Utf16(little), text[0])|;
    }
  }

  lemma Regrouped(x: seq<Byte>, y: seq<Byte>, z: seq<Byte>)
    ensures x + (y + z) == x + y + z
  {
  }

  lemma {:induction false} EncodeConcat(e: Encoding, a: Text, b: Text)
    requires Scalars(a) && Scalars(b)
    ensures Scalars(a + b) && EncodeAll(e, a + b) == EncodeAll(e, a) + EncodeAll(e, b)
  {
    if a == [] {
      assert a + b == b;
    } else {
      EncodeConcat(e, a[1..], b);
      assert (a + b)[1..] == a[1..] + b && (a + b)[0] == a[0];
      Regrouped(Encode(e, a[0]), EncodeAll(e, a[1..]), EncodeAll(e, b));
    }
  }

  lemma EncodeAround(e: Encoding, text: Text, k: nat) returns (back: seq<Byte>)
    requires e.Utf16? && Scalars(text) && k < |text| && text[k] == 0
    ensures EncodeAll(e, text) == EncodeAll(e, text[..k]) + ([0, 0] + back)
  {
    assert text == text[..k] + ([0] + text[k + 1..]);
    EncodeConcat(e, text[..k], [0] + text[k + 1..]);
    EncodeConcat(e, [0], text[k + 1..]);
    NulBytes(e.little);
    back := EncodeAll(e, text[k + 1..]);
  }

  /** In encoded text, a NUL's two bytes follow the encoding of the text before it. */
  lemma NulStands(little: bool, text: Text, k: nat, bytes: seq<Byte>)
    requires Scalars(text) && k < |text| && text[k] == 0 && bytes == EncodeAll(Utf16(little), text)
    ensures var w := Width(text[..k]);
            && w + 2 <= |bytes| && Scalars(text[..k])
            && bytes[..w] == EncodeAll(Utf16(little), text[..k]) && bytes[w] == bytes[w + 1] == 0
  {
    var w, front := Width(text[..k]), EncodeAll(Utf16(little), text[..k]);
    assert |front| == w by { WidthIsBytes(little, text[..k]); }
    var back := EncodeAround(Utf16(little), text, k);
    Sliced(bytes, front, back, w);
  }

  lemma Sliced(bytes: seq<Byte>, a: seq<Byte>, b: seq<Byte>, w: nat)
    requires bytes == a + ([0, 0] + b) && w == |a|
    ensures w + 2 <= |bytes| && bytes[..w] == a && bytes[w] == bytes[w + 1] == 0
  {
  }

  /** After the mark come the bytes of `front`, and at `n` the two bytes of a NUL. */
  ghost predicate NulAt(data: seq<Byte>, e: Encoding, front: Text, n: nat) {
    2 <= n && n + 2 <= |data| && Scalars(front) && data[2..n] == EncodeAll(e, front) && data[n] == data[n + 1] == 0
  }

  lemma NulAfterMark(data: seq<Byte>, body: seq<Byte>, e: Encoding, front: Text, w: nat)
    requires |data| >= 2 + |body| && (forall i :: 0 <= i < |body| ==> body[i] == data[2 + i]) && w + 2 <= |body|
    requires Scalars(front) && body[..w] == EncodeAll(e, front) && body[w] == body[w + 1] == 0
    ensures NulAt(data, e, front, 2 + w)
  {
    assert data[2..2 + w] == body[..w];
  }

  /** Where the first NUL of a scan stands in the file. */
  ghost predicate NulFound(data: seq<Byte>, e: Encoding, s: Scanned) {
    0 in s.text ==> NulOffset(s.text) <= s.used && NulAt(data, e, s.text[..FirstNul(s.text)], NulOffset(s.text))
  }

  lemma NulFoundIn(data: seq<Byte>, body: seq<Byte>, e: Encoding, s: Scanned)
    requires e.Utf16? && |data| >= 2 + |body| && (forall i :: 0 <= i < |body| ==> body[i] == data[2 + i])
    requires Scalars(s.text) && |body| == s.used && body == EncodeAll(e, s.text)
    ensures NulFound(data, e, s)
  {
    if 0 in s.text {
      var k := FirstNul(s.text);
      NulStands(e.little, s.text, k, body);
      NulAfterMark(data, body, e, s.text[..k], Width(s.text[..k]));
    }
  }

  lemma UsedBody(data: seq<Byte>, e: Encoding, s: Scanned) returns (body: seq<Byte>)
    requires |data| >= 2 && s == Scan(e, data[2..])
    ensures |data| >= 2 + |body| && forall i :: 0 <= i < |body| ==> body[i] == data[2 + i]
    ensures Scalars(s.text) && |body| == s.used && body == EncodeAll(e, s.text)
  {
    ScanUsesEncoding(e, data[2..]);
    body := data[2..][..s.used];
  }

  /** The offset of a NUL is true: the bytes before it, after the mark, are the encoding of the text before it, and the
      NUL's own two bytes stand there. */
  lemma NulOffsetIsTrue(data: seq<Byte>)
    requires |data| >= 2
    ensures NulFound(data, EncodingOf(true, data), ScanFile(true, data))
  {
    var body := UsedBody(data, EncodingOf(true, data), ScanFile(true, data));
    NulFoundIn(data, body, EncodingOf(true, data), ScanFile(true, data));
  }

  lemma NulBytes(little: bool)
    ensures EncodeAll(Utf16(little), [0]) == [0, 0]
  {
    assert Encode(Utf16(little), 0) == [0, 0] && [0][1..] == [];
  }

  /** Of UTF-16, acceptance and text depend on the bytes alone, and so does the
      offset unless a NUL precedes an error. */
  lemma Utf16OutcomeIsTheWhole(a: seq<seq<Byte>>, b: seq<seq<Byte>>)
    requires Flatten(a) == Flatten(b) && HasBom(Flatten(a))
    ensures Decode(true, a).Accepted? == Decode(true, b).Accepted?
    ensures Decode(true, a).Accepted? ==> Decode(true, a) == Decode(true, b)
    ensures !(HasNul(true, Flatten(a)) && ScanFile(true, Flatten(a)).end.Broken?) ==> Decode(true, a) == Decode(true, b)
  {
    DecodeMeans(true, a);
    DecodeMeans(true, b);
  }

  /** When a NUL precedes an error the offset does depend on the cut: read at once, the error is told; cut after the
      NUL, the NUL is, at a smaller offset. */
  lemma OffsetDependsOnTheCut(data: seq<Byte>) returns (a: seq<Byte>, b: seq<Byte>)
    requires HasBom(data) && HasNul(true, data) && ScanFile(true, data).end.Broken?
    ensures Flatten([data]) == Flatten([a, b]) == data
    ensures var s := ScanFile(true, data);
            && NulOffset(s.text) < 2 + s.used
            && Decode(true, [data]) == Refused(2 + s.used, false)
            && Decode(true, [a, b]) == Refused(NulOffset(s.text), true)
  {
    DecodeAtOnce(data);
    NulOffsetIsTrue(data);
    var e, s := EncodingOf(true, data), ScanFile(true, data);
    a, b := CutAfterNul(data, e, s);
    DecodeFirstPart(a, b, e, NulOffset(s.text));
  }

  /** Read at once, an error is told even after a NUL. */
  lemma DecodeAtOnce(data: seq<Byte>)
    requires HasBom(data) && ScanFile(true, data).end.Broken?
    ensures Flatten([data]) == data && Decode(true, [data]) == Refused(2 + ScanFile(true, data).used, false)
  {
    FlattenOne(data);
    assert [] + data == data && [data][0] == data;
  }

  /** A first part that decodes cleanly and holds a NUL settles the outcome. */
  lemma DecodeFirstPart(a: seq<Byte>, b: seq<Byte>, e: Encoding, n: nat)
    requires HasBom(a) && e == EncodingOf(true, a) && Scan(e, a[2..]).end.Clean? && 0 in Scan(e, a[2..]).text
             && n == NulOffset(Scan(e, a[2..]).text)
    ensures Flatten([a, b]) == a + b && Decode(true, [a, b]) == Refused(n, true)
  {
    FlattenTwo(a, b);
    assert [] + a == a && [a, b][0] == a;
  }

  lemma FlattenOne(a: seq<Byte>)
    ensures Flatten([a]) == a
  {
    assert [a][1..] == [] && a + [] == a;
  }

  lemma FlattenTwo(a: seq<Byte>, b: seq<Byte>)
    ensures Flatten([a, b]) == a + b
  {
    assert [a, b][1..] == [b];
    FlattenOne(b);
  }

  lemma EndingInNul(text: Text, k: nat)
    requires k < |text| && text[k] == 0 && forall i :: 0 <= i < k ==> text[i] != 0
    ensures var cut := text[..k] + [0]; 0 in cut && FirstNul(cut) == k && cut[..k] == text[..k]
  {
    var cut := text[..k] + [0];
    assert cut[k] == 0;
  }

  lemma EncodedUpToNul(e: Encoding, front: Text, bytes: seq<Byte>)
    requires e.Utf16? && Scalars(front) && bytes == EncodeAll(e, front) + [0, 0]
    ensures Scan(e, bytes) == Scanned(front + [0], |bytes|, Clean)
  {
    EncodeConcat(e, front, [0]);
    NulBytes(e.little);
    ScanEncoded(e, front + [0]);
  }

  lemma UpToNul(data: seq<Byte>, e: Encoding, front: Text, n: nat) returns (a: seq<Byte>, b: seq<Byte>)
    requires NulAt(data, e, front, n)
    ensures a + b == data && |a| >= 2 && a[..2] == data[..2] && a[2..] == EncodeAll(e, front) + [0, 0]
  {
    a, b := data[..n + 2], data[n + 2..];
    assert a[2..] == data[2..n] + [data[n], data[n + 1]];
  }

  /** Cut after its first NUL, a file begins with bytes that decode cleanly, to the text up to and including it. */
  lemma CutAfterNul(data: seq<Byte>, e: Encoding, s: Scanned) returns (a: seq<Byte>, b: seq<Byte>)
    requires e.Utf16? && 0 in s.text && NulFound(data, e, s)
    ensures a + b == data && |a| >= 2 && a[..2] == data[..2]
    ensures var t := Scan(e, a[2..]); t.end.Clean? && 0 in t.text && NulOffset(t.text) == NulOffset(s.text)
  {
    var k := FirstNul(s.text);
    a, b := UpToNul(data, e, s.text[..k], NulOffset(s.text));
    EncodedUpToNul(e, s.text[..k], a[2..]);
    EndingInNul(s.text, k);
  }

  lemma LowSurrogateIsBad(rest: seq<Byte>)
    requires |rest| == 2 && rest[0] == 0x00 && rest[1] == 0xDC
    ensures Scan(Utf16(true), rest) == Scanned([], 0, Broken)
  {
    assert UnitAt(true, rest, 0) == 0xDC00;
    assert Next(Utf16(true), rest) == Bad;
  }

  lemma NulThenBad(body: seq<Byte>)
    requires |body| >= 2 && body[0] == 0x00 && body[1] == 0x00 && Scan(Utf16(true), body[2..]) == Scanned([], 0, Broken)
    ensures Scan(Utf16(true), body).text == [0] && Scan(Utf16(true), body).end == Broken
  {
    NulIsRead(body);
    ReadOne(Utf16(true), body, 0, 2);
  }

  lemma NulIsRead(body: seq<Byte>)
    requires |body| >= 2 && body[0] == 0x00 && body[1] == 0x00
    ensures Next(Utf16(true), body) == Done(0, 2)
  {
    var bytes := Encode(Utf16(true), 0);
    assert bytes == [0, 0];
    assert bytes <= body;
    EncodedIsDone(Utf16(true), 0, body);
  }

  lemma ReadOne(e: Encoding, data: seq<Byte>, c: int, n: nat)
    requires Next(e, data) == Done(c, n) && 1 <= n <= |data|
    ensures Scan(e, data).text == [c] + Scan(e, data[n..]).text && Scan(e, data).end == Scan(e, data[n..]).end
  {
  }

  /** Such a file: a NUL and then a lone low surrogate. */
  lemma NulBeforeError(data: seq<Byte>)
    requires data == [0xFF, 0xFE, 0x00, 0x00, 0x00, 0xDC]
    ensures HasBom(data) && HasNul(true, data) && ScanFile(true, data).end.Broken?
  {
    assert data[..2] == BOM_LITTLE;
    LowSurrogateIsBad(data[4..]);
    assert data[2..][2..] == data[4..];
    NulThenBad(data[2..]);
  }
}
