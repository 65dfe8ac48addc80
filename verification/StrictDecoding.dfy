/** Strict decoding of a file read in chunks, with an incremental decoder that buffers unfinished characters. */
module StrictDecoding {
  import opened Common
  import opened Encodings

  type Text = seq<int>

  // ---- decoding a whole byte string ----

  /** How reading characters one after another ends: at the end, inside an unfinished character, or at an error. */
  datatype End = Clean | Unfinished | Broken

  /** The characters read and the bytes they take. */
  datatype Scanned = Scanned(text: Text, used: nat, end: End)

  function Scan(e: Encoding, data: seq<Byte>): (s: Scanned)
    ensures s.used <= |data|
    decreases |data|
  {
    if data == [] then Scanned([], 0, Clean)
    else match Next(e, data)
      case Need => Scanned([], 0, Unfinished)
      case Bad => Scanned([], 0, Broken)
      case Done(c, n) =>
        DoneIsEncoded(e, data);
        var rest := Scan(e, data[n..]);
        Scanned([c] + rest.text, n + rest.used, rest.end)
  }

  predicate Scalars(text: Text) {
    forall i :: 0 <= i < |text| ==> Scalar(text[i])
  }

  function EncodeAll(e: Encoding, text: Text): seq<Byte>
    requires Scalars(text)
  {
    if text == [] then [] else Encode(e, text[0]) + EncodeAll(e, text[1..])
  }

  /** The bytes used are exactly the encoding of the characters read. */
  lemma {:induction false} ScanUsesEncoding(e: Encoding, data: seq<Byte>)
    ensures var s := Scan(e, data);
            Scalars(s.text) && data[..s.used] == EncodeAll(e, s.text) && (s.end.Clean? <==> s.used == |data|)
    decreases |data|
  {
    if data != [] && Next(e, data).Done? {
      DoneIsEncoded(e, data);
      var c, n := Next(e, data).point, Next(e, data).size;
      ScanUsesEncoding(e, data[n..]);
      UsesOneMore(e, data, c, n, Scan(e, data[n..]));
    }
  }

  lemma UsesOneMore(e: Encoding, data: seq<Byte>, c: int, n: nat, s: Scanned)
    requires Scalar(c) && n <= |data| && Encode(e, c) == data[..n] && s.used <= |data[n..]|
    requires Scalars(s.text) && data[n..][..s.used] == EncodeAll(e, s.text)
    ensures Scalars([c] + s.text) && data[..n + s.used] == EncodeAll(e, [c] + s.text)
  {
    assert ([c] + s.text)[1..] == s.text;
    assert data[..n + s.used] == data[..n] + data[n..][..s.used];
  }

  /** After a character, reading goes on with the bytes behind it. */
  lemma ScanGoesOn(e: Encoding, data: seq<Byte>, c: int, n: nat, rest: seq<Byte>)
    requires Next(e, data) == Done(c, n) && 1 <= n <= |data| && rest == data[n..]
    ensures Scan(e, data) == Scanned([c] + Scan(e, rest).text, n + Scan(e, rest).used, Scan(e, rest).end)
    ensures data[Scan(e, data).used..] == rest[Scan(e, rest).used..]
  {
  }

  /** Where reading stops no character's encoding stands; at an error none ever will, whatever is appended. */
  lemma {:induction false} ScanStopsAtIllFormed(e: Encoding, data: seq<Byte>, more: seq<Byte>, c: int)
    requires Scalar(c)
    ensures var s := Scan(e, data);
            !(Encode(e, c) <= data[s.used..]) && (s.end.Broken? ==> !(Encode(e, c) <= data[s.used..] + more))
    decreases |data|
  {
    if data != [] && Next(e, data).Done? {
      DoneIsEncoded(e, data);
      var rest := data[Next(e, data).size..];
      ScanStopsAtIllFormed(e, rest, more, c);
      ScanGoesOn(e, data, Next(e, data).point, Next(e, data).size, rest);
    } else if data != [] {
      NotDoneIsIllFormed(e, data, more, c);
      assert data[0..] == data;
    }
  }

  /** An encoded character in front is read first. */
  lemma ScanOneMore(e: Encoding, c: int, rest: seq<Byte>)
    requires Scalar(c)
    ensures var s, n := Scan(e, rest), |Encode(e, c)|;
            Scan(e, Encode(e, c) + rest) == Scanned([c] + s.text, n + s.used, s.end)
  {
    var data, n := Encode(e, c) + rest, |Encode(e, c)|;
    EncodedIsDone(e, c, data);
    DoneIsEncoded(e, data);
    assert data[n..] == rest;
    ScanGoesOn(e, data, c, n, rest);
  }

  /** Decoding undoes encoding. */
  lemma {:induction false} ScanEncoded(e: Encoding, text: Text)
    requires Scalars(text)
    ensures Scan(e, EncodeAll(e, text)) == Scanned(text, |EncodeAll(e, text)|, Clean)
  {
    if text != [] {
      ScanEncoded(e, text[1..]);
      ScanOneMore(e, text[0], EncodeAll(e, text[1..]));
      assert [text[0]] + text[1..] == text;
    }
  }

  /** Bytes are accepted exactly when they encode some text, which decoding then returns. */
  lemma CleanIffEncoded(e: Encoding, data: seq<Byte>)
    ensures Scan(e, data).end.Clean? <==> exists text :: Scalars(text) && EncodeAll(e, text) == data
    ensures Scan(e, data).end.Clean? ==> Scalars(Scan(e, data).text) && EncodeAll(e, Scan(e, data).text) == data
  {
    ScanUsesEncoding(e, data);
    assert data[..|data|] == data;
    forall text | Scalars(text) && EncodeAll(e, text) == data ensures Scan(e, data).end.Clean? { ScanEncoded(e, text); }
  }

  // ---- cutting ----

  function Joined(s: Scanned, t: Scanned): Scanned {
    Scanned(s.text + t.text, s.used + t.used, t.end)
  }

  /** Bytes may be cut anywhere: what the first part left unfinished is read again in front of the second. */
  lemma {:induction false} ScanCut(e: Encoding, a: seq<Byte>, b: seq<Byte>)
    ensures Scan(e, a).end.Broken? ==> Scan(e, a + b) == Scan(e, a)
    ensures !Scan(e, a).end.Broken? ==> Scan(e, a + b) == Joined(Scan(e, a), Scan(e, a[Scan(e, a).used..] + b))
    decreases |a|
  {
    if a == [] {
      assert a + b == b && a[0..] + b == b;
      assert Joined(Scanned([], 0, Clean), Scan(e, b)) == Scan(e, b) by {
        assert [] + Scan(e, b).text == Scan(e, b).text;
      }
    } else if Next(e, a).Bad? {
      BadStays(e, a, b);
    } else if Next(e, a).Need? {
      assert a[0..] + b == a + b;
      assert [] + Scan(e, a + b).text == Scan(e, a + b).text;
    } else {
      DoneIsEncoded(e, a);
      DoneStays(e, a, b);
      CutAfterCharacter(e, a, b, Next(e, a).point, Next(e, a).size);
    }
  }

  lemma {:induction false} CutAfterCharacter(e: Encoding, a: seq<Byte>, b: seq<Byte>, c: int, n: nat)
    requires Next(e, a) == Done(c, n) && 1 <= n <= |a| && Next(e, a + b) == Done(c, n)
    ensures Scan(e, a).end.Broken? ==> Scan(e, a + b) == Scan(e, a)
    ensures !Scan(e, a).end.Broken? ==> Scan(e, a + b) == Joined(Scan(e, a), Scan(e, a[Scan(e, a).used..] + b))
    decreases |a|, 0
  {
    var rest := a[n..];
    assert (a + b)[n..] == rest + b;
    ScanGoesOn(e, a, c, n, rest);
    ScanGoesOn(e, a + b, c, n, rest + b);
    ScanCut(e, rest, b);
    JoinedBehind(c, n, Scan(e, rest), Scan(e, rest[Scan(e, rest).used..] + b));
  }

  lemma JoinedBehind(c: int, n: nat, s: Scanned, t: Scanned)
    ensures Scanned([c] + Joined(s, t).text, n + Joined(s, t).used, t.end) ==
              Joined(Scanned([c] + s.text, n + s.used, s.end), t)
  {
    assert [c] + (s.text + t.text) == ([c] + s.text) + t.text;
  }

  // ---- the incremental decoder ----

  const BOM_LITTLE: seq<Byte> := [0xFF, 0xFE]
  const BOM_BIG: seq<Byte> := [0xFE, 0xFF]

  predicate HasBom(data: seq<Byte>) {
    |data| >= 2 && (data[..2] == BOM_LITTLE || data[..2] == BOM_BIG)
  }

  /** UTF-16 is decoded after its mark, in the order the mark gives. */
  function Mark(wide: bool): nat {
    if wide then 2 else 0
  }

  function EncodingOf(wide: bool, data: seq<Byte>): Encoding
    requires |data| >= Mark(wide)
  {
    if wide then Utf16(data[..2] == BOM_LITTLE) else Utf8
  }

  function ScanFile(wide: bool, data: seq<Byte>): Scanned
    requires |data| >= Mark(wide)
  {
    Scan(EncodingOf(wide, data), data[Mark(wide)..])
  }

  class Decoder {
    const wide: bool
    var buffer: seq<Byte>
    var encoding: Option<Encoding>
    ghost var fed: seq<Byte>

    /** What has been fed is read as far as it goes, and the rest is buffered. */
    ghost predicate Valid()
      reads this
    {
      if |fed| < Mark(wide) then buffer == fed && encoding == None
      else
        && encoding == Some(EncodingOf(wide, fed)) && !ScanFile(wide, fed).end.Broken?
        && buffer == fed[Mark(wide) + ScanFile(wide, fed).used..]
    }

    constructor (wide: bool)
      ensures this.wide == wide && Valid() && fed == []
    {
      this.wide := wide;
      buffer, encoding, fed := [], if wide then None else Some(Utf8), [];
    }

    ghost function Read(): Text
      reads this
    {
      if |fed| < Mark(wide) then [] else ScanFile(wide, fed).text
    }

    /** Where the error of broken bytes starts, counted from the bytes buffered before. */
    ghost predicate Told(before: nat, buffered: nat, bad: Option<nat>)
      reads this
    {
      |fed| >= Mark(wide) && buffered <= before && ScanFile(wide, fed).end.Broken? &&
      bad == Some(Mark(wide) + ScanFile(wide, fed).used - (before - buffered))
    }

    method FeedOn(chunk: seq<Byte>) returns (text: Text, bad: Option<nat>)
      requires Valid() && encoding.Some?
      modifies this
      ensures fed == old(fed) + chunk
      ensures if bad.Some? then Told(|old(fed)|, |old(buffer)|, bad) else Valid() && Read() == old(Read()) + text
    {
      var data := buffer + chunk;
      var s := Scan(encoding.value, data);
      Refed(wide, fed, chunk, buffer, encoding.value, s);
      fed := fed + chunk;
      if s.end.Broken? { return [], Some(s.used); }
      buffer := data[s.used..];
      text, bad := s.text, None;
    }

    method FeedFirst(chunk: seq<Byte>) returns (text: Text, bad: Option<nat>)
      requires Valid() && encoding.None?
      modifies this
      ensures fed == old(fed) + chunk
      ensures if bad.Some? then Told(|old(fed)|, |old(buffer)|, bad) else Valid() && Read() == old(Read()) + text
    {
      var data := buffer + chunk;
      fed := data;
      if |data| < 2 {
        buffer := data;
        return [], None;
      }
      encoding := Some(Utf16(data[..2] == BOM_LITTLE));
      var s := Scan(encoding.value, data[2..]);
      if s.end.Broken? { return [], Some(2 + s.used); }
      buffer := data[2 + s.used..];
      text, bad := s.text, None;
    }

    /** The text the chunk completes, or where in the buffered bytes and the chunk together an error starts. */
    method Feed(chunk: seq<Byte>) returns (text: Text, bad: Option<nat>)
      requires Valid()
      modifies this
      ensures fed == old(fed) + chunk
      ensures if bad.Some? then Told(|old(fed)|, |old(buffer)|, bad) else Valid() && Read() == old(Read()) + text
    {
      if encoding.None? { text, bad := FeedFirst(chunk); } else { text, bad := FeedOn(chunk); }
    }
  }

  lemma Suffix(before: seq<Byte>, chunk: seq<Byte>, buffer: seq<Byte>, n: nat, v: nat)
    requires n <= |before| && buffer == before[n..] && v <= |buffer + chunk|
    ensures (before + chunk)[n + v..] == (buffer + chunk)[v..]
  {
    assert (before + chunk)[n..] == buffer + chunk;
  }

  /** Feeding the buffered bytes and a chunk reads on where the earlier bytes stopped. */
  lemma FeedMore(wide: bool, before: seq<Byte>, chunk: seq<Byte>, buffer: seq<Byte>, e: Encoding)
    requires |before| >= Mark(wide) && e == EncodingOf(wide, before) && !ScanFile(wide, before).end.Broken?
    requires buffer == before[Mark(wide) + ScanFile(wide, before).used..]
    ensures EncodingOf(wide, before + chunk) == e
    ensures ScanFile(wide, before + chunk) == Joined(ScanFile(wide, before), Scan(e, buffer + chunk))
  {
    var m := Mark(wide);
    var body := before[m..];
    assert (before + chunk)[m..] == body + chunk;
    assert wide ==> (before + chunk)[..2] == before[..2];
    assert body[ScanFile(wide, before).used..] == buffer;
    ScanCut(e, body, chunk);
  }

  /** The same for what a decoder keeps: the text so far, where an error starts, and what is left to buffer. */
  lemma Refed(wide: bool, before: seq<Byte>, chunk: seq<Byte>, buffer: seq<Byte>, e: Encoding, s: Scanned)
    requires |before| >= Mark(wide) && e == EncodingOf(wide, before) && !ScanFile(wide, before).end.Broken?
    requires buffer == before[Mark(wide) + ScanFile(wide, before).used..] && s == Scan(e, buffer + chunk)
    ensures EncodingOf(wide, before + chunk) == e
    ensures ScanFile(wide, before + chunk).end == s.end
    ensures ScanFile(wide, before + chunk).text == ScanFile(wide, before).text + s.text
    ensures Mark(wide) + ScanFile(wide, before + chunk).used == |before| - |buffer| + s.used
    ensures (before + chunk)[Mark(wide) + ScanFile(wide, before + chunk).used..] == (buffer + chunk)[s.used..]
  {
    FeedMore(wide, before, chunk, buffer, e);
    Suffix(before, chunk, buffer, Mark(wide) + ScanFile(wide, before).used, s.used);
  }

  // ---- the file, chunk by chunk ----

  datatype Outcome = Accepted(text: Text) | Refused(offset: nat, nul: bool)

  function Flatten(chunks: seq<seq<Byte>>): seq<Byte> {
    if chunks == [] then [] else chunks[0] + Flatten(chunks[1..])
  }

  /** The bytes UTF-16 text takes. */
  function Width(text: Text): nat {
    if text == [] then 0 else Width(text[..|text| - 1]) + if text[|text| - 1] < 0x1_0000 then 2 else 4
  }

  /** The place of the first U+0000. */
  function FirstNul(text: Text): (k: nat)
    requires 0 in text
    ensures k < |text| && text[k] == 0 && forall i :: 0 <= i < k ==> text[i] != 0
  {
    if text[0] == 0 then 0 else 1 + FirstNul(text[1..])
  }

  function NulOffset(text: Text): nat
    requires 0 in text
  {
    2 + Width(text[..FirstNul(text)])
  }

  /** `fed` has been read and found sound; an error in the bytes so far is told before a NUL in the text so far. */
  function DecodeFrom(wide: bool, fed: seq<Byte>, chunks: seq<seq<Byte>>): Outcome
    requires wide ==> |fed + Flatten(chunks)| >= 2
    decreases |chunks|
  {
    if chunks == [] then
      assert fed + Flatten(chunks) == fed;
      var s := ScanFile(wide, fed);
      if s.end.Unfinished? then Refused(Mark(wide) + s.used, false) else Accepted(s.text)
    else
      var all, rest := fed + chunks[0], chunks[1..];
      assert all + Flatten(rest) == fed + Flatten(chunks);
      if |all| >= Mark(wide) && ScanFile(wide, all).end.Broken?
      then Refused(Mark(wide) + ScanFile(wide, all).used, false)
      else if wide && |all| >= 2 && 0 in ScanFile(wide, all).text
      then Refused(NulOffset(ScanFile(wide, all).text), true)
      else DecodeFrom(wide, all, rest)
  }

  function Decode(wide: bool, chunks: seq<seq<Byte>>): Outcome
    requires wide ==> |Flatten(chunks)| >= 2
  {
    assert [] + Flatten(chunks) == Flatten(chunks);
    DecodeFrom(wide, [], chunks)
  }

  lemma {:induction false} WidthConcat(a: Text, b: Text)
    ensures Width(a + b) == Width(a) + Width(b)
  {
    if b == [] {
      assert a + b == a;
    } else {
      WidthConcat(a, b[..|b| - 1]);
      assert (a + b)[..|a + b| - 1] == a + b[..|b| - 1];
    }
  }

  /** A NUL in new text, and where it is in the whole. */
  lemma NulInNewText(before: Text, text: Text)
    requires 0 !in before
    ensures 0 in before + text <==> 0 in text
    ensures 0 in text ==> NulOffset(before + text) == 2 + Width(before) + Width(text[..FirstNul(text)])
  {
    var all := before + text;
    if 0 in text {
      assert all[|before| + FirstNul(text)] == 0;
      assert FirstNul(all) == |before| + FirstNul(text);
      assert all[..FirstNul(all)] == before + text[..FirstNul(text)];
      WidthConcat(before, text[..FirstNul(text)]);
    }
  }

  /** What one more chunk makes of the outcome. */
  lemma DecodesOn(wide: bool, fed: seq<Byte>, chunks: seq<seq<Byte>>, i: nat)
    requires i < |chunks| && (wide ==> |fed + Flatten(chunks[i..])| >= 2)
    ensures wide ==> |fed + chunks[i] + Flatten(chunks[i + 1..])| >= 2
    ensures var all, r := fed + chunks[i], DecodeFrom(wide, fed, chunks[i..]);
            if |all| >= Mark(wide) && ScanFile(wide, all).end.Broken?
            then r == Refused(Mark(wide) + ScanFile(wide, all).used, false)
            else if wide && |all| >= 2 && 0 in ScanFile(wide, all).text
            then r == Refused(NulOffset(ScanFile(wide, all).text), true)
            else r == DecodeFrom(wide, all, chunks[i + 1..])
  {
    assert chunks[i..][0] == chunks[i] && chunks[i..][1..] == chunks[i + 1..];
    assert (fed + chunks[i]) + Flatten(chunks[i + 1..]) == fed + Flatten(chunks[i..]);
  }

  /** `_decode_strictly`: reads to the end, and tells the absolute offset of the first error it meets. */
  method DecodeStrictly(wide: bool, chunks: seq<seq<Byte>>) returns (r: Outcome)
    requires wide ==> HasBom(Flatten(chunks))
    ensures r == Decode(wide, chunks)
  {
    var decoder := new Decoder(wide);
    var consumed, decodedBytes, pieces := 0, 2, [];
    ghost var total := Decode(wide, chunks);
    for i := 0 to |chunks|
      invariant decoder.wide == wide && fresh(decoder) && decoder.Valid() && consumed == |decoder.fed|
      invariant wide ==> |decoder.fed + Flatten(chunks[i..])| >= 2
      invariant DecodeFrom(wide, decoder.fed, chunks[i..]) == total
      invariant pieces == decoder.Read() && (wide ==> decodedBytes == 2 + Width(pieces) && 0 !in pieces)
    {
      DecodesOn(wide, decoder.fed, chunks, i);
      var buffered := |decoder.buffer|;
      var text, bad := decoder.Feed(chunks[i]);
      if bad.Some? { return Refused(consumed + bad.value - buffered, false); }
      consumed := consumed + |chunks[i]|;
      if wide {
        NulInNewText(pieces, text);
        if 0 in text { return Refused(decodedBytes + Width(text[..FirstNul(text)]), true); }
        WidthConcat(pieces, text);
        decodedBytes := decodedBytes + Width(text);
      }
      pieces := pieces + text;
    }
    assert chunks[|chunks|..] == [];
    AtEnd(wide, decoder.fed, decoder.buffer);
    if decoder.buffer != [] { return Refused(consumed - |decoder.buffer|, false); }
    r := Accepted(pieces);
  }

  /** At the end of the file, bytes still buffered are an unfinished character. */
  lemma AtEnd(wide: bool, fed: seq<Byte>, buffer: seq<Byte>)
    requires |fed| >= Mark(wide) && !ScanFile(wide, fed).end.Broken?
             && buffer == fed[Mark(wide) + ScanFile(wide, fed).used..]
    ensures buffer != [] <==> ScanFile(wide, fed).end.Unfinished?
  {
    ScanUsesEncoding(EncodingOf(wide, fed), fed[Mark(wide)..]);
  }
}
