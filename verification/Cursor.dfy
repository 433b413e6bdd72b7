/**
  The signed history cursor (src/history/cursor.py): base64url without padding (section 5 of RFC 4648),
  read back by a decoder that skips what it does not know and stops at complete padding.
  Text is kept as its UTF-8 bytes; the signature and UTF-8 validity are parameters.
  */
module Cursor {
  import opened Schema

  newtype Byte = x: int | 0 <= x < 256
  newtype Sextet = x: int | 0 <= x < 64

  type Bytes = seq<Byte>

  // ---- The alphabet --------------------------------------------------------------------------

  function Symbol(s: Sextet): (c: char)
    ensures ValueOf(c) == Some(s)
    ensures c != '=' && c != '.' && c < 128 as char
  {
    if s < 26 then (s as int + 'A' as int) as char
    else if s < 52 then (s as int - 26 + 'a' as int) as char
    else if s < 62 then (s as int - 52 + '0' as int) as char
    else if s == 62 then '-' else '_'
  }

  /** The decoding table; '+' and '/' are understood as well. */
  function ValueOf(c: char): Option<Sextet> {
    if 'A' <= c <= 'Z' then Some((c as int - 'A' as int) as Sextet)
    else if 'a' <= c <= 'z' then Some((c as int - 'a' as int + 26) as Sextet)
    else if '0' <= c <= '9' then Some((c as int - '0' as int + 52) as Sextet)
    else if c == '-' || c == '+' then Some(62)
    else if c == '_' || c == '/' then Some(63)
    else None
  }

  // ---- Encoding ------------------------------------------------------------------------------

  /** urlsafe_b64encode, without the trailing padding. */
  function Encode(b: Bytes): string {
    if b == [] then ""
    else if |b| == 1 then [First(b[0]), Symbol((b[0] as int % 4 * 16) as Sextet)]
    else if |b| == 2 then [First(b[0]), Second(b[0], b[1]), Symbol((b[1] as int % 16 * 4) as Sextet)]
    else [First(b[0]), Second(b[0], b[1]), Third(b[1], b[2]), Fourth(b[2])] + Encode(b[3..])
  }

  function First(x: Byte): char { Symbol((x as int / 4) as Sextet) }
  function Second(x: Byte, y: Byte): char { Symbol((x as int % 4 * 16 + y as int / 16) as Sextet) }
  function Third(y: Byte, z: Byte): char { Symbol((y as int % 16 * 4 + z as int / 64) as Sextet) }
  function Fourth(z: Byte): char { Symbol((z as int % 64) as Sextet) }

  // ---- Decoding ------------------------------------------------------------------------------

  /** `left` holds the bits that wait for the next symbol. */
  datatype Decoder = Decoder(out: Bytes, quad: nat, left: nat, pads: nat, done: bool) {
    predicate Valid() {
      (quad == 0 && left == 0) || (quad == 1 && left < 64) || (quad == 2 && left < 16) || (quad == 3 && left < 4)
    }
  }

  const START := Decoder([], 0, 0, 0, false)

  function Feed(d: Decoder, c: char): (d': Decoder)
    requires d.Valid()
    ensures d'.Valid()
  {
    if d.done then d
    else if c == '=' then
      if d.quad >= 2 && d.quad + d.pads + 1 >= 4 then d.(done := true)
      else if d.quad >= 2 then d.(pads := d.pads + 1) else d
    else if ValueOf(c).None? then d
    else Take(d, ValueOf(c).value)
  }

  function Take(d: Decoder, s: Sextet): (d': Decoder)
    requires d.Valid()
    ensures d'.Valid()
  {
    var x := s as int;
    if d.quad == 0 then Decoder(d.out, 1, x, 0, d.done)
    else if d.quad == 1 then Decoder(d.out + [(d.left * 4 + x / 16) as Byte], 2, x % 16, 0, d.done)
    else if d.quad == 2 then Decoder(d.out + [(d.left * 16 + x / 4) as Byte], 3, x % 4, 0, d.done)
    else Decoder(d.out + [(d.left * 64 + x) as Byte], 0, 0, 0, d.done)
  }

  function FeedAll(d: Decoder, text: string): (d': Decoder)
    requires d.Valid()
    ensures d'.Valid()
    decreases |text|
  {
    if text == "" then d else FeedAll(Feed(d, text[0]), text[1..])
  }

  /** Python's `-n % 4` equals signs. */
  function Padding(n: nat): string {
    match n % 4
    case 0 => ""
    case 1 => "==="
    case 2 => "=="
    case 3 => "="
  }

  /** urlsafe_b64decode of the re-padded text; None is binascii.Error. */
  function Decode(text: string): Option<Bytes> {
    var d := FeedAll(START, text + Padding(|text|));
    if d.done || d.quad == 0 then Some(d.out) else None
  }

  // ---- Decoding inverts encoding -------------------------------------------------------------

  lemma {:induction false} FeedConcat(d: Decoder, a: string, b: string)
    requires d.Valid()
    ensures FeedAll(d, a + b) == FeedAll(FeedAll(d, a), b)
    decreases |a|
  {
    if a == "" {
      assert a + b == b;
    } else {
      assert (a + b)[0] == a[0] && (a + b)[1..] == a[1..] + b;
      FeedConcat(Feed(d, a[0]), a[1..], b);
    }
  }

  lemma FeedOne(d: Decoder, c: char)
    requires d.Valid()
    ensures FeedAll(d, [c]) == Feed(d, c)
  {
    assert [c][1..] == "";
  }

  lemma FeedTwo(d: Decoder, a: char, b: char)
    requires d.Valid()
    ensures FeedAll(d, [a, b]) == Feed(Feed(d, a), b)
  {
    FeedOne(d, a);
    FeedOne(Feed(d, a), b);
    FeedConcat(d, [a], [b]);
    assert [a] + [b] == [a, b];
  }

  lemma FeedThree(d: Decoder, a: char, b: char, c: char)
    requires d.Valid()
    ensures FeedAll(d, [a, b, c]) == Feed(Feed(Feed(d, a), b), c)
  {
    FeedTwo(d, a, b);
    FeedOne(Feed(Feed(d, a), b), c);
    FeedConcat(d, [a, b], [c]);
    assert [a, b] + [c] == [a, b, c];
  }

  lemma FeedFour(d: Decoder, a: char, b: char, c: char, e: char)
    requires d.Valid()
    ensures FeedAll(d, [a, b, c, e]) == Feed(Feed(Feed(Feed(d, a), b), c), e)
  {
    FeedThree(d, a, b, c);
    FeedOne(Feed(Feed(Feed(d, a), b), c), e);
    FeedConcat(d, [a, b, c], [e]);
    assert [a, b, c] + [e] == [a, b, c, e];
  }

  lemma FirstTwo(out: Bytes, x: Byte, y: int)
    requires 0 <= y < 16
    ensures Feed(Feed(Decoder(out, 0, 0, 0, false), First(x)), Symbol((x as int % 4 * 16 + y) as Sextet))
            == Decoder(out + [x], 2, y, 0, false)
  {
    assert Feed(Decoder(out, 0, 0, 0, false), First(x)) == Decoder(out, 1, x as int / 4, 0, false);
  }

  lemma ThirdSymbol(out: Bytes, y: Byte, z: int)
    requires 0 <= z < 4
    ensures Feed(Decoder(out, 2, y as int / 16, 0, false), Symbol((y as int % 16 * 4 + z) as Sextet))
            == Decoder(out + [y], 3, z, 0, false)
  {
  }

  lemma FourthSymbol(out: Bytes, z: Byte)
    ensures Feed(Decoder(out, 3, z as int / 64, 0, false), Fourth(z)) == Decoder(out + [z], 0, 0, 0, false)
  {
  }

  /** Four symbols give back three bytes. */
  lemma Group(out: Bytes, x: Byte, y: Byte, z: Byte)
    ensures FeedAll(Decoder(out, 0, 0, 0, false), [First(x), Second(x, y), Third(y, z), Fourth(z)])
         == Decoder(out + [x, y, z], 0, 0, 0, false)
  {
    FeedFour(Decoder(out, 0, 0, 0, false), First(x), Second(x, y), Third(y, z), Fourth(z));
    FirstTwo(out, x, y as int / 16);
    ThirdSymbol(out + [x], y, z as int / 64);
    FourthSymbol(out + [x] + [y], z);
    assert out + [x] + [y] + [z] == out + [x, y, z];
  }

  lemma OneByte(out: Bytes, x: Byte)
    ensures FeedAll(Decoder(out, 0, 0, 0, false), Encode([x])) == Decoder(out + [x], 2, 0, 0, false)
  {
    FeedTwo(Decoder(out, 0, 0, 0, false), First(x), Symbol((x as int % 4 * 16) as Sextet));
    FirstTwo(out, x, 0);
  }

  lemma TwoBytes(out: Bytes, x: Byte, y: Byte)
    ensures FeedAll(Decoder(out, 0, 0, 0, false), Encode([x, y])) == Decoder(out + [x, y], 3, 0, 0, false)
  {
    FeedThree(Decoder(out, 0, 0, 0, false), First(x), Second(x, y), Symbol((y as int % 16 * 4) as Sextet));
    FirstTwo(out, x, y as int / 16);
    ThirdSymbol(out + [x], y, 0);
    assert out + [x] + [y] == out + [x, y];
  }

  lemma FedGroup(out: Bytes, b: Bytes)
    requires |b| >= 3
    ensures FeedAll(Decoder(out, 0, 0, 0, false), Encode(b))
            == FeedAll(Decoder(out + b[..3], 0, 0, 0, false), Encode(b[3..]))
    ensures |Encode(b)| == 4 + |Encode(b[3..])|
  {
    Group(out, b[0], b[1], b[2]);
    assert b[..3] == [b[0], b[1], b[2]];
    FeedConcat(Decoder(out, 0, 0, 0, false), [First(b[0]), Second(b[0], b[1]), Third(b[1], b[2]), Fourth(b[2])],
        Encode(b[3..]));
  }

  /** The symbols of n bytes beyond whole groups. */
  function Quad(n: nat): nat {
    if n % 3 == 0 then 0 else n % 3 + 1
  }

  lemma QuadRepeats(n: nat)
    requires n >= 3
    ensures Quad(n) == Quad(n - 3)
  {
  }

  lemma FedShort(out: Bytes, b: Bytes)
    requires |b| < 3
    ensures FeedAll(Decoder(out, 0, 0, 0, false), Encode(b)) == Decoder(out + b, Quad(|b|), 0, 0, false)
    ensures |Encode(b)| == Quad(|b|)
  {
    if |b| == 0 {
      assert out + b == out;
    } else if |b| == 1 {
      OneByte(out, b[0]);
      assert b == [b[0]];
    } else {
      TwoBytes(out, b[0], b[1]);
      assert b == [b[0], b[1]];
    }
  }

  /** After the symbols of b, the decoder has written b and, except at a group's end, holds zero bits. */
  lemma {:induction false} FedEncoding(out: Bytes, b: Bytes)
    ensures FeedAll(Decoder(out, 0, 0, 0, false), Encode(b)) == Decoder(out + b, Quad(|b|), 0, 0, false)
    decreases |b|
  {
    if |b| < 3 {
      FedShort(out, b);
    } else {
      FedGroup(out, b);
      QuadRepeats(|b|);
      FedEncoding(out + b[..3], b[3..]);
      SplitOut(out, b);
    }
  }

  lemma SplitOut(out: Bytes, b: Bytes)
    requires |b| >= 3
    ensures out + b[..3] + b[3..] == out + b
  {
  }

  lemma {:induction false} EncodedLength(b: Bytes)
    ensures |Encode(b)| % 4 == Quad(|b|)
    decreases |b|
  {
    if |b| < 3 {
      FedShort([], b);
    } else {
      EncodedLength(b[3..]);
      QuadRepeats(|b|);
      FedGroup([], b);
      FourMore(|Encode(b[3..])|);
    }
  }

  lemma FourMore(n: nat)
    ensures (4 + n) % 4 == n % 4
  {
  }

  lemma DecodeInvertsEncode(b: Bytes)
    ensures Decode(Encode(b)) == Some(b)
  {
    var text := Encode(b);
    FedEncoding([], b);
    EncodedLength(b);
    FeedConcat(START, text, Padding(|text|));
    var d := FeedAll(START, text);
    assert [] + b == b;
    if |b| % 3 == 1 {
      FeedTwo(d, '=', '=');
    } else if |b| % 3 == 2 {
      FeedOne(d, '=');
    }
  }

  // ---- The signed cursor ---------------------------------------------------------------------

  /** hash_secret under the cursor's purpose, and the check made by bytes.decode. */
  datatype Keys = Keys(mac: Bytes -> Bytes, utf8: Bytes -> bool)

  const PREFIX: Bytes := [116, 114, 105, 112, 95]

  function EncodeHistoryCursor(id: Bytes, keys: Keys): string {
    Encode(id) + "." + Encode(keys.mac(id))
  }

  /** The first dot; None when there is none. */
  function Dot(text: string): (k: Option<nat>)
    ensures k.Some? ==> k.value < |text| && text[k.value] == '.' && forall i | 0 <= i < k.value :: text[i] != '.'
    ensures k.None? ==> '.' !in text
  {
    if text == "" then None
    else if text[0] == '.' then Some(0)
    else
      var k := Dot(text[1..]);
      assert text == [text[0]] + text[1..];
      if k.None? then None else Some(k.value + 1)
  }

  predicate Ascii(text: string) {
    forall c | c in text :: c < 128 as char
  }

  function DecodeHistoryCursor(cursor: string, keys: Keys): Option<Bytes> {
    var k := Dot(cursor);
    if k.None? then None
    else
      var left, right := cursor[..k.value], cursor[k.value + 1..];
      if !Ascii(left) || !Ascii(right) then None
      else
        var payload, signature := Decode(left), Decode(right);
        if payload.None? || signature.None? || !keys.utf8(payload.value) then None
        else if signature.value != keys.mac(payload.value) || !(PREFIX <= payload.value) then None
        else payload
  }

  lemma {:induction false} EncodingIsPlain(b: Bytes)
    ensures '.' !in Encode(b) && Ascii(Encode(b))
    decreases |b|
  {
    if |b| > 2 {
      EncodingIsPlain(b[3..]);
    }
  }

  /** The first dot is where the left part ends. */
  lemma DotAfter(left: string, right: string)
    requires '.' !in left
    ensures Dot(left + "." + right) == Some(|left|)
  {
    var text := left + "." + right;
    assert text[|left|] == '.';
    forall i | 0 <= i < |left|
      ensures text[i] != '.'
    {
      assert text[i] == left[i];
    }
  }

  /** A cursor made for an id is read back as that id, exactly when the id is a trip's. */
  lemma CursorRoundTrip(id: Bytes, keys: Keys)
    requires keys.utf8(id)
    ensures DecodeHistoryCursor(EncodeHistoryCursor(id, keys), keys) == if PREFIX <= id then Some(id) else None
  {
    var left, right := Encode(id), Encode(keys.mac(id));
    EncodingIsPlain(id);
    EncodingIsPlain(keys.mac(id));
    DotAfter(left, right);
    var cursor := EncodeHistoryCursor(id, keys);
    assert cursor[..|left|] == left && cursor[|left| + 1..] == right;
    DecodeInvertsEncode(id);
    DecodeInvertsEncode(keys.mac(id));
  }

  /** Whatever else the decoder tolerates, an accepted cursor carries the signature of the id it names. */
  lemma AcceptedIsSigned(cursor: string, keys: Keys)
    requires DecodeHistoryCursor(cursor, keys).Some?
    ensures var id := DecodeHistoryCursor(cursor, keys).value;
            && PREFIX <= id && keys.utf8(id) && '.' in cursor
            && exists k :: 0 <= k < |cursor| && cursor[k] == '.' && Decode(cursor[k + 1..]) == Some(keys.mac(id))
  {
    var k := Dot(cursor).value;
    assert cursor[k] == '.' && Decode(cursor[k + 1..]) == Some(keys.mac(DecodeHistoryCursor(cursor, keys).value));
  }
}
