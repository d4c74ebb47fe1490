/** The items that travel between friends, byte by byte (RSZeroReserveItems.cpp,
    RSZRRemoteItems.cpp). Raw integers are big-endian and strings carry a 4-byte length, as
    RetroShare's rsbaseserial writes them; that file is not part of this model. */
module Layouts {
  import opened Common

  type Byte = x: int | 0 <= x < 256

  datatype Kind = KUInt8 | KUInt64 | KString

  datatype Field = UInt8(byte: Byte) | UInt64(long: nat) | Text(text: seq<Byte>)

  function Power256(n: nat): (p: nat)
    ensures p >= 1
  {
    if n == 0 then 1 else 256 * Power256(n - 1)
  }

  function BigEndian(n: nat, width: nat): (s: seq<Byte>)
    ensures |s| == width
  {
    if width == 0 then [] else BigEndian(n / 256, width - 1) + [n % 256]
  }

  function FromBigEndian(s: seq<Byte>): nat {
    if s == [] then 0 else 256 * FromBigEndian(s[..|s| - 1]) + s[|s| - 1]
  }

  lemma {:induction false} BigEndianRoundTrip(n: nat, width: nat)
    requires n < Power256(width)
    ensures FromBigEndian(BigEndian(n, width)) == n
  {
    if width > 0 {
      BigEndianRoundTrip(n / 256, width - 1);
      var s := BigEndian(n, width);
      assert s[..width - 1] == BigEndian(n / 256, width - 1);
    }
  }

  function KindOf(f: Field): Kind {
    match f
    case UInt8(_) => KUInt8
    case UInt64(_) => KUInt64
    case Text(_) => KString
  }

  /** What fits into the widths of the layout. */
  predicate Storable(f: Field) {
    match f
    case UInt8(_) => true
    case UInt64(n) => n < Power256(8)
    case Text(s) => |s| < Power256(4)
  }

  function Bytes(f: Field): seq<Byte> {
    match f
    case UInt8(b) => [b]
    case UInt64(n) => BigEndian(n, 8)
    case Text(s) => BigEndian(|s|, 4) + s
  }

  function AllBytes(fs: seq<Field>): seq<Byte> {
    if fs == [] then [] else Bytes(fs[0]) + AllBytes(fs[1..])
  }

  function Kinds(fs: seq<Field>): (ks: seq<Kind>)
    ensures |ks| == |fs|
  {
    if fs == [] then [] else [KindOf(fs[0])] + Kinds(fs[1..])
  }

  /** One getRaw: the field and what follows it, or None when the data does not reach. */
  function Read(k: Kind, data: seq<Byte>): Option<(Field, seq<Byte>)> {
    match k
    case KUInt8 => if |data| < 1 then None else Some((UInt8(data[0]), data[1..]))
    case KUInt64 => if |data| < 8 then None else Some((UInt64(FromBigEndian(data[..8])), data[8..]))
    case KString =>
      if |data| < 4 then None
      else
        var n := FromBigEndian(data[..4]);
        if |data| < 4 + n then None else Some((Text(data[4..4 + n]), data[4 + n..]))
  }

  function ReadAll(ks: seq<Kind>, data: seq<Byte>): Option<(seq<Field>, seq<Byte>)> {
    if ks == [] then Some(([], data))
    else
      match Read(ks[0], data)
      case None => None
      case Some((f, rest)) =>
        match ReadAll(ks[1..], rest)
        case None => None
        case Some((fs, end)) => Some(([f] + fs, end))
  }

  lemma ReadBack(f: Field, rest: seq<Byte>)
    requires Storable(f)
    ensures Read(KindOf(f), Bytes(f) + rest) == Some((f, rest))
  {
    var data := Bytes(f) + rest;
    match f
    case UInt8(b) =>
    case UInt64(n) =>
      assert data[..8] == BigEndian(n, 8) && data[8..] == rest;
      BigEndianRoundTrip(n, 8);
    case Text(s) =>
      assert data[..4] == BigEndian(|s|, 4);
      BigEndianRoundTrip(|s|, 4);
      assert data[4..4 + |s|] == s && data[4 + |s|..] == rest;
  }

  /** Fields are read back one after the other, and nothing else is consumed. */
  lemma {:induction false} ReadAllBack(fs: seq<Field>, rest: seq<Byte>)
    requires forall i :: 0 <= i < |fs| ==> Storable(fs[i])
    ensures ReadAll(Kinds(fs), AllBytes(fs) + rest) == Some((fs, rest))
  {
    if fs != [] {
      var more := AllBytes(fs[1..]) + rest;
      assert AllBytes(fs) + rest == Bytes(fs[0]) + more;
      ReadBack(fs[0], more);
      ReadAllBack(fs[1..], rest);
      assert Kinds(fs)[1..] == Kinds(fs[1..]) && [fs[0]] + fs[1..] == fs;
    } else {
      assert AllBytes(fs) + rest == rest;
    }
  }

  lemma {:induction false} AllBytesConcat(a: seq<Field>, b: seq<Field>)
    ensures AllBytes(a + b) == AllBytes(a) + AllBytes(b)
  {
    if a == [] {
      assert a + b == b;
    } else {
      assert (a + b)[1..] == a[1..] + b;
      AllBytesConcat(a[1..], b);
    }
  }
}

/** Every kind of item: its fields, its announced size, and its way over the wire. */
module Items {
  import opened Common
  import opened Layouts

  const PROTOCOL_VERSION: Byte := 0
  const HEADERS_OFFSET := 8
  const CURRENCY_STRLEN := 3
  const HOLLERITH_LEN_SPEC := 4

  /** RetroShare's version of service packets; its value is not part of this model's claims. */
  const PKT_VERSION_SERVICE: Byte := 2

  type Chars = seq<Byte>

  /** Amounts travel as fractions in text form, so they are texts here. */
  datatype Item =
    | OrderBookItem(address: Chars, amount: Chars, symbol: Chars, orderType: Byte, price: Chars,
                    timeStamp: int, orderId: Chars, purpose: Byte)
    | TxItem(phase: Byte, txId: Chars)
    | InitTxItem(phase: Byte, txId: Chars, role: Byte, payment: Chars, symbol: Chars, category: Byte, referrer: Chars)
    | CreditItem(symbol: Chars, credit: Chars, ourCredit: Chars, balance: Chars)
    | MsgItem(msgType: Byte, msg: Chars)
    | RemoteTxItem(address: Chars, phase: Byte, direction: Byte, payerId: Chars, payload: Chars)

  function SubType(x: Item): Byte {
    match x
    case OrderBookItem(_, _, _, _, _, _, _, _) => 1
    case TxItem(_, _) => 2
    case InitTxItem(_, _, _, _, _, _, _) => 3
    case CreditItem(_, _, _, _) => 4
    case MsgItem(_, _) => 5
    case RemoteTxItem(_, _, _, _, _) => 7
  }

  /** The cast of a signed to an unsigned 64-bit integer, and back. */
  function ToUnsigned(t: int): nat
    requires -0x8000_0000_0000_0000 <= t < 0x8000_0000_0000_0000
  {
    if t < 0 then t + 0x1_0000_0000_0000_0000 else t
  }

  function ToSigned(n: nat): int {
    if n >= 0x8000_0000_0000_0000 then n - 0x1_0000_0000_0000_0000 else n
  }

  predicate InRange(x: Item) {
    x.OrderBookItem? ==> -0x8000_0000_0000_0000 <= x.timeStamp < 0x8000_0000_0000_0000
  }

  /** The fields in the order they are written. */
  function Fields(x: Item): seq<Field>
    requires InRange(x)
  {
    match x
    case OrderBookItem(address, amount, symbol, orderType, price, timeStamp, orderId, purpose) =>
      [Text(address), Text(amount), Text(symbol), UInt8(orderType), Text(price), UInt64(ToUnsigned(timeStamp)),
       Text(orderId), UInt8(purpose)]
    case TxItem(phase, txId) => [UInt8(phase), Text(txId)]
    case InitTxItem(phase, txId, role, amount, symbol, category, referrer) =>
      [UInt8(phase), Text(txId), UInt8(role), Text(amount), Text(symbol), UInt8(category), Text(referrer)]
    case CreditItem(symbol, credit, ourCredit, balance) => [Text(symbol), Text(credit), Text(ourCredit), Text(balance)]
    case MsgItem(msgType, msg) => [UInt8(msgType), Text(msg)]
    case RemoteTxItem(address, phase, direction, payerId, payload) =>
      [Text(address), UInt8(phase), UInt8(direction), Text(payerId), Text(payload)]
  }

  /** serial_size, summand by summand. */
  function SerialSize(x: Item): nat {
    var base := HEADERS_OFFSET + 1;
    match x
    case OrderBookItem(address, amount, _, _, price, _, orderId, _) =>
      base + |address| + HOLLERITH_LEN_SPEC + |amount| + HOLLERITH_LEN_SPEC + |price| + HOLLERITH_LEN_SPEC + 1
      + CURRENCY_STRLEN + HOLLERITH_LEN_SPEC + 8 + |orderId| + HOLLERITH_LEN_SPEC + 1
    case TxItem(_, txId) => base + 1 + |txId| + HOLLERITH_LEN_SPEC
    case InitTxItem(_, txId, _, amount, _, _, referrer) =>
      base + 1 + |txId| + HOLLERITH_LEN_SPEC + 1 + CURRENCY_STRLEN + HOLLERITH_LEN_SPEC + |amount| + HOLLERITH_LEN_SPEC
      + 1 + |referrer| + HOLLERITH_LEN_SPEC
    case CreditItem(_, credit, ourCredit, balance) =>
      base + CURRENCY_STRLEN + HOLLERITH_LEN_SPEC + |credit| + HOLLERITH_LEN_SPEC + |ourCredit| + HOLLERITH_LEN_SPEC
      + |balance| + HOLLERITH_LEN_SPEC
    case MsgItem(_, msg) => base + 1 + |msg| + HOLLERITH_LEN_SPEC
    case RemoteTxItem(address, _, _, payerId, payload) =>
      base + |address| + HOLLERITH_LEN_SPEC + 1 + 1 + |payload| + HOLLERITH_LEN_SPEC + |payerId| + HOLLERITH_LEN_SPEC
  }

  predicate HasSymbol(x: Item) { x.OrderBookItem? || x.InitTxItem? || x.CreditItem? }

  function Header(x: Item): (h: seq<Byte>)
    ensures |h| == HEADERS_OFFSET + 1
  {
    [PKT_VERSION_SERVICE, 0xBE, 0xEF, SubType(x)] + BigEndian(SerialSize(x), 4) + [PROTOCOL_VERSION]
  }

  /** What serialise writes when it has the room. */
  function Encode(x: Item): seq<Byte>
    requires InRange(x)
  {
    Header(x) + AllBytes(Fields(x))
  }

  function FieldSize(f: Field): (n: nat)
    ensures n == |Bytes(f)|
  {
    match f
    case UInt8(_) => 1
    case UInt64(_) => 8
    case Text(s) => HOLLERITH_LEN_SPEC + |s|
  }

  /** The size of the first n fields. */
  function SizeOfFirst(fs: seq<Field>, n: nat): nat
    requires n <= |fs|
    decreases n
  {
    if n == 0 then 0 else SizeOfFirst(fs, n - 1) + FieldSize(fs[n - 1])
  }

  lemma {:induction false} SizesAddUp(fs: seq<Field>, n: nat)
    requires n <= |fs|
    ensures |AllBytes(fs)| == SizeOfFirst(fs, n) + |AllBytes(fs[n..])|
  {
    if n == 0 {
      assert fs[0..] == fs;
    } else {
      SizesAddUp(fs, n - 1);
      assert fs[n - 1..][1..] == fs[n..];
    }
  }

  lemma OrderBookSize(fs: seq<Field>)
    requires |fs| == 8
    ensures SizeOfFirst(fs, 8) == FieldSize(fs[0]) + FieldSize(fs[1]) + FieldSize(fs[2]) + FieldSize(fs[3])
      + FieldSize(fs[4]) + FieldSize(fs[5]) + FieldSize(fs[6]) + FieldSize(fs[7])
  {
    assert SizeOfFirst(fs, 4) == FieldSize(fs[0]) + FieldSize(fs[1]) + FieldSize(fs[2]) + FieldSize(fs[3]);
  }

  lemma InitTxSize(fs: seq<Field>)
    requires |fs| == 7
    ensures SizeOfFirst(fs, 7) == FieldSize(fs[0]) + FieldSize(fs[1]) + FieldSize(fs[2]) + FieldSize(fs[3])
      + FieldSize(fs[4]) + FieldSize(fs[5]) + FieldSize(fs[6])
  {
    assert SizeOfFirst(fs, 4) == FieldSize(fs[0]) + FieldSize(fs[1]) + FieldSize(fs[2]) + FieldSize(fs[3]);
  }

  lemma ShortSizes(fs: seq<Field>)
    requires 2 <= |fs| <= 5
    ensures |fs| == 2 ==> SizeOfFirst(fs, 2) == FieldSize(fs[0]) + FieldSize(fs[1])
    ensures |fs| == 4 ==>
      SizeOfFirst(fs, 4) == FieldSize(fs[0]) + FieldSize(fs[1]) + FieldSize(fs[2]) + FieldSize(fs[3])
    ensures |fs| == 5 ==>
      SizeOfFirst(fs, 5) == FieldSize(fs[0]) + FieldSize(fs[1]) + FieldSize(fs[2]) + FieldSize(fs[3]) + FieldSize(fs[4])
  {
    assert SizeOfFirst(fs, 2) == FieldSize(fs[0]) + FieldSize(fs[1]);
  }

  /** What is announced and what the fields take differ by the symbol's length at most. */
  lemma FieldsAddUp(x: Item)
    requires InRange(x)
    ensures HEADERS_OFFSET + 1 + SizeOfFirst(Fields(x), |Fields(x)|) + CURRENCY_STRLEN ==
      SerialSize(x) + if HasSymbol(x) then |x.symbol| else CURRENCY_STRLEN
  {
    if x.OrderBookItem? {
      OrderBookSize(Fields(x));
    } else if x.InitTxItem? {
      InitTxSize(Fields(x));
    } else {
      ShortSizes(Fields(x));
    }
  }

  /** The bytes written reach exactly to serial_size(), except that a currency symbol of another
      length than 3 is announced wrongly. */
  lemma OffsetIsSerialSizeIff(x: Item)
    requires InRange(x)
    ensures |Encode(x)| == SerialSize(x) <==> (HasSymbol(x) ==> |x.symbol| == CURRENCY_STRLEN)
  {
    SizesAddUp(Fields(x), |Fields(x)|);
    FieldsAddUp(x);
  }

  // ---- The way back ----

  function Layout(subType: Byte): Option<seq<Kind>> {
    match subType
    case 1 => Some([KString, KString, KString, KUInt8, KString, KUInt64, KString, KUInt8])
    case 2 => Some([KUInt8, KString])
    case 3 => Some([KUInt8, KString, KUInt8, KString, KString, KUInt8, KString])
    case 4 => Some([KString, KString, KString, KString])
    case 5 => Some([KUInt8, KString])
    case 7 => Some([KString, KUInt8, KUInt8, KString, KString])
    case _ => None
  }

  /** The items that refuse trailing bytes. */
  predicate ChecksOffset(subType: Byte) { subType == 1 || subType == 4 || subType == 5 }

  function TextAt(fs: seq<Field>, i: nat): Chars { if i < |fs| && fs[i].Text? then fs[i].text else [] }

  function ByteAt(fs: seq<Field>, i: nat): Byte { if i < |fs| && fs[i].UInt8? then fs[i].byte else 0 }

  function LongAt(fs: seq<Field>, i: nat): nat { if i < |fs| && fs[i].UInt64? then fs[i].long else 0 }

  /** The deserialising constructors. A friend's credit is what it grants us, so the credit item
      comes back with the two credits interchanged. */
  function FromFields(subType: Byte, fs: seq<Field>): Option<Item> {
    match subType
    case 1 => Some(OrderBookItem(TextAt(fs, 0), TextAt(fs, 1), TextAt(fs, 2), ByteAt(fs, 3), TextAt(fs, 4),
                                 ToSigned(LongAt(fs, 5)), TextAt(fs, 6), ByteAt(fs, 7)))
    case 2 => Some(TxItem(ByteAt(fs, 0), TextAt(fs, 1)))
    case 3 => Some(InitTxItem(ByteAt(fs, 0), TextAt(fs, 1), ByteAt(fs, 2), TextAt(fs, 3), TextAt(fs, 4),
                              ByteAt(fs, 5), TextAt(fs, 6)))
    case 4 => Some(CreditItem(TextAt(fs, 0), TextAt(fs, 2), TextAt(fs, 1), TextAt(fs, 3)))
    case 5 => Some(MsgItem(ByteAt(fs, 0), TextAt(fs, 1)))
    case 7 => Some(RemoteTxItem(TextAt(fs, 0), ByteAt(fs, 1), ByteAt(fs, 2), TextAt(fs, 3), TextAt(fs, 4)))
    case _ => None
  }

  function DecodeBody(subType: Byte, ks: seq<Kind>, body: seq<Byte>): Option<Item> {
    match ReadAll(ks, body)
    case None => None
    case Some((fs, rest)) => if ChecksOffset(subType) && rest != [] then None else FromFields(subType, fs)
  }

  /** deserialise: the header must fit, the announced size must have arrived. */
  function Decode(data: seq<Byte>): Option<Item> {
    if |data| < HEADERS_OFFSET + 1 || data[..3] != [PKT_VERSION_SERVICE, 0xBE, 0xEF] then None
    else
      var size := FromBigEndian(data[4..8]);
      if Layout(data[3]).None? || size < HEADERS_OFFSET + 1 || |data| < size || data[8] != PROTOCOL_VERSION then None
      else DecodeBody(data[3], Layout(data[3]).value, data[HEADERS_OFFSET + 1..size])
  }

  /** An item as the other side sees it. */
  function Mirrored(x: Item): Item {
    match x
    case CreditItem(symbol, credit, ourCredit, balance) => CreditItem(symbol, ourCredit, credit, balance)
    case _ => x
  }

  /** Items the source can send: sizes and lengths within their width, symbols of three letters. */
  predicate Sendable(x: Item) {
    && InRange(x) && SerialSize(x) < Power256(4) && (HasSymbol(x) ==> |x.symbol| == CURRENCY_STRLEN)
  }

  lemma LayoutIsKinds(x: Item)
    requires InRange(x)
    ensures Layout(SubType(x)) == Some(Kinds(Fields(x)))
  {
    var fs := Fields(x);
    KindsFrom(fs);
    var ks := Kinds(fs);
    assert forall i :: 0 <= i < |fs| ==> ks[i] == KindOf(fs[i]);
    assert Layout(SubType(x)).value == ks;
  }

  lemma {:induction false} KindsFrom(fs: seq<Field>)
    ensures forall i :: 0 <= i < |fs| ==> Kinds(fs)[i] == KindOf(fs[i])
  {
    if fs != [] {
      KindsFrom(fs[1..]);
      forall i | 0 <= i < |fs| ensures Kinds(fs)[i] == KindOf(fs[i]) {
        if i > 0 {
          assert Kinds(fs[1..])[i - 1] == KindOf(fs[1..][i - 1]);
        }
      }
    }
  }

  lemma FieldsComeBack(x: Item)
    requires InRange(x)
    ensures FromFields(SubType(x), Fields(x)) == Some(Mirrored(x))
  {
  }

  lemma HeaderIsRead(x: Item, body: seq<Byte>)
    requires SerialSize(x) < Power256(4)
    ensures var data := Header(x) + body;
      && data[..3] == [PKT_VERSION_SERVICE, 0xBE, 0xEF] && data[3] == SubType(x)
      && FromBigEndian(data[4..8]) == SerialSize(x) && data[8] == PROTOCOL_VERSION && data[9..] == body
  {
    var data := Header(x) + body;
    BigEndianRoundTrip(SerialSize(x), 4);
    assert data[4..8] == BigEndian(SerialSize(x), 4);
  }

  lemma BodyIsDecoded(x: Item)
    requires Sendable(x)
    ensures DecodeBody(SubType(x), Kinds(Fields(x)), AllBytes(Fields(x))) == Some(Mirrored(x))
  {
    ReadAllBack(Fields(x), []);
    assert AllBytes(Fields(x)) + [] == AllBytes(Fields(x));
    FieldsComeBack(x);
  }

  /** Every item comes back as the other side sees it, whatever follows it in the buffer. */
  lemma ItemsRoundTrip(x: Item, rest: seq<Byte>)
    requires Sendable(x)
    ensures Decode(Encode(x) + rest) == Some(Mirrored(x))
  {
    var body := AllBytes(Fields(x));
    var data := Encode(x) + rest;
    OffsetIsSerialSizeIff(x);
    HeaderIsRead(x, body + rest);
    assert data == Header(x) + (body + rest);
    assert data[HEADERS_OFFSET + 1..SerialSize(x)] == body;
    LayoutIsKinds(x);
    BodyIsDecoded(x);
  }

  /** Two trips are the identity. */
  lemma TwoTripsAreTheIdentity(x: Item, rest: seq<Byte>)
    requires Sendable(x)
    ensures Decode(Encode(x) + rest).Some? && Sendable(Decode(Encode(x) + rest).value)
    ensures Decode(Encode(Decode(Encode(x) + rest).value) + rest) == Some(x)
  {
    ItemsRoundTrip(x, rest);
    ItemsRoundTrip(Mirrored(x), rest);
  }
}

/** serialise: every field is written at m_Offset into a buffer of serial_size() bytes. */
module Serialisers {
  import opened Common
  import opened Layouts
  import opened Items

  class Buffer {
    const data: array<Byte>
    var offset: nat

    ghost predicate Valid()
      reads this
    {
      offset <= data.Length
    }

    /** `done` is what should have been written so far; a write that does not fit spoils `ok`. */
    ghost predicate Progress(ok: bool, done: seq<Byte>)
      reads this, data
    {
      && Valid()
      && if ok then offset == |done| && data[..offset] == done else |done| > data.Length
    }

    constructor (size: nat)
      ensures fresh(data) && data.Length == size && Progress(true, [])
    {
      data := new Byte[size](_ => 0);
      offset := 0;
    }

    /** Writes all bytes or none. */
    method SetRaw(bytes: seq<Byte>, ok: bool, ghost done: seq<Byte>) returns (still: bool)
      requires Progress(ok, done)
      modifies this`offset, data
      ensures Progress(still, done + bytes)
    {
      if offset + |bytes| > data.Length {
        return false;
      }
      ghost var before := data[..offset];
      var start := offset;
      for i := 0 to |bytes|
        invariant start == old(offset) && offset == start + i && offset <= data.Length
        invariant data[..offset] == before + bytes[..i]
      {
        data[offset] := bytes[i];
        offset := offset + 1;
      }
      assert bytes[..|bytes|] == bytes;
      return ok;
    }

    /** One field more after `fs`, which follow the header `head`. */
    method SetField(f: Field, ok: bool, ghost head: seq<Byte>, ghost fs: seq<Field>)
      returns (still: bool, ghost more: seq<Field>)
      requires Progress(ok, head + AllBytes(fs))
      modifies this`offset, data
      ensures more == fs + [f] && Progress(still, head + AllBytes(more))
    {
      more := fs + [f];
      still := SetRaw(Bytes(f), ok, head + AllBytes(fs));
      AllBytesConcat(fs, [f]);
      assert AllBytes([f]) == Bytes(f);
      assert head + AllBytes(fs) + Bytes(f) == head + AllBytes(more);
    }
  }

  method SerialiseOrderBook(b: Buffer, x: Item, ok0: bool) returns (ok: bool)
    requires x.OrderBookItem? && InRange(x) && b.Progress(ok0, Header(x) + AllBytes([]))
    modifies b`offset, b.data
    ensures b.Progress(ok, Encode(x))
  {
    ghost var h, fs := Header(x), [];
    ok, fs := b.SetField(Text(x.address), ok0, h, fs);
    ok, fs := b.SetField(Text(x.amount), ok, h, fs);
    ok, fs := b.SetField(Text(x.symbol), ok, h, fs);
    ok, fs := b.SetField(UInt8(x.orderType), ok, h, fs);
    ok, fs := b.SetField(Text(x.price), ok, h, fs);
    ok, fs := b.SetField(UInt64(ToUnsigned(x.timeStamp)), ok, h, fs);
    ok, fs := b.SetField(Text(x.orderId), ok, h, fs);
    ok, fs := b.SetField(UInt8(x.purpose), ok, h, fs);
    assert fs == Fields(x);
  }

  method SerialiseTx(b: Buffer, x: Item, ok0: bool) returns (ok: bool)
    requires x.TxItem? && b.Progress(ok0, Header(x) + AllBytes([]))
    modifies b`offset, b.data
    ensures b.Progress(ok, Encode(x))
  {
    ghost var h, fs := Header(x), [];
    ok, fs := b.SetField(UInt8(x.phase), ok0, h, fs);
    ok, fs := b.SetField(Text(x.txId), ok, h, fs);
    assert fs == Fields(x);
  }

  method SerialiseInitTx(b: Buffer, x: Item, ok0: bool) returns (ok: bool)
    requires x.InitTxItem? && b.Progress(ok0, Header(x) + AllBytes([]))
    modifies b`offset, b.data
    ensures b.Progress(ok, Encode(x))
  {
    ghost var h, fs := Header(x), [];
    ok, fs := b.SetField(UInt8(x.phase), ok0, h, fs);
    ok, fs := b.SetField(Text(x.txId), ok, h, fs);
    ok, fs := b.SetField(UInt8(x.role), ok, h, fs);
    ok, fs := b.SetField(Text(x.payment), ok, h, fs);
    ok, fs := b.SetField(Text(x.symbol), ok, h, fs);
    ok, fs := b.SetField(UInt8(x.category), ok, h, fs);
    ok, fs := b.SetField(Text(x.referrer), ok, h, fs);
    assert fs == Fields(x);
  }

  method SerialiseCredit(b: Buffer, x: Item, ok0: bool) returns (ok: bool)
    requires x.CreditItem? && b.Progress(ok0, Header(x) + AllBytes([]))
    modifies b`offset, b.data
    ensures b.Progress(ok, Encode(x))
  {
    ghost var h, fs := Header(x), [];
    ok, fs := b.SetField(Text(x.symbol), ok0, h, fs);
    ok, fs := b.SetField(Text(x.credit), ok, h, fs);
    ok, fs := b.SetField(Text(x.ourCredit), ok, h, fs);
    ok, fs := b.SetField(Text(x.balance), ok, h, fs);
    assert fs == Fields(x);
  }

  method SerialiseMsg(b: Buffer, x: Item, ok0: bool) returns (ok: bool)
    requires x.MsgItem? && b.Progress(ok0, Header(x) + AllBytes([]))
    modifies b`offset, b.data
    ensures b.Progress(ok, Encode(x))
  {
    ghost var h, fs := Header(x), [];
    ok, fs := b.SetField(UInt8(x.msgType), ok0, h, fs);
    ok, fs := b.SetField(Text(x.msg), ok, h, fs);
    assert fs == Fields(x);
  }

  method SerialiseRemoteTx(b: Buffer, x: Item, ok0: bool) returns (ok: bool)
    requires x.RemoteTxItem? && b.Progress(ok0, Header(x) + AllBytes([]))
    modifies b`offset, b.data
    ensures b.Progress(ok, Encode(x))
  {
    ghost var h, fs := Header(x), [];
    ok, fs := b.SetField(Text(x.address), ok0, h, fs);
    ok, fs := b.SetField(UInt8(x.phase), ok, h, fs);
    ok, fs := b.SetField(UInt8(x.direction), ok, h, fs);
    ok, fs := b.SetField(Text(x.payerId), ok, h, fs);
    ok, fs := b.SetField(Text(x.payload), ok, h, fs);
    assert fs == Fields(x);
  }

  /** Fails without writing when the caller's buffer is too small, and with a wrong buffer when the
      fields do not fill exactly what was announced; otherwise the buffer holds the item. */
  method Serialise(x: Item, pktsize: nat) returns (ok: bool, data: array<Byte>)
    requires InRange(x)
    ensures ok <==> pktsize >= SerialSize(x) && (HasSymbol(x) ==> |x.symbol| == CURRENCY_STRLEN)
    ensures ok ==> data[..] == Encode(x)
  {
    var size := SerialSize(x);
    if pktsize < size {
      data := new Byte[0];
      return false, data;
    }
    var b := new Buffer(size);
    ok := b.SetRaw(Header(x), true, []);
    assert [] + Header(x) == Header(x) + AllBytes([]);
    match x {
      case OrderBookItem(_, _, _, _, _, _, _, _) => ok := SerialiseOrderBook(b, x, ok);
      case TxItem(_, _) => ok := SerialiseTx(b, x, ok);
      case InitTxItem(_, _, _, _, _, _, _) => ok := SerialiseInitTx(b, x, ok);
      case CreditItem(_, _, _, _) => ok := SerialiseCredit(b, x, ok);
      case MsgItem(_, _) => ok := SerialiseMsg(b, x, ok);
      case RemoteTxItem(_, _, _, _, _) => ok := SerialiseRemoteTx(b, x, ok);
    }
    OffsetIsSerialSizeIff(x);
    ok := ok && b.offset == size;
    data := b.data;
    assert ok ==> data[..] == data[..b.offset];
  }
}
