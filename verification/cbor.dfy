/** The part of CBOR (RFC 8949) the auth token is made of: unsigned and
    negative integers (major types 0 and 1), byte strings (major type 2) and
    definite-length arrays (major type 4), each written with the shortest
    head of section 4.2.1. `Encode` is what `encodeInt`/`encodeBytes`/
    `encodeTuple` and `CBORObject.EncodeToBytes` produce for these items;
    `DecodeItem` is the receiving side, written independently. */
module Cbor {
  import opened Wrappers
  import opened Bytes

  /** Head arguments are at most 64 bits wide (section 3). */
  const MAX_ARG: nat := 0x1_0000_0000_0000_0000

  const UNSIGNED_INT: nat := 0
  const NEGATIVE_INT: nat := 1
  const BYTE_STRING: nat := 2
  const ARRAY: nat := 4

  datatype Item =
    | Unsigned(n: nat)              // major type 0: the integer n
    | Negative(n: nat)              // major type 1: the integer -1 - n
    | ByteString(bytes: seq<byte>)  // major type 2
    | Array(items: seq<Item>)       // major type 4, definite length

  /** The item of an integer: major type 0 for n >= 0, major type 1 otherwise. */
  function Int(i: int): (x: Item)
    ensures x.Unsigned? <==> i >= 0
  {
    if i >= 0 then Unsigned(i) else Negative(-1 - i)
  }

  /** The integer an item stands for, if it is an integer. */
  function IntValue(x: Item): Option<int> {
    match x
    case Unsigned(n) => Some(n)
    case Negative(n) => Some(-1 - n)
    case _ => None
  }

  lemma IntValueOfInt(i: int)
    ensures IntValue(Int(i)) == Some(i)
  {
  }

  /** The integers majors types 0 and 1 can hold. */
  predicate InRange(i: int) {
    -(MAX_ARG as int) <= i < MAX_ARG
  }

  /** Items every argument of which fits a head. */
  predicate WellFormed(x: Item) {
    match x
    case Unsigned(n) => n < MAX_ARG
    case Negative(n) => n < MAX_ARG
    case ByteString(b) => |b| < MAX_ARG
    case Array(items) => |items| < MAX_ARG && forall i :: 0 <= i < |items| ==> WellFormed(items[i])
  }

  lemma WellFormedInt(i: int)
    requires InRange(i)
    ensures WellFormed(Int(i))
  {
  }

  lemma Pow256Values()
    ensures Pow256(1) == 0x100 && Pow256(2) == 0x1_0000
    ensures Pow256(4) == 0x1_0000_0000 && Pow256(8) == MAX_ARG
  {
    assert Pow256(1) == 0x100;
    assert Pow256(2) == 0x1_0000;
    assert Pow256(3) == 0x100_0000;
    assert Pow256(4) == 0x1_0000_0000;
    assert Pow256(5) == 0x100_0000_0000;
    assert Pow256(6) == 0x1_0000_0000_0000;
    assert Pow256(7) == 0x100_0000_0000_0000;
  }

  /** The width of the argument that follows the initial byte, for the
      additional-information values 24..27 (section 3). */
  function ArgumentWidth(info: nat): nat
    requires 24 <= info <= 27
  {
    if info == 24 then 1 else if info == 25 then 2 else if info == 26 then 4 else 8
  }

  /** The head of a data item: the major type in the top three bits of the
      initial byte, the argument in the low five bits when below 24 and
      otherwise in the fewest following bytes that hold it. */
  function Head(major: nat, arg: nat): (h: seq<byte>)
    requires major < 8 && arg < MAX_ARG
    ensures 1 <= |h| <= 9 && h[0] as int / 32 == major
  {
    Pow256Values();
    if arg < 24 then [(major * 32 + arg) as byte]
    else if arg < 0x100 then [(major * 32 + 24) as byte] + EncodeFixed(arg, 1)
    else if arg < 0x1_0000 then [(major * 32 + 25) as byte] + EncodeFixed(arg, 2)
    else if arg < 0x1_0000_0000 then [(major * 32 + 26) as byte] + EncodeFixed(arg, 4)
    else [(major * 32 + 27) as byte] + EncodeFixed(arg, 8)
  }

  function Encode(x: Item): seq<byte>
    requires WellFormed(x)
  {
    match x
    case Unsigned(n) => Head(UNSIGNED_INT, n)
    case Negative(n) => Head(NEGATIVE_INT, n)
    case ByteString(b) => Head(BYTE_STRING, |b|) + b
    case Array(items) => Head(ARRAY, |items|) + EncodeAll(items)
  }

  /** The concatenated encodings of the elements of an array. */
  function EncodeAll(items: seq<Item>): seq<byte>
    requires forall i :: 0 <= i < |items| ==> WellFormed(items[i])
  {
    if items == [] then [] else Encode(items[0]) + EncodeAll(items[1..])
  }

  // ---------------------------------------------------------------------
  // Decoding

  /** Reads a head: (major type, argument, remaining bytes). Indefinite
      lengths and the reserved values 28..30 are refused. */
  function DecodeHead(bs: seq<byte>): (r: Option<(nat, nat, seq<byte>)>)
    ensures r.Some? ==> r.value.0 < 8 && |r.value.2| < |bs|
  {
    if bs == [] then None
    else
      var major, info := bs[0] as int / 32, bs[0] as int % 32;
      if info < 24 then Some((major, info, bs[1..]))
      else if info <= 27 then
        var w := ArgumentWidth(info);
        if |bs| < 1 + w then None else Some((major, DecodeIntBE(bs[1..1 + w]), bs[1 + w..]))
      else None
  }

  /** Reads one data item from the front of bs, returning it with the bytes after it. */
  function DecodeItem(bs: seq<byte>): (r: Option<(Item, seq<byte>)>)
    ensures r.Some? ==> |r.value.1| < |bs|
    decreases |bs|, 0
  {
    match DecodeHead(bs)
    case None => None
    case Some((major, arg, rest)) =>
      if major == UNSIGNED_INT then Some((Unsigned(arg), rest))
      else if major == NEGATIVE_INT then Some((Negative(arg), rest))
      else if major == BYTE_STRING then
        if |rest| < arg then None else Some((ByteString(rest[..arg]), rest[arg..]))
      else if major == ARRAY then
        match DecodeItems(arg, rest)
        case None => None
        case Some((items, after)) => Some((Array(items), after))
      else None
  }

  /** Reads `count` consecutive data items. */
  function DecodeItems(count: nat, bs: seq<byte>): (r: Option<(seq<Item>, seq<byte>)>)
    ensures r.Some? ==> |r.value.0| == count && |r.value.1| <= |bs|
    decreases |bs|, 1
  {
    if count == 0 then Some(([], bs))
    else
      match DecodeItem(bs)
      case None => None
      case Some((x, rest)) =>
        match DecodeItems(count - 1, rest)
        case None => None
        case Some((xs, after)) => Some(([x] + xs, after))
  }

  /** A whole byte string holding exactly one data item. */
  function Decode(bs: seq<byte>): Option<Item> {
    match DecodeItem(bs)
    case Some((x, rest)) => if rest == [] then Some(x) else None
    case None => None
  }

  // ---------------------------------------------------------------------
  // Round trip

  lemma DecodeHeadOfHead(major: nat, arg: nat, rest: seq<byte>)
    requires major < 8 && arg < MAX_ARG
    ensures DecodeHead(Head(major, arg) + rest) == Some((major, arg, rest))
  {
    Pow256Values();
    var bs := Head(major, arg) + rest;
    var w: nat := if arg < 24 then 0 else if arg < 0x100 then 1 else if arg < 0x1_0000 then 2
                  else if arg < 0x1_0000_0000 then 4 else 8;
    if w > 0 {
      assert bs[1..1 + w] == EncodeFixed(arg, w);
      assert bs[1 + w..] == rest;
      DecodeEncodeFixed(arg, w);
    } else {
      assert bs[1..] == rest;
    }
  }

  /** The head is the shortest one that decodes to its major type and argument
      (the preferred serialization of section 4.2.1). */
  lemma HeadIsShortest(bs: seq<byte>, major: nat, arg: nat, rest: seq<byte>)
    requires DecodeHead(bs) == Some((major, arg, rest))
    ensures arg < MAX_ARG
    ensures |bs| - |rest| >= |Head(major, arg)|
  {
    Pow256Values();
    var info := bs[0] as int % 32;
    if info >= 24 {
      var w := ArgumentWidth(info);
      DecodeIntBEBound(bs[1..1 + w]);
    }
  }

  lemma {:induction false} DecodeEncode(x: Item, rest: seq<byte>)
    requires WellFormed(x)
    ensures DecodeItem(Encode(x) + rest) == Some((x, rest))
    decreases x, 1
  {
    match x
    case Unsigned(n) =>
      DecodeHeadOfHead(UNSIGNED_INT, n, rest);
    case Negative(n) =>
      DecodeHeadOfHead(NEGATIVE_INT, n, rest);
    case ByteString(b) =>
      assert Encode(x) + rest == Head(BYTE_STRING, |b|) + (b + rest);
      DecodeHeadOfHead(BYTE_STRING, |b|, b + rest);
      assert (b + rest)[..|b|] == b;
      assert (b + rest)[|b|..] == rest;
    case Array(items) =>
      assert Encode(x) + rest == Head(ARRAY, |items|) + (EncodeAll(items) + rest);
      DecodeHeadOfHead(ARRAY, |items|, EncodeAll(items) + rest);
      DecodeEncodeAll(items, rest);
  }

  lemma {:induction false} DecodeEncodeAll(items: seq<Item>, rest: seq<byte>)
    requires forall i :: 0 <= i < |items| ==> WellFormed(items[i])
    ensures DecodeItems(|items|, EncodeAll(items) + rest) == Some((items, rest))
    decreases items, 0
  {
    if items != [] {
      var tail := EncodeAll(items[1..]) + rest;
      assert EncodeAll(items) + rest == Encode(items[0]) + tail;
      DecodeEncode(items[0], tail);
      DecodeEncodeAll(items[1..], rest);
      assert |items| - 1 == |items[1..]|;
      var bs := EncodeAll(items) + rest;
      assert DecodeItem(bs) == Some((items[0], tail));
      assert DecodeItems(|items| - 1, tail) == Some((items[1..], rest));
      assert [items[0]] + items[1..] == items;
      assert DecodeItems(|items|, bs) == Some(([items[0]] + items[1..], rest));
    } else {
      assert EncodeAll(items) + rest == rest;
    }
  }

  /** Decoding a whole encoding gives back the item. */
  lemma DecodeOfEncode(x: Item)
    requires WellFormed(x)
    ensures Decode(Encode(x)) == Some(x)
  {
    DecodeEncode(x, []);
    assert Encode(x) + [] == Encode(x);
  }

  /** Distinct items have distinct encodings. */
  lemma EncodeInjective(x: Item, y: Item)
    requires WellFormed(x) && WellFormed(y)
    requires Encode(x) == Encode(y)
    ensures x == y
  {
    DecodeOfEncode(x);
    DecodeOfEncode(y);
  }
}
