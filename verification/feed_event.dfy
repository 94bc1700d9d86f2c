/** Feed events and price records (pwa/src/worker/FeedEvent.ts): the record
    of one signing attempt, the `Record<string, number>` of prices that
    `verifyPrices` fills in place, and `formatPrices`. */
module FeedEvents {
  import opened Wrappers
  import opened Js

  /** A price in ADA per asset unit. Its arithmetic is not modelled. */
  type Price = real

  /** `FeedEvent`: what an attempt to sign a feed left behind. */
  datatype FeedEvent = FeedEvent(
    stage: Value,
    hash: string,
    error: Option<string>,
    timestamp: int,
    prices: seq<(string, Price)>,
    message: Option<string>)

  /** The keys of a record, in property order. */
  function Keys(entries: seq<(string, Price)>): (ks: seq<string>)
    ensures |ks| == |entries|
    ensures forall i :: 0 <= i < |entries| ==> ks[i] == entries[i].0
  {
    seq(|entries|, i requires 0 <= i < |entries| => entries[i].0)
  }

  predicate DistinctKeys(entries: seq<(string, Price)>) {
    forall i, j :: 0 <= i < j < |entries| ==> entries[i].0 != entries[j].0
  }

  /** The position of the first key equal to `key`, or -1. */
  function IndexOf(keys: seq<string>, key: string): (i: int)
    ensures -1 <= i < |keys|
    ensures 0 <= i ==> keys[i] == key && forall k :: 0 <= k < i ==> keys[k] != key
    ensures i < 0 ==> forall k :: 0 <= k < |keys| ==> keys[k] != key
  {
    if keys == [] then -1
    else if keys[0] == key then 0
    else
      var j := IndexOf(keys[1..], key);
      if j < 0 then -1 else j + 1
  }

  /** `record[key]`: undefined (None) for a missing key. */
  function Find(entries: seq<(string, Price)>, key: string): Option<Price> {
    var i := IndexOf(Keys(entries), key);
    if i < 0 then None else Some(entries[i].1)
  }

  /** `record[key] = price`: an existing property keeps its place and takes
      the new value; a new one goes last. */
  function Assign(entries: seq<(string, Price)>, key: string, price: Price): seq<(string, Price)> {
    var i := IndexOf(Keys(entries), key);
    if i < 0 then entries + [(key, price)] else entries[i := (key, price)]
  }

  /** After an assignment the key reads back the new price, every other key
      reads as before, the existing keys keep their order and a new key is
      added last. */
  lemma AssignSpec(entries: seq<(string, Price)>, key: string, price: Price)
    ensures Find(Assign(entries, key, price), key) == Some(price)
    ensures forall k :: k != key ==> Find(Assign(entries, key, price), k) == Find(entries, k)
    ensures Keys(Assign(entries, key, price)) ==
            if key in Keys(entries) then Keys(entries) else Keys(entries) + [key]
    ensures DistinctKeys(entries) ==> DistinctKeys(Assign(entries, key, price))
  {
    var r := Assign(entries, key, price);
    var ks := Keys(entries);
    if IndexOf(ks, key) < 0 {
      assert Keys(r) == ks + [key];
      assert (ks + [key])[|ks|] == key;
      assert forall m :: 0 <= m < |ks| ==> (ks + [key])[m] == ks[m];
      forall k | k != key
        ensures IndexOf(ks + [key], k) == IndexOf(ks, k)
      {
        var a, b := IndexOf(ks + [key], k), IndexOf(ks, k);
        if b >= 0 {
          assert (ks + [key])[b] == k;
        }
      }
    } else {
      assert Keys(r) == ks;
    }
  }

  /** The record `verifyPrices` writes into; the caller keeps it. */
  class PriceRecord {
    var entries: seq<(string, Price)>

    /** `{}`. */
    constructor ()
      ensures entries == []
    {
      entries := [];
    }

    /** `prices[key] = price`. */
    method Set(key: string, price: Price)
      modifies this
      ensures entries == Assign(old(entries), key, price)
    {
      entries := Assign(entries, key, price);
    }
  }

  /** One part of `formatPrices`: `<key>/ADA=<price.toFixed(6)>`. */
  function PricePart(key: string, price: Price, toFixed6: Price -> string): string {
    key + "/ADA=" + toFixed6(price)
  }

  function PriceParts(entries: seq<(string, Price)>, toFixed6: Price -> string): seq<string> {
    seq(|entries|, i requires 0 <= i < |entries| => PricePart(entries[i].0, entries[i].1, toFixed6))
  }

  const EMPTY_GROUPS: string := "empty groups"

  /** The text `formatPrices` returns for a record. */
  function PricesText(entries: seq<(string, Price)>, toFixed6: Price -> string): string {
    if entries == [] then EMPTY_GROUPS else Join(PriceParts(entries, toFixed6), ", ")
  }

  /** `formatPrices(prices)`: one part per key, in property order. */
  method FormatPrices(prices: PriceRecord, toFixed6: Price -> string) returns (text: string)
    ensures text == PricesText(prices.entries, toFixed6)
  {
    var parts: seq<string> := [];
    var i := 0;
    while i < |prices.entries|
      invariant 0 <= i <= |prices.entries|
      invariant parts == PriceParts(prices.entries[..i], toFixed6)
    {
      var (key, price) := prices.entries[i];
      parts := parts + [PricePart(key, price, toFixed6)];
      i := i + 1;
    }
    assert prices.entries[..i] == prices.entries;
    if |parts| == 0 {
      text := EMPTY_GROUPS;
    } else {
      text := Join(parts, ", ");
    }
  }

  lemma JoinEndsWithLast(parts: seq<string>, sep: string)
    requires parts != []
    ensures |parts[|parts| - 1]| <= |Join(parts, sep)|
    ensures Join(parts, sep)[|Join(parts, sep)| - |parts[|parts| - 1]|..] == parts[|parts| - 1]
  {
    if |parts| == 1 {
      assert Join(parts, sep) == "" + parts[0];
    } else {
      assert Join(parts, sep) == (Join(parts[..|parts| - 1], sep) + sep) + parts[|parts| - 1];
    }
  }

  /** The text is never empty; it is "empty groups" exactly for an empty
      record, since every part holds "/ADA="; otherwise it has one part per
      property, in order, each starting with its key. */
  lemma PricesTextShape(entries: seq<(string, Price)>, toFixed6: Price -> string)
    ensures PricesText(entries, toFixed6) != ""
    ensures PricesText(entries, toFixed6) == EMPTY_GROUPS <==> entries == []
    ensures entries != [] ==> PricesText(entries, toFixed6) == Join(PriceParts(entries, toFixed6), ", ")
    ensures |PriceParts(entries, toFixed6)| == |entries|
    ensures forall i :: 0 <= i < |entries| ==>
              entries[i].0 + "/ADA=" <= PriceParts(entries, toFixed6)[i]
  {
    var parts := PriceParts(entries, toFixed6);
    if entries != [] {
      var last := parts[|parts| - 1];
      var key := entries[|entries| - 1].0;
      assert last[|key|] == '/';
      JoinEndsWithLast(parts, ", ");
      var text := Join(parts, ", ");
      assert text[|text| - |last| + |key|] == last[|key|];
      assert forall k :: 0 <= k < |EMPTY_GROUPS| ==> EMPTY_GROUPS[k] != '/';
    }
  }
}
