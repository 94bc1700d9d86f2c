/** The `ExplorerLink` component of the second web app
    (pwa/src/ui/components/ExplorerLink.tsx): a link to the Cardano explorer
    for a transaction, policy, address, public-key hash, asset or asset
    fingerprint, shown shortened unless the caller gives its own children. */
module ExplorerLink {
  import opened Wrappers
  import opened Js

  const DEFAULT_LENGTH: int := 13

  /** The props that name what is linked, in the order of the table. */
  const KEYS: seq<string> := ["tx", "policy", "address", "pkh", "asset", "fingerprint"]

  // ---------------------------------------------------------------------
  // slicing

  /** `x / 2` converted to an integer index the way `slice` converts it:
      truncated toward zero. */
  function TruncHalf(x: int): (h: int)
    ensures x >= 0 ==> h == x / 2
    ensures x < 0 ==> h == -((-x) / 2)
  {
    if x >= 0 then x / 2 else -((-x) / 2)
  }

  /** A `slice` argument: negative indices count from the end; both are
      clamped to the string. */
  function RelativeIndex(i: int, length: nat): (k: nat)
    ensures k <= length
    ensures 0 <= i <= length ==> k == i
  {
    if i < 0 then (if length + i < 0 then 0 else length + i)
    else if i > length then length else i
  }

  /** `s.slice(start, end)`. */
  function Slice(s: string, start: int, end: int): (r: string)
    ensures 0 <= start <= end <= |s| ==> r == s[start..end]
  {
    var from := RelativeIndex(start, |s|);
    var to := RelativeIndex(end, |s|);
    if from < to then s[from..to] else ""
  }

  /** `shorten(data, n)`: the whole string when it fits, otherwise a prefix
      of `(n - 3) / 2` characters, "..." and a suffix from index
      `data.length - (n - 3) / 2`, both indices truncated by `slice`. For a
      bound of at least 3 a long string becomes exactly `n` characters, an
      even bound keeping one more character at the end than at the start;
      below 3 no suffix is kept and the result is longer than the bound. */
  function ShortenTo(data: string, n: int): (r: string)
    ensures |data| <= n ==> r == data
    ensures |data| > n && n >= 3 ==>
              var head := (n - 3) / 2;
              var tail := n - 3 - head;
              && head <= tail <= head + 1
              && |r| == n
              && r == data[..head] + "..." + data[|data| - tail..]
    ensures |data| > n && n < 3 ==> |r| > n && |r| >= 3 && r[|r| - 3..] == "..."
  {
    if |data| <= n then data
    else
      var r := Slice(data, 0, TruncHalf(n - 3)) + "..." + Slice(data, TruncHalf(2 * |data| - (n - 3)), |data|);
      ShortenToShape(data, n);
      r
  }

  /** The shape of a shortened string, from the index arithmetic. */
  lemma ShortenToShape(data: string, n: int)
    requires |data| > n
    ensures var r := Slice(data, 0, TruncHalf(n - 3)) + "..." + Slice(data, TruncHalf(2 * |data| - (n - 3)), |data|);
            n >= 3 ==>
              var head := (n - 3) / 2;
              var tail := n - 3 - head;
              && head <= tail <= head + 1
              && |r| == n
              && r == data[..head] + "..." + data[|data| - tail..]
    ensures var r := Slice(data, 0, TruncHalf(n - 3)) + "..." + Slice(data, TruncHalf(2 * |data| - (n - 3)), |data|);
            n < 3 ==> |r| > n && |r| >= 3 && r[|r| - 3..] == "..."
  {
    var r := Slice(data, 0, TruncHalf(n - 3)) + "..." + Slice(data, TruncHalf(2 * |data| - (n - 3)), |data|);
    if n >= 3 {
      var head := (n - 3) / 2;
      var tail := n - 3 - head;
      assert TruncHalf(n - 3) == head;
      assert TruncHalf(2 * |data| - (n - 3)) == |data| - tail;
    } else {
      assert TruncHalf(2 * |data| - (n - 3)) >= |data|;
    }
  }

  /** With the default bound a long string keeps five characters at each
      end. */
  lemma ShortenDefault(data: string)
    requires |data| > DEFAULT_LENGTH
    ensures ShortenTo(data, DEFAULT_LENGTH) == data[..5] + "..." + data[|data| - 5..]
    ensures |ShortenTo(data, DEFAULT_LENGTH)| == DEFAULT_LENGTH
  {
  }

  // ---------------------------------------------------------------------
  // the link

  /** The position of the first own prop (in the props' order, not the
      table's) that names something to link; the length when none does. */
  function FirstLinkIndex(names: seq<string>): (i: nat)
    ensures i <= |names|
    ensures forall j :: 0 <= j < i ==> names[j] !in KEYS
    ensures i < |names| ==> names[i] in KEYS
  {
    if names == [] || names[0] in KEYS then 0
    else 1 + FirstLinkIndex(names[1..])
  }

  /** `Object.keys(props).filter((key) => KEYS.includes(key))[0]`. */
  function LinkKey(names: seq<string>): (k: Option<string>)
    ensures k.None? <==> forall i :: 0 <= i < |names| ==> names[i] !in KEYS
    ensures k.Some? ==>
              && k.value in KEYS
              && exists i :: 0 <= i < |names| && names[i] == k.value
                             && forall j :: 0 <= j < i ==> names[j] !in KEYS
  {
    var i := FirstLinkIndex(names);
    if i < |names| then Some(names[i]) else None
  }

  /** The explorer's base URL: Beta links to the main network's explorer. */
  function BaseUrl(stage: string): (r: Result<string, string>)
    ensures r.Success? <==> stage == "Beta" || stage == "Mainnet" || stage == "Preprod"
    ensures r.Failure? ==> r.error == "unhandled stage name " + stage
    ensures r.Success? ==> r.value == (if stage == "Preprod" then PREPROD_EXPLORER else MAINNET_EXPLORER)
  {
    match stage
    case "Beta" => Success(MAINNET_EXPLORER)
    case "Mainnet" => Success(MAINNET_EXPLORER)
    case "Preprod" => Success(PREPROD_EXPLORER)
    case _ => Failure("unhandled stage name " + stage)
  }

  const MAINNET_EXPLORER: string := "https://cexplorer.io"
  const PREPROD_EXPLORER: string := "https://preprod.cexplorer.io"

  /** What the ledger library computes for the two keys whose link is
      derived: the bech32 address of a public-key hash on the main network
      or not, and the fingerprint of an asset class; each throws on input it
      cannot decode. */
  datatype Ledger = Ledger(
    pkhAddress: (bool, string) -> Result<string, string>,
    fingerprint: string -> Result<string, string>)

  /** The message of the TypeError thrown when no prop names something to
      link and the table is indexed with `undefined`. */
  const NOT_A_FUNCTION: string := "href[key] is not a function"

  /** `createHref(key, data, stage)`, with its exceptions as failures. */
  function CreateHref(ledger: Ledger, key: Option<string>, data: Value, stage: string): (r: Result<string, string>)
    ensures LooseEqualsEmptyString(data) ==> r == Success("")
    ensures !LooseEqualsEmptyString(data) && BaseUrl(stage).Failure? ==> r == Failure(BaseUrl(stage).error)
    ensures !LooseEqualsEmptyString(data) && key.None? ==> r.Failure?
    ensures !LooseEqualsEmptyString(data) && r.Success? ==>
              && key.Some? && key.value in KEYS && BaseUrl(stage).Success?
              && BaseUrl(stage).value + "/" <= r.value
    ensures !LooseEqualsEmptyString(data) && BaseUrl(stage).Success? ==>
              var base := BaseUrl(stage).value;
              && (key == Some("tx") ==> r == Success(base + "/tx/" + ToText(data)))
              && (key == Some("policy") ==> r == Success(base + "/policy/" + ToText(data)))
              && (key == Some("address") ==> r == Success(base + "/address/" + ToText(data)))
              && (key == Some("fingerprint") ==> r == Success(base + "/asset/" + ToText(data)))
              && (key == Some("pkh") ==>
                    var a := ledger.pkhAddress(stage != "Preprod", ToText(data));
                    r == if a.Success? then Success(base + "/address/" + a.value) else Failure(a.error))
              && (key == Some("asset") ==>
                    var f := ledger.fingerprint(ToText(data));
                    r == if f.Success? then Success(base + "/asset/" + f.value) else Failure(f.error))
  {
    if LooseEqualsEmptyString(data) then Success("")
    else
      var isMainnet := stage != "Preprod";
      match BaseUrl(stage)
      case Failure(e) => Failure(e)
      case Success(base) =>
        var text := ToText(data);
        if key == Some("tx") then Success(base + "/tx/" + text)
        else if key == Some("policy") then Success(base + "/policy/" + text)
        else if key == Some("address") then Success(base + "/address/" + text)
        else if key == Some("pkh") then
          match ledger.pkhAddress(isMainnet, text)
          case Success(address) => Success(base + "/address/" + address)
          case Failure(e) => Failure(e)
        else if key == Some("asset") then
          match ledger.fingerprint(text)
          case Success(fp) => Success(base + "/asset/" + fp)
          case Failure(e) => Failure(e)
        else if key == Some("fingerprint") then Success(base + "/asset/" + text)
        else Failure(NOT_A_FUNCTION)
  }

  /** Beta and Mainnet link to the same pages; Preprod links elsewhere. */
  lemma HrefByStage(ledger: Ledger, key: Option<string>, data: Value)
    requires !LooseEqualsEmptyString(data)
    requires key == Some("tx") || key == Some("policy") || key == Some("address") || key == Some("fingerprint")
    ensures CreateHref(ledger, key, data, "Beta") == CreateHref(ledger, key, data, "Mainnet")
    ensures CreateHref(ledger, key, data, "Preprod") != CreateHref(ledger, key, data, "Mainnet")
  {
    var p := CreateHref(ledger, key, data, "Preprod").value;
    var m := CreateHref(ledger, key, data, "Mainnet").value;
    assert p[8] != m[8];
  }

  /** What the component renders: the link's target and its text. */
  datatype Rendered = Rendered(href: string, text: string)

  /** The names of the props, in their own order. */
  function PropNames(props: seq<(string, string)>): seq<string> {
    seq(|props|, i requires 0 <= i < |props| => props[i].0)
  }

  /** `(props as any)[key]`: the value of the link prop, undefined when
      there is none. */
  function LinkData(props: seq<(string, string)>): Value {
    var key := LinkKey(PropNames(props));
    if key.Some? && Lookup(LiftProps(props), key.value).Some? then Lookup(LiftProps(props), key.value).value
    else Undefined
  }

  /** `<ExplorerLink ...>` given its string props in their own order (the
      other props cannot name something to link), the stage, the `length`
      prop (None when absent) and the children (None when absent): the link
      goes to `createHref`'s target and shows the children when they are
      truthy, and the shortened data otherwise (an empty string is falsy). */
  function Render(ledger: Ledger, props: seq<(string, string)>, stage: string, length: Option<int>,
                  children: Option<string>): (r: Result<Rendered, string>)
    ensures LinkKey(PropNames(props)).None? ==> r.Failure?
    ensures var href := CreateHref(ledger, LinkKey(PropNames(props)), LinkData(props), stage);
            (r.Failure? <==> href.Failure?) && (r.Success? ==> r.value.href == href.value)
    ensures r.Success? && children.Some? && children.value != "" ==> r.value.text == children.value
    ensures r.Success? && (children.None? || children.value == "") ==>
              r.value.text == ShortenTo(ToText(LinkData(props)), if length.Some? then length.value else DEFAULT_LENGTH)
  {
    var key := LinkKey(PropNames(props));
    var data := LinkData(props);
    var n := if length.Some? then length.value else DEFAULT_LENGTH;
    match CreateHref(ledger, key, data, stage)
    case Failure(e) => Failure(e)
    case Success(href) =>
      if children.Some? && children.value != "" then Success(Rendered(href, children.value))
      else Success(Rendered(href, ShortenTo(ToText(data), n)))
  }

  /** The string props as untyped values. */
  function LiftProps(props: seq<(string, string)>): seq<(string, Value)> {
    seq(|props|, i requires 0 <= i < |props| => (props[i].0, Str(props[i].1)))
  }
}
