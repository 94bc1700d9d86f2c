/** `verifyPrices`, the check both feed signers run on a price-feed
    transaction before signing it (src/worker/feed.ts:152-241 and
    pwa/src/worker/feed.ts:814-912).

    The transaction's outputs at the stage's assets validator carry, as an
    inline datum, a list of asset rows. Each row names an asset class, a
    price and the time of that price; the check looks the asset up, records
    its price in the caller's record, and compares the timestamp with the
    clock and the price with the Minswap pool. The src signer throws on the
    first complaint; the pwa signer collects the complaints and throws once
    at the end. Both throw at once on a malformed transaction or a failed
    lookup. */
module PriceCheck {
  import opened Wrappers
  import opened Js
  import opened Stages
  import opened Cardano
  import opened FeedEvents

  /** One decoded row `[assetClass, count, [num, den], timestamp]`. */
  datatype AssetRow = AssetRow(assetClass: AssetClass, priceNum: int, priceDen: int, timestamp: int)

  /** An inline datum: `expectListData` fails, or each item decodes to a
      row or fails with the decoder's message. */
  datatype AssetList =
    | NotAList(message: string)
    | Rows(rows: seq<Result<AssetRow, string>>)

  datatype OutputDatum = NoDatum | HashDatum | InlineDatum(list: AssetList)

  /** A transaction output, with its address in bech32 form. */
  datatype TxOutput = TxOutput(address: string, datum: OutputDatum)

  /** The Minswap comparison of a price: fetching or finding the pool
      throws, or the price is within the tolerance, or it is out of range
      and the pool's and the row's prices are given as formatted text. */
  datatype PoolOutcome =
    | PoolThrew(message: string)
    | WithinTolerance
    | OutOfRange(expected: string, got: string)

  /** What the check consults besides the transaction: the chain and
      metadata lookups of `getAssetClassInfo`, the price a row denotes
      (a floating-point quotient), the pool comparison and the local text of
      a timestamp. */
  datatype Env = Env(
    cip68Lookup: AssetClass -> Result<AssetInfo, string>,
    cip26: string -> Cip26Response,
    price: (AssetRow, AssetInfo) -> Price,
    pool: (AssetClass, AssetInfo, Price) -> PoolOutcome,
    localeString: int -> string)

  /** One run of the check: the stage, the clock reading and whether
      complaints are collected (pwa) or thrown (src). */
  datatype Context = Context(env: Env, stage: StageName, now: int, collect: bool) {
    /** The client `makeBlockfrostV0Client` builds for the stage. */
    function Client(): Client {
      Cardano.Client(NetworkOf(stage), env.cip68Lookup, env.cip26)
    }

    function Address(): string {
      Config(stage).assetsValidatorAddress
    }
  }

  /** Five minutes, in milliseconds. */
  const MAX_TIMESTAMP_DRIFT: int := 300000

  const NOT_AUTHORIZED: string := "not authorized for stage"
  const MISSING_DATUM: string := "asset group output missing datum"
  const NOT_INLINE: string := "asset group output doesn't have an inline datum"

  function Abs(x: int): nat {
    if x < 0 then -x else x
  }

  function TimestampError(env: Env, name: string, timestamp: int): string {
    "invalid " + name + " price timestamp " + env.localeString(timestamp)
  }

  function OutOfRangeError(name: string, expected: string, got: string): string {
    name + " price out of range, expected ~" + expected + ", got " + got
  }

  /** The state of a check: the price record, the complaints collected so
      far and the error thrown, if any. */
  datatype Progress = Progress(entries: seq<(string, Price)>, errors: seq<string>, thrown: Option<string>)

  /** A complaint about a row: collected, or thrown. */
  function Complain(ctx: Context, entries: seq<(string, Price)>, errors: seq<string>, e: string): Progress {
    if ctx.collect then Progress(entries, errors + [e], None) else Progress(entries, errors, Some(e))
  }

  /** A looked-up row: its price is recorded under the asset's ticker, then
      its timestamp and its price are compared. */
  function RecordRow(ctx: Context, p: Progress, a: AssetRow, info: AssetInfo): (r: Progress)
    ensures r.entries == Assign(p.entries, info.ticker, ctx.env.price(a, info))
    ensures p.errors <= r.errors
    ensures !ctx.collect ==> r.errors == p.errors
  {
    var price := ctx.env.price(a, info);
    var entries := Assign(p.entries, info.ticker, price);
    if Abs(a.timestamp - ctx.now) > MAX_TIMESTAMP_DRIFT then
      Complain(ctx, entries, p.errors, TimestampError(ctx.env, info.ticker, a.timestamp))
    else
      match ctx.env.pool(a.assetClass, info, price)
      case PoolThrew(m) => Progress(entries, p.errors, Some(m))
      case WithinTolerance => Progress(entries, p.errors, None)
      case OutOfRange(expected, got) =>
        Complain(ctx, entries, p.errors, OutOfRangeError(info.ticker, expected, got))
  }

  /** One iteration of the inner loop. */
  function RowStep(ctx: Context, p: Progress, row: Result<AssetRow, string>): (r: Progress)
    ensures p.errors <= r.errors
    ensures Keys(p.entries) <= Keys(r.entries)
    ensures r.thrown.None? ==>
              && p.thrown.None? && row.Success?
              && GetAssetClassInfo(ctx.Client(), row.value.assetClass).Success?
              && var info := GetAssetClassInfo(ctx.Client(), row.value.assetClass).value;
                 r.entries == Assign(p.entries, info.ticker, ctx.env.price(row.value, info))
    ensures r.thrown.None? ==> RowRecorded(ctx, row, r.entries)
  {
    if p.thrown.Some? then p
    else if row.Failure? then p.(thrown := Some(row.error))
    else
      var info := GetAssetClassInfo(ctx.Client(), row.value.assetClass);
      if info.Failure? then p.(thrown := Some(info.error))
      else
        AssignSpec(p.entries, info.value.ticker, ctx.env.price(row.value, info.value));
        RecordRow(ctx, p, row.value, info.value)
  }

  function RowsFold(ctx: Context, p: Progress, rows: seq<Result<AssetRow, string>>): Progress {
    if rows == [] then p else RowStep(ctx, RowsFold(ctx, p, rows[..|rows| - 1]), rows[|rows| - 1])
  }

  /** One iteration of the outer loop: outputs at other addresses are
      filtered out. */
  function OutputStep(ctx: Context, p: Progress, output: TxOutput): Progress {
    if p.thrown.Some? || output.address != ctx.Address() then p
    else
      match output.datum
      case NoDatum => p.(thrown := Some(MISSING_DATUM))
      case HashDatum => p.(thrown := Some(NOT_INLINE))
      case InlineDatum(NotAList(m)) => p.(thrown := Some(m))
      case InlineDatum(Rows(rows)) => RowsFold(ctx, p, rows)
  }

  function OutputsFold(ctx: Context, p: Progress, outputs: seq<TxOutput>): Progress {
    if outputs == [] then p
    else OutputStep(ctx, OutputsFold(ctx, p, outputs[..|outputs| - 1]), outputs[|outputs| - 1])
  }

  /** How a finished check ends: the thrown error, success without
      complaints, a single complaint rethrown as it is, or all of them
      joined with "; ". */
  function Outcome(p: Progress): Result<(), string> {
    if p.thrown.Some? then Failure(p.thrown.value)
    else if p.errors == [] then Success(())
    else if |p.errors| == 1 then Failure(p.errors[0])
    else Failure(Join(p.errors, "; "))
  }

  /** The outcome of `verifyPrices` and the price record it leaves. */
  function VerifyPricesSpec(ctx: Context, secrets: Value, outputs: seq<TxOutput>,
                            entries: seq<(string, Price)>): (r: (Result<(), string>, seq<(string, Price)>))
    ensures !Truthy(secrets) ==> r == (Failure(NOT_AUTHORIZED), entries)
    ensures r.0.Failure? && r.0.error != NOT_AUTHORIZED ==> Truthy(secrets)
  {
    if !Truthy(secrets) then (Failure(NOT_AUTHORIZED), entries)
    else
      var p := OutputsFold(ctx, Progress(entries, [], None), outputs);
      (Outcome(p), p.entries)
  }

  // ---------------------------------------------------------------------
  // A thrown error ends the check

  lemma {:induction false} RowsFoldStuck(ctx: Context, p: Progress, rows: seq<Result<AssetRow, string>>, j: nat)
    requires j <= |rows| && RowsFold(ctx, p, rows[..j]).thrown.Some?
    ensures RowsFold(ctx, p, rows) == RowsFold(ctx, p, rows[..j])
  {
    if j < |rows| {
      assert rows[..|rows| - 1][..j] == rows[..j];
      RowsFoldStuck(ctx, p, rows[..|rows| - 1], j);
    } else {
      assert rows[..j] == rows;
    }
  }

  lemma {:induction false} OutputsFoldStuck(ctx: Context, p: Progress, outputs: seq<TxOutput>, i: nat)
    requires i <= |outputs| && OutputsFold(ctx, p, outputs[..i]).thrown.Some?
    ensures OutputsFold(ctx, p, outputs) == OutputsFold(ctx, p, outputs[..i])
  {
    if i < |outputs| {
      assert outputs[..|outputs| - 1][..i] == outputs[..i];
      OutputsFoldStuck(ctx, p, outputs[..|outputs| - 1], i);
    } else {
      assert outputs[..i] == outputs;
    }
  }

  /** The body of the inner loop, on one row of a datum. */
  method CheckRow(prices: PriceRecord, ctx: Context, row: Result<AssetRow, string>, errors: seq<string>)
    returns (collected: seq<string>, thrown: Option<string>)
    modifies prices
    ensures Progress(prices.entries, collected, thrown) == RowStep(ctx, Progress(old(prices.entries), errors, None), row)
  {
    collected, thrown := errors, None;
    if row.Failure? {
      thrown := Some(row.error);
      return;
    }
    var a := row.value;
    var info := GetAssetClassInfo(ctx.Client(), a.assetClass);
    if info.Failure? {
      thrown := Some(info.error);
      return;
    }
    var name := info.value.ticker;
    var price := ctx.env.price(a, info.value);
    prices.Set(name, price);
    if Abs(a.timestamp - ctx.now) > MAX_TIMESTAMP_DRIFT {
      var e := TimestampError(ctx.env, name, a.timestamp);
      if ctx.collect {
        collected := collected + [e];
      } else {
        thrown := Some(e);
      }
    } else {
      match ctx.env.pool(a.assetClass, info.value, price)
      case PoolThrew(m) =>
        thrown := Some(m);
      case WithinTolerance =>
      case OutOfRange(expected, got) =>
        var e := OutOfRangeError(name, expected, got);
        if ctx.collect {
          collected := collected + [e];
        } else {
          thrown := Some(e);
        }
    }
  }

  /** `verifyPrices(tx, stage, prices)`: the secrets are those stored for
      the stage; `prices` is the caller's record, written in place. */
  method VerifyPrices(prices: PriceRecord, ctx: Context, secrets: Value, outputs: seq<TxOutput>)
    returns (r: Result<(), string>)
    modifies prices
    ensures (r, prices.entries) == VerifyPricesSpec(ctx, secrets, outputs, old(prices.entries))
  {
    if !Truthy(secrets) {
      return Failure(NOT_AUTHORIZED);
    }
    var addr := ctx.Address();
    ghost var init := Progress(prices.entries, [], None);
    var errors: seq<string> := [];
    var thrown: Option<string> := None;
    var i := 0;
    while i < |outputs| && thrown.None?
      invariant 0 <= i <= |outputs|
      invariant OutputsFold(ctx, init, outputs[..i]) == Progress(prices.entries, errors, thrown)
    {
      var output := outputs[i];
      assert outputs[..i + 1][..i] == outputs[..i];
      if output.address == addr {
        match output.datum
        case NoDatum =>
          thrown := Some(MISSING_DATUM);
        case HashDatum =>
          thrown := Some(NOT_INLINE);
        case InlineDatum(NotAList(m)) =>
          thrown := Some(m);
        case InlineDatum(Rows(rows)) =>
          ghost var start := Progress(prices.entries, errors, thrown);
          var j := 0;
          while j < |rows| && thrown.None?
            invariant 0 <= j <= |rows|
            invariant RowsFold(ctx, start, rows[..j]) == Progress(prices.entries, errors, thrown)
          {
            assert rows[..j + 1][..j] == rows[..j];
            errors, thrown := CheckRow(prices, ctx, rows[j], errors);
            j := j + 1;
          }
          if j < |rows| {
            RowsFoldStuck(ctx, start, rows, j);
          } else {
            assert rows[..j] == rows;
          }
      }
      i := i + 1;
    }
    if i < |outputs| {
      OutputsFoldStuck(ctx, init, outputs, i);
    } else {
      assert outputs[..i] == outputs;
    }
    if thrown.Some? {
      r := Failure(thrown.value);
    } else if |errors| == 0 {
      r := Success(());
    } else if |errors| == 1 {
      r := Failure(errors[0]);
    } else {
      r := Failure(Join(errors, "; "));
    }
  }

  // ---------------------------------------------------------------------
  // Properties

  /** The check only adds prices: the keys already in the record keep their
      places, and new keys follow them. */
  lemma {:induction false} RowsFoldKeysGrow(ctx: Context, p: Progress, rows: seq<Result<AssetRow, string>>)
    ensures Keys(p.entries) <= Keys(RowsFold(ctx, p, rows).entries)
    ensures p.errors <= RowsFold(ctx, p, rows).errors
  {
    if rows != [] {
      RowsFoldKeysGrow(ctx, p, rows[..|rows| - 1]);
    }
  }

  /** A row whose asset was looked up and whose price is in the record. */
  predicate RowRecorded(ctx: Context, row: Result<AssetRow, string>, entries: seq<(string, Price)>) {
    && row.Success?
    && GetAssetClassInfo(ctx.Client(), row.value.assetClass).Success?
    && GetAssetClassInfo(ctx.Client(), row.value.assetClass).value.ticker in Keys(entries)
  }

  lemma RowRecordedGrows(ctx: Context, row: Result<AssetRow, string>, e1: seq<(string, Price)>, e2: seq<(string, Price)>)
    requires RowRecorded(ctx, row, e1) && Keys(e1) <= Keys(e2)
    ensures RowRecorded(ctx, row, e2)
  {
    var name := GetAssetClassInfo(ctx.Client(), row.value.assetClass).value.ticker;
    var k :| 0 <= k < |Keys(e1)| && Keys(e1)[k] == name;
    assert Keys(e2)[k] == name;
  }

  /** When nothing is thrown, every row was decoded and looked up and its
      price is in the record: a collected complaint does not stop the check. */
  lemma {:induction false} RowsFoldRecordsEveryRow(ctx: Context, p: Progress, rows: seq<Result<AssetRow, string>>)
    requires RowsFold(ctx, p, rows).thrown.None?
    ensures p.thrown.None?
    ensures forall j :: 0 <= j < |rows| ==> RowRecorded(ctx, rows[j], RowsFold(ctx, p, rows).entries)
  {
    if rows != [] {
      var init := rows[..|rows| - 1];
      var q := RowsFold(ctx, p, init);
      var r := RowsFold(ctx, p, rows);
      assert r == RowStep(ctx, q, rows[|rows| - 1]);
      assert q.thrown.None? && Keys(q.entries) <= Keys(r.entries);
      RowsFoldRecordsEveryRow(ctx, p, init);
      forall j | 0 <= j < |rows|
        ensures RowRecorded(ctx, rows[j], r.entries)
      {
        if j < |init| {
          assert rows[j] == init[j];
          RowRecordedGrows(ctx, rows[j], q.entries, r.entries);
        } else {
          assert j == |rows| - 1;
        }
      }
    }
  }

  /** Every output at the validator address, when nothing is thrown, carries
      an inline list of rows that were all recorded. */
  predicate OutputChecked(ctx: Context, output: TxOutput, entries: seq<(string, Price)>) {
    output.address == ctx.Address() ==>
      && output.datum.InlineDatum?
      && output.datum.list.Rows?
      && forall j :: 0 <= j < |output.datum.list.rows| ==> RowRecorded(ctx, output.datum.list.rows[j], entries)
  }

  lemma {:induction false} OutputsFoldKeysGrow(ctx: Context, p: Progress, outputs: seq<TxOutput>)
    ensures Keys(p.entries) <= Keys(OutputsFold(ctx, p, outputs).entries)
    ensures p.errors <= OutputsFold(ctx, p, outputs).errors
  {
    if outputs != [] {
      var q := OutputsFold(ctx, p, outputs[..|outputs| - 1]);
      OutputsFoldKeysGrow(ctx, p, outputs[..|outputs| - 1]);
      var output := outputs[|outputs| - 1];
      if q.thrown.None? && output.address == ctx.Address() && output.datum.InlineDatum? && output.datum.list.Rows? {
        RowsFoldKeysGrow(ctx, q, output.datum.list.rows);
      }
    }
  }

  lemma {:induction false} OutputsFoldChecksEveryOutput(ctx: Context, p: Progress, outputs: seq<TxOutput>)
    requires OutputsFold(ctx, p, outputs).thrown.None?
    ensures forall i :: 0 <= i < |outputs| ==> OutputChecked(ctx, outputs[i], OutputsFold(ctx, p, outputs).entries)
  {
    if outputs != [] {
      var init := outputs[..|outputs| - 1];
      var q := OutputsFold(ctx, p, init);
      var output := outputs[|outputs| - 1];
      var r := OutputsFold(ctx, p, outputs);
      assert r == OutputStep(ctx, q, output);
      OutputsFoldChecksEveryOutput(ctx, p, init);
      if output.address == ctx.Address() {
        RowsFoldRecordsEveryRow(ctx, q, output.datum.list.rows);
        RowsFoldKeysGrow(ctx, q, output.datum.list.rows);
      }
      assert Keys(q.entries) <= Keys(r.entries);
      forall i | 0 <= i < |outputs|
        ensures OutputChecked(ctx, outputs[i], r.entries)
      {
        if i < |init| && outputs[i].address == ctx.Address() {
          assert outputs[i] == init[i];
          var rows := outputs[i].datum.list.rows;
          forall j | 0 <= j < |rows|
            ensures RowRecorded(ctx, rows[j], r.entries)
          {
            RowRecordedGrows(ctx, rows[j], q.entries, r.entries);
          }
        }
      }
    }
  }

  /** A successful check looked at every output of the validator and
      recorded the price of every row in them. */
  lemma SuccessChecksEverything(ctx: Context, secrets: Value, outputs: seq<TxOutput>, entries: seq<(string, Price)>)
    requires VerifyPricesSpec(ctx, secrets, outputs, entries).0.Success?
    ensures Truthy(secrets)
    ensures Keys(entries) <= Keys(VerifyPricesSpec(ctx, secrets, outputs, entries).1)
    ensures forall i :: 0 <= i < |outputs| ==>
              OutputChecked(ctx, outputs[i], VerifyPricesSpec(ctx, secrets, outputs, entries).1)
  {
    var p := Progress(entries, [], None);
    OutputsFoldChecksEveryOutput(ctx, p, outputs);
    OutputsFoldKeysGrow(ctx, p, outputs);
  }

  // ---------------------------------------------------------------------
  // Collecting complaints (pwa) against throwing them (src)

  /** `p` is a collecting check and `q` the throwing check on the same rows:
      the throwing check collects nothing, agrees with the collecting one
      while neither has complained, and once it throws, the collecting
      check's first complaint (or its own thrown error) is the same error. */
  predicate Agree(p: Progress, q: Progress) {
    && q.errors == []
    && (q.thrown.None? ==> p == q)
    && (q.thrown.Some? ==>
          (p.errors != [] && p.errors[0] == q.thrown.value) || (p.errors == [] && p.thrown == q.thrown))
  }

  lemma RowStepAgree(ctx: Context, p: Progress, q: Progress, row: Result<AssetRow, string>)
    requires Agree(p, q)
    ensures Agree(RowStep(ctx.(collect := true), p, row), RowStep(ctx.(collect := false), q, row))
  {
    var collecting, throwing := ctx.(collect := true), ctx.(collect := false);
    assert collecting.Client() == throwing.Client();
  }

  lemma {:induction false} RowsFoldAgree(ctx: Context, p: Progress, q: Progress, rows: seq<Result<AssetRow, string>>)
    requires Agree(p, q)
    ensures Agree(RowsFold(ctx.(collect := true), p, rows), RowsFold(ctx.(collect := false), q, rows))
  {
    if rows != [] {
      RowsFoldAgree(ctx, p, q, rows[..|rows| - 1]);
      RowStepAgree(ctx, RowsFold(ctx.(collect := true), p, rows[..|rows| - 1]),
                   RowsFold(ctx.(collect := false), q, rows[..|rows| - 1]), rows[|rows| - 1]);
    }
  }

  lemma OutputStepAgree(ctx: Context, p: Progress, q: Progress, output: TxOutput)
    requires Agree(p, q)
    ensures Agree(OutputStep(ctx.(collect := true), p, output), OutputStep(ctx.(collect := false), q, output))
  {
    var collecting, throwing := ctx.(collect := true), ctx.(collect := false);
    assert collecting.Address() == throwing.Address();
    if output.datum.InlineDatum? && output.datum.list.Rows? {
      RowsFoldAgree(ctx, p, q, output.datum.list.rows);
      if q.thrown.Some? && p.thrown.None? && output.address == ctx.Address() {
        RowsFoldKeysGrow(collecting, p, output.datum.list.rows);
      }
    }
  }

  lemma {:induction false} OutputsFoldAgree(ctx: Context, p: Progress, q: Progress, outputs: seq<TxOutput>)
    requires Agree(p, q)
    ensures Agree(OutputsFold(ctx.(collect := true), p, outputs), OutputsFold(ctx.(collect := false), q, outputs))
  {
    if outputs != [] {
      OutputsFoldAgree(ctx, p, q, outputs[..|outputs| - 1]);
      OutputStepAgree(ctx, OutputsFold(ctx.(collect := true), p, outputs[..|outputs| - 1]),
                      OutputsFold(ctx.(collect := false), q, outputs[..|outputs| - 1]), outputs[|outputs| - 1]);
    }
  }

  /** The collecting and the throwing mode of the check, under one
      environment, accept the same transactions and then leave the same
      price record; when the throwing mode rejects a transaction for a bad
      timestamp or price, that complaint is the first one the collecting
      mode records, unless the collecting mode throws the very same error.
      The two workers' checks also differ in their environments (how a
      price is read, the tolerance, the formatting), which this lemma does
      not relate. */
  lemma CollectingAgreesWithThrowing(ctx: Context, secrets: Value, outputs: seq<TxOutput>, entries: seq<(string, Price)>)
    ensures var collected := VerifyPricesSpec(ctx.(collect := true), secrets, outputs, entries);
            var thrown := VerifyPricesSpec(ctx.(collect := false), secrets, outputs, entries);
            && (collected.0.Success? <==> thrown.0.Success?)
            && (thrown.0.Success? ==> collected.1 == thrown.1)
    ensures Truthy(secrets) ==>
              var p := OutputsFold(ctx.(collect := true), Progress(entries, [], None), outputs);
              var q := OutputsFold(ctx.(collect := false), Progress(entries, [], None), outputs);
              && q.errors == []
              && (q.thrown.Some? ==>
                    (p.errors != [] && p.errors[0] == q.thrown.value) || p.thrown == q.thrown)
  {
    var init := Progress(entries, [], None);
    OutputsFoldAgree(ctx, init, init, outputs);
  }
}
