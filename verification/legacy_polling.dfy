/** The polling loop of the older Android client
    (android/src/pbg/oracle/app/PollingThread.java): every ten seconds it
    fetches the token supply without authentication and stores the body,
    stamped with the time of day, in the single "result" slot. */
module LegacyPolling {
  import opened Http
  import ResultStorage

  const SUPPLY_URL: string := "https://api.token.pbg.io/token/supply"
  const SLEEP_MILLIS: nat := 10000

  /** What one pass of `run` meets: the outcome of the request, the clock
      `now()` reads, and whether `Thread.sleep` throws. */
  datatype Round = Round(exchange: Exchange, clock: Time, sleepThrows: bool)

  /** Whether a round's `Thread.sleep` throws. */
  const Interrupted := (r: Round) => r.sleepThrows

  /** The value `run` stores for a round: `getHTTP(url) + "@" + now()`. */
  function Entry(r: Round): string
    requires ValidTime(r.clock)
  {
    Body(r.exchange) + "@" + FormatTime(r.clock)
  }

  /** `run()`, over the rounds the environment provides, at least one of
      which interrupts the sleep. The loop stops right after the first
      interrupted sleep, whatever the requests did, and the "result" slot
      holds the entry of that last round only. */
  method Run(storage: ResultStorage.Storage, rounds: seq<Round>) returns (iterations: nat)
    requires true in SleepThrows(rounds, Interrupted)
    requires forall i :: 0 <= i < |rounds| ==> ValidTime(rounds[i].clock)
    modifies storage
    ensures iterations == FirstThrow(SleepThrows(rounds, Interrupted)) + 1
    ensures storage.prefs == old(storage.prefs)[ResultStorage.RESULT_KEY := Entry(rounds[iterations - 1])]
  {
    ghost var flags := SleepThrows(rounds, Interrupted);
    ghost var last := FirstThrow(flags);
    var i := 0;
    while true
      invariant i <= last
      invariant i == 0 ==> storage.prefs == old(storage.prefs)
      invariant i > 0 ==> storage.prefs == old(storage.prefs)[ResultStorage.RESULT_KEY := Entry(rounds[i - 1])]
      decreases last - i
    {
      var result := ReadExchange(rounds[i].exchange);
      storage.SetResult(result + "@" + FormatTime(rounds[i].clock));
      assert flags[i] == rounds[i].sleepThrows;
      if rounds[i].sleepThrows {
        iterations := i + 1;
        break;
      }
      assert i != last;
      i := i + 1;
    }
  }
}
