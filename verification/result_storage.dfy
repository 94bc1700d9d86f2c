/** The older Android client's store (android/src/pbg/oracle/app/Storage.java):
    a single SharedPreferences slot, "result". */
module ResultStorage {

  const RESULT_KEY: string := "result"
  /** What `getResult` returns before any `setResult`. */
  const NOT_AVAILABLE: string := "NA"

  class Storage {
    /** The "MyPrefs" SharedPreferences file. */
    var prefs: map<string, string>

    constructor (prefs: map<string, string>)
      ensures this.prefs == prefs
    {
      this.prefs := prefs;
    }

    /** `getResult()`: the stored result, or "NA". */
    function GetResult(): (result: string)
      reads this
      ensures RESULT_KEY !in prefs ==> result == NOT_AVAILABLE
    {
      if RESULT_KEY in prefs then prefs[RESULT_KEY] else NOT_AVAILABLE
    }

    /** `setResult(result)`: overwrites the one slot; `getResult` returns the
        latest value and no other key is written. */
    method SetResult(result: string)
      modifies this
      ensures prefs == old(prefs)[RESULT_KEY := result]
      ensures GetResult() == result
    {
      prefs := prefs[RESULT_KEY := result];
    }
  }
}
