/** The Android client's key-value store
    (android/app/src/main/java/pbg/oracle/app/Storage.java): one
    SharedPreferences string map with a plain namespace and an encrypted one
    under `key + "_encryption"`. */
module SecureStorage {
  import opened Wrappers
  import opened Bytes
  import opened Encryption

  /** What `getString` returns for an absent key here, and what a failed
      decryption turns into. */
  const NOT_AVAILABLE: string := "N/A"
  const ENCRYPTION_SUFFIX: string := "_encryption"

  /** The preferences key holding the encrypted value of `key`. */
  function EncryptedKey(key: string): (k: string)
    ensures |k| == |key| + |ENCRYPTION_SUFFIX| && k[..|key|] == key
  {
    key + ENCRYPTION_SUFFIX
  }

  /** A plain key and the key of its encrypted value are never the same
      entry, and distinct keys have distinct encrypted entries. */
  lemma EncryptedKeyDistinct(key: string, other: string)
    ensures EncryptedKey(key) != key
    ensures EncryptedKey(key) == EncryptedKey(other) ==> key == other
  {
    if EncryptedKey(key) == EncryptedKey(other) {
      assert |key| == |other|;
      assert key == EncryptedKey(key)[..|key|];
    }
  }

  /** `getEncryptionStorage(key)` as a function of the preferences and the
      keystore: the stored text ("" when absent) decrypted, any exception
      collapsed into "N/A"; the second component is the keystore after it. */
  function ReadEncrypted(p: Platform, prefs: map<string, string>, keys: map<string, SecretKey>,
                         available: bool, generated: SecretKey, key: string)
    : (string, map<string, SecretKey>)
  {
    var stored := if EncryptedKey(key) in prefs then prefs[EncryptedKey(key)] else "";
    var (r, after) := DecryptSpec(p, keys, available, generated, stored);
    (if r.Success? then r.value else NOT_AVAILABLE, after)
  }

  /** The preferences after `setEncryptionStorage(key, data)`: the encrypted
      entry written when `encrypt` succeeds, nothing written when it throws. */
  function WriteEncrypted(p: Platform, prefs: map<string, string>, keys: map<string, SecretKey>,
                          available: bool, generated: SecretKey, iv: seq<byte>, key: string, data: string)
    : (map<string, string>, map<string, SecretKey>)
  {
    var (r, after) := EncryptSpec(p, keys, available, generated, iv, data);
    (if r.Success? then prefs[EncryptedKey(key) := r.value] else prefs, after)
  }

  class Storage {
    /** The "MyPrefs" SharedPreferences file. */
    var prefs: map<string, string>

    constructor (prefs: map<string, string>)
      ensures this.prefs == prefs
    {
      this.prefs := prefs;
    }

    /** `getStorage(key)`: the stored string, or "N/A". */
    function GetStorage(key: string): (value: string)
      reads this
      ensures key !in prefs ==> value == NOT_AVAILABLE
    {
      if key in prefs then prefs[key] else NOT_AVAILABLE
    }

    /** `setStorage(key, data)`: `getStorage(key)` now returns `data`, every
        other key reads as before. */
    method SetStorage(key: string, data: string)
      modifies this
      ensures prefs == old(prefs)[key := data]
      ensures GetStorage(key) == data
      ensures forall k :: k != key ==> GetStorage(k) == old(GetStorage(k))
    {
      prefs := prefs[key := data];
    }

    /** `clearStorage(key)`: `getStorage(key)` now returns "N/A", every other
        key reads as before; clearing again changes nothing. */
    method ClearStorage(key: string)
      modifies this
      ensures prefs == old(prefs) - {key}
      ensures GetStorage(key) == NOT_AVAILABLE
      ensures forall k :: k != key ==> GetStorage(k) == old(GetStorage(k))
    {
      prefs := prefs - {key};
    }

    /** `setEncryptionStorage(key, data)`; `iv` and `generated` are what the
        cipher and the key generator produce. */
    method SetEncryptionStorage(ks: KeyStore, p: Platform, key: string, data: string,
                                iv: seq<byte>, generated: SecretKey)
      modifies this, ks
      ensures ks.available == old(ks.available)
      ensures (prefs, ks.entries) == WriteEncrypted(p, old(prefs), old(ks.entries), old(ks.available), generated, iv, key, data)
    {
      var r := Encrypt(ks, p, data, iv, generated);
      if r.Success? {
        prefs := prefs[EncryptedKey(key) := r.value];
      }
    }

    /** `getEncryptionStorage(key)`. */
    method GetEncryptionStorage(ks: KeyStore, p: Platform, key: string, generated: SecretKey)
      returns (value: string)
      modifies ks
      ensures ks.available == old(ks.available)
      ensures (value, ks.entries) == ReadEncrypted(p, prefs, old(ks.entries), old(ks.available), generated, key)
    {
      var stored := if EncryptedKey(key) in prefs then prefs[EncryptedKey(key)] else "";
      var r := Decrypt(ks, p, stored, generated);
      value := if r.Success? then r.value else NOT_AVAILABLE;
    }
  }

  /** Writing an encrypted value never touches a plain entry of the same
      name, nor any entry other than `key + "_encryption"`. */
  lemma WriteEncryptedFrame(p: Platform, prefs: map<string, string>, keys: map<string, SecretKey>,
                            available: bool, generated: SecretKey, iv: seq<byte>, key: string, data: string)
    ensures var (after, _) := WriteEncrypted(p, prefs, keys, available, generated, iv, key, data);
      forall k :: k != EncryptedKey(key) ==> (k in after <==> k in prefs) && (k in prefs ==> after[k] == prefs[k])
    ensures var (after, _) := WriteEncrypted(p, prefs, keys, available, generated, iv, key, data);
      (key in after <==> key in prefs) && (key in prefs ==> after[key] == prefs[key])
  {
    EncryptedKeyDistinct(key, key);
  }

  /** If the keystore cannot be opened, `setEncryptionStorage` leaves the
      preferences unchanged. */
  lemma WriteEncryptedFailure(p: Platform, prefs: map<string, string>, keys: map<string, SecretKey>,
                              generated: SecretKey, iv: seq<byte>, key: string, data: string)
    ensures WriteEncrypted(p, prefs, keys, false, generated, iv, key, data) == (prefs, keys)
  {
  }

  /** An absent encrypted entry reads as "N/A" (the empty text fails the
      12-byte split) and no key is created for it. */
  lemma ReadEncryptedAbsent(p: Platform, prefs: map<string, string>, keys: map<string, SecretKey>,
                            available: bool, generated: SecretKey, key: string)
    requires p.base64Decode("") == Some([])
    requires EncryptedKey(key) !in prefs
    ensures ReadEncrypted(p, prefs, keys, available, generated, key) == (NOT_AVAILABLE, keys)
  {
    DecryptEmpty(p, keys, available, generated);
  }

  /** Every failure reads as "N/A": a stored "N/A" cannot be told apart from
      an absent, tampered or undecryptable entry. */
  lemma ReadEncryptedFailure(p: Platform, prefs: map<string, string>, keys: map<string, SecretKey>,
                             available: bool, generated: SecretKey, key: string)
    ensures var stored := if EncryptedKey(key) in prefs then prefs[EncryptedKey(key)] else "";
      DecryptSpec(p, keys, available, generated, stored).0.Failure? ==>
        ReadEncrypted(p, prefs, keys, available, generated, key).0 == NOT_AVAILABLE
  {
  }

  /** `getEncryptionStorage(key)` after `setEncryptionStorage(key, data)`
      returns `data`, provided the keystore opens and the platform keeps its
      promises; the keystore is left as the write left it. */
  lemma EncryptionStorageRoundTrip(p: Platform, prefs: map<string, string>, keys: map<string, SecretKey>,
                                   first: SecretKey, later: SecretKey, iv: seq<byte>, key: string, data: string)
    requires Valid(p) && |iv| == IV_LENGTH
    ensures var (prefs', keys') := WriteEncrypted(p, prefs, keys, true, first, iv, key, data);
      ReadEncrypted(p, prefs', keys', true, later, key) == (data, keys')
  {
    DecryptEncrypt(p, keys, first, later, iv, data);
  }
}
