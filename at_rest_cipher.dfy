/**
 * Protection of cached secrets at rest: keyInit creates one key under a fixed alias
 * when none exists, and encrypt/decrypt pick the cipher by platform version.
 */
module AtRestCipher {
  import opened Wrappers

  /** Build.VERSION_CODES.M, the first version with hardware-backed AES keys. */
  const VersionCodeM: int := 23

  datatype Strategy = Aes | Rsa

  /** AES when the platform version is at least M, RSA otherwise. */
  function StrategyFor(sdk: int): (s: Strategy)
    ensures s == Aes <==> sdk >= VersionCodeM
  {
    if sdk >= VersionCodeM then Aes else Rsa
  }

  /** What keyInit's platform calls do: `storeLoads` for getInstance and load, `generationSucceeds` for the key generator. */
  datatype Platform = Platform(sdk: int, storeLoads: bool, generationSucceeds: bool)

  /** The aliases in the platform key store, and the keys generated under them, in order. */
  datatype KeyStoreState = KeyStoreState(aliases: set<string>, generated: seq<Strategy>)

  /**
   * keyInit: when the store loads and `alias` is absent, a key of the version's strategy
   * is generated under it; every failure is swallowed and leaves the store as it was.
   */
  function AfterKeyInit(ks: KeyStoreState, alias: string, env: Platform): (out: KeyStoreState)
    ensures alias in ks.aliases ==> out == ks
    ensures alias in out.aliases <==> alias in ks.aliases || (env.storeLoads && env.generationSucceeds)
    ensures out != ks ==> out == KeyStoreState(ks.aliases + {alias}, ks.generated + [StrategyFor(env.sdk)])
  {
    if !env.storeLoads || alias in ks.aliases || !env.generationSucceeds then ks
    else KeyStoreState(ks.aliases + {alias}, ks.generated + [StrategyFor(env.sdk)])
  }

  /** Once the alias exists, every later keyInit is a no-op, whatever the platform does. */
  lemma KeyInitIdempotent(ks: KeyStoreState, alias: string, first: Platform, second: Platform)
    requires alias in AfterKeyInit(ks, alias, first).aliases
    ensures AfterKeyInit(AfterKeyInit(ks, alias, first), alias, second) == AfterKeyInit(ks, alias, first)
  {
  }

  /** A run of keyInit calls, one per platform response. */
  function AfterKeyInits(ks: KeyStoreState, alias: string, calls: seq<Platform>): (out: KeyStoreState)
    ensures |out.generated| >= |ks.generated|
    decreases |calls|
  {
    if calls == [] then ks else AfterKeyInits(AfterKeyInit(ks, alias, calls[0]), alias, calls[1..])
  }

  /**
   * However many times keyInit runs, it generates at most one key, and none when the
   * alias was already present.
   */
  lemma {:induction false} KeyGeneratedAtMostOnce(ks: KeyStoreState, alias: string, calls: seq<Platform>)
    ensures var out := AfterKeyInits(ks, alias, calls);
            |out.generated| <= |ks.generated| + (if alias in ks.aliases then 0 else 1)
            && out.generated[..|ks.generated|] == ks.generated
    decreases |calls|
  {
    if calls != [] {
      var next := AfterKeyInit(ks, alias, calls[0]);
      KeyGeneratedAtMostOnce(next, alias, calls[1..]);
      var out := AfterKeyInits(next, alias, calls[1..]);
      assert out == AfterKeyInits(ks, alias, calls);
      if next != ks {
        assert next.generated[..|ks.generated|] == ks.generated;
        assert out.generated[..|ks.generated|] == out.generated[..|next.generated|][..|ks.generated|];
      }
    }
  }

  /** A cipher implementation (AES256 or RSA); `None` when the call throws. */
  datatype Cipher = Cipher(encrypt: string -> Option<string>, decrypt: string -> Option<string>)

  /** The branch encrypt and decrypt take on every call. */
  function Select(sdk: int, aes: Cipher, rsa: Cipher): (c: Cipher)
    ensures StrategyFor(sdk) == Aes ==> c == aes
    ensures StrategyFor(sdk) == Rsa ==> c == rsa
  {
    if sdk >= VersionCodeM then aes else rsa
  }

  /** encrypt: the selected cipher's result, or "" when it throws. */
  function Encrypt(sdk: int, aes: Cipher, rsa: Cipher, data: string): (r: string)
    ensures Select(sdk, aes, rsa).encrypt(data).None? ==> r == ""
    ensures Select(sdk, aes, rsa).encrypt(data).Some? ==> r == Select(sdk, aes, rsa).encrypt(data).value
  {
    match Select(sdk, aes, rsa).encrypt(data)
    case Some(cipherText) => cipherText
    case None => ""
  }

  /** decrypt: the selected cipher's result, or "" when it throws. */
  function Decrypt(sdk: int, aes: Cipher, rsa: Cipher, data: string): (r: string)
    ensures Select(sdk, aes, rsa).decrypt(data).None? ==> r == ""
    ensures Select(sdk, aes, rsa).decrypt(data).Some? ==> r == Select(sdk, aes, rsa).decrypt(data).value
  {
    match Select(sdk, aes, rsa).decrypt(data)
    case Some(plainText) => plainText
    case None => ""
  }

  /**
   * Failures collapse to "": a decryption that throws cannot be told apart from one that
   * yields the empty string.
   */
  lemma DecryptFailureLooksEmpty(sdk: int, aes: Cipher, rsa: Cipher, broken: string, empty: string)
    requires Select(sdk, aes, rsa).decrypt(broken).None?
    requires Select(sdk, aes, rsa).decrypt(empty) == Some("")
    ensures Decrypt(sdk, aes, rsa, broken) == Decrypt(sdk, aes, rsa, empty) == ""
  {
  }

  /**
   * encrypt and decrypt take the same branch, so when the selected cipher inverts its own
   * successful encryptions, decrypting a successful encryption gives the plaintext back.
   */
  lemma RoundTripWhenNoFailure(sdk: int, aes: Cipher, rsa: Cipher, data: string)
    requires var c := Select(sdk, aes, rsa);
             c.encrypt(data).Some? && c.decrypt(c.encrypt(data).value) == Some(data)
    ensures Decrypt(sdk, aes, rsa, Encrypt(sdk, aes, rsa, data)) == data
  {
  }

  /** The platform key store, shared by every keyInit call of the process. */
  class KeyVault {
    var aliases: set<string>
    var generated: seq<Strategy>

    function State(): KeyStoreState
      reads this
    {
      KeyStoreState(aliases, generated)
    }

    constructor (present: set<string>)
      ensures State() == KeyStoreState(present, [])
    {
      aliases, generated := present, [];
    }

    /** keyInit, with KEY_ALIAS as `alias`. */
    method KeyInit(alias: string, env: Platform)
      modifies this
      ensures State() == AfterKeyInit(old(State()), alias, env)
    {
      if !env.storeLoads {
        return;
      }
      if alias !in aliases {
        if env.generationSucceeds {
          generated := generated + [StrategyFor(env.sdk)];
          aliases := aliases + {alias};
        }
      }
    }
  }
}
