/**
 * Cipher selection for KCP sessions (internal/tnet/kcp/block.go): a closed
 * registry from block name to required key size and constructor, and
 * newBlock, which derives a 32-byte key from the passphrase, looks the
 * name up, truncates the key to the registry's size and builds the cipher.
 * Key derivation (PBKDF2-HMAC-SHA256) and the cipher constructors are
 * foreign code and enter as function parameters.
 */
module BlockCrypt {
  import KcpConf

  newtype Byte = b: int | 0 <= b < 256

  /** The cipher constructors of the KCP library the registry refers to. */
  datatype Constructor =
    | NewAESBlockCrypt
    | NewAESGCMCrypt
    | NewSalsa20BlockCrypt
    | NewBlowfishBlockCrypt
    | NewTwofishBlockCrypt
    | NewCast5BlockCrypt
    | NewTripleDESBlockCrypt
    | NewTEABlockCrypt
    | NewXTEABlockCrypt
    | NewSimpleXORBlockCrypt
    | NewSM4BlockCrypt
    | NewNoneBlockCrypt

  /**
   * One registry entry: the key size the cipher needs (0 means the whole
   * derived key) and the constructor to call.
   */
  datatype Entry = Entry(keySize: nat, build: Constructor)

  const Registry: map<string, Entry> := map[
    "aes" := Entry(0, NewAESBlockCrypt),
    "aes-128" := Entry(16, NewAESBlockCrypt),
    "aes-128-gcm" := Entry(16, NewAESGCMCrypt),
    "aes-192" := Entry(24, NewAESBlockCrypt),
    "salsa20" := Entry(0, NewSalsa20BlockCrypt),
    "blowfish" := Entry(0, NewBlowfishBlockCrypt),
    "twofish" := Entry(0, NewTwofishBlockCrypt),
    "cast5" := Entry(16, NewCast5BlockCrypt),
    "3des" := Entry(24, NewTripleDESBlockCrypt),
    "tea" := Entry(16, NewTEABlockCrypt),
    "xtea" := Entry(16, NewXTEABlockCrypt),
    "xor" := Entry(0, NewSimpleXORBlockCrypt),
    "sm4" := Entry(16, NewSM4BlockCrypt),
    "none" := Entry(0, NewNoneBlockCrypt)
  ]

  /** Key-derivation parameters: fixed salt, iteration count and output length. */
  const Salt: string := "paqet"
  const Iterations: nat := 100000
  const KeyLen: nat := 32

  /**
   * A password-based key-derivation function: passphrase, salt, iteration
   * count and output length to derived bytes (PBKDF2 with HMAC-SHA256 in
   * the source).
   */
  type Kdf = (string, string, nat, nat) -> seq<Byte>

  /** The derivation function returns as many bytes as asked for, as PBKDF2 does. */
  ghost predicate YieldsKeyLen(kdf: Kdf)
  {
    forall p, s, i, n :: |kdf(p, s, i, n)| == n
  }

  datatype Result<T, E> = Ok(value: T) | Err(error: E)

  /**
   * Why newBlock failed: an unknown block name, or the constructor's own
   * error, carried unchanged.
   */
  datatype BlockError<E> = UnsupportedBlock(name: string) | ConstructorError(cause: E)

  /** The key derived from a passphrase: fixed salt, iterations and length. */
  function DeriveKey(kdf: Kdf, passphrase: string): (dkey: seq<Byte>)
    ensures YieldsKeyLen(kdf) ==> |dkey| == KeyLen
  {
    kdf(passphrase, Salt, Iterations, KeyLen)
  }

  /**
   * The key handed to the constructor: the first keySize bytes when the
   * entry names a size the derived key can supply, else the whole key.
   */
  function KeyFor(keySize: nat, dkey: seq<Byte>): (bkey: seq<Byte>)
    ensures bkey <= dkey
    ensures |bkey| == if 0 < keySize <= |dkey| then keySize else |dkey|
  {
    if keySize > 0 && |dkey| >= keySize then dkey[..keySize] else dkey
  }

  /**
   * newBlock: derive the key, look the block name up, truncate the key and
   * call the entry's constructor; an unknown name is an error.
   */
  function NewBlock<H, E>(
    block: string,
    passphrase: string,
    kdf: Kdf,
    construct: (Constructor, seq<Byte>) -> Result<H, E>
  ): (r: Result<H, BlockError<E>>)
    ensures r == Err(UnsupportedBlock(block)) <==> block !in Registry
    ensures block in Registry ==>
              var e := Registry[block];
              match construct(e.build, KeyFor(e.keySize, DeriveKey(kdf, passphrase)))
              case Ok(h) => r == Ok(h)
              case Err(cause) => r == Err(ConstructorError(cause))
  {
    var dkey := DeriveKey(kdf, passphrase);
    if block in Registry then
      var b := Registry[block];
      var bkey := KeyFor(b.keySize, dkey);
      match construct(b.build, bkey)
      case Err(err) => Err(ConstructorError(err))
      case Ok(c) => Ok(c)
    else
      Err(UnsupportedBlock(block))
  }

  /**
   * An unknown block name fails without consulting any constructor: the
   * result is the same whatever the constructors would do.
   */
  lemma UnsupportedCallsNothing<H, E>(
    block: string,
    passphrase: string,
    kdf: Kdf,
    c1: (Constructor, seq<Byte>) -> Result<H, E>,
    c2: (Constructor, seq<Byte>) -> Result<H, E>)
    requires block !in Registry
    ensures NewBlock(block, passphrase, kdf, c1) == NewBlock(block, passphrase, kdf, c2)
    ensures NewBlock(block, passphrase, kdf, c1).Err?
  {
  }

  /**
   * A known block name depends on the constructors only through the one
   * call the registry names, with the truncated key.
   */
  lemma OnlyTheNamedCall<H, E>(
    block: string,
    passphrase: string,
    kdf: Kdf,
    c1: (Constructor, seq<Byte>) -> Result<H, E>,
    c2: (Constructor, seq<Byte>) -> Result<H, E>)
    requires block in Registry
    requires
      var e := Registry[block];
      var bkey := KeyFor(e.keySize, DeriveKey(kdf, passphrase));
      c1(e.build, bkey) == c2(e.build, bkey)
    ensures NewBlock(block, passphrase, kdf, c1) == NewBlock(block, passphrase, kdf, c2)
  {
  }

  /**
   * With a derivation function that honours the requested length, the
   * constructor receives exactly keySize bytes, or all 32 derived bytes
   * when the size is 0.
   */
  lemma ConstructorKeyLength(e: Entry, kdf: Kdf, passphrase: string)
    requires e in Registry.Values
    requires YieldsKeyLen(kdf)
    ensures |KeyFor(e.keySize, DeriveKey(kdf, passphrase))| == if e.keySize > 0 then e.keySize else KeyLen
    ensures e.keySize == 0 ==> KeyFor(e.keySize, DeriveKey(kdf, passphrase)) == DeriveKey(kdf, passphrase)
  {
    RegistrySizes();
  }

  /**
   * The truncated key ignores the derived bytes past the entry's size: two
   * derived keys that agree on the first keySize bytes give the same key.
   */
  lemma TruncationIgnoresTail(keySize: nat, d1: seq<Byte>, d2: seq<Byte>)
    requires 0 < keySize <= |d1| && keySize <= |d2|
    requires d1[..keySize] == d2[..keySize]
    ensures KeyFor(keySize, d1) == KeyFor(keySize, d2)
  {
  }

  /** "aes" gets the whole derived key, "aes-128" its first 16 bytes, for the same constructor. */
  lemma Aes128VsAes(kdf: Kdf, passphrase: string)
    requires YieldsKeyLen(kdf)
    ensures Registry["aes"].build == Registry["aes-128"].build == NewAESBlockCrypt
    ensures KeyFor(Registry["aes"].keySize, DeriveKey(kdf, passphrase)) == DeriveKey(kdf, passphrase)
    ensures KeyFor(Registry["aes-128"].keySize, DeriveKey(kdf, passphrase)) == DeriveKey(kdf, passphrase)[..16]
  {
  }

  /** The key sizes recorded in the registry, name by name, and no others. */
  lemma RegistrySizes()
    ensures forall b :: b in Registry && Registry[b].keySize == 16 <==>
              b in {"aes-128", "aes-128-gcm", "cast5", "tea", "xtea", "sm4"}
    ensures forall b :: b in Registry && Registry[b].keySize == 24 <==> b in {"aes-192", "3des"}
    ensures forall b :: b in Registry && Registry[b].keySize == 0 <==>
              b in {"aes", "salsa20", "blowfish", "twofish", "xor", "none"}
    ensures forall e :: e in Registry.Values ==> e.keySize in {0, 16, 24}
  {
  }

  /** The registry's names are exactly the block names validation accepts. */
  lemma RegistryMatchesValidBlocks()
    ensures Registry.Keys == set b | b in KcpConf.ValidBlocks
  {
  }

  /** A record whose block name passed validation never meets the unsupported-block error. */
  lemma ValidatedBlockIsSupported<H, E>(
    s: KcpConf.Settings,
    kdf: Kdf,
    construct: (Constructor, seq<Byte>) -> Result<H, E>)
    requires KcpConf.InvalidBlock !in KcpConf.Violations(s)
    ensures s.block in Registry
    ensures NewBlock(s.block, s.key, kdf, construct) != Err(UnsupportedBlock(s.block))
  {
    KcpConf.ViolationsExactly(s);
    RegistryMatchesValidBlocks();
  }

  /** The "none" block is built by the pass-through constructor from the whole derived key. */
  lemma NoneUsesFullKey<H, E>(
    passphrase: string,
    kdf: Kdf,
    construct: (Constructor, seq<Byte>) -> Result<H, E>)
    ensures construct(NewNoneBlockCrypt, DeriveKey(kdf, passphrase)).Ok? ==>
              NewBlock("none", passphrase, kdf, construct) == Ok(construct(NewNoneBlockCrypt, DeriveKey(kdf, passphrase)).value)
  {
  }
}
