/** The `mysql_native_password` authentication method of the MariaDB/MySQL
    client/server protocol: the client proves knowledge of the password by
    sending SHA1(pw) XOR SHA1(seed ++ SHA1(SHA1(pw))).

    SHA-1 (FIPS 180-4) is not modelled: every member takes it as a parameter
    `sha1`, an arbitrary total function returning a 20-byte digest. */
module NativePassword {
  import opened Wire

  /** Length of a SHA-1 digest, in bytes. */
  const DigestLength: nat := 20

  type Digest = s: seq<byte> | |s| == DigestLength witness seq(20, _ => 0)

  /** An uninterpreted message digest with SHA-1's output length. */
  type Hash = seq<byte> -> Digest

  /** Byte-wise exclusive or of two digests. */
  function Xor(a: Digest, b: Digest): (r: Digest)
    ensures forall i :: 0 <= i < DigestLength ==> r[i] == a[i] ^ b[i]
  {
    seq(DigestLength, i requires 0 <= i < DigestLength => a[i] ^ b[i])
  }

  /** XOR with the same digest twice gives back the original. */
  lemma XorInvolution(a: Digest, b: Digest)
    ensures Xor(Xor(a, b), b) == a
  {
    var c := Xor(Xor(a, b), b);
    forall i | 0 <= i < DigestLength ensures c[i] == a[i] {
      assert c[i] == (a[i] ^ b[i]) ^ b[i];
    }
  }

  /** The scramble the client sends for `password` and the seed the server
      sent (already stripped of its trailing NUL). An empty password sends
      nothing at all rather than a hash of the empty string. */
  function Scramble(sha1: Hash, password: seq<byte>, seed: seq<byte>): (r: seq<byte>)
    ensures password == [] <==> r == []
    ensures password != [] ==> |r| == DigestLength
  {
    if password == [] then []
    else
      var stage1 := sha1(password);
      var stage2 := sha1(stage1);
      Xor(stage1, sha1(seed + stage2))
  }

  /** The password bytes a possibly absent password stands for: Java's
      `password == null || password.isEmpty()` both give the empty case. */
  function Credential(password: Option<seq<byte>>): (pw: seq<byte>)
    ensures password.None? ==> pw == []
    ensures password.Some? ==> pw == password.value
  {
    if password.Some? then password.value else []
  }

  /** Computes the scramble with the source's loop over a fresh array:
      `returnBytes[i] = stage1[i] ^ digest[i]`. The result depends on
      `sha1`, `password` and `seed` only. */
  method EncryptPassword(sha1: Hash, password: Option<seq<byte>>, seed: seq<byte>)
    returns (out: seq<byte>)
    ensures out == Scramble(sha1, Credential(password), seed)
    ensures out == [] <==> password.None? || password.value == []
  {
    if password.None? || password.value == [] {
      return [];
    }
    var stage1 := sha1(password.value);
    var stage2 := sha1(stage1);
    var digest := sha1(seed + stage2);
    var returnBytes := new byte[|digest|];
    for i := 0 to |digest|
      invariant forall k :: 0 <= k < i ==> returnBytes[k] == stage1[k] ^ digest[k]
    {
      returnBytes[i] := stage1[i] ^ digest[i];
    }
    out := returnBytes[..];
    assert out == Xor(stage1, digest);
  }

  /** The seed the server sends ends with a NUL byte that is not part of the
      challenge: drop exactly one trailing byte; an empty seed stays empty. */
  function TruncateSeed(seed: seq<byte>): (r: seq<byte>)
    ensures seed == [] ==> r == []
    ensures seed != [] ==> r + [seed[|seed| - 1]] == seed
  {
    if |seed| > 0 then seed[..|seed| - 1] else []
  }

  /** What the server keeps for an account: SHA1(SHA1(password)). */
  function StoredHash(sha1: Hash, password: seq<byte>): Digest
  {
    sha1(sha1(password))
  }

  /** The server's side of the exchange: it unmasks the response with
      SHA1(seed ++ stored) and accepts when the hash of what it recovered is
      the stored hash. */
  function Unmask(sha1: Hash, stored: Digest, seed: seq<byte>, response: Digest): Digest
  {
    Xor(response, sha1(seed + stored))
  }

  predicate ServerAccepts(sha1: Hash, stored: Digest, seed: seq<byte>, response: seq<byte>)
  {
    |response| == DigestLength && sha1(Unmask(sha1, stored, seed, response)) == stored
  }

  /** The server recovers SHA1(password) exactly from the client's response. */
  lemma ServerRecoversStage1(sha1: Hash, password: seq<byte>, seed: seq<byte>)
    requires password != []
    ensures |Scramble(sha1, password, seed)| == DigestLength
    ensures Unmask(sha1, StoredHash(sha1, password), seed, Scramble(sha1, password, seed))
            == sha1(password)
  {
    XorInvolution(sha1(password), sha1(seed + StoredHash(sha1, password)));
  }

  /** A client that knows the password is accepted by a server that stores
      its double hash, whatever the seed. */
  lemma ServerAcceptsScramble(sha1: Hash, password: seq<byte>, seed: seq<byte>)
    requires password != []
    ensures ServerAccepts(sha1, StoredHash(sha1, password), seed, Scramble(sha1, password, seed))
  {
    ServerRecoversStage1(sha1, password, seed);
  }

  /** The plugin object: `initialize` stores the credential and the seed,
      `process` writes the response packet. */
  class NativePasswordPlugin {
    var authenticationData: Option<seq<byte>>
    var seed: seq<byte>

    /** The method's name in the authentication exchange (`TYPE`). */
    function Type(): string
    {
      "mysql_native_password"
    }

    /** The human-readable name. */
    function Name(): string
    {
      "mysql native password"
    }

    constructor ()
      ensures authenticationData == None && seed == []
    {
      authenticationData := None;
      seed := [];
    }

    method Initialize(authenticationData: Option<seq<byte>>, seed: seq<byte>)
      modifies this
      ensures this.authenticationData == authenticationData && this.seed == seed
    {
      this.seed := seed;
      this.authenticationData := authenticationData;
    }

    /** The payload of the packet `process` writes: empty when there is no
        credential, otherwise the scramble over the seed without its
        trailing NUL. */
    method Process(sha1: Hash) returns (packet: seq<byte>)
      ensures authenticationData.None? || authenticationData.value == [] ==> packet == []
      ensures authenticationData.Some? && authenticationData.value != [] ==>
                |packet| == DigestLength &&
                packet == Scramble(sha1, authenticationData.value, TruncateSeed(seed))
    {
      if authenticationData.None? || authenticationData.value == [] {
        packet := [];
      } else {
        var truncatedSeed: seq<byte>;
        if |seed| > 0 {
          truncatedSeed := seed[..|seed| - 1];
        } else {
          truncatedSeed := [];
        }
        packet := EncryptPassword(sha1, authenticationData, truncatedSeed);
      }
    }
  }
}
