/** `app/core/security.py`: the 72-byte bcrypt input limit and access-token claims. */
module Security {
  import opened Wrappers
  import opened Config
  import opened Utf8

  const BcryptMaxBytes := 72

  /** The password handed to bcrypt: unchanged when its UTF-8 form has at most 72 bytes,
      else the first 72 bytes decoded with errors ignored. */
  function BcryptInput(password: string): string {
    if |Encode(password)| > BcryptMaxBytes then DecodeIgnore(Encode(password)[..BcryptMaxBytes])
    else password
  }

  /** The truncated password is a character prefix of the input that fits in 72 bytes, the
      longest such prefix, equal to the input when that already fits, and truncating again
      changes nothing. */
  lemma BcryptInputSpec(password: string)
    ensures BcryptInput(password) <= password
    ensures |Encode(BcryptInput(password))| <= BcryptMaxBytes
    ensures |Encode(password)| <= BcryptMaxBytes ==> BcryptInput(password) == password
    ensures BcryptInput(password) != password ==>
              |Encode(BcryptInput(password))| + CharLen(password[|BcryptInput(password)|]) > BcryptMaxBytes
    ensures BcryptInput(BcryptInput(password)) == BcryptInput(password)
  {
    if |Encode(password)| > BcryptMaxBytes {
      DecodeEncodedPrefix(password, BcryptMaxBytes);
      FitBound(password, BcryptMaxBytes);
    }
  }

  /** When truncation happens, at most three bytes of the 72 are lost. */
  lemma BcryptInputKeepsMostBytes(password: string)
    requires |Encode(password)| > BcryptMaxBytes
    ensures |Encode(BcryptInput(password))| > BcryptMaxBytes - 4
  {
    BcryptInputSpec(password);
    if BcryptInput(password) == password {
      assert false;
    }
  }

  /** `get_password_hash`. */
  function GetPasswordHash(prims: Primitives, password: string): string {
    prims.bcryptHash(BcryptInput(password))
  }

  /** `verify_password`: passlib's answer, or None where it raises. */
  function VerifyPassword(prims: Primitives, plain: string, hashed: string): Option<bool> {
    prims.bcryptVerify(plain, hashed)
  }

  /** A JWT claim value. Instants are whole seconds. */
  datatype Claim = StrClaim(s: string) | IntClaim(n: int) | TimeClaim(t: int)

  /** What `jwt.encode` signs: the claims, the key and the algorithm. The signature itself
      is not modelled. */
  datatype Token = Token(claims: map<string, Claim>, key: string, algorithm: string)

  const DefaultLifetimeSeconds := 15 * 60

  /** `create_access_token(data, expires_delta)` at time `now` (seconds). `expiresDelta` is
      None when the argument is omitted; a zero delta is false in Python and is treated the
      same way. */
  function CreateAccessToken(cfg: Settings, data: map<string, Claim>, expiresDelta: Option<int>, now: int): (r: Token)
    ensures r.claims.Keys == data.Keys + {"exp"}
    ensures forall k :: k in data && k != "exp" ==> r.claims[k] == data[k]
    ensures expiresDelta.Some? && expiresDelta.value != 0 ==> r.claims["exp"] == TimeClaim(now + expiresDelta.value)
    ensures expiresDelta.None? || expiresDelta.value == 0 ==> r.claims["exp"] == TimeClaim(now + 900)
    ensures r.key == cfg.secretKey && r.algorithm == cfg.algorithm
  {
    var expire := if expiresDelta.Some? && expiresDelta.value != 0 then now + expiresDelta.value
                  else now + DefaultLifetimeSeconds;
    Token(data[("exp") := TimeClaim(expire)], cfg.secretKey, cfg.algorithm)
  }
}
