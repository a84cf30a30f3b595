/** The settings the core reads (environment-derived, see `app/core/config.py`) and the
    external primitives it calls but does not implement: `quote_plus`, SHA-256, bcrypt and
    JWT signing are passed in as functions. */
module Config {
  import opened Wrappers
  import opened Text

  datatype Settings = Settings(
    dbServer: string,
    dbDriver: string,
    trustServerCertificate: string,
    databaseName: string,
    secretKey: string,
    algorithm: string,
    accessTokenExpireMinutes: int)

  /** Library functions the code calls. `bcryptVerify` returns None where passlib raises
      (for instance on a stored value that is not a recognisable bcrypt hash). */
  datatype Primitives = Primitives(
    quotePlus: string -> string,
    sha256Hex: string -> string,
    bcryptHash: string -> string,
    bcryptVerify: (string, string) -> Option<bool>)

  /** `str(setting).lower() in ("1", "true", "yes")`. */
  predicate TrustSetting(s: string) {
    Lower(s) in {"1", "true", "yes"}
  }

  /** The `TrustServerCertificate` value written into connection strings. */
  function TrustFlag(s: string): string {
    if TrustSetting(s) then "yes" else "no"
  }

  predicate CharIs(c: char, lower: char)
    requires 'a' <= lower <= 'z'
  {
    c == lower || c == (lower as int - 32) as char
  }

  /** An independent statement of the same test: "1", or "true" / "yes" in any letter case. */
  predicate TrustSpelling(s: string) {
    s == "1"
    || (|s| == 4 && CharIs(s[0], 't') && CharIs(s[1], 'r') && CharIs(s[2], 'u') && CharIs(s[3], 'e'))
    || (|s| == 3 && CharIs(s[0], 'y') && CharIs(s[1], 'e') && CharIs(s[2], 's'))
  }

  lemma TrustFlagSpelling(s: string)
    ensures TrustFlag(s) == "yes" <==> TrustSpelling(s)
    ensures TrustFlag(s) == "no" <==> !TrustSpelling(s)
  {
    var l := Lower(s);
    if TrustSpelling(s) {
      if s == "1" {
        assert l == "1";
      } else if |s| == 4 {
        assert l == "true";
      } else {
        assert l == "yes";
      }
    }
    if l == "1" {
      assert s[0] == '1';
    } else if l == "true" {
      assert LowerChar(s[0]) == 't' && LowerChar(s[1]) == 'r' && LowerChar(s[2]) == 'u' && LowerChar(s[3]) == 'e';
    } else if l == "yes" {
      assert LowerChar(s[0]) == 'y' && LowerChar(s[1]) == 'e' && LowerChar(s[2]) == 's';
    }
  }
}
