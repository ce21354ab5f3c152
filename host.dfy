/**
 * The WordPress functions the plugin calls but whose internals are not part of
 * this model (the sanitisers and validators). They are passed around as
 * function values; the few properties the proofs rely on are stated as
 * predicates and appear as hypotheses of the lemmas that need them.
 */
module WordPress {

  import Text

  datatype Host = Host(
    sanitizeEmail: string -> string,    // sanitize_email
    isEmail: string -> bool,            // is_email
    sanitizeText: string -> string,     // sanitize_text_field (with wp_unslash)
    sanitizeTextarea: string -> string, // sanitize_textarea_field
    sanitizeUser: string -> string,     // sanitize_user($s, true)
    escUrlRaw: string -> string)        // esc_url_raw

  /** `sanitize_email` leaves its own output alone. */
  ghost predicate EmailIdempotent(h: Host) {
    forall s :: h.sanitizeEmail(h.sanitizeEmail(s)) == h.sanitizeEmail(s)
  }

  /** Letters, digits and '-': the characters of a license key. */
  predicate IsPlainChar(c: char) {
    ('A' <= c <= 'Z') || ('a' <= c <= 'z') || ('0' <= c <= '9') || c == '-'
  }

  predicate IsPlain(s: string) {
    forall i :: 0 <= i < |s| ==> IsPlainChar(s[i])
  }

  /** `sanitize_text_field` does not change a string of letters, digits and dashes. */
  ghost predicate TextKeepsPlain(h: Host) {
    forall s :: IsPlain(s) ==> h.sanitizeText(s) == s
  }

  /** `sanitize_key`: lower-case, then keep only `[a-z0-9_-]`. */
  function SanitizeKey(s: string): (r: string)
    ensures forall i :: 0 <= i < |r| ==> ('a' <= r[i] <= 'z') || ('0' <= r[i] <= '9') || r[i] == '_' || r[i] == '-'
  {
    if s == [] then []
    else
      var c := Text.LowerChar(s[0]);
      (if ('a' <= c <= 'z') || ('0' <= c <= '9') || c == '_' || c == '-' then [c] else [])
      + SanitizeKey(s[1..])
  }
}
