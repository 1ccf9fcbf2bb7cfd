/** The code the core calls but does not contain: JSON serialisation, the
    base64url transcoding of Node's Buffer, HMAC-SHA256, URI component
    escaping and `URLSearchParams` serialisation. Each is a function field of
    `Primitives`; `Lawful` collects the facts about them that the proofs use. */
module Platform {
  import opened Json

  datatype Primitives = Primitives(
    stringify: Json -> string,           // JSON.stringify
    parse: string -> Option<Json>,       // JSON.parse; None where it throws
    toBase64Url: string -> string,       // Buffer.from(s, 'utf8').toString('base64url')
    fromBase64Url: string -> string,     // Buffer.from(s, 'base64url').toString('utf8')
    hmacHex: (string, string) -> string, // HMAC-SHA256(secret, value) as hex
    uriEncode: string -> string,         // encodeURIComponent
    uriDecode: string -> string,         // decodeURIComponent
    formEncode: string -> string)        // one name or value in URLSearchParams.toString()

  predicate IsHexDigit(c: char)
  {
    '0' <= c <= '9' || 'a' <= c <= 'f'
  }

  predicate IsHex(s: string)
  {
    forall k :: 0 <= k < |s| ==> IsHexDigit(s[k])
  }

  /** The characters the form-urlencoded serializer of URLSearchParams
      leaves as they are: ASCII letters and digits and `*-._`. */
  predicate FormSafeChar(c: char)
  {
    'a' <= c <= 'z' || 'A' <= c <= 'Z' || '0' <= c <= '9' || c == '*' || c == '-' || c == '.' || c == '_'
  }

  predicate FormSafe(s: string)
  {
    forall k :: 0 <= k < |s| ==> FormSafeChar(s[k])
  }

  /** The characters encodeURIComponent leaves in its output. */
  predicate UriSafeChar(c: char)
  {
    'a' <= c <= 'z' || 'A' <= c <= 'Z' || '0' <= c <= '9'
    || c == '-' || c == '_' || c == '.' || c == '!' || c == '~' || c == '*'
    || c == '\'' || c == '(' || c == ')' || c == '%'
  }

  predicate UriSafe(s: string)
  {
    forall k :: 0 <= k < |s| ==> UriSafeChar(s[k])
  }

  /** What the real primitives guarantee:
      - JSON.parse reads back what JSON.stringify wrote, which is never empty;
      - base64url decoding inverts encoding, a non-empty text encodes to a
        non-empty string, and the alphabet has no '.';
      - an HMAC-SHA256 hex digest is 64 lower-case hex digits;
      - decodeURIComponent inverts encodeURIComponent, whose output is made
        of URI-safe characters only (the empty string stays empty);
      - URLSearchParams leaves letters, digits and `*-._` unchanged. */
  ghost predicate Lawful(p: Primitives)
  {
    && (forall v :: p.parse(p.stringify(v)) == Some(v))
    && (forall v :: p.stringify(v) != "")
    && (forall s :: p.fromBase64Url(p.toBase64Url(s)) == s)
    && (forall s :: s != "" ==> p.toBase64Url(s) != "")
    && (forall s :: '.' !in p.toBase64Url(s))
    && (forall k, m :: |p.hmacHex(k, m)| == 64 && IsHex(p.hmacHex(k, m)))
    && (forall s :: p.uriDecode(p.uriEncode(s)) == s)
    && (forall s :: UriSafe(p.uriEncode(s)))
    && p.uriEncode("") == ""
    && (forall s :: FormSafe(s) ==> p.formEncode(s) == s)
  }
}
