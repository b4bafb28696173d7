/** The HTTP Basic authentication scheme of section 2 of RFC 7617: the
    credentials `user-id ":" password`, UTF-8 encoded, then base64 encoded
    (section 4 of RFC 4648), after the word `Basic`. */
module BasicAuth {
  import opened Wrappers
  import Text
  import Utf8
  import Base64

  /** `base64.b64encode(f"{user}:{password}".encode()).decode()`. */
  function Token(user: string, password: string): string {
    Base64.EncodeText(user + ":" + password)
  }

  /** The value of the `Authorization` header, `f"Basic {token}"`. */
  function Header(user: string, password: string): (r: string)
    ensures |r| > 6 && r[..6] == "Basic "
    ensures r[6..] == Token(user, password)
  {
    "Basic " + Token(user, password)
  }

  /** How a server reads a Basic token back: base64, then UTF-8, then the text
      is split at its first colon. */
  function ParseToken(token: string): Option<(string, string)> {
    var bytes :- Base64.Decode(token);
    var text :- Utf8.Decode(bytes);
    var k :- Text.IndexOf(text, ':');
    Some((text[..k], text[k + 1..]))
  }

  /** The token carries the credentials losslessly: a user-id without a colon
      (section 2 of RFC 7617 forbids one) and any password come back intact. */
  lemma ParseTokenRoundTrip(user: string, password: string)
    requires ':' !in user
    ensures ParseToken(Token(user, password)) == Some((user, password))
  {
    var text := user + ":" + password;
    Utf8.DecodeEncode(text);
    assert text[|user|] == ':' && text[..|user|] == user;
    assert Text.IndexOf(text, ':') == Some(|user|);
    assert text[|user| + 1..] == password;
  }

  /** Distinct credentials give distinct headers, as long as the user-ids carry
      no colon. */
  lemma HeaderInjective(u1: string, p1: string, u2: string, p2: string)
    requires ':' !in u1 && ':' !in u2
    requires Header(u1, p1) == Header(u2, p2)
    ensures u1 == u2 && p1 == p2
  {
    assert Token(u1, p1) == Header(u1, p1)[6..];
    ParseTokenRoundTrip(u1, p1);
    ParseTokenRoundTrip(u2, p2);
  }
}
