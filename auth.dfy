/**
 * `verifyUser` of routes/mapa-astral.js and the handlers' split of a caught
 * error into 401 and 500. The identity provider's `verifyIdToken` is an
 * oracle: a total function from a token to a uid or an error message.
 */
module Auth {
  import opened Wrappers
  import opened JsStrings

  type Uid = string

  /** The oracle standing for `auth.verifyIdToken(token)`: the decoded uid, or the message it rejects with. */
  type TokenVerifier = string -> Result<Uid, string>

  const Scheme: string := "Bearer "

  /** The word the handlers look for to recognise an authentication error; every message of `verifyUser` starts with it. */
  const TokenWord: string := "Token"

  const MalformedHeaderMessage: string := TokenWord + " de autorização ausente ou formato inválido"
  const EmptyTokenMessage: string := TokenWord + " de autorização não fornecido"
  const InvalidTokenPrefix: string := TokenWord + " inválido: "

  /**
   * Lines 25-35: the token of an `Authorization` header, or the message
   * `verifyUser` throws before the identity provider is consulted. The token is
   * `header.split('Bearer ')[1]`: the text after the scheme, up to the next
   * occurrence of the scheme.
   */
  function BearerToken(header: Option<string>): (r: Result<string, string>)
    ensures r.Failure? ==> r.error == MalformedHeaderMessage || r.error == EmptyTokenMessage
    ensures r.Failure? && r.error == MalformedHeaderMessage <==> header.None? || !StartsWith(header.value, Scheme)
    ensures r.Success? ==> r.value != [] && !Contains(r.value, Scheme)
    ensures r.Success? ==> StartsWith(header.value, Scheme + r.value)
  {
    if header.None? || header.value == "" || !StartsWith(header.value, Scheme) then
      Failure(MalformedHeaderMessage)
    else
      var h := header.value;
      PrefixContained(h, Scheme);
      var token := SplitSecond(h, Scheme).value;
      if token == "" then
        Failure(EmptyTokenMessage)
      else
        FirstOccurrenceIsPrefix(h, Scheme);
        assert h[..|Scheme| + |token|] == h[..|Scheme|] + h[|Scheme|..][..|token|];
        Success(token)
  }

  /**
   * Lines 24-43: the uid of the caller, or the message of the error
   * `verifyUser` throws. The oracle is consulted only for a well-formed header,
   * and every failure message contains "Token".
   */
  function VerifyUser(header: Option<string>, verifyIdToken: TokenVerifier): (r: Result<Uid, string>)
    ensures BearerToken(header).Failure? ==> r == Failure(BearerToken(header).error)
    ensures BearerToken(header).Success? ==>
      match verifyIdToken(BearerToken(header).value)
      case Success(uid) => r == Success(uid)
      case Failure(why) => r == Failure(InvalidTokenPrefix + why)
    ensures r.Failure? ==> Contains(r.error, TokenWord)
  {
    match BearerToken(header)
    case Failure(message) =>
      MessagesMentionToken();
      Failure(message)
    case Success(token) =>
      match verifyIdToken(token)
      case Success(uid) => Success(uid)
      case Failure(why) =>
        PrefixContained(InvalidTokenPrefix + why, TokenWord);
        Failure(InvalidTokenPrefix + why)
  }

  /** Lines 232-243 and 293-303: a caught error whose message mentions "Token" or "Unauthorized" answers 401, any other 500. */
  function StatusForError(message: string): (code: int)
    ensures code == 401 || code == 500
  {
    if Contains(message, TokenWord) || Contains(message, "Unauthorized") then 401 else 500
  }

  /**
   * A message that starts with either keyword is answered 401; one with no
   * 'T' and no 'U' anywhere cannot contain either keyword and is answered 500.
   */
  lemma StatusForErrorCases(message: string)
    ensures StartsWith(message, TokenWord) || StartsWith(message, "Unauthorized") ==> StatusForError(message) == 401
    ensures (forall i :: 0 <= i < |message| ==> message[i] != 'T' && message[i] != 'U') ==> StatusForError(message) == 500
  {
    if StartsWith(message, TokenWord) {
      PrefixContained(message, TokenWord);
    } else if StartsWith(message, "Unauthorized") {
      PrefixContained(message, "Unauthorized");
    }
    if forall i :: 0 <= i < |message| ==> message[i] != 'T' && message[i] != 'U' {
      NotContainedWithoutFirstChar(message, TokenWord);
      NotContainedWithoutFirstChar(message, "Unauthorized");
    }
  }

  /** Every error `verifyUser` throws is answered with 401, whatever the oracle says. */
  lemma AuthFailureIsUnauthorized(header: Option<string>, verifyIdToken: TokenVerifier)
    requires VerifyUser(header, verifyIdToken).Failure?
    ensures StatusForError(VerifyUser(header, verifyIdToken).error) == 401
  {
  }

  /** A malformed header fails the same way for every oracle: the identity provider is never asked. */
  lemma MalformedHeaderIgnoresOracle(header: Option<string>, v1: TokenVerifier, v2: TokenVerifier)
    requires BearerToken(header).Failure?
    ensures VerifyUser(header, v1) == VerifyUser(header, v2)
    ensures VerifyUser(header, v1).Failure?
  {
  }

  /** `Bearer <t>` yields `t` for every non-empty token that does not itself contain the scheme. */
  lemma {:induction false} BearerRoundTrip(t: string)
    requires t != [] && !Contains(t, Scheme)
    ensures BearerToken(Some(Scheme + t)) == Success(t)
  {
    var h := Scheme + t;
    assert StartsWith(h, Scheme);
    FirstOccurrenceIsPrefix(h, Scheme);
    assert h[|Scheme|..] == t;
  }

  /** A header with a second scheme yields only the text before it; `Bearer Bearer x` has an empty token. */
  lemma {:induction false} TokenEndsAtNextScheme(t: string, rest: string)
    requires !Contains(t, Scheme)
    ensures BearerToken(Some(Scheme + t + Scheme + rest)) ==
      if t == [] then Failure(EmptyTokenMessage) else Success(t)
  {
    var h := Scheme + t + Scheme + rest;
    assert StartsWith(h, Scheme);
    FirstOccurrenceIsPrefix(h, Scheme);
    var after := h[|Scheme|..];
    assert after == t + Scheme + rest;
    assert OccursAt(after, Scheme, |t|);
    forall i | 0 <= i < |t| ensures !OccursAt(after, Scheme, i) {
      if i + |Scheme| <= |t| {
        assert after[i..i + |Scheme|] == t[i..i + |Scheme|];
        assert !OccursAt(t, Scheme, i);
      } else {
        // The 'B' that starts the second scheme would fall inside the first one.
        var k := |t| - i;
        assert after[i..i + |Scheme|][k] == after[|t|] == 'B';
        assert Scheme[k] != 'B';
      }
    }
    var j := IndexOf(after, Scheme).value;
    assert j == |t|;
    assert after[..j] == t;
  }

  lemma MessagesMentionToken()
    ensures Contains(MalformedHeaderMessage, TokenWord) && Contains(EmptyTokenMessage, TokenWord)
  {
    PrefixContained(MalformedHeaderMessage, TokenWord);
    PrefixContained(EmptyTokenMessage, TokenWord);
  }

  /** When `s` starts with `sep`, its first occurrence is at index 0. */
  lemma FirstOccurrenceIsPrefix(s: string, sep: string)
    requires StartsWith(s, sep)
    ensures IndexOf(s, sep) == Some(0)
  {
    assert OccursAt(s, sep, 0);
  }
}
