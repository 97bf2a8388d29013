/**
 * backend/middleware/verifyFirebaseToken.js: the checks on the `Authorization` header
 * and the mapping of verification failures to responses. Verifying the token with
 * Firebase is outside the model; it is the parameter `verify`.
 */
module Auth {
  import opened Wrappers
  import opened Seqs
  import opened Records

  const Prefix := "Bearer "

  /** The outcome of `admin.auth().verifyIdToken`: the decoded uid, or the error's `code`. */
  datatype VerifyOutcome = Verified(uid: Uid) | Failed(code: string)

  /** What the middleware does: call the next handler as `uid`, or answer 401 with a message and maybe a code. */
  datatype AuthResult = Authenticated(uid: Uid) | Rejected(message: string, code: Option<string>)

  // ---------------------------------------------------------------------------
  // String.prototype.split(' ')
  // ---------------------------------------------------------------------------

  function FirstSpace(s: string): Option<nat> {
    IndexOf(s, (c: char) => c == ' ')
  }

  /** `s.split(' ')`: the pieces between single spaces, empty pieces included. */
  function Split(s: string): (r: seq<string>)
    ensures |r| >= 1
    ensures forall k :: 0 <= k < |r| ==> ' ' !in r[k]
    decreases |s|
  {
    match FirstSpace(s)
    case None => [s]
    case Some(i) =>
      assert ' ' !in s[..i] by {
        forall c | c in s[..i] ensures c != ' ' {
          var k :| 0 <= k < i && s[..i][k] == c;
          assert s[k] == c;
        }
      }
      [s[..i]] + Split(s[i + 1..])
  }

  /** `parts.join(' ')`. */
  function Join(parts: seq<string>): string
    requires |parts| >= 1
    decreases |parts|
  {
    if |parts| == 1 then parts[0] else parts[0] + " " + Join(parts[1..])
  }

  /** Joining the pieces again gives back the string: `split` loses nothing. */
  lemma {:induction false} SplitJoin(s: string)
    ensures Join(Split(s)) == s
    decreases |s|
  {
    match FirstSpace(s)
    case None =>
    case Some(i) =>
      SplitJoin(s[i + 1..]);
      var rest := Split(s[i + 1..]);
      assert Split(s)[1..] == rest;
      assert s == s[..i] + " " + s[i + 1..];
  }

  // ---------------------------------------------------------------------------
  // The header checks
  // ---------------------------------------------------------------------------

  /** `authHeader.split(' ')[1]`, or `undefined` when there is no second piece. */
  function TokenOf(h: string): (r: Option<string>)
    ensures r.Some? ==> ' ' !in r.value
  {
    var parts := Split(h);
    if |parts| > 1 then Some(parts[1]) else None
  }

  /** Where a header stops before verification, or the token it hands on. */
  datatype HeaderCheck = NoToken | BadFormat | EmptyToken | Token(token: string)

  /** The three checks, in the order the middleware makes them. */
  function CheckHeader(header: Option<string>): (r: HeaderCheck)
    ensures r == NoToken <==> header.None? || header == Some("")
    ensures r == BadFormat <==> header.Some? && header.value != "" && !(Prefix <= header.value)
    ensures r.Token? ==> Prefix <= header.value && r.token != "" && ' ' !in r.token
  {
    if header.None? || header.value == "" then NoToken
    else if !(Prefix <= header.value) then BadFormat
    else match TokenOf(header.value)
      case None => EmptyToken
      case Some(t) =>
        if t == "" then EmptyToken
        else
          assert Split(header.value)[1] == t;
          Token(t)
  }

  /** The catch block: two Firebase codes get their own message; every other failure is an invalid token. */
  function FailureResponse(code: string): (r: AuthResult)
    ensures r.Rejected? && r.code.Some?
  {
    if code == "auth/id-token-expired" then Rejected("Token expired", Some("token-expired"))
    else if code == "auth/id-token-revoked" then Rejected("Token has been revoked", Some("token-revoked"))
    else Rejected("Unauthorized: Invalid token", Some("invalid-token"))
  }

  /** `verifyFirebaseToken`. */
  function Authenticate(header: Option<string>, verify: string -> VerifyOutcome): (r: AuthResult)
    ensures r.Authenticated? <==> CheckHeader(header).Token? && verify(CheckHeader(header).token).Verified?
    ensures r.Authenticated? ==> r.uid == verify(CheckHeader(header).token).uid
  {
    match CheckHeader(header)
    case NoToken => Rejected("Unauthorized: No token provided", None)
    case BadFormat => Rejected("Unauthorized: Invalid token format", None)
    case EmptyToken => Rejected("Unauthorized: Empty token", None)
    case Token(t) =>
      match verify(t)
      case Verified(uid) => Authenticated(uid)
      case Failed(code) => FailureResponse(code)
  }

  // ---------------------------------------------------------------------------
  // Properties
  // ---------------------------------------------------------------------------

  /** With the prefix present, the token is the text after it up to the next space. */
  lemma BearerToken(h: string)
    requires Prefix <= h
    ensures TokenOf(h) == Some(Split(h[|Prefix|..])[0])
  {
    assert h[..6] == "Bearer";
    assert FirstSpace(h) == Some(6) by {
      assert h[6] == ' ';
      assert forall j :: 0 <= j < 6 ==> h[j] != ' ';
    }
    assert Split(h) == [h[..6]] + Split(h[7..]);
  }

  /**
   * A header that fails a check is answered without calling the verifier: the answer
   * is the same whatever `verify` does, and it carries no code.
   */
  lemma HeaderRejectionIgnoresVerifier(header: Option<string>, v1: string -> VerifyOutcome, v2: string -> VerifyOutcome)
    requires !CheckHeader(header).Token?
    ensures Authenticate(header, v1) == Authenticate(header, v2)
    ensures Authenticate(header, v1).Rejected? && Authenticate(header, v1).code.None?
  {
  }

  /** The messages of the three header checks, each exactly when it applies. */
  lemma HeaderMessages(header: Option<string>, v: string -> VerifyOutcome)
    ensures Authenticate(header, v) == Rejected("Unauthorized: No token provided", None)
      <==> header.None? || header == Some("")
    ensures Authenticate(header, v) == Rejected("Unauthorized: Invalid token format", None)
      <==> header.Some? && header.value != "" && !(Prefix <= header.value)
    ensures Authenticate(header, v) == Rejected("Unauthorized: Empty token", None)
      <==> CheckHeader(header) == EmptyToken
  {
  }

  /** A verifier failure always answers with a code, and the code is one of three. */
  lemma FailureCodes(code: string)
    ensures var r := FailureResponse(code);
      && (code == "auth/id-token-expired" ==> r == Rejected("Token expired", Some("token-expired")))
      && (code == "auth/id-token-revoked" ==> r == Rejected("Token has been revoked", Some("token-revoked")))
      && (r.code.value == "invalid-token" <==> code != "auth/id-token-expired" && code != "auth/id-token-revoked")
  {
  }

  /** `"Bearer "` and `"Bearer  x"` both have an empty second piece, so both are refused as an empty token. */
  lemma EmptyTokenCases()
    ensures CheckHeader(Some("Bearer ")) == EmptyToken
    ensures CheckHeader(Some("Bearer  x")) == EmptyToken
  {
    BearerToken("Bearer ");
    assert "Bearer "[7..] == "";
    BearerToken("Bearer  x");
    var rest := "Bearer  x"[7..];
    assert rest == " x";
    assert FirstSpace(rest) == Some(0);
    assert Split(rest)[0] == "";
  }

  /** The usual header `"Bearer " + w`, with a token free of spaces, hands on exactly `w`. */
  lemma WholeTokenHandedOn(w: string)
    requires w != "" && ' ' !in w
    ensures CheckHeader(Some(Prefix + w)) == Token(w)
  {
    var h := Prefix + w;
    assert Prefix <= h;
    BearerToken(h);
    assert h[|Prefix|..] == w;
    assert FirstSpace(w) == None;
  }

  /** Anything after a second space is ignored: `"Bearer " + w + " " + tail` hands on `w`. */
  lemma ExtraPiecesIgnored(w: string, tail: string)
    requires w != "" && ' ' !in w
    ensures CheckHeader(Some(Prefix + w + " " + tail)) == Token(w)
  {
    var h := Prefix + w + " " + tail;
    assert Prefix <= h;
    BearerToken(h);
    var rest := h[|Prefix|..];
    assert rest == w + " " + tail;
    assert FirstSpace(rest) == Some(|w|) by {
      assert rest[|w|] == ' ';
      forall j | 0 <= j < |w| ensures rest[j] != ' ' {
        assert rest[j] == w[j];
      }
    }
    SplitHead(rest, |w|);
    assert rest[..|w|] == w;
  }

  /** The first piece ends at the first space. */
  lemma SplitHead(s: string, i: nat)
    requires FirstSpace(s) == Some(i)
    ensures Split(s)[0] == s[..i]
  {
  }
}
