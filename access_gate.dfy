/**
  The `verifyJWT` middleware: from the `Authorization` header to a 401, a
  403, or passing the decoded identity on to the route handler.
 */
module AccessGate {
  import opened Wrappers

  /**
    `jwt.verify` with the server's secret, seen from outside: the email the
    token was signed for, or None when the signature or expiry check fails.
   */
  type Verifier = string -> Option<string>

  /** The signer of `/jwt`: the token it issues for an email. */
  type Signer = string -> string

  /** What the middleware does: send an error response, or set `req.decoded` and call `next()` once. */
  datatype Outcome = Refuse(status: nat, message: string) | Next(decoded: string)

  const SPACE: char := ' '

  /** JavaScript's `s.split(" ")`: the pieces between spaces, empty ones included. */
  function Split(s: string): (r: seq<string>)
    ensures |r| >= 1
    ensures forall i :: 0 <= i < |r| ==> SPACE !in r[i]
  {
    if |s| == 0 then [""]
    else
      var rest := Split(s[1..]);
      if s[0] == SPACE then [""] + rest
      else [[s[0]] + rest[0]] + rest[1..]
  }

  /** `pieces.join(" ")`, the inverse of `Split`. */
  function Join(pieces: seq<string>): string {
    if |pieces| == 0 then ""
    else if |pieces| == 1 then pieces[0]
    else pieces[0] + [SPACE] + Join(pieces[1..])
  }

  /** Joining the pieces of a split gives the string back. */
  lemma {:induction false} JoinSplit(s: string)
    ensures Join(Split(s)) == s
  {
    if |s| > 0 {
      JoinSplit(s[1..]);
      var rest := Split(s[1..]);
      if s[0] == SPACE {
        assert s == [SPACE] + s[1..];
      } else if |rest| == 1 {
        assert s == [s[0]] + s[1..];
      } else {
        assert Join(rest) == rest[0] + [SPACE] + Join(rest[1..]);
        assert s == [s[0]] + s[1..];
        assert Split(s) == [[s[0]] + rest[0]] + rest[1..];
        assert Split(s)[1..] == rest[1..];
      }
    }
  }

  /** A first piece free of spaces splits off whole. */
  lemma {:induction false} SplitPrefix(a: string, b: string)
    requires SPACE !in a
    ensures Split(a + [SPACE] + b) == [a] + Split(b)
  {
    if |a| == 0 {
      assert (a + [SPACE] + b)[1..] == b;
    } else {
      assert (a + [SPACE] + b)[1..] == a[1..] + [SPACE] + b;
      SplitPrefix(a[1..], b);
      assert [a[0]] + a[1..] == a;
    }
  }

  /** A string free of spaces is a single piece. */
  lemma {:induction false} SplitSingle(a: string)
    requires SPACE !in a
    ensures Split(a) == [a]
  {
    if |a| > 0 {
      SplitSingle(a[1..]);
      assert [a[0]] + a[1..] == a;
    }
  }

  /** Splitting what was joined gives back the pieces, when none holds a space. */
  lemma {:induction false} SplitJoin(pieces: seq<string>)
    requires |pieces| >= 1
    requires forall i :: 0 <= i < |pieces| ==> SPACE !in pieces[i]
    ensures Split(Join(pieces)) == pieces
  {
    if |pieces| == 1 {
      SplitSingle(pieces[0]);
    } else {
      SplitPrefix(pieces[0], Join(pieces[1..]));
      SplitJoin(pieces[1..]);
    }
  }

  /** `authHeader.split(" ")[1]`: the second piece, or `undefined` when there is none. */
  function TokenOf(header: string): Option<string> {
    var pieces := Split(header);
    if |pieces| > 1 then Some(pieces[1]) else None
  }

  /**
    `verifyJWT`. A missing or empty header (both falsy) is refused with 401
    before the verifier is consulted; otherwise the second piece goes to
    `jwt.verify`, which refuses a missing or empty token itself, and any
    failure answers 403.
   */
  function Gate(header: Option<string>, verify: Verifier): (r: Outcome)
    ensures header.None? || header == Some("") ==> r == Refuse(401, "Unauthorized Access")
    ensures header.Some? && header.value != "" && r.Refuse? ==> r == Refuse(403, "Forbidded Access")
    ensures r.Next? <==> && header.Some? && header.value != ""
                         && TokenOf(header.value).Some? && TokenOf(header.value).value != ""
                         && verify(TokenOf(header.value).value).Some?
    ensures r.Next? ==> r.decoded == verify(TokenOf(header.value).value).value
  {
    if header.None? || header.value == "" then Refuse(401, "Unauthorized Access")
    else match TokenOf(header.value)
      case None => Refuse(403, "Forbidded Access")
      case Some(token) =>
        if token == "" then Refuse(403, "Forbidded Access")
        else match verify(token)
          case None => Refuse(403, "Forbidded Access")
          case Some(email) => Next(email)
  }

  /** Without a header the answer is 401 whatever the verifier would say: it is never consulted. */
  lemma AbsentHeaderIgnoresVerifier(header: Option<string>, v1: Verifier, v2: Verifier)
    requires header.None? || header == Some("")
    ensures Gate(header, v1) == Gate(header, v2) == Refuse(401, "Unauthorized Access")
  {
  }

  /** A header with no second piece (no space at all) is refused with 403, whatever the verifier. */
  lemma {:induction false} HeaderWithoutTokenForbidden(header: string, verify: Verifier)
    requires header != "" && SPACE !in header
    ensures Gate(Some(header), verify) == Refuse(403, "Forbidded Access")
  {
    SplitSingle(header);
  }

  /** A doubled space leaves an empty second piece, so the request is refused with 403. */
  lemma {:induction false} DoubleSpaceForbidden(scheme: string, rest: string, verify: Verifier)
    requires SPACE !in scheme
    ensures Gate(Some(scheme + [SPACE, SPACE] + rest), verify) == Refuse(403, "Forbidded Access")
  {
    assert scheme + [SPACE, SPACE] + rest == scheme + [SPACE] + ("" + [SPACE] + rest);
    SplitPrefix(scheme, "" + [SPACE] + rest);
    SplitPrefix("", rest);
  }

  /**
    `<scheme> <token>` followed by nothing or by further space-separated
    pieces is admitted exactly as the verifier decides on the token,
    whatever the scheme word is: the scheme is never checked, and pieces
    after the token are ignored.
   */
  lemma {:induction false} SchemeTokenHeader(scheme: string, token: string, rest: string, verify: Verifier)
    requires SPACE !in scheme && SPACE !in token && token != ""
    requires rest == "" || rest[0] == SPACE
    ensures Gate(Some(scheme + [SPACE] + token + rest), verify)
         == (match verify(token) case Some(email) => Next(email) case None => Refuse(403, "Forbidded Access"))
  {
    assert scheme + [SPACE] + token + rest == scheme + [SPACE] + (token + rest);
    SplitPrefix(scheme, token + rest);
    if rest == "" {
      assert token + rest == token;
      SplitSingle(token);
    } else {
      assert token + rest == token + [SPACE] + rest[1..];
      SplitPrefix(token, rest[1..]);
    }
  }
}
