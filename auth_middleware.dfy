/**
 * The server's `protect` middleware: it takes the token out of a `Bearer` header,
 * answers 401 when there is none or it does not verify, and otherwise records the
 * decoded claims on the request and passes it on.
 */
module AuthMiddleware {
  import opened Wrappers

  // ---------------------------------------------------------------------------
  // `split(' ')`

  /** `s.split(c)` for a one-character separator: the pieces between consecutive `c`s. */
  function SplitOn(s: string, c: char): (parts: seq<string>)
    ensures |parts| >= 1
    decreases |s|
  {
    if s == [] then [""]
    else if s[0] == c then [""] + SplitOn(s[1..], c)
    else
      var rest := SplitOn(s[1..], c);
      [[s[0]] + rest[0]] + rest[1..]
  }

  /** The pieces with `c` put back between them. */
  function JoinWith(parts: seq<string>, c: char): string
    requires |parts| >= 1
    decreases |parts|
  {
    if |parts| == 1 then parts[0] else parts[0] + [c] + JoinWith(parts[1..], c)
  }

  lemma JoinExtendFirst(x: char, parts: seq<string>, c: char)
    requires |parts| >= 1
    ensures JoinWith([[x] + parts[0]] + parts[1..], c) == [x] + JoinWith(parts, c)
  {
    var ps := [[x] + parts[0]] + parts[1..];
    assert ps[1..] == parts[1..];
  }

  /** Joining the pieces with the separator gives the text back, and no piece holds the separator. */
  lemma {:induction false} SplitOnRoundTrip(s: string, c: char)
    ensures JoinWith(SplitOn(s, c), c) == s
    ensures forall k :: 0 <= k < |SplitOn(s, c)| ==> c !in SplitOn(s, c)[k]
    decreases |s|
  {
    if s == [] {
    } else if s[0] == c {
      SplitOnRoundTrip(s[1..], c);
      var ps := [""] + SplitOn(s[1..], c);
      assert ps[1..] == SplitOn(s[1..], c);
      assert s == [c] + s[1..];
    } else {
      SplitOnRoundTrip(s[1..], c);
      var rest := SplitOn(s[1..], c);
      JoinExtendFirst(s[0], rest, c);
      assert s == [s[0]] + s[1..];
      assert SplitOn(s, c) == [[s[0]] + rest[0]] + rest[1..];
      assert forall k :: 1 <= k < |SplitOn(s, c)| ==> SplitOn(s, c)[k] == rest[k];
    }
  }

  /** The longest prefix of `s` without `c`. */
  function TakeUntil(s: string, c: char): (r: string)
    ensures r <= s && c !in r
    ensures |r| < |s| ==> s[|r|] == c
    decreases |s|
  {
    if s == [] || s[0] == c then "" else [s[0]] + TakeUntil(s[1..], c)
  }

  /** The first piece of a split is the text up to the first separator. */
  lemma {:induction false} FirstPieceIsTakeUntil(s: string, c: char)
    ensures SplitOn(s, c)[0] == TakeUntil(s, c)
    decreases |s|
  {
    if s != [] && s[0] != c {
      FirstPieceIsTakeUntil(s[1..], c);
    }
  }

  lemma SplitOnCons(x: char, u: string, c: char)
    requires x != c
    ensures SplitOn([x] + u, c) == [[x] + SplitOn(u, c)[0]] + SplitOn(u, c)[1..]
  {
    assert ([x] + u)[1..] == u;
  }

  /** A word without the separator, the separator and the rest: the word is the first piece. */
  lemma {:induction false} SplitAfterWord(w: string, rest: string, c: char)
    requires c !in w
    ensures SplitOn(w + [c] + rest, c) == [w] + SplitOn(rest, c)
    decreases |w|
  {
    if w == [] {
      assert w + [c] + rest == [c] + rest;
      assert ([c] + rest)[1..] == rest;
    } else {
      SplitAfterWord(w[1..], rest, c);
      var u := w[1..] + [c] + rest;
      assert w + [c] + rest == [w[0]] + u;
      SplitOnCons(w[0], u, c);
      assert [w[0]] + w[1..] == w;
    }
  }

  // ---------------------------------------------------------------------------
  // The token

  const Prefix := "Bearer "

  /**
   * `authHeader.startsWith('Bearer ') ? authHeader.split(' ')[1] : null`: the text
   * between the first and the second space of a `Bearer` header.
   */
  function BearerToken(authHeader: string): (token: Option<string>)
    ensures token.Some? <==> Prefix <= authHeader
    ensures token.Some? ==> token.value == TakeUntil(authHeader[|Prefix|..], ' ')
  {
    if Prefix <= authHeader then
      var rest := authHeader[|Prefix|..];
      assert authHeader == "Bearer" + [' '] + rest;
      SplitAfterWord("Bearer", rest, ' ');
      FirstPieceIsTakeUntil(rest, ' ');
      Some(SplitOn(authHeader, ' ')[1])
    else None
  }

  /** Only the second field counts: `Bearer a b` gives `a`. */
  lemma TokenIsSecondField()
    ensures BearerToken("Bearer a b") == Some("a")
  {
    var rest := "Bearer a b"[7..];
    assert rest == "a b";
    assert TakeUntil("b", ' ') == "b";
    assert TakeUntil(" b", ' ') == "";
    assert TakeUntil(rest, ' ') == "a";
  }

  /** A `Bearer` header with nothing after the space, or with a second space right after it, gives the empty token. */
  lemma EmptyTokens()
    ensures BearerToken("Bearer ") == Some("")
    ensures BearerToken("Bearer  x") == Some("")
  {
    assert "Bearer "[7..] == "";
    assert "Bearer  x"[7..] == " x";
  }

  /** The prefix is case-sensitive and needs its space. */
  lemma NotBearer()
    ensures BearerToken("bearer x") == None
    ensures BearerToken("Bearer") == None
  {
    assert "bearer x"[0] != Prefix[0];
  }

  // ---------------------------------------------------------------------------
  // The decision

  /** What `jwt.verify` returns: the claims of the token. */
  datatype Decoded = Decoded(claims: map<string, string>)

  /** `process.env.JWT_SECRET || 'devsecret'` */
  function Secret(env: Option<string>): (s: string)
    ensures s != ""
    ensures env.Some? && env.value != "" ==> s == env.value
    ensures !(env.Some? && env.value != "") ==> s == "devsecret"
  {
    if env.Some? && env.value != "" then env.value else "devsecret"
  }

  /** The middleware's outcome: pass the request on with the claims, or answer 401 with a message. */
  datatype Decision = Next(decoded: Decoded) | Unauthorized(message: string)

  /**
   * `protect` as a decision. `authorization` is the header (`None` when absent);
   * `verify(token, secret)` is `jwt.verify`, `None` where it throws.
   */
  function Decide(authorization: Option<string>, env: Option<string>,
                  verify: (string, string) -> Option<Decoded>): (d: Decision)
    ensures d.Unauthorized? ==> d.message == "Not authenticated" || d.message == "Invalid or expired token"
    ensures d == Unauthorized("Not authenticated") <==>
      var t := BearerToken(authorization.GetOr(""));
      t.None? || t.value == ""
    ensures d.Next? <==>
      exists t :: BearerToken(authorization.GetOr("")) == Some(t) && t != "" && verify(t, Secret(env)).Some?
    ensures d.Next? ==> verify(BearerToken(authorization.GetOr("")).value, Secret(env)) == Some(d.decoded)
  {
    var authHeader := authorization.GetOr("");
    var token := BearerToken(authHeader);
    if token.None? || token.value == "" then Unauthorized("Not authenticated")
    else match verify(token.value, Secret(env))
      case None => Unauthorized("Invalid or expired token")
      case Some(decoded) => Next(decoded)
  }

  /** A request without the header is refused before any verification. */
  lemma MissingHeaderRefused(env: Option<string>, verify: (string, string) -> Option<Decoded>)
    ensures Decide(None, env, verify) == Unauthorized("Not authenticated")
    ensures Decide(Some(""), env, verify) == Unauthorized("Not authenticated")
  {
  }

  /** A token that fails to verify is refused as invalid or expired. */
  lemma BadTokenRefused(authorization: Option<string>, env: Option<string>, verify: (string, string) -> Option<Decoded>)
    requires BearerToken(authorization.GetOr("")).Some?
    requires BearerToken(authorization.GetOr("")).value != ""
    requires verify(BearerToken(authorization.GetOr("")).value, Secret(env)).None?
    ensures Decide(authorization, env, verify) == Unauthorized("Invalid or expired token")
  {
  }

  // ---------------------------------------------------------------------------
  // The request and response

  /** The 401 answer: `{ status: 'fail', message }`. */
  datatype Reply = Reply(code: int, status: string, message: string)

  /** What `protect` touches: `req.user`, the response written, and how often `next` was called. */
  class Exchange {
    var reqUser: Option<Decoded>
    var response: Option<Reply>
    var nextCalls: nat

    constructor ()
      ensures reqUser.None? && response.None? && nextCalls == 0
    {
      reqUser, response, nextCalls := None, None, 0;
    }

    /**
     * `protect(req, res, next)`: on success `req.user` is set and `next` is called once
     * with no response written; otherwise a 401 is written and neither of the others happens.
     */
    method Protect(authorization: Option<string>, env: Option<string>,
                   verify: (string, string) -> Option<Decoded>)
      modifies this
      ensures match Decide(authorization, env, verify)
        case Next(d) =>
          reqUser == Some(d) && nextCalls == old(nextCalls) + 1 && response == old(response)
        case Unauthorized(m) =>
          response == Some(Reply(401, "fail", m)) && reqUser == old(reqUser) && nextCalls == old(nextCalls)
    {
      var authHeader := authorization.GetOr("");
      var token := BearerToken(authHeader);
      if token.None? || token.value == "" {
        response := Some(Reply(401, "fail", "Not authenticated"));
        return;
      }
      var decoded := verify(token.value, Secret(env));
      if decoded.None? {
        response := Some(Reply(401, "fail", "Invalid or expired token"));
        return;
      }
      reqUser := decoded;
      nextCalls := nextCalls + 1;
    }
  }
}
