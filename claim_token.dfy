/**
 * The claim function: exchanges a single-use claim token for a credential of
 * the member the token points at, linking the scanning device's identity to
 * the member on first use ("first claim wins").
 *
 * The hosted services are inputs. `parse` is `JSON.parse` (it either throws a
 * syntax error or yields a value); a `Backend` says which read, update and
 * delete calls reach the database, what the identity SDK answers, and how
 * each JWT endpoint URL answers a POST. The database is a value: the handler
 * returns the database as it leaves it.
 */
module ClaimToken {
  import opened Wrappers
  import opened Js
  import opened Documents

  // ---------------------------------------------------------------------
  // Request shapes
  // ---------------------------------------------------------------------

  /** The payload fields the handler reads; `""` when absent or falsy. */
  datatype Payload = Payload(
    token: string,
    claimToken: string,       // `claim_token`
    scannerUid: string,       // `scannerUid`
    scannerUidSnake: string,  // `scanner_uid`
    scanner: string)

  const EmptyPayload := Payload("", "", "", "", "")

  /**
   * A value standing as the payload: `null`, a value that is neither null
   * nor an object (a number, string, boolean or array, none of which has the
   * fields above), or an object.
   */
  datatype Json = JNull | JPrimitive | JObject(fields: Payload)

  /** The outcome of `JSON.parse(text)`. */
  datatype ParseResult = SyntaxError | ParsedAs(value: Json)

  /** A request property that may carry the payload. */
  datatype Field = Absent | Text(text: string) | Object(fields: Payload)

  /**
   * The request as the runtime hands it over (`req.req` when present, else
   * `req`). A missing request behaves as one whose fields are all absent.
   */
  datatype Incoming = Incoming(
    payload: Field,
    body: Field,
    args: Field,
    variables: Field,
    query: Field,
    token: string,
    claimToken: string,
    scannerUid: string)

  predicate FieldTruthy(f: Field) {
    match f
    case Absent => false
    case Text(t) => Truthy(t)
    case Object(_) => true
  }

  /** `try { JSON.parse(...) } catch { {} }`: a syntax error yields the empty object. */
  function Recover(r: ParseResult): Json {
    match r
    case SyntaxError => JObject(EmptyPayload)
    case ParsedAs(v) => v
  }

  /** `JSON.parse` of an object parses its string form. */
  const ObjectText := "[object Object]"

  /**
   * The payload (lines 26-36): the first truthy of `payload` (always parsed),
   * `body` and `args` (parsed when a string), `variables` and `query` (taken
   * as they are); the empty object when none is truthy or parsing fails.
   */
  function SelectPayload(inc: Incoming, parse: string -> ParseResult): (r: Json)
    ensures r.JNull? ==> exists t :: parse(t) == ParsedAs(JNull)
    ensures (!FieldTruthy(inc.payload) && !FieldTruthy(inc.body) && !FieldTruthy(inc.args) &&
             !FieldTruthy(inc.variables) && !FieldTruthy(inc.query)) ==> r == JObject(EmptyPayload)
  {
    if FieldTruthy(inc.payload) then
      match inc.payload
      case Text(t) => Recover(parse(t))
      case _ => Recover(parse(ObjectText))
    else if FieldTruthy(inc.body) then
      match inc.body
      case Text(t) => Recover(parse(t))
      case Object(p) => JObject(p)
      case Absent => JObject(EmptyPayload)
    else if FieldTruthy(inc.args) then
      match inc.args
      case Text(t) => Recover(parse(t))
      case Object(p) => JObject(p)
      case Absent => JObject(EmptyPayload)
    else if FieldTruthy(inc.variables) then
      match inc.variables
      case Object(p) => JObject(p)
      case _ => JPrimitive
    else if FieldTruthy(inc.query) then
      match inc.query
      case Object(p) => JObject(p)
      case _ => JPrimitive
    else JObject(EmptyPayload)
  }

  /** The payload-carrying properties in order of precedence. */
  function Slots(inc: Incoming): seq<Field> {
    [inc.payload, inc.body, inc.args, inc.variables, inc.query]
  }

  /** The index of the first truthy field, `|fs|` when there is none. */
  function FirstTruthySlot(fs: seq<Field>): (k: nat)
    ensures k <= |fs|
    ensures k < |fs| ==> FieldTruthy(fs[k])
    ensures forall j | 0 <= j < k :: !FieldTruthy(fs[j])
  {
    if fs == [] then 0
    else if FieldTruthy(fs[0]) then 0
    else 1 + FirstTruthySlot(fs[1..])
  }

  /** How the field in slot `k` becomes the payload. */
  function Interpret(k: nat, f: Field, parse: string -> ParseResult): Json {
    match f
    case Absent => JObject(EmptyPayload)
    case Text(t) => if k <= 2 then Recover(parse(t)) else JPrimitive
    case Object(p) => if k == 0 then Recover(parse(ObjectText)) else JObject(p)
  }

  /**
   * Precedence as a table: the payload is the first truthy slot interpreted
   * by its position, so everything after that slot is ignored.
   */
  lemma SelectPayloadByPrecedence(inc: Incoming, parse: string -> ParseResult)
    ensures var k := FirstTruthySlot(Slots(inc));
            SelectPayload(inc, parse) == if k < 5 then Interpret(k, Slots(inc)[k], parse) else JObject(EmptyPayload)
  {
    var s := Slots(inc);
    assert s[0] == inc.payload && s[1] == inc.body && s[2] == inc.args && s[3] == inc.variables && s[4] == inc.query;
    assert s[1..][0] == s[1] && s[1..][1..][0] == s[2] && s[1..][1..][1..][0] == s[3] && s[1..][1..][1..][1..][0] == s[4];
    assert s[1..][1..][1..][1..][1..] == [];
  }

  /** The fields of the payload; a non-object has none of them. */
  function FieldsOf(j: Json): Payload {
    match j
    case JObject(p) => p
    case _ => EmptyPayload
  }

  /** Reading a property either throws (on `null`) or yields a value. */
  datatype Access = Throws | Yields(value: string)

  /** The token candidates of line 38, in order. */
  function TokenCandidates(inc: Incoming, payload: Json): seq<string> {
    [FieldsOf(payload).token, FieldsOf(payload).claimToken, inc.token, inc.claimToken]
  }

  /** The token of line 38; reading a field of a `null` payload throws. */
  function TokenOf(inc: Incoming, payload: Json): (r: Access)
    ensures r.Throws? <==> payload.JNull?
    ensures r.Yields? ==> (r.value == "" <==> forall i | 0 <= i < 4 :: TokenCandidates(inc, payload)[i] == "")
  {
    if payload.JNull? then Throws else Yields(FirstTruthy(TokenCandidates(inc, payload)))
  }

  /** Where line 102 looks for the scanner identity, in order. */
  function ScannerCandidates(inc: Incoming, payload: Json): seq<string> {
    var p := FieldsOf(payload);
    [p.scannerUid, p.scannerUidSnake, p.scanner, inc.scannerUid]
  }

  /** The scanner identity of line 102: the first place that holds one. */
  function ScannerOf(inc: Incoming, payload: Json): (r: string)
    ensures var c := ScannerCandidates(inc, payload);
            && (r == "" <==> forall i | 0 <= i < 4 :: c[i] == "")
            && (r != "" ==> exists i | 0 <= i < 4 :: c[i] == r && forall j | 0 <= j < i :: c[j] == "")
  {
    FirstTruthy(ScannerCandidates(inc, payload))
  }

  function RequestToken(inc: Incoming, parse: string -> ParseResult): Access {
    TokenOf(inc, SelectPayload(inc, parse))
  }

  function RequestScanner(inc: Incoming, parse: string -> ParseResult): string {
    ScannerOf(inc, SelectPayload(inc, parse))
  }

  // ---------------------------------------------------------------------
  // Credential minting
  // ---------------------------------------------------------------------

  /**
   * A credential response: a falsy value, a string, or an object whose
   * `jwt`, `token`, `access_token` and `secret` fields are read.
   */
  datatype JwtResp = Nothing | Str(s: string) | Obj(jwt: string, token: string, accessToken: string, secret: string)

  predicate RespTruthy(r: JwtResp) {
    match r
    case Nothing => false
    case Str(s) => Truthy(s)
    case Obj(_, _, _, _) => true
  }

  /** One POST to a JWT endpoint: the fetch throws, or it answers with a status and a parsed body. */
  datatype Attempt = Threw | Responded(ok: bool, data: JwtResp)

  /** `resp.ok && data`. */
  predicate Succeeds(a: Attempt) {
    a.Responded? && a.ok && RespTruthy(a.data)
  }

  /** `undefined` for a falsy string. */
  function NonEmpty(s: string): Option<string> {
    if s == "" then None else Some(s)
  }

  /**
   * `unwrapJwt` (lines 142-150): a truthy string is itself, an object gives
   * its first truthy credential field, anything else `undefined`.
   */
  function UnwrapJwt(resp: JwtResp): (r: Option<string>)
    ensures resp.Str? ==> r == NonEmpty(resp.s)
    ensures resp.Obj? ==> r == NonEmpty(FirstTruthy([resp.jwt, resp.token, resp.accessToken, resp.secret]))
    ensures resp.Nothing? ==> r.None?
    ensures r.Some? ==> r.value != ""
  {
    if !RespTruthy(resp) then None
    else match resp
      case Str(s) => Some(s)
      case Obj(jwt, token, accessToken, secret) =>
        FirstTruthyOfFour(jwt, token, accessToken, secret);
        if jwt != "" then Some(jwt)
        else if token != "" then Some(token)
        else if accessToken != "" then Some(accessToken)
        else if secret != "" then Some(secret)
        else None
      case Nothing => None
  }

  predicate EndsWith(s: string, suffix: string) {
    |suffix| <= |s| && s[|s| - |suffix|..] == suffix
  }

  /** `raw.replace(/\/v1\/?$/, '').replace(/\/$/, '')` (line 119). */
  function BaseEndpoint(raw: string): (r: string)
    ensures |r| <= |raw| && r == raw[..|r|]
    ensures |raw| - 5 <= |r|
    ensures !EndsWith(raw, "/") && !EndsWith(raw, "/v1") ==> r == raw
  {
    var noV1 :=
      if EndsWith(raw, "/v1/") then raw[..|raw| - 4]
      else if EndsWith(raw, "/v1") then raw[..|raw| - 3]
      else raw;
    if EndsWith(noV1, "/") then noV1[..|noV1| - 1] else noV1
  }

  /**
   * The same endpoint written with or without a trailing `/`, `/v1` or `/v1/`
   * gives the same base, so no URL carries a doubled `/v1`.
   */
  lemma BaseEndpointStripsVersion(e: string)
    requires !EndsWith(e, "/") && !EndsWith(e, "/v1")
    ensures BaseEndpoint(e) == e
    ensures BaseEndpoint(e + "/") == e
    ensures BaseEndpoint(e + "/v1") == e
    ensures BaseEndpoint(e + "/v1/") == e
  {
    StripsTrailingSlash(e);
    StripsVersion(e, "/v1");
    StripsVersion(e, "/v1/");
  }

  /** A bare trailing `/` is removed by the second replacement alone. */
  lemma StripsTrailingSlash(e: string)
    requires !EndsWith(e, "/") && !EndsWith(e, "/v1")
    ensures BaseEndpoint(e + "/") == e
  {
    var s := e + "/";
    assert !EndsWith(s, "/v1/") by {
      if |s| >= 4 {
        assert s[|s| - 4..] == e[|e| - 3..] + "/";
        assert s[|s| - 4..][..3] == e[|e| - 3..];
      }
    }
    assert !EndsWith(s, "/v1") by {
      if |s| >= 3 {
        assert s[|s| - 3..][2] == '/';
      }
    }
    assert EndsWith(s, "/") by {
      assert s[|s| - 1..] == "/";
    }
    assert s[..|s| - 1] == e;
  }

  /** A trailing `/v1` or `/v1/` is removed by the first replacement. */
  lemma StripsVersion(e: string, suffix: string)
    requires !EndsWith(e, "/") && !EndsWith(e, "/v1")
    requires suffix == "/v1" || suffix == "/v1/"
    ensures BaseEndpoint(e + suffix) == e
  {
    var s := e + suffix;
    if suffix == "/v1/" {
      assert EndsWith(s, "/v1/") by {
        assert s[|s| - 4..] == suffix;
      }
      assert s[..|s| - 4] == e;
    } else {
      assert !EndsWith(s, "/v1/") by {
        if |s| >= 4 {
          assert s[|s| - 4..][3] == '1';
        }
      }
      assert EndsWith(s, "/v1") by {
        assert s[|s| - 3..] == suffix;
      }
      assert s[..|s| - 3] == e;
    }
  }

  /** The four REST endpoints tried, in this order (lines 120-125). */
  function JwtUrls(endpoint: string, uid: string): seq<string> {
    var base := BaseEndpoint(endpoint);
    [ base + "/v1/users/" + uid + "/jwt",
      base + "/users/" + uid + "/jwt",
      base + "/v1/users/" + uid + "/sessions/jwt",
      base + "/users/" + uid + "/sessions/jwt" ]
  }

  /** The body of the first URL whose answer succeeds, `null` when none does. */
  function FirstSuccess(urls: seq<string>, net: string -> Attempt): (r: JwtResp)
    ensures r == Nothing <==> forall i | 0 <= i < |urls| :: !Succeeds(net(urls[i]))
    ensures r != Nothing ==>
      exists i | 0 <= i < |urls| ::
        Succeeds(net(urls[i])) && r == net(urls[i]).data &&
        forall j | 0 <= j < i :: !Succeeds(net(urls[j]))
  {
    if urls == [] then Nothing
    else if Succeeds(net(urls[0])) then net(urls[0]).data
    else
      var r := FirstSuccess(urls[1..], net);
      assert forall i | 1 <= i < |urls| :: urls[i] == urls[1..][i - 1];
      assert r != Nothing ==>
        exists i | 1 <= i < |urls| ::
          Succeeds(net(urls[i])) && r == net(urls[i]).data &&
          forall j | 0 <= j < i :: !Succeeds(net(urls[j])) by {
        if r != Nothing {
          var i :| 0 <= i < |urls[1..]| && Succeeds(net(urls[1..][i])) && r == net(urls[1..][i]).data &&
            forall j | 0 <= j < i :: !Succeeds(net(urls[1..][j]));
          assert urls[i + 1] == urls[1..][i];
          forall j | 0 <= j < i + 1 ensures !Succeeds(net(urls[j])) {
            if j > 0 { assert urls[j] == urls[1..][j - 1]; }
          }
        }
      }
      r
  }

  /** What the hosted services answer during one run of the handler. */
  datatype Backend = Backend(
    claimSdk: bool,           // the SDK read of the claim reaches the database
    claimRest: bool,          // the REST fallback read of the claim does
    memberSdk: bool,
    memberRest: bool,
    updateSdk: bool,          // the SDK update of `appwrite_uid` goes through
    updateRest: bool,         // the REST PATCH fallback does
    deleteOk: bool,           // the best-effort delete of the claim goes through
    jwtSdk: string -> Option<JwtResp>,  // `users.createJWT(uid)`: its answer, or None when missing or throwing
    endpoint: string,         // APPWRITE_ENDPOINT
    net: string -> Attempt)   // the answer to a POST at each URL

  /**
   * The credential `createJwtForUid(uid)` yields: none for an empty uid, the
   * SDK's answer for this uid when the SDK answers, else the first REST
   * endpoint for this uid that succeeds.
   */
  function Minted(uid: string, b: Backend): (r: JwtResp)
    ensures uid == "" ==> r == Nothing
    ensures uid != "" && b.jwtSdk(uid).Some? ==> r == b.jwtSdk(uid).value
    ensures uid != "" && b.jwtSdk(uid).None? ==>
      (r == Nothing <==> forall i | 0 <= i < 4 :: !Succeeds(b.net(JwtUrls(b.endpoint, uid)[i])))
  {
    if uid == "" then Nothing
    else if b.jwtSdk(uid).Some? then b.jwtSdk(uid).value
    else FirstSuccess(JwtUrls(b.endpoint, uid), b.net)
  }

  /** `createJwtForUid` (lines 105-139): SDK first, then the REST endpoints in order. */
  method CreateJwtForUid(uid: string, b: Backend) returns (r: JwtResp)
    ensures r == Minted(uid, b)
  {
    if uid == "" {
      return Nothing;
    }
    var sdk := b.jwtSdk(uid);
    if sdk.Some? {
      return sdk.value;
    }
    var tryUrls := JwtUrls(b.endpoint, uid);
    for i := 0 to |tryUrls|
      invariant FirstSuccess(tryUrls[i..], b.net) == Minted(uid, b)
    {
      assert tryUrls[i..][0] == tryUrls[i] && tryUrls[i..][1..] == tryUrls[i + 1..];
      var resp := b.net(tryUrls[i]);
      if Succeeds(resp) {
        return resp.data;
      }
    }
    return Nothing;
  }

  // ---------------------------------------------------------------------
  // The exchange
  // ---------------------------------------------------------------------

  /** A document of the `claims` collection (its key is the token). */
  datatype Claim = Claim(
    memberId: string,
    expiresAt: Option<int>)  // None when falsy or not a valid date: it never expires

  /** The two collections the handler touches. */
  datatype Database = Database(claims: map<string, Claim>, members: map<string, Member>)

  /** A read by id that tries the SDK, then REST; an absent document fails both. */
  function Fetch<T>(m: map<string, T>, key: string, sdk: bool, rest: bool): Option<T> {
    if key in m && (sdk || rest) then Some(m[key]) else None
  }

  /** `claim.expiresAt && new Date(claim.expiresAt) < new Date()`. */
  predicate Expired(c: Claim, now: int) {
    c.expiresAt.Some? && c.expiresAt.value < now
  }

  /** The claims after the best-effort delete of `token`. */
  function Consumed(claims: map<string, Claim>, token: string, deleteOk: bool): map<string, Claim> {
    if deleteOk then claims - {token} else claims
  }

  /** Whether setting `appwrite_uid` on the member goes through (SDK, then PATCH). */
  predicate CanLink(db: Database, m: Member, b: Backend) {
    m.id in db.members && (b.updateSdk || b.updateRest)
  }

  datatype ErrorKind = MissingToken | InvalidToken | TokenExpired | NoLinkedUser | ServerError

  datatype Body =
    | Error(error: ErrorKind)
    | Granted(linked: bool, memberId: string, appwriteUid: Option<string>, jwt: Option<string>)

  datatype Reply = Reply(status: int, body: Body)

  /** An error reply: 500 for `server error`, 400 otherwise. */
  function Fail(kind: ErrorKind): Reply {
    Reply(if kind == ServerError then 500 else 400, Error(kind))
  }

  /**
   * The exported handler (lines 19-203). The cases are decided in this
   * order: unreadable payload, missing token, unreadable claim, expired claim,
   * unreadable member, then by scanner identity and existing link.
   */
  method Exchange(inc: Incoming, parse: string -> ParseResult, db: Database, now: int, b: Backend)
    returns (reply: Reply, db': Database)
    ensures RequestToken(inc, parse).Throws? ==> reply == Fail(ServerError) && db' == db
    ensures RequestToken(inc, parse) == Yields("") ==> reply == Fail(MissingToken) && db' == db
    ensures RequestToken(inc, parse).Yields? && RequestToken(inc, parse).value != "" ==>
      var t := RequestToken(inc, parse).value;
      var claim := Fetch(db.claims, t, b.claimSdk, b.claimRest);
      && (claim.None? ==> reply == Fail(InvalidToken) && db' == db)
      && (claim.Some? && Expired(claim.value, now) ==>
            reply == Fail(TokenExpired) && db' == db.(claims := Consumed(db.claims, t, b.deleteOk)))
      && (claim.Some? && !Expired(claim.value, now) ==>
            var member := Fetch(db.members, claim.value.memberId, b.memberSdk, b.memberRest);
            var scanner := RequestScanner(inc, parse);
            && (member.None? ==> reply == Fail(NoLinkedUser) && db' == db)
            && (member.Some? && scanner != "" && member.value.appwriteUid != "" ==>
                  var m := member.value;
                  && reply == Reply(200, Granted(true, m.id, Some(m.appwriteUid), UnwrapJwt(Minted(m.appwriteUid, b))))
                  && db' == db.(claims := Consumed(db.claims, t, b.deleteOk)))
            && (member.Some? && scanner != "" && member.value.appwriteUid == "" && !CanLink(db, member.value, b) ==>
                  reply == Fail(ServerError) && db' == db)
            && (member.Some? && scanner != "" && member.value.appwriteUid == "" && CanLink(db, member.value, b) ==>
                  var m := member.value;
                  && reply == Reply(200, Granted(true, m.id, Some(scanner), UnwrapJwt(Minted(scanner, b))))
                  && db' == Database(Consumed(db.claims, t, b.deleteOk),
                                     db.members[m.id := db.members[m.id].(appwriteUid := scanner)]))
            && (member.Some? && scanner == "" ==>
                  var m := member.value;
                  && reply == Reply(200, Granted(false, m.id, NonEmpty(m.appwriteUid), UnwrapJwt(Minted(m.appwriteUid, b))))
                  && db' == db.(claims := Consumed(db.claims, t, b.deleteOk))))
  {
    db' := db;
    var payload := SelectPayload(inc, parse);
    var tokenRead := TokenOf(inc, payload);
    if tokenRead.Throws? {
      return Fail(ServerError), db';
    }
    var token := tokenRead.value;
    if token == "" {
      return Fail(MissingToken), db';
    }

    // 1) the claim document
    var claim := Fetch(db.claims, token, b.claimSdk, b.claimRest);
    if claim.None? {
      return Fail(InvalidToken), db';
    }
    if Expired(claim.value, now) {
      db' := db'.(claims := Consumed(db'.claims, token, b.deleteOk));
      return Fail(TokenExpired), db';
    }

    // 2) the member document it references
    var memberDoc := Fetch(db.members, claim.value.memberId, b.memberSdk, b.memberRest);
    if memberDoc.None? {
      return Fail(NoLinkedUser), db';
    }
    var m := memberDoc.value;
    var memberAppwriteUid := m.appwriteUid;
    var scannerUid := ScannerOf(inc, payload);

    if scannerUid != "" {
      if memberAppwriteUid != "" {
        // keep the existing link
        var jwtResp := CreateJwtForUid(memberAppwriteUid, b);
        db' := db'.(claims := Consumed(db'.claims, token, b.deleteOk));
        return Reply(200, Granted(true, m.id, Some(memberAppwriteUid), UnwrapJwt(jwtResp))), db';
      }
      // first claim: link the scanner identity
      if !CanLink(db', m, b) {
        return Fail(ServerError), db';
      }
      db' := db'.(members := db'.members[m.id := db'.members[m.id].(appwriteUid := scannerUid)]);
      m := m.(appwriteUid := scannerUid);
      memberAppwriteUid := scannerUid;
      var jwtResp := CreateJwtForUid(memberAppwriteUid, b);
      db' := db'.(claims := Consumed(db'.claims, token, b.deleteOk));
      return Reply(200, Granted(true, m.id, Some(memberAppwriteUid), UnwrapJwt(jwtResp))), db';
    }

    // no scanner identity: mint for the existing link, if any
    var jwtResp := CreateJwtForUid(memberAppwriteUid, b);
    db' := db'.(claims := Consumed(db'.claims, token, b.deleteOk));
    return Reply(200, Granted(false, m.id, NonEmpty(memberAppwriteUid), UnwrapJwt(jwtResp))), db';
  }

  // ---------------------------------------------------------------------
  // What callers can conclude from the contract of Exchange
  // ---------------------------------------------------------------------

  /**
   * A token that was exchanged (and whose delete went through) is invalid
   * the second time it is presented.
   */
  method ResubmitAfterExchange(inc: Incoming, parse: string -> ParseResult, db: Database, now: int, b: Backend)
    returns (first: Reply, second: Reply)
    ensures first.status == 200 ==> first.body.Granted?
    ensures first.status == 200 && b.deleteOk ==> second == Fail(InvalidToken)
  {
    var db1;
    first, db1 := Exchange(inc, parse, db, now, b);
    var db2;
    second, db2 := Exchange(inc, parse, db1, now, b);
  }

  /** Every service reachable; the SDK mints `jwt-<uid>` for each uid. */
  function TwoScannerBackend(): Backend {
    Backend(true, true, true, true, true, true, true,
            uid => Some(Obj("jwt-" + uid, "", "", "")), "https://cloud.example/v1", _ => Threw)
  }

  /** A scan request: an object `body` carrying the token and the scanner's uid. */
  function Scan(token: string, scanner: string): Incoming {
    Incoming(Absent, Object(Payload(token, "", scanner, "", "")), Absent, Absent, Absent, "", "", "")
  }

  /** A parser that is never reached by an object body. */
  function NoParse(): string -> ParseResult {
    _ => SyntaxError
  }

  /** A scan request yields its token and its scanner. */
  lemma ScanReads(token: string, scanner: string)
    requires token != ""
    ensures RequestToken(Scan(token, scanner), NoParse()) == Yields(token)
    ensures RequestScanner(Scan(token, scanner), NoParse()) == scanner
  {
    FirstTruthyOfFour(token, "", "", "");
    FirstTruthyOfFour(scanner, "", "", "");
  }

  /** The first scan, by U1, of token T1 for the unlinked member M1. */
  method FirstScan() returns (r1: Reply, db1: Database)
    ensures r1 == Reply(200, Granted(true, "M1", Some("U1"), Some("jwt-U1")))
    ensures "T1" !in db1.claims && "T2" in db1.claims && db1.claims["T2"] == Claim("M1", None)
    ensures "M1" in db1.members && db1.members["M1"] == Member("M1", "Ann", 0.0, 0, "U1")
  {
    var db0 := Database(
      map["T1" := Claim("M1", Some(60000)), "T2" := Claim("M1", None)],
      map["M1" := Member("M1", "Ann", 0.0, 0, "")]);
    var b := TwoScannerBackend();
    assert "jwt-" + "U1" == "jwt-U1";
    assert Minted("U1", b) == Obj("jwt-U1", "", "", "");
    ScanReads("T1", "U1");
    r1, db1 := Exchange(Scan("T1", "U1"), NoParse(), db0, 1000, b);
  }

  /**
   * Two claims for the same unlinked member, scanned by two devices: the
   * first links its identity, the second is answered with a credential for
   * that identity, not its own, and changes no member.
   */
  method FirstClaimWins() returns (r1: Reply, r2: Reply, db2: Database)
    ensures r1 == Reply(200, Granted(true, "M1", Some("U1"), Some("jwt-U1")))
    ensures r2 == Reply(200, Granted(true, "M1", Some("U1"), Some("jwt-U1")))
    ensures r2.body.jwt != UnwrapJwt(Minted("U2", TwoScannerBackend()))
    ensures "M1" in db2.members && db2.members["M1"].appwriteUid == "U1"
    ensures "T1" !in db2.claims && "T2" !in db2.claims
  {
    var db1;
    r1, db1 := FirstScan();
    var b := TwoScannerBackend();
    assert "jwt-" + "U1" == "jwt-U1" && "jwt-" + "U2" == "jwt-U2";
    assert Minted("U1", b) == Obj("jwt-U1", "", "", "");
    assert Minted("U2", b) == Obj("jwt-U2", "", "", "");
    ScanReads("T2", "U2");
    r2, db2 := Exchange(Scan("T2", "U2"), NoParse(), db1, 1000, b);
  }
}
