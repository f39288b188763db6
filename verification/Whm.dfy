// The WHM client's call (src/backend/services/whm-api.client.ts): one attempt, the retry around it, and
// the mapping of every outcome to a result. URL building and the HTTPS transport are not part of this model.
module Whm {
  import opened Json
  import opened Retry

  datatype ErrorCode = WHM_UNREACHABLE | WHM_AUTH_FAILED | WHM_API_ERROR | RATE_LIMITED | OTHER(name: string)

  datatype ExtError = ExtError(code: ErrorCode, httpStatus: int)

  // What `http.request` does: answer, fail in transport, or throw something else.
  datatype Transport =
    | Response(status: int, body: string)
    | TransportFailure(kind: TransportKind)
    | Foreign(error: Option<ExtError>)  // an ExtensionError, or any other thrown value

  datatype TransportKind = TIMEOUT | NETWORK

  datatype RetryableKind = Unreachable(kind: TransportKind) | RateLimited | Server

  datatype AttemptError = Retryable(kind: RetryableKind) | Fatal(error: Option<ExtError>)

  datatype HttpResponse = HttpResponse(status: int, body: string)

  function Classify(t: Transport): Attempt<HttpResponse, AttemptError> {
    match t
    case TransportFailure(kind) => Threw(Retryable(Unreachable(kind)))
    case Foreign(error) => Threw(Fatal(error))
    case Response(status, body) =>
      if status == 429 then Threw(Retryable(RateLimited))
      else if status >= 500 then Threw(Retryable(Server))
      else Returned(HttpResponse(status, body))
  }

  predicate IsRetryable(e: AttemptError) { e.Retryable? }

  function MapRetryFailure(e: AttemptError): ExtError {
    match e
    case Retryable(RateLimited) => ExtError(RATE_LIMITED, 429)
    case Retryable(Unreachable(_)) => ExtError(WHM_UNREACHABLE, 502)
    case Retryable(Server) => ExtError(WHM_API_ERROR, 502)
    case Fatal(Some(error)) => error
    case Fatal(None) => ExtError(WHM_API_ERROR, 502)
  }

  // A call returns data, throws an ExtensionError, or lets a TypeError escape.
  datatype CallResult = Data(value: Json) | Failed(error: ExtError) | TypeError

  // `String(value)`, which is what the pattern match on the reason sees.
  function TextOf(v: Json): string {
    match v
    case Null => "null"
    case Bool(b) => if b then "true" else "false"
    case Num(text) => text
    case Str(s) => s
    case Obj(_) => "[object Object]"
    case Arr(items) => Joined(items)
  }

  function Joined(items: seq<Json>): string {
    if items == [] then ""
    else
      (if items[0].Null? then "" else TextOf(items[0])) +
      (if |items| == 1 then "" else "," + Joined(items[1..]))
  }

  // `String(value)` throws on an object with a property of its own named `toString`: no JSON value can be called.
  predicate Printable(v: Json) {
    match v
    case Obj(entries) => Property(entries, "toString") == None
    case Arr(items) => forall i :: 0 <= i < |items| ==> Printable(items[i])
    case _ => true
  }

  predicate LooksLikeAuth(reason: string) {
    var r := Lower(reason);
    Contains(r, "access denied") || Contains(r, "permission") || Contains(r, "token")
  }

  // `value?.key`, with `None` for `undefined`.
  function Optional(v: Option<Json>, key: string): Option<Json> {
    if v.Some? && v.value.Obj? then Property(v.value.entries, key) else None
  }

  predicate Nullish(v: Option<Json>) { v == None || v == Some(Null) }

  // WHM's own account of a reply that is not an HTTP error: a result other than 1 is a failure, with a reason or
  // without.
  predicate ReportsFailure(parsed: Json) {
    var result := Optional(Optional(Some(parsed), "metadata"), "result");
    result != None && result != Some(Num("1"))
  }

  function Reason(parsed: Json): Json {
    var reason := Optional(Optional(Some(parsed), "metadata"), "reason");
    if Nullish(reason) then Str("Unknown WHM error.") else reason.value
  }

  // The part of `call` after the retry loop, for a response below 500 and not 429.
  function Interpret(res: HttpResponse, parse: string -> Option<Json>): CallResult {
    if res.status == 401 || res.status == 403 then Failed(ExtError(WHM_AUTH_FAILED, 502))
    else if res.status >= 400 then Failed(ExtError(WHM_API_ERROR, 502))
    else match parse(res.body)
      case None => Failed(ExtError(WHM_API_ERROR, 502))
      case Some(Null) => TypeError
      case Some(parsed) =>
        if ReportsFailure(parsed) then
          if !Printable(Reason(parsed)) then TypeError
          else Failed(ExtError(if LooksLikeAuth(TextOf(Reason(parsed))) then WHM_AUTH_FAILED else WHM_API_ERROR, 502))
        else
          var data := Optional(Some(parsed), "data");
          Data(if Nullish(data) then parsed else data.value)
  }

  // The result of a call whose decisive transport outcome is `t`.
  function Verdict(t: Transport, parse: string -> Option<Json>): CallResult {
    match Classify(t)
    case Returned(res) => Interpret(res, parse)
    case Threw(e) => Failed(MapRetryFailure(e))
  }

  function Attempts(transport: nat -> Transport): nat -> Attempt<HttpResponse, AttemptError> {
    (k: nat) => Classify(transport(k))
  }

  // Transport outcome number k settles a call allowed `retries` further attempts.
  ghost predicate Settles(transport: nat -> Transport, retries: int, k: nat) {
    Decides(Attempts(transport), IsRetryable, retries, k)
  }

  // How a call ends, and how many requests it has sent by then. The URL is built first, outside every try: when it does
  // not parse, no slot is taken and nothing is sent.
  ghost predicate Ends(urlParses: (string, int) -> bool, hostname: string, port: int, transport: nat -> Transport,
          parse: string -> Option<Json>, retries: int, r: CallResult, requests: nat)
  {
    if urlParses(hostname, port)
    then exists k: nat :: Settles(transport, retries, k) && requests == k + 1 && r == Verdict(transport(k), parse)
    else r == TypeError && requests == 0
  }

  method Call(urlParses: (string, int) -> bool, hostname: string, port: int, transport: nat -> Transport,
          parse: string -> Option<Json>, retries: int, base: int, random: nat -> real)
    returns (r: CallResult, requests: nat)
    ensures Ends(urlParses, hostname, port, transport, parse, retries, r, requests)
  {
    if !urlParses(hostname, port) { return TypeError, 0; }
    var outcome, attempt, _ := Retry.Retry(Attempts(transport), IsRetryable, retries, base, random);
    assert Settles(transport, retries, attempt);
    requests := attempt + 1;
    match outcome
    case Threw(e) => r := Failed(MapRetryFailure(e));
    case Returned(res) => r := Interpret(res, parse);
  }

  predicate Transient(t: Transport) {
    t.TransportFailure? || (t.Response? && (t.status == 429 || t.status >= 500))
  }

  // The stream alone fixes the deciding outcome: the first lasting one among the first `retries + 1`, else the last.
  lemma SettlesMeans(transport: nat -> Transport, retries: int, k: nat)
    ensures Settles(transport, retries, k) <==>
            && (forall j: nat :: j < k ==> Transient(transport(j)))
            && (k == 0 || k <= retries)
            && (Transient(transport(k)) ==> k >= retries)
  {
    forall j: nat ensures Transient(transport(j)) <==> Again(Attempts(transport)(j), IsRetryable) {
    }
  }

  lemma {:induction false} SomeOutcomeSettles(transport: nat -> Transport, retries: int, from: nat) returns (k: nat)
    requires from == 0 || from <= retries
    requires forall j: nat :: j < from ==> Transient(transport(j))
    ensures Settles(transport, retries, k)
    decreases retries - from
  {
    k := from;
    if Transient(transport(from)) && from < retries {
      k := SomeOutcomeSettles(transport, retries, from + 1);
    }
    SettlesMeans(transport, retries, k);
  }

  predicate Unreadable(t: Transport, parse: string -> Option<Json>) {
    && t.Response? && t.status < 400 && parse(t.body).Some?
    && (parse(t.body).value == Null || (ReportsFailure(parse(t.body).value) && !Printable(Reason(parse(t.body).value))))
  }

  // "Every WHM failure is an ExtensionError" fails exactly for a URL that does not parse, and for a settling response
  // below 400 whose body is JSON `null` or reports a failure with a reason that has no text.
  lemma EscapesExactly(urlParses: (string, int) -> bool, hostname: string, port: int, transport: nat -> Transport,
          parse: string -> Option<Json>, retries: int, r: CallResult, requests: nat)
    requires Ends(urlParses, hostname, port, transport, parse, retries, r, requests)
    ensures r == TypeError <==>
            || !urlParses(hostname, port)
            || exists k: nat :: Settles(transport, retries, k) && Unreadable(transport(k), parse)
  {
    if urlParses(hostname, port) {
      var k: nat :| Settles(transport, retries, k) && requests == k + 1 && r == Verdict(transport(k), parse);
      forall l: nat | Settles(transport, retries, l) ensures l == k {
        DecidesUnique(Attempts(transport), IsRetryable, retries, k, l);
      }
    }
  }

  // Such replies, concretely.
  lemma NullEscapes(urlParses: (string, int) -> bool, hostname: string, port: int, transport: nat -> Transport,
          parse: string -> Option<Json>, retries: int, r: CallResult, requests: nat)
    requires Ends(urlParses, hostname, port, transport, parse, retries, r, requests)
    requires transport(0) == Response(200, "null") && parse("null") == Some(Null)
    ensures r == TypeError
  {
    SettlesMeans(transport, retries, 0);
    EscapesExactly(urlParses, hostname, port, transport, parse, retries, r, requests);
  }

  // ----- Hostnames the request schema admits -----

  predicate HostChar(ch: char) {
    'a' <= ch <= 'z' || 'A' <= ch <= 'Z' || '0' <= ch <= '9' || ch in ".:_-"
  }

  predicate Hostname(s: string) {
    1 <= |s| <= 253 && forall i :: 0 <= i < |s| ==> HostChar(s[i])
  }

  // The admitted characters, one by one.
  lemma HostCharExactly(ch: char)
    ensures HostChar(ch) <==>
            ch in "abcdefghijklmnopqrstuvwxyz" || ch in "ABCDEFGHIJKLMNOPQRSTUVWXYZ" || ch in "0123456789.:_-"
  {
  }

  lemma HostnameExactly(s: string)
    ensures Hostname(s) <==> 0 < |s| < 254 && forall ch :: ch in s ==> HostChar(ch)
  {
  }

  predicate Digit(ch: char) { '0' <= ch <= '9' }

  function Decimal(n: nat): (s: string)
    ensures s != "" && forall i :: 0 <= i < |s| ==> Digit(s[i])
  {
    (if n < 10 then "" else Decimal(n / 10)) + [['0', '1', '2', '3', '4', '5', '6', '7', '8', '9'][n % 10]]
  }

  function ValueOf(digits: string): int {
    if digits == "" then 0 else 10 * ValueOf(digits[..|digits| - 1]) + (digits[|digits| - 1] as int - '0' as int)
  }

  lemma {:induction false} DecimalReads(n: nat)
    ensures ValueOf(Decimal(n)) == n
    ensures n > 0 ==> Decimal(n)[0] != '0'
  {
    var digits := Decimal(n);
    var k := |digits| - 1;
    if n >= 10 {
      DecimalReads(n / 10);
      assert digits[..k] == Decimal(n / 10) && digits[0] == Decimal(n / 10)[0];
    } else {
      assert digits[..k] == "";
    }
  }

  function UpToColon(s: string): (n: nat)
    ensures n <= |s| && (n < |s| ==> s[n] == ':') && forall i :: 0 <= i < n ==> s[i] != ':'
  {
    if s == "" || s[0] == ':' then 0 else 1 + UpToColon(s[1..])
  }

  // The authority of a URL without brackets or user info: a host up to the first colon, after it a port of digits only.
  predicate AuthorityParses(hostParses: string -> bool, authority: string) {
    var n := UpToColon(authority);
    && n > 0 && hostParses(authority[..n])
    && (n < |authority| ==> forall i :: n < i < |authority| ==> Digit(authority[i]))
  }

  // How the URL standard parses the URL of a call, as far as the schema's hostnames and ports go; which plain host
  // names it accepts is left open.
  ghost predicate Standard(urlParses: (string, int) -> bool, hostParses: string -> bool) {
    forall hostname, port: nat :: Hostname(hostname) && 1 <= port <= 65535 ==>
      (urlParses(hostname, port) <==> AuthorityParses(hostParses, hostname + ":" + Decimal(port)))
  }

  // The schema admits colons, for IPv6 literals; but no hostname with a colon makes a URL, and for any other the port
  // never matters.
  lemma UrlParsesExactly(urlParses: (string, int) -> bool, hostParses: string -> bool, hostname: string, port: nat)
    requires Standard(urlParses, hostParses) && Hostname(hostname) && 1 <= port <= 65535
    ensures urlParses(hostname, port) <==> ':' !in hostname && hostParses(hostname)
  {
    var authority := hostname + ":" + Decimal(port);
    var n := UpToColon(authority);
    assert authority[|hostname|] == ':';
    if n == |hostname| {
      assert authority[..n] == hostname;
      forall i | n < i < |authority| ensures Digit(authority[i]) { assert authority[i] == Decimal(port)[i - n - 1]; }
      forall i | 0 <= i < n ensures hostname[i] != ':' { assert authority[i] == hostname[i]; }
    } else {
      assert n < |hostname| && hostname[n] == authority[n];
      assert !Digit(authority[|hostname|]);
    }
  }

  lemma ColonsAdmitted()
    ensures Hostname("2001:db8::1") && ':' in "2001:db8::1"
    ensures Hostname("10.0.0.1:2087") && ':' in "10.0.0.1:2087"
  {
    assert "2001:db8::1"[4] == ':' && "10.0.0.1:2087"[8] == ':';
  }

  // So an IPv6 literal, and a hostname with its port, pass the schema and can never be called.
  lemma ColonEscapes(urlParses: (string, int) -> bool, hostParses: string -> bool, hostname: string, port: nat,
          transport: nat -> Transport, parse: string -> Option<Json>, retries: int, r: CallResult, requests: nat)
    requires Standard(urlParses, hostParses) && 1 <= port <= 65535
    requires hostname == "2001:db8::1" || hostname == "10.0.0.1:2087"
    requires Ends(urlParses, hostname, port, transport, parse, retries, r, requests)
    ensures Hostname(hostname) && r == TypeError && requests == 0
  {
    ColonsAdmitted();
    hide Hostname, AuthorityParses;
    UrlParsesExactly(urlParses, hostParses, hostname, port);
  }

  // A retryable outcome reaches the caller only when every allowed attempt met one; the kind of the last decides.
  lemma ExhaustedExactly(transport: nat -> Transport, parse: string -> Option<Json>, retries: int, k: nat)
    requires Settles(transport, retries, k)
    ensures (forall j: nat :: j == 0 || j <= retries ==> Transient(transport(j))) <==> Transient(transport(k))
    ensures Transient(transport(k)) ==>
              && (k == if retries > 0 then retries else 0)
              && Verdict(transport(k), parse) == Failed(
                   match transport(k)
                   case TransportFailure(_) => ExtError(WHM_UNREACHABLE, 502)
                   case Response(status, _) =>
                     if status == 429 then ExtError(RATE_LIMITED, 429) else ExtError(WHM_API_ERROR, 502)
                   case Foreign(_) => ExtError(WHM_API_ERROR, 502))
  {
    SettlesMeans(transport, retries, k);
  }

  // ----- What the callers make of the data -----

  datatype Reply<+T> = Replied(value: T) | Refused(error: ExtError) | Crashed

  function Accounts(r: CallResult): Reply<seq<Json>> {
    match r
    case Data(data) =>
      var acct := Optional(Some(data), "acct");
      Replied(if acct.Some? && acct.value.Arr? then acct.value.items else [])
    case Failed(error) => Refused(error)
    case TypeError => Crashed
  }

  function FirstAccount(r: CallResult): Reply<Option<Json>> {
    match Accounts(r)
    case Replied(rows) => Replied(if rows != [] && rows[0] != Null then Some(rows[0]) else None)
    case Refused(error) => Refused(error)
    case Crashed => Crashed
  }

  function Version(r: CallResult): Reply<Option<string>> {
    match r
    case Data(data) =>
      var version := Optional(Some(data), "version");
      Replied(if version.Some? && version.value.Str? then Some(version.value.s) else None)
    case Failed(error) => Refused(error)
    case TypeError => Crashed
  }
}
