// What a call to WHM returns and what its callers make of that, told from the JSON that WHM sends
// (src/backend/services/whm-api.client.ts:180-228).
module WhmAnswers {
  import opened Json
  import opened Retry
  import opened Whm

  // ----- Texts that name an authentication failure -----

  ghost predicate AuthWords(s: string) {
    Spelled(s, "access denied") || Spelled(s, "permission") || Spelled(s, "token")
  }

  // A reason names one, itself or somewhere in a list; objects, booleans and nothing at all never do.
  ghost predicate NamesAuth(reason: Json) {
    match reason
    case Str(s) => AuthWords(s)
    case Num(text) => AuthWords(text)
    case Arr(items) => exists i :: 0 <= i < |items| && NamesAuth(items[i])
    case _ => false
  }

  lemma LooksExactly(s: string)
    ensures LooksLikeAuth(s) <==> AuthWords(s)
  {
    ContainsSpelled(s, "access denied");
    ContainsSpelled(s, "permission");
    ContainsSpelled(s, "token");
    hide Contains, Spelled, Lower;
  }

  lemma LettersMissing(s: string, word: string, k: nat, capital: char)
    requires k < |word| && word[k] !in s && capital !in s && forall ch :: SameLetter(ch, word[k]) ==>
               ch == word[k] || ch == capital
    ensures !Spelled(s, word)
  {
  }

  lemma NoAuth(s: string)
    requires 'd' !in s && 'D' !in s && 'p' !in s && 'P' !in s && (('k' !in s && 'K' !in s) || ('t' !in s && 'T' !in s))
    ensures !AuthWords(s)
  {
    assert "access denied"[7] == 'd' && "permission"[0] == 'p' && "token"[0] == 't' && "token"[2] == 'k';
    hide Spelled;
    LettersMissing(s, "access denied", 7, 'D');
    LettersMissing(s, "permission", 0, 'P');
    if 'k' !in s && 'K' !in s { LettersMissing(s, "token", 2, 'K'); } else { LettersMissing(s, "token", 0, 'T'); }
  }

  lemma CoversLetter(s: string, word: string, i: nat, c: nat)
    requires SpelledAt(s, word, i) && i <= c < i + |word|
    ensures SameLetter(s[c], word[c - i])
  {
    assert s[i + (c - i)] == s[c];
  }

  // A word without a comma stands in a list of texts exactly if it stands in one of them.
  lemma SpelledInList(a: string, b: string, word: string)
    requires word != "" && forall k :: 0 <= k < |word| ==> !SameLetter(',', word[k])
    ensures Spelled(a + "," + b, word) <==> Spelled(a, word) || Spelled(b, word)
  {
    var s, n := a + "," + b, |a| + 1;
    if i :| 0 <= i <= |a| && SpelledAt(a, word, i) {
      forall k | 0 <= k < |word| ensures SameLetter(s[i + k], word[k]) { assert s[i + k] == a[i + k]; }
      assert SpelledAt(s, word, i);
    }
    if i :| 0 <= i <= |b| && SpelledAt(b, word, i) {
      forall k | 0 <= k < |word| ensures SameLetter(s[n + i + k], word[k]) { assert s[n + i + k] == b[i + k]; }
      assert SpelledAt(s, word, n + i);
    }
    if i :| 0 <= i <= |s| && SpelledAt(s, word, i) {
      if i + |word| <= |a| {
        forall k | 0 <= k < |word| ensures SameLetter(a[i + k], word[k]) { assert s[i + k] == a[i + k]; }
        assert SpelledAt(a, word, i);
      } else if i >= n {
        forall k | 0 <= k < |word| ensures SameLetter(b[i - n + k], word[k]) { assert s[i + k] == b[i - n + k]; }
        assert SpelledAt(b, word, i - n);
      } else {
        CoversLetter(s, word, i, |a|);
        assert false;
      }
    }
  }

  lemma AuthInList(a: string, b: string)
    ensures AuthWords(a + "," + b) <==> AuthWords(a) || AuthWords(b)
  {
    hide Spelled;
    SpelledInList(a, b, "access denied");
    SpelledInList(a, b, "permission");
    SpelledInList(a, b, "token");
  }

  lemma ConstantTexts()
    ensures !AuthWords("") && !AuthWords("null") && !AuthWords("true") && !AuthWords("false")
    ensures !AuthWords("[object Object]") && !AuthWords("Unknown WHM error.")
  {
    hide AuthWords;
    NoAuth("");
    NullText("null");
    TrueText("true");
    FalseText("false");
    ObjectText("[object Object]");
    UnknownText("Unknown WHM error.");
  }

  lemma NullText(s: string)
    requires s == "null"
    ensures !AuthWords(s)
  {
    hide AuthWords;
    NoAuth(s);
  }

  lemma TrueText(s: string)
    requires s == "true"
    ensures !AuthWords(s)
  {
    hide AuthWords;
    NoAuth(s);
  }

  lemma FalseText(s: string)
    requires s == "false"
    ensures !AuthWords(s)
  {
    hide AuthWords;
    NoAuth(s);
  }

  lemma ObjectText(s: string)
    requires s == "[object Object]"
    ensures !AuthWords(s)
  {
    hide AuthWords;
    assert 'd' !in s && 'D' !in s;
    ObjectTextToo(s);
    NoAuth(s);
  }

  lemma ObjectTextToo(s: string)
    requires s == "[object Object]"
    ensures 'p' !in s && 'P' !in s && 'k' !in s && 'K' !in s
  {
  }

  lemma UnknownText(s: string)
    requires s == "Unknown WHM error."
    ensures !AuthWords(s)
  {
    hide AuthWords;
    assert 'd' !in s && 'D' !in s;
    UnknownTextToo(s);
    NoAuth(s);
  }

  lemma UnknownTextToo(s: string)
    requires s == "Unknown WHM error."
    ensures 'p' !in s && 'P' !in s && 't' !in s && 'T' !in s
  {
  }

  lemma {:induction false} JoinedNames(items: seq<Json>)
    ensures AuthWords(Joined(items)) <==> exists i :: 0 <= i < |items| && NamesAuth(items[i])
    decreases items
  {
    ConstantTexts();
    hide AuthWords;
    if items != [] {
      TextNames(items[0]);
      if |items| > 1 {
        var rest := items[1..];
        var first := if items[0].Null? then "" else TextOf(items[0]);
        JoinedNames(rest);
        AuthInList(first, Joined(rest));
        assert Joined(items) == first + "," + Joined(rest);
        if i :| 0 <= i < |items| && NamesAuth(items[i]) && i > 0 { assert NamesAuth(rest[i - 1]); }
        if i :| 0 <= i < |rest| && NamesAuth(rest[i]) { assert NamesAuth(items[i + 1]); }
      } else {
        assert TextOf(items[0]) + "" == TextOf(items[0]) && "" + "" == "";
      }
    }
  }

  lemma {:induction false} TextNames(reason: Json)
    ensures AuthWords(TextOf(reason)) <==> NamesAuth(reason)
    decreases reason
  {
    hide AuthWords;
    match reason
    case Null => NullText(TextOf(reason));
    case Bool(b) => if b { TrueText(TextOf(reason)); } else { FalseText(TextOf(reason)); }
    case Obj(_) => ObjectText(TextOf(reason));
    case Arr(items) => JoinedNames(items);
    case _ =>
  }

  // ----- What a settling response says -----

  // WHM's own account of the call is other than 1.
  ghost predicate Complains(parsed: Json) {
    exists meta, result :: Has(parsed, "metadata", meta) && Has(meta, "result", result) && result != Num("1")
  }

  ghost predicate GivesReason(parsed: Json, reason: Json) {
    reason != Null && exists meta :: Has(parsed, "metadata", meta) && Has(meta, "reason", reason)
  }

  lemma ComplainsExactly(parsed: Json)
    ensures ReportsFailure(parsed) <==> Complains(parsed)
  {
    var meta := Optional(Some(parsed), "metadata");
    if ReportsFailure(parsed) {
      var result := Optional(meta, "result").value;
      assert Has(parsed, "metadata", meta.value) && Has(meta.value, "result", result);
    }
  }

  lemma ReasonExactly(parsed: Json)
    ensures NamesAuth(Reason(parsed)) <==> exists reason :: GivesReason(parsed, reason) && NamesAuth(reason)
    ensures Printable(Reason(parsed)) <==> forall reason :: GivesReason(parsed, reason) ==> Printable(reason)
  {
    ConstantTexts();
    hide AuthWords;
    var meta := Optional(Some(parsed), "metadata");
    var reason := Optional(meta, "reason");
    if !Nullish(reason) {
      assert Has(parsed, "metadata", meta.value) && Has(meta.value, "reason", reason.value);
      assert GivesReason(parsed, reason.value) && Reason(parsed) == reason.value;
    } else {
      assert Reason(parsed) == Str("Unknown WHM error.");
    }
    forall r | GivesReason(parsed, r) ensures Reason(parsed) == r {}
  }

  // The payload: what is under `data` if that is there and not null, and else everything.
  ghost predicate Payload(parsed: Json, v: Json) {
    if exists data :: Has(parsed, "data", data) && data != Null then Has(parsed, "data", v) else v == parsed
  }

  // ----- How a call ends -----

  // The call made its requests, and the outcome that settled it is number k.
  ghost predicate Settled(urlParses: (string, int) -> bool, hostname: string, port: int, transport: nat -> Transport,
          parse: string -> Option<Json>, retries: int, r: CallResult, requests: nat, k: nat)
  {
    && Ends(urlParses, hostname, port, transport, parse, retries, r, requests) && urlParses(hostname, port)
    && Settles(transport, retries, k)
  }

  lemma SettledVerdict(urlParses: (string, int) -> bool, hostname: string, port: int, transport: nat -> Transport,
          parse: string -> Option<Json>, retries: int, r: CallResult, requests: nat, k: nat)
    requires Settled(urlParses, hostname, port, transport, parse, retries, r, requests, k)
    ensures r == Verdict(transport(k), parse) && requests == k + 1
  {
    var l: nat :| Settles(transport, retries, l) && requests == l + 1 && r == Verdict(transport(l), parse);
    DecidesUnique(Attempts(transport), IsRetryable, retries, k, l);
  }

  // A response yields data exactly if it is below 400 and its body parses to something that is not null and does not
  // complain; and the data is the payload.
  lemma DataExactly(urlParses: (string, int) -> bool, hostname: string, port: int, transport: nat -> Transport,
          parse: string -> Option<Json>, retries: int, r: CallResult, requests: nat, k: nat)
    requires Settled(urlParses, hostname, port, transport, parse, retries, r, requests, k) && transport(k).Response?
    ensures r.Data? <==>
            transport(k).status < 400 &&
            exists parsed :: parse(transport(k).body) == Some(parsed) && parsed != Null && !Complains(parsed)
    ensures r.Data? ==> exists parsed :: parse(transport(k).body) == Some(parsed) && Payload(parsed, r.value)
  {
    SettledVerdict(urlParses, hostname, port, transport, parse, retries, r, requests, k);
    hide Settled;
    InterpretsData(HttpResponse(transport(k).status, transport(k).body), parse);
  }

  lemma PayloadExactly(parsed: Json)
    ensures var data := Optional(Some(parsed), "data"); Payload(parsed, if Nullish(data) then parsed else data.value)
  {
    var data := Optional(Some(parsed), "data");
    if !Nullish(data) { assert Has(parsed, "data", data.value); }
  }

  lemma InterpretsData(res: HttpResponse, parse: string -> Option<Json>)
    ensures Interpret(res, parse).Data? <==>
            res.status < 400 && exists parsed :: parse(res.body) == Some(parsed) && parsed != Null && !Complains(parsed)
    ensures Interpret(res, parse).Data? ==>
              exists parsed :: parse(res.body) == Some(parsed) && Payload(parsed, Interpret(res, parse).value)
  {
    var body := parse(res.body);
    if body.Some? {
      var parsed := body.value;
      assert parse(res.body) == Some(parsed);
      ComplainsExactly(parsed);
      PayloadExactly(parsed);
    }
    hide ReportsFailure, Complains, Payload;
  }

  // Authentication counts as failed exactly under the two statuses, and if a complaint gives a reason that says so.
  lemma AuthExactly(urlParses: (string, int) -> bool, hostname: string, port: int, transport: nat -> Transport,
          parse: string -> Option<Json>, retries: int, r: CallResult, requests: nat, k: nat)
    requires Settled(urlParses, hostname, port, transport, parse, retries, r, requests, k) && transport(k).Response?
    ensures r == Failed(ExtError(WHM_AUTH_FAILED, 502)) <==>
            || transport(k).status == 401 || transport(k).status == 403
            || (transport(k).status < 400 && exists parsed ::
                  && parse(transport(k).body) == Some(parsed) && Complains(parsed)
                  && (forall reason :: GivesReason(parsed, reason) ==> Printable(reason))
                  && exists reason :: GivesReason(parsed, reason) && NamesAuth(reason))
  {
    SettledVerdict(urlParses, hostname, port, transport, parse, retries, r, requests, k);
    var body := parse(transport(k).body);
    if body.Some? {
      ComplainsExactly(body.value);
      ReasonExactly(body.value);
      TextNames(Reason(body.value));
      LooksExactly(TextOf(Reason(body.value)));
    }
    hide Settled, ReportsFailure, Complains, GivesReason, Printable, NamesAuth, AuthWords, LooksLikeAuth, Reason,
         TextOf;
  }

  // It complains for a reason that cannot be turned into text.
  ghost predicate Stuck(parsed: Json) {
    Complains(parsed) && exists reason :: GivesReason(parsed, reason) && !Printable(reason)
  }

  // Whatever else settles a call: the driver's failures, the limits, and all that is neither data nor authentication.
  lemma OtherwiseExactly(urlParses: (string, int) -> bool, hostname: string, port: int, transport: nat -> Transport,
          parse: string -> Option<Json>, retries: int, r: CallResult, requests: nat, k: nat)
    requires Settled(urlParses, hostname, port, transport, parse, retries, r, requests, k)
    ensures match transport(k)
            case TransportFailure(_) => r == Failed(ExtError(WHM_UNREACHABLE, 502))
            case Foreign(Some(error)) => r == Failed(error)
            case Foreign(None) => r == Failed(ExtError(WHM_API_ERROR, 502))
            case Response(status, body) =>
              if status == 429 then r == Failed(ExtError(RATE_LIMITED, 429))
              else
                && (r == TypeError <==>
                      status < 400 && exists parsed :: parse(body) == Some(parsed) && (parsed == Null || Stuck(parsed)))
                && (r.Data? || r == TypeError || r == Failed(ExtError(WHM_AUTH_FAILED, 502)) ||
                    r == Failed(ExtError(WHM_API_ERROR, 502)))
  {
    SettledVerdict(urlParses, hostname, port, transport, parse, retries, r, requests, k);
    if transport(k).Response? && parse(transport(k).body).Some? {
      ComplainsExactly(parse(transport(k).body).value);
      ReasonExactly(parse(transport(k).body).value);
    }
    hide Settled, ReportsFailure, Complains, GivesReason, Printable, NamesAuth, LooksLikeAuth, Reason, TextOf;
  }

  // What an array of arrays holds at these positions.
  function Within(v: Json, path: seq<nat>): Option<Json>
    decreases |path|
  {
    if path == [] then Some(v)
    else if v.Arr? && path[0] < |v.items| then Within(v.items[path[0]], path[1..])
    else None
  }

  ghost predicate OwnToString(v: Json, path: seq<nat>) {
    var o := Within(v, path);
    o.Some? && o.value.Obj? && exists i :: 0 <= i < |o.value.entries| && o.value.entries[i].key == "toString"
  }

  lemma WithinItem(items: seq<Json>, i: nat, path: seq<nat>)
    requires i < |items|
    ensures Within(Arr(items), [i] + path) == Within(items[i], path)
    ensures OwnToString(Arr(items), [i] + path) <==> OwnToString(items[i], path)
  {
    assert ([i] + path)[1..] == path;
  }

  lemma {:induction false} Unprinted(v: Json, path: seq<nat>)
    requires OwnToString(v, path)
    ensures !Printable(v)
    decreases |path|
  {
    if path == [] {
      PropertyExactly(v.entries, "toString", Null);
    } else {
      WithinItem(v.items, path[0], path[1..]);
      assert [path[0]] + path[1..] == path;
      hide OwnToString;
      Unprinted(v.items[path[0]], path[1..]);
    }
  }

  lemma {:induction false} Obstacle(v: Json) returns (path: seq<nat>)
    requires !Printable(v)
    ensures OwnToString(v, path)
    decreases v
  {
    if v.Obj? {
      PropertyExactly(v.entries, "toString", Null);
      path := [];
    } else {
      var i :| 0 <= i < |v.items| && !Printable(v.items[i]);
      var rest := Obstacle(v.items[i]);
      hide OwnToString;
      WithinItem(v.items, i, rest);
      path := [i] + rest;
    }
  }

  // A value cannot be turned into text exactly if it is, or its lists somewhere hold, an object with a `toString`.
  lemma PrintsExactly(v: Json)
    ensures !Printable(v) <==> exists path: seq<nat> :: OwnToString(v, path)
  {
    hide OwnToString;
    if !Printable(v) { var path := Obstacle(v); }
    if path: seq<nat> :| OwnToString(v, path) { Unprinted(v, path); }
  }

  // ----- What the callers make of it -----

  // The accounts in WHM's data: a list under `acct`, or none.
  ghost predicate Listed(data: Json, rows: seq<Json>) {
    Has(data, "acct", Arr(rows)) || (rows == [] && forall items :: !Has(data, "acct", Arr(items)))
  }

  lemma AccountsExactly(r: CallResult)
    ensures match r
            case Data(data) => exists rows :: Listed(data, rows) && Accounts(r) == Replied(rows)
            case Failed(error) => Accounts(r) == Refused(error)
            case TypeError => Accounts(r) == Crashed
  {
    if r.Data? {
      var rows := Accounts(r).value;
      assert Listed(r.value, rows);
    }
  }

  lemma ListedOnce(data: Json, one: seq<Json>, two: seq<Json>)
    requires Listed(data, one) && Listed(data, two)
    ensures one == two
  {
  }

  // Every account that WHM lists under `data` arrives, and in WHM's order.
  lemma AccountsArrive(urlParses: (string, int) -> bool, hostname: string, port: int, transport: nat -> Transport,
          parse: string -> Option<Json>, retries: int, r: CallResult, requests: nat, k: nat, parsed: Json, data: Json,
          rows: seq<Json>)
    requires Settled(urlParses, hostname, port, transport, parse, retries, r, requests, k) && transport(k).Response?
    requires transport(k).status < 400 && parse(transport(k).body) == Some(parsed) && !Complains(parsed)
    requires Has(parsed, "data", data) && Has(data, "acct", Arr(rows))
    ensures Accounts(r) == Replied(rows)
  {
    DataExactly(urlParses, hostname, port, transport, parse, retries, r, requests, k);
    hide Settled, Complains;
    assert Has(r.value, "acct", Arr(rows));
  }

  lemma VersionExactly(r: CallResult)
    ensures match r
            case Data(data) =>
              && Version(r).Replied?
              && forall text :: Version(r).value == Some(text) <==> Has(data, "version", Str(text))
            case Failed(error) => Version(r) == Refused(error)
            case TypeError => Version(r) == Crashed
  {
  }
}
