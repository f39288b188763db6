// The secret scrubber (src/backend/utils/redact.ts).
module Redact {
  import opened Json

  const MAX_DEPTH: nat := 8
  const MASK := Str("[REDACTED]")

  // The alternatives of the key pattern, which is matched anywhere in the key and without regard to case.
  const SENSITIVE_WORDS := [
    "token", "secret", "password", "passphrase", "authorization",
    "apikey", "api-key", "api_key", "privatekey", "private-key", "private_key",
    "tokenenc", "secretenc"
  ]

  predicate Sensitive(key: string) {
    exists w :: w in SENSITIVE_WORDS && Contains(Lower(key), w)
  }

  // `first`, at most one `-` or `_`, and `key`.
  ghost predicate SpelledKey(key: string, first: string) {
    Spelled(key, first + "key") || Spelled(key, first + "-" + "key") || Spelled(key, first + "_" + "key")
  }

  // The pattern of sensitive keys, read letter by letter: in any letter case, and anywhere in the key.
  ghost predicate NamesSecret(key: string) {
    || Spelled(key, "token") || Spelled(key, "secret") || Spelled(key, "password") || Spelled(key, "passphrase")
    || Spelled(key, "authorization") || Spelled(key, "tokenenc") || Spelled(key, "secretenc")
    || SpelledKey(key, "api") || SpelledKey(key, "private")
  }

  lemma WordSensitive(key: string, word: string)
    requires word in SENSITIVE_WORDS && Spelled(key, word)
    ensures Sensitive(key)
  {
    NoCapitalWords(word);
    hide SENSITIVE_WORDS;
    ContainsSpelled(key, word);
  }

  lemma NamedSensitive(key: string)
    requires NamesSecret(key)
    ensures Sensitive(key)
  {
    hide Spelled, Sensitive;
    if Spelled(key, "token") { WordSensitive(key, "token"); }
    else if Spelled(key, "secret") { WordSensitive(key, "secret"); }
    else if Spelled(key, "password") { WordSensitive(key, "password"); }
    else if Spelled(key, "passphrase") { WordSensitive(key, "passphrase"); }
    else if Spelled(key, "authorization") { WordSensitive(key, "authorization"); }
    else if Spelled(key, "tokenenc") { WordSensitive(key, "tokenenc"); }
    else if Spelled(key, "secretenc") { WordSensitive(key, "secretenc"); }
    else { KeySensitive(key); }
  }

  lemma KeySensitive(key: string)
    requires SpelledKey(key, "api") || SpelledKey(key, "private")
    ensures Sensitive(key)
  {
    hide Spelled, Sensitive;
    assert "api" + "key" == "apikey" && "api" + "-" + "key" == "api-key" && "api" + "_" + "key" == "api_key";
    assert "private" + "key" == "privatekey";
    assert "private" + "-" + "key" == "private-key" && "private" + "_" + "key" == "private_key";
    if Spelled(key, "apikey") { WordSensitive(key, "apikey"); }
    else if Spelled(key, "api-key") { WordSensitive(key, "api-key"); }
    else if Spelled(key, "api_key") { WordSensitive(key, "api_key"); }
    else if Spelled(key, "privatekey") { WordSensitive(key, "privatekey"); }
    else if Spelled(key, "private-key") { WordSensitive(key, "private-key"); }
    else { WordSensitive(key, "private_key"); }
  }

  lemma WordsNamed(key: string, word: string)
    requires word in SENSITIVE_WORDS && Spelled(key, word)
    ensures NamesSecret(key)
  {
    hide Spelled;
    assert "api" + "key" == "apikey" && "api" + "-" + "key" == "api-key" && "api" + "_" + "key" == "api_key";
    assert "private" + "key" == "privatekey";
    assert "private" + "-" + "key" == "private-key" && "private" + "_" + "key" == "private_key";
  }

  lemma NoCapitalWords(word: string)
    requires word in SENSITIVE_WORDS
    ensures NoCapitals(word)
  {
  }

  lemma SensitiveExactly(key: string)
    ensures Sensitive(key) <==> NamesSecret(key)
  {
    hide Contains, Spelled, Lower, NamesSecret;
    if Sensitive(key) {
      var word :| word in SENSITIVE_WORDS && Contains(Lower(key), word);
      hide SENSITIVE_WORDS;
      NoCapitalWords(word);
      ContainsSpelled(key, word);
      WordsNamed(key, word);
    }
    if NamesSecret(key) { NamedSensitive(key); }
  }

  function Redacted(value: Json, depth: nat): Json {
    if depth > MAX_DEPTH then MASK
    else match value
      case Arr(items) => Arr(seq(|items|, i requires 0 <= i < |items| => Redacted(items[i], depth + 1)))
      case Obj(entries) => Obj(seq(|entries|, i requires 0 <= i < |entries| => RedactedEntry(entries[i], depth)))
      case _ => value
  }

  function RedactedEntry(entry: Entry, depth: nat): Entry {
    Entry(entry.key, if Sensitive(entry.key) then MASK else Redacted(entry.val, depth + 1))
  }

  // What scrubbing makes of a value that sits `depth` levels down: beyond eight levels, and under every key the pattern
  // matches, nothing but the mask; anything else is kept.
  ghost predicate Scrubs(value: Json, depth: nat, r: Json)
    decreases value
  {
    if depth > 8 then r == Str("[REDACTED]")
    else match value
      case Arr(items) =>
        r.Arr? && |r.items| == |items| && forall i :: 0 <= i < |items| ==> Scrubs(items[i], depth + 1, r.items[i])
      case Obj(entries) =>
        && r.Obj? && |r.entries| == |entries|
        && forall i :: 0 <= i < |entries| ==>
             && r.entries[i].key == entries[i].key
             && if NamesSecret(entries[i].key) then r.entries[i].val == Str("[REDACTED]")
                else Scrubs(entries[i].val, depth + 1, r.entries[i].val)
      case _ => r == value
  }

  lemma {:induction false} RedactedScrubs(value: Json, depth: nat)
    ensures Scrubs(value, depth, Redacted(value, depth))
    decreases value
  {
    hide Sensitive, NamesSecret;
    if depth <= MAX_DEPTH {
      match value
      case Arr(items) => forall i | 0 <= i < |items| { RedactedScrubs(items[i], depth + 1); }
      case Obj(entries) =>
        forall i | 0 <= i < |entries|
          ensures NamesSecret(entries[i].key) ==> RedactedEntry(entries[i], depth).val == Str("[REDACTED]")
          ensures !NamesSecret(entries[i].key) ==>
                    Scrubs(entries[i].val, depth + 1, RedactedEntry(entries[i], depth).val)
        {
          SensitiveExactly(entries[i].key);
          RedactedScrubs(entries[i].val, depth + 1);
        }
      case _ =>
    }
  }

  method Redact(value: Json, depth: nat) returns (r: Json)
    ensures r == Redacted(value, depth) && Scrubs(value, depth, r)
    decreases value
  {
    RedactedScrubs(value, depth);
    hide Scrubs;
    if depth > MAX_DEPTH { return MASK; }
    match value
    case Arr(items) =>
      var mapped: seq<Json> := [];
      for i := 0 to |items|
        invariant |mapped| == i
        invariant forall j :: 0 <= j < i ==> mapped[j] == Redacted(items[j], depth + 1)
      {
        var item := Redact(items[i], depth + 1);
        mapped := mapped + [item];
      }
      r := Arr(mapped);
    case Obj(entries) =>
      var out: seq<Entry> := [];
      for i := 0 to |entries|
        invariant |out| == i
        invariant forall j :: 0 <= j < i ==> out[j] == RedactedEntry(entries[j], depth)
      {
        var val := MASK;
        if !Sensitive(entries[i].key) {
          val := Redact(entries[i].val, depth + 1);
        }
        out := out + [Entry(entries[i].key, val)];
      }
      r := Obj(out);
    case _ => r := value;
  }

  // ----- What a reader of the scrubbed value may learn -----
  // A path is a list of child positions, in an array or in an object.

  datatype Shape = Scalar(value: Json) | ArrayOf(length: nat) | ObjectOf(keys: seq<string>) | Missing | Hidden

  function ShapeOf(v: Json): Shape {
    match v
    case Arr(items) => ArrayOf(|items|)
    case Obj(entries) => ObjectOf(seq(|entries|, i requires 0 <= i < |entries| => entries[i].key))
    case _ => Scalar(v)
  }

  function Child(v: Json, i: nat): Option<Json> {
    match v
    case Arr(items) => if i < |items| then Some(items[i]) else None
    case Obj(entries) => if i < |entries| then Some(entries[i].val) else None
    case _ => None
  }

  predicate Guards(v: Json, i: nat) {
    v.Obj? && i < |v.entries| && Sensitive(v.entries[i].key)
  }

  function ShapeAt(v: Json, path: seq<nat>): Shape
    decreases |path|
  {
    if path == [] then ShapeOf(v)
    else match Child(v, path[0])
      case None => Missing
      case Some(child) => ShapeAt(child, path[1..])
  }

  // The path steps below a sensitive key.
  predicate Crosses(v: Json, path: seq<nat>)
    decreases |path|
  {
    path != [] &&
    (Guards(v, path[0]) ||
     match Child(v, path[0])
     case None => false
     case Some(child) => Crosses(child, path[1..]))
  }

  // The observation at a path of a value that itself sits `depth` levels down.
  function Seen(v: Json, depth: nat, path: seq<nat>): Shape {
    if depth + |path| > MAX_DEPTH || Crosses(v, path) then Hidden else ShapeAt(v, path)
  }

  ghost predicate Agree(a: Json, b: Json, depth: nat) {
    forall path: seq<nat> :: Seen(a, depth, path) == Seen(b, depth, path)
  }

  lemma SeenBelow(v: Json, depth: nat, i: nat, path: seq<nat>)
    ensures Seen(v, depth, [i] + path) ==
            if Guards(v, i) then Hidden
            else match Child(v, i)
              case None => if depth + 1 + |path| > MAX_DEPTH then Hidden else Missing
              case Some(child) => Seen(child, depth + 1, path)
  {
    assert ([i] + path)[1..] == path;
  }

  lemma AgreeBelow(a: Json, b: Json, depth: nat, i: nat)
    requires Agree(a, b, depth)
    requires !Guards(a, i) && !Guards(b, i)
    requires Child(a, i).Some? && Child(b, i).Some?
    ensures Agree(Child(a, i).value, Child(b, i).value, depth + 1)
  {
    var x, y, below := Child(a, i).value, Child(b, i).value, depth + 1;
    forall path: seq<nat> ensures Seen(x, below, path) == Seen(y, below, path) {
      SeenBelow(a, depth, i, path);
      SeenBelow(b, depth, i, path);
    }
  }

  lemma {:induction false} AgreeImpliesEqual(a: Json, b: Json, depth: nat)
    requires Agree(a, b, depth)
    ensures Redacted(a, depth) == Redacted(b, depth)
    decreases a
  {
    if depth <= MAX_DEPTH {
      assert Seen(a, depth, []) == Seen(b, depth, []);
      assert ShapeOf(a) == ShapeOf(b);
      match a
      case Arr(items) =>
        forall i | 0 <= i < |items|
          ensures Redacted(items[i], depth + 1) == Redacted(b.items[i], depth + 1)
        {
          AgreeBelow(a, b, depth, i);
          AgreeImpliesEqual(items[i], b.items[i], depth + 1);
        }
      case Obj(entries) =>
        var keys := ShapeOf(a).keys;
        forall i | 0 <= i < |entries|
          ensures RedactedEntry(entries[i], depth) == RedactedEntry(b.entries[i], depth)
        {
          assert entries[i].key == keys[i] == b.entries[i].key;
          if !Sensitive(entries[i].key) {
            AgreeBelow(a, b, depth, i);
            AgreeImpliesEqual(entries[i].val, b.entries[i].val, depth + 1);
          }
        }
      case _ =>
    }
  }

  lemma {:induction false} EqualImpliesSeen(a: Json, b: Json, depth: nat, path: seq<nat>)
    requires Redacted(a, depth) == Redacted(b, depth)
    ensures Seen(a, depth, path) == Seen(b, depth, path)
    decreases |path|
  {
    if depth <= MAX_DEPTH {
      assert ShapeOf(a) == ShapeOf(b) by {
        if a.Obj? {
          assert b.Obj? && |a.entries| == |b.entries|;
          forall i | 0 <= i < |a.entries| ensures a.entries[i].key == b.entries[i].key {
            assert Redacted(a, depth).entries[i] == Redacted(b, depth).entries[i];
          }
        }
      }
      if path != [] {
        var i, rest := path[0], path[1..];
        assert path == [i] + rest;
        SeenBelow(a, depth, i, rest);
        SeenBelow(b, depth, i, rest);
        match a
        case Arr(items) =>
          if i < |items| {
            assert Redacted(a, depth).items[i] == Redacted(b, depth).items[i];
            EqualImpliesSeen(items[i], b.items[i], depth + 1, rest);
          }
        case Obj(entries) =>
          if i < |entries| {
            assert Redacted(a, depth).entries[i] == Redacted(b, depth).entries[i];
            if !Sensitive(entries[i].key) {
              EqualImpliesSeen(entries[i].val, b.entries[i].val, depth + 1, rest);
            }
          }
        case _ =>
      }
    }
  }

  // The exact kernel: two values scrub to the same output just when they agree at every path of
  // length at most MAX_DEPTH that does not step below a sensitive key.
  lemma RedactKernel(a: Json, b: Json)
    ensures Redacted(a, 0) == Redacted(b, 0) <==> Agree(a, b, 0)
  {
    if Agree(a, b, 0) { AgreeImpliesEqual(a, b, 0); }
    if Redacted(a, 0) == Redacted(b, 0) {
      forall path: seq<nat> ensures Seen(a, 0, path) == Seen(b, 0, path) {
        EqualImpliesSeen(a, b, 0, path);
      }
    }
  }

  lemma {:induction false} Idempotent(v: Json, depth: nat)
    ensures Redacted(Redacted(v, depth), depth) == Redacted(v, depth)
    decreases v
  {
    if depth <= MAX_DEPTH {
      match v
      case Arr(items) =>
        forall i | 0 <= i < |items|
          ensures Redacted(Redacted(items[i], depth + 1), depth + 1) == Redacted(items[i], depth + 1)
        {
          Idempotent(items[i], depth + 1);
        }
      case Obj(entries) =>
        forall i | 0 <= i < |entries|
          ensures RedactedEntry(RedactedEntry(entries[i], depth), depth) == RedactedEntry(entries[i], depth)
        {
          Idempotent(entries[i].val, depth + 1);
        }
      case _ =>
    }
  }

  // No sensitive key, at any depth, holds anything but the mask.
  predicate NoSecret(v: Json) {
    match v
    case Arr(items) => forall i :: 0 <= i < |items| ==> NoSecret(items[i])
    case Obj(entries) =>
      forall i :: 0 <= i < |entries| ==>
        NoSecret(entries[i].val) && (Sensitive(entries[i].key) ==> entries[i].val == MASK)
    case _ => true
  }

  // Containers are nested at most `levels` deep.
  predicate Within(v: Json, levels: nat) {
    match v
    case Arr(items) => levels > 0 && forall i :: 0 <= i < |items| ==> Within(items[i], levels - 1)
    case Obj(entries) => levels > 0 && forall i :: 0 <= i < |entries| ==> Within(entries[i].val, levels - 1)
    case _ => true
  }

  lemma {:induction false} ScrubbedAndBounded(v: Json, depth: nat)
    requires depth <= MAX_DEPTH + 1
    ensures NoSecret(Redacted(v, depth))
    ensures Within(Redacted(v, depth), MAX_DEPTH + 1 - depth)
    decreases v
  {
    if depth <= MAX_DEPTH {
      match v
      case Arr(items) =>
        forall i | 0 <= i < |items|
          ensures NoSecret(Redacted(items[i], depth + 1)) && Within(Redacted(items[i], depth + 1), MAX_DEPTH - depth)
        {
          ScrubbedAndBounded(items[i], depth + 1);
        }
      case Obj(entries) =>
        forall i | 0 <= i < |entries|
          ensures NoSecret(RedactedEntry(entries[i], depth).val)
          ensures Within(RedactedEntry(entries[i], depth).val, MAX_DEPTH - depth)
        {
          ScrubbedAndBounded(entries[i].val, depth + 1);
        }
      case _ =>
    }
  }

  // The display hint of a secret.
  function LastFour(secret: string): (hint: string)
    ensures |hint| == 4
    ensures |secret| > 4 ==> hint == secret[|secret| - 4..]
    ensures |secret| <= 4 ==> hint == "••••"
  {
    if |secret| <= 4 then "••••" else secret[|secret| - 4..]
  }
}
