// Raw WHM account records and the fields kept of them (src/backend/utils/whm-account-parse.ts).
module WhmAccounts {
  import opened Json
  import opened Store

  datatype Parsed = Parsed(cpanelUser: string, fields: Fields)

  // `None` stands for `null`.
  function Text(v: Option<Json>): Option<string> {
    match v
    case Some(Str(s)) => if s != "" then Some(s) else None
    case Some(Num(text)) => Some(text)
    case _ => None
  }

  predicate IsSpace(ch: char) {
    || '\t' <= ch <= '\r' || ch == ' ' || ch == '\U{A0}' || ch == '\U{1680}' || '\U{2000}' <= ch <= '\U{200A}'
    || ch == '\U{2028}' || ch == '\U{2029}' || ch == '\U{202F}' || ch == '\U{205F}' || ch == '\U{3000}' ||
       ch == '\U{FEFF}'
  }

  function Trim(s: string): string
    decreases |s|
  {
    if s != "" && IsSpace(s[0]) then Trim(s[1..])
    else if s != "" && IsSpace(s[|s| - 1]) then Trim(s[..|s| - 1])
    else s
  }

  predicate Blank(s: string) {
    forall i :: 0 <= i < |s| ==> IsSpace(s[i])
  }

  lemma OneMoreBefore(s: string, before: string, m: string, after: string)
    requires s != "" && IsSpace(s[0]) && s[1..] == before + m + after && Blank(before)
    ensures s == ([s[0]] + before) + m + after && Blank([s[0]] + before)
  {
    assert s == [s[0]] + s[1..];
  }

  lemma OneMoreAfter(s: string, before: string, m: string, after: string)
    requires s != "" && IsSpace(s[|s| - 1]) && s[..|s| - 1] == before + m + after && Blank(after)
    ensures s == before + m + (after + [s[|s| - 1]]) && Blank(after + [s[|s| - 1]])
  {
    assert s == s[..|s| - 1] + [s[|s| - 1]];
  }

  // What is cut off is white space, and none is left at either end.
  lemma {:induction false} TrimExactly(s: string) returns (before: string, after: string)
    ensures s == before + Trim(s) + after && Blank(before) && Blank(after)
    ensures Trim(s) != "" ==> !IsSpace(Trim(s)[0]) && !IsSpace(Trim(s)[|Trim(s)| - 1])
    decreases |s|
  {
    hide IsSpace, Blank;
    if s != "" && IsSpace(s[0]) {
      before, after := TrimExactly(s[1..]);
      OneMoreBefore(s, before, Trim(s), after);
      before := [s[0]] + before;
    } else if s != "" && IsSpace(s[|s| - 1]) {
      before, after := TrimExactly(s[..|s| - 1]);
      OneMoreAfter(s, before, Trim(s), after);
      after := after + [s[|s| - 1]];
    } else {
      NothingBlank();
      before, after := "", "";
      assert s == "" + s + "";
    }
  }

  lemma NothingBlank()
    ensures Blank("")
  {
  }

  function Boolish(v: Option<Json>): bool {
    match v
    case Some(Bool(b)) => b
    case Some(Num(text)) => text == "1"
    case Some(Str(s)) => Lower(Trim(s)) in ["1", "true", "yes", "on"]
    case _ => false
  }

  // A `null` record makes the parser throw; any other value without the property reads as undefined.
  function Parse(raw: Json): Option<Parsed> {
    if raw.Null? then None
    else
      var get := (key: string) => if raw.Obj? then Property(raw.entries, key) else None;
      var user := if Text(get("user")).Some? then Text(get("user")) else Text(get("username"));
      Some(Parsed(Or(user, "unknown"),
                  Fields(Text(get("domain")), Text(get("plan")), Boolish(get("suspended")), raw)))
  }

  function ParseAll(raws: seq<Json>): (r: Option<seq<Parsed>>)
    ensures r.Some? <==> forall i :: 0 <= i < |raws| ==> raws[i] != Null
    ensures r.Some? ==> |r.value| == |raws| && forall i :: 0 <= i < |raws| ==> Parse(raws[i]) == Some(r.value[i])
  {
    if raws == [] then Some([])
    else
      var rest := ParseAll(raws[..|raws| - 1]);
      var last := Parse(raws[|raws| - 1]);
      if rest.Some? && last.Some? then Some(rest.value + [last.value]) else None
  }

  // ----- What is kept of a record, told from the record -----

  // The white space of the ECMAScript standard, section 12.2 and 12.3.
  lemma SpacesExactly(ch: char)
    ensures IsSpace(ch) <==>
            ch in "\t\n\U{0B}\U{0C}\r \U{A0}\U{1680}\U{2000}\U{2001}\U{2002}\U{2003}\U{2004}\U{2005}\U{2006}\U{2007}" +
                  "\U{2008}\U{2009}\U{200A}\U{2028}\U{2029}\U{202F}\U{205F}\U{3000}\U{FEFF}"
  {
  }

  // A nonempty string under this key, or a number of this text.
  predicate Writes(raw: Json, key: string, text: string) {
    (Has(raw, key, Str(text)) && text != "") || Has(raw, key, Num(text))
  }

  ghost predicate WritesAny(raw: Json, key: string) { exists text :: Writes(raw, key, text) }

  // The word, with nothing but white space around it, in any letter case.
  predicate SpellsOnly(s: string, word: string) {
    exists i :: 0 <= i <= |s| - |word| && Blank(s[..i]) && SpelledAt(s, word, i) && Blank(s[i + |word|..])
  }

  ghost predicate SaysYes(s: string) {
    SpellsOnly(s, "1") || SpellsOnly(s, "true") || SpellsOnly(s, "yes") || SpellsOnly(s, "on")
  }

  // This account is what is kept of this record.
  ghost predicate Recorded(raw: Json, p: Parsed) {
    && (if WritesAny(raw, "user") then Writes(raw, "user", p.cpanelUser)
        else if WritesAny(raw, "username") then Writes(raw, "username", p.cpanelUser)
        else p.cpanelUser == "unknown")
    && (forall d :: p.fields.domain == Some(d) <==> Writes(raw, "domain", d))
    && (forall d :: p.fields.plan == Some(d) <==> Writes(raw, "plan", d))
    && (p.fields.suspended <==>
          || Has(raw, "suspended", Bool(true)) || Has(raw, "suspended", Num("1"))
          || exists s :: Has(raw, "suspended", Str(s)) && SaysYes(s))
    && p.fields.raw == raw
  }

  function Under(raw: Json, key: string): Option<Json> {
    if raw.Obj? then Property(raw.entries, key) else None
  }

  lemma TextExactly(raw: Json, key: string, text: string)
    ensures Text(Under(raw, key)) == Some(text) <==> Writes(raw, key, text)
  {
  }

  // A text with white space around it trims to that text.
  lemma {:induction false} TrimUnique(s: string, i: nat, j: nat)
    requires i < j <= |s| && Blank(s[..i]) && Blank(s[j..]) && !IsSpace(s[i]) && !IsSpace(s[j - 1])
    ensures Trim(s) == s[i..j]
    decreases |s|
  {
    hide IsSpace;
    if i > 0 {
      assert IsSpace(s[..i][0]);
      assert s[1..][..i - 1] == s[..i][1..] && s[1..][j - 1..] == s[j..] && s[1..][i - 1..j - 1] == s[i..j];
      TrimUnique(s[1..], i - 1, j - 1);
    } else if j < |s| {
      var n := |s| - 1;
      assert IsSpace(s[j..][n - j]);
      assert s[..n][j..] == s[j..][..n - j] && s[..n][..i] == s[..i] && s[..n][i..j] == s[i..j];
      TrimUnique(s[..n], i, j);
    } else {
      assert s[i..j] == s;
    }
  }

  predicate PlainWord(word: string) {
    word != "" && forall k :: 0 <= k < |word| ==> 'a' <= word[k] <= 'z' || '0' <= word[k] <= '9'
  }

  lemma LetterNoSpace(ch: char, small: char)
    requires SameLetter(ch, small) && ('a' <= small <= 'z' || '0' <= small <= '9')
    ensures !IsSpace(ch)
  {
  }

  lemma SpelledWhole(m: string, word: string)
    requires NoCapitals(word)
    ensures Lower(m) == word <==> |m| == |word| && SpelledAt(m, word, 0)
  {
    LowerSpells(m, word, 0);
    if |m| == |word| { assert Lower(m)[0..|word|] == Lower(m); }
  }

  lemma WordEdges(s: string, word: string, i: nat)
    requires PlainWord(word) && SpelledAt(s, word, i)
    ensures !IsSpace(s[i]) && !IsSpace(s[i + |word| - 1])
  {
    hide IsSpace;
    var k := |word| - 1;
    assert SameLetter(s[i + 0], word[0]) && SameLetter(s[i + k], word[k]);
    LetterNoSpace(s[i], word[0]);
    LetterNoSpace(s[i + k], word[k]);
  }

  lemma SpelledPart(s: string, word: string, i: nat)
    requires SpelledAt(s, word, i)
    ensures SpelledAt(s[i..i + |word|], word, 0)
  {
    var part := s[i..i + |word|];
    forall k | 0 <= k < |word| ensures SameLetter(part[0 + k], word[k]) { assert part[k] == s[i + k]; }
  }

  lemma SpellsTrimmed(s: string, word: string, i: nat)
    requires PlainWord(word) && i + |word| <= |s|
    requires Blank(s[..i]) && SpelledAt(s, word, i) && Blank(s[i + |word|..])
    ensures Lower(Trim(s)) == word
  {
    hide IsSpace, Trim, Lower, Blank;
    WordEdges(s, word, i);
    SpelledPart(s, word, i);
    hide SpelledAt;
    TrimUnique(s, i, i + |word|);
    SpelledWhole(s[i..i + |word|], word);
  }

  lemma TrimmedSpells(s: string, word: string)
    requires PlainWord(word)
    ensures Lower(Trim(s)) == word <==> SpellsOnly(s, word)
  {
    hide IsSpace, Trim, Lower, Blank;
    if Lower(Trim(s)) == word {
      SpelledWhole(Trim(s), word);
      var before, after := TrimExactly(s);
      var i := |before|;
      assert s[..i] == before && s[i + |word|..] == after;
      assert SpelledAt(s, word, i) by {
        forall k | 0 <= k < |word| ensures SameLetter(s[i + k], word[k]) { assert s[i + k] == Trim(s)[0 + k]; }
      }
    }
    if i :| 0 <= i <= |s| - |word| && Blank(s[..i]) && SpelledAt(s, word, i) && Blank(s[i + |word|..]) {
      SpellsTrimmed(s, word, i);
    }
  }

  lemma BoolishExactly(raw: Json, key: string)
    ensures Boolish(Under(raw, key)) <==>
            || Has(raw, key, Bool(true)) || Has(raw, key, Num("1")) || exists s :: Has(raw, key, Str(s)) && SaysYes(s)
  {
    var v := Under(raw, key);
    if v.Some? && v.value.Str? {
      TrimmedSpells(v.value.s, "1");
      TrimmedSpells(v.value.s, "true");
      TrimmedSpells(v.value.s, "yes");
      TrimmedSpells(v.value.s, "on");
    }
    hide Trim, Lower, SpellsOnly;
  }

  lemma TextKept(raw: Json, key: string, o: Option<string>)
    ensures (forall d :: o == Some(d) <==> Writes(raw, key, d)) <==> o == Text(Under(raw, key))
  {
    forall d: string ensures Text(Under(raw, key)) == Some(d) <==> Writes(raw, key, d) { TextExactly(raw, key, d); }
    hide Text, Writes;
    var text := Text(Under(raw, key));
    if o.Some? { assert Writes(raw, key, o.value) <==> text == o; }
    if text.Some? { assert Writes(raw, key, text.value); }
  }

  lemma UserKept(raw: Json, user: string)
    ensures (if WritesAny(raw, "user") then Writes(raw, "user", user)
             else if WritesAny(raw, "username") then Writes(raw, "username", user)
             else user == "unknown") <==>
            user == var first := Text(Under(raw, "user"));
                    Or(if first.Some? then first else Text(Under(raw, "username")), "unknown")
  {
    forall key, text: string ensures Text(Under(raw, key)) == Some(text) <==> Writes(raw, key, text) {
      TextExactly(raw, key, text);
    }
    hide Text, Writes, Under;
    var first, second := Text(Under(raw, "user")), Text(Under(raw, "username"));
    if first.Some? { assert Writes(raw, "user", first.value); }
    if second.Some? { assert Writes(raw, "username", second.value); }
  }

  // Parsing keeps exactly that of a record that is not null.
  lemma ParsesExactly(raw: Json, p: Parsed)
    ensures Parse(raw) == Some(p) <==> raw != Null && Recorded(raw, p)
  {
    UserKept(raw, p.cpanelUser);
    TextKept(raw, "domain", p.fields.domain);
    TextKept(raw, "plan", p.fields.plan);
    BoolishExactly(raw, "suspended");
    hide Text, Boolish, Writes, WritesAny, SaysYes, Has;
  }
}
