// JSON values as the extension sees them: audit metadata, WHM replies, raw account records.
module Json {

  // A number is identified by the text JavaScript prints for it, so `x === 1` is `text == "1"`.
  datatype Json =
    | Null
    | Bool(b: bool)
    | Num(text: string)
    | Str(s: string)
    | Arr(items: seq<Json>)
    | Obj(entries: seq<Entry>)

  datatype Entry = Entry(key: string, val: Json)

  datatype Option<+T> = None | Some(value: T)

  // Property access `value.key`; `None` stands for `undefined`.
  function Property(entries: seq<Entry>, key: string): Option<Json> {
    if entries == [] then None
    else if entries[0].key == key then Some(entries[0].val)
    else Property(entries[1..], key)
  }

  function Lower(s: string): (r: string)
    ensures |r| == |s|
  {
    seq(|s|, i requires 0 <= i < |s| => if 'A' <= s[i] <= 'Z' then s[i] - 'A' + 'a' else s[i])
  }

  predicate OccursAt(s: string, word: string, i: nat) {
    i + |word| <= |s| && s[i..i + |word|] == word
  }

  predicate Contains(s: string, word: string) {
    exists i :: 0 <= i <= |s| && OccursAt(s, word, i)
  }

  // The value of a property is that of the first entry under its key.
  lemma {:induction false} PropertyExactly(entries: seq<Entry>, key: string, v: Json)
    ensures Property(entries, key) == Some(v) <==>
            exists i :: 0 <= i < |entries| && entries[i] == Entry(key, v) && forall j :: 0 <= j < i ==>
              entries[j].key != key
    ensures Property(entries, key) == None <==> forall i :: 0 <= i < |entries| ==> entries[i].key != key
  {
    if entries != [] && entries[0].key != key {
      var rest := entries[1..];
      PropertyExactly(rest, key, v);
      forall i | 0 <= i < |rest| ensures rest[i] == entries[i + 1] {}
      if i :| 0 <= i < |rest| && rest[i] == Entry(key, v) && forall j :: 0 <= j < i ==> rest[j].key != key {
        assert entries[i + 1] == Entry(key, v);
        assert forall j :: 0 <= j < i + 1 ==> entries[j].key != key by {
          forall j | 0 < j < i + 1 ensures entries[j].key != key { assert rest[j - 1].key != key; }
        }
      }
      if i :| 0 <= i < |entries| && entries[i] == Entry(key, v) && forall j :: 0 <= j < i ==> entries[j].key != key {
        assert rest[i - 1] == Entry(key, v);
        assert forall j :: 0 <= j < i - 1 ==> rest[j].key != key by {
          forall j | 0 <= j < i - 1 ensures rest[j].key != key { assert entries[j + 1].key != key; }
        }
      }
      if forall i :: 0 <= i < |rest| ==> rest[i].key != key {
        forall i | 0 < i < |entries| ensures entries[i].key != key { assert rest[i - 1].key != key; }
      }
    }
  }

  // An object with this value under this key.
  predicate Has(v: Json, key: string, val: Json) {
    v.Obj? && Property(v.entries, key) == Some(val)
  }

  // ----- Letter case -----

  // The same character, or the capital of a small letter.
  predicate SameLetter(ch: char, small: char) {
    ch == small || ('a' <= small <= 'z' && ch as int == small as int - 32)
  }

  // The word stands there, in whatever letter case.
  predicate SpelledAt(s: string, word: string, i: nat) {
    i + |word| <= |s| && forall k :: 0 <= k < |word| ==> SameLetter(s[i + k], word[k])
  }

  predicate Spelled(s: string, word: string) {
    exists i :: 0 <= i <= |s| && SpelledAt(s, word, i)
  }

  predicate NoCapitals(word: string) {
    forall k :: 0 <= k < |word| ==> !('A' <= word[k] <= 'Z')
  }

  lemma LowerSpells(s: string, word: string, i: nat)
    requires NoCapitals(word)
    ensures OccursAt(Lower(s), word, i) <==> SpelledAt(s, word, i)
  {
    if i + |word| <= |s| {
      var at := Lower(s)[i..i + |word|];
      forall k | 0 <= k < |word| ensures at[k] == word[k] <==> SameLetter(s[i + k], word[k]) {
        assert at[k] == Lower(s)[i + k];
      }
      if SpelledAt(s, word, i) { assert forall k :: 0 <= k < |word| ==> at[k] == word[k]; }
    }
  }

  // Searching the lower-case text for a word finds it in any letter case.
  lemma ContainsSpelled(s: string, word: string)
    requires NoCapitals(word)
    ensures Contains(Lower(s), word) <==> Spelled(s, word)
  {
    forall i: nat ensures OccursAt(Lower(s), word, i) <==> SpelledAt(s, word, i) { LowerSpells(s, word, i); }
  }
}
