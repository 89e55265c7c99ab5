/** Which input keys are treated as secret, whatever their separators and letter case. */
module Keys {
  predicate IsSeparator(c: char) { c == '_' || c == '-' || c == '.' }

  function Lower(c: char): char
  {
    if 'A' <= c <= 'Z' then (c as int + 32) as char else c
  }

  /** What is left of one character. */
  function Kept(c: char): string { if IsSeparator(c) then "" else [Lower(c)] }

  /** Lower case, without separators. */
  function Normalise(key: string): string
  {
    if key == "" then "" else Kept(key[0]) + Normalise(key[1..])
  }

  const MARKERS := ["password", "secret", "token", "authorization", "credential", "privatekey", "apikey"]

  predicate OccursAt(s: string, part: string, i: nat)
  {
    i + |part| <= |s| && s[i..i + |part|] == part
  }

  predicate Contains(s: string, part: string)
  {
    exists i: nat | i <= |s| :: OccursAt(s, part, i)
  }

  predicate SensitiveKey(key: string)
  {
    exists k | 0 <= k < |MARKERS| :: Contains(Normalise(key), MARKERS[k])
  }

  /** The marker search as the broker makes it. */
  method CheckKey(key: string) returns (sensitive: bool)
    ensures sensitive == SensitiveKey(key)
  {
    var normalised := Normalise(key);
    for k := 0 to |MARKERS|
      invariant forall x | 0 <= x < k :: !Contains(normalised, MARKERS[x])
    {
      if Contains(normalised, MARKERS[k]) {
        return true;
      }
    }
    return false;
  }

  lemma {:induction false} NormaliseConcat(a: string, b: string)
    ensures Normalise(a + b) == Normalise(a) + Normalise(b)
  {
    hide Kept;
    if a == "" {
      assert a + b == b;
    } else {
      NormaliseConcat(a[1..], b);
      assert (a + b)[1..] == a[1..] + b;
      Associate(Kept(a[0]), Normalise(a[1..]), Normalise(b));
    }
  }

  lemma NormaliseCons(c: char, rest: string)
    ensures Normalise([c] + rest) == Kept(c) + Normalise(rest)
  {
    assert ([c] + rest)[1..] == rest;
  }

  lemma Associate(a: string, b: string, c: string)
    ensures a + (b + c) == (a + b) + c
  {
  }

  // Independence of separators and case

  /** The same letter in either case: the codes of the two differ by 32. */
  predicate SameLetter(a: char, b: char)
  {
    || a == b
    || ('A' <= a <= 'Z' && b as int == a as int + 32)
    || ('A' <= b <= 'Z' && a as int == b as int + 32)
  }

  /** One change to a key: a separator put in or taken out anywhere, or one letter's case. */
  datatype Edit = Insert(at: nat, separator: char) | Delete(at: nat) | Recase(at: nat, letter: char)

  predicate Fits(key: string, e: Edit)
  {
    match e
    case Insert(at, separator) => at <= |key| && separator in {'_', '-', '.'}
    case Delete(at) => at < |key| && key[at] in {'_', '-', '.'}
    case Recase(at, letter) => at < |key| && SameLetter(letter, key[at])
  }

  function Edited(key: string, e: Edit): string
    requires Fits(key, e)
  {
    match e
    case Insert(at, separator) => key[..at] + [separator] + key[at..]
    case Delete(at) => key[..at] + key[at + 1..]
    case Recase(at, letter) => key[..at] + [letter] + key[at + 1..]
  }

  lemma EditKeepsNormalForm(key: string, e: Edit)
    requires Fits(key, e)
    ensures Normalise(Edited(key, e)) == Normalise(key)
  {
    hide Normalise;
    var at := e.at;
    Split(key, at);
    match e {
      case Insert(_, separator) =>
        assert Edited(key, e) == key[..at] + ([separator] + key[at..]);
        NormaliseConcat(key[..at], [separator] + key[at..]);
        NormaliseCons(separator, key[at..]);
      case Delete(_) =>
        NormaliseConcat(key[..at], key[at + 1..]);
        NormaliseCons(key[at], key[at + 1..]);
        assert [key[at]] + key[at + 1..] == key[at..];
      case Recase(_, letter) =>
        assert Edited(key, e) == key[..at] + ([letter] + key[at + 1..]);
        NormaliseConcat(key[..at], [letter] + key[at + 1..]);
        NormaliseCons(letter, key[at + 1..]);
        NormaliseCons(key[at], key[at + 1..]);
        SameLetterIsKept(letter, key[at]);
        assert [key[at]] + key[at + 1..] == key[at..];
    }
  }

  lemma SameLetterIsKept(a: char, b: char)
    requires SameLetter(a, b)
    ensures Kept(a) == Kept(b)
  {
  }

  /** Each edit fits the key that the earlier ones left. */
  predicate AllFit(key: string, es: seq<Edit>)
    decreases |es|
  {
    es == [] || (Fits(key, es[0]) && AllFit(Edited(key, es[0]), es[1..]))
  }

  function AllEdited(key: string, es: seq<Edit>): string
    requires AllFit(key, es)
    decreases |es|
  {
    if es == [] then key else AllEdited(Edited(key, es[0]), es[1..])
  }

  /** No number of separator and case changes, anywhere in the key, changes the verdict. */
  lemma {:induction false} SensitivityIgnoresSpelling(key: string, es: seq<Edit>)
    requires AllFit(key, es)
    ensures SensitiveKey(AllEdited(key, es)) == SensitiveKey(key)
    decreases |es|
  {
    if es != [] {
      EditKeepsNormalForm(key, es[0]);
      SensitivityIgnoresSpelling(Edited(key, es[0]), es[1..]);
    }
  }

  // The verdict on the key as written

  lemma {:induction false} CutAt(key: string, p: nat) returns (i: nat)
    requires p <= |Normalise(key)|
    ensures i <= |key| && |Normalise(key[..i])| == p
  {
    if p == 0 {
      i := 0;
    } else {
      var rest := CutAt(key[1..], if IsSeparator(key[0]) then p else p - 1);
      i := rest + 1;
      assert key[..i] == [key[0]] + key[1..][..rest];
      NormaliseConcat([key[0]], key[1..][..rest]);
      NormaliseConcat([key[0]], key[1..]);
    }
  }

  /** The stretch of the key as written from i to j spells the marker. */
  predicate SpelledAt(key: string, marker: string, i: nat, j: nat)
  {
    i <= j <= |key| && Normalise(key[i..j]) == marker
  }

  lemma OccurrenceIsSpelled(key: string, marker: string, p: nat) returns (i: nat, j: nat)
    requires OccursAt(Normalise(key), marker, p)
    ensures SpelledAt(key, marker, i, j)
  {
    hide Normalise;
    i := CutAt(key, p);
    Split(key, i);
    var length := CutAt(key[i..], |marker|);
    j := i + length;
    Split(key[i..], length);
    assert key[i..][..length] == key[i..j];
    assert Normalise(key[i..j]) == Normalise(key)[p..p + |marker|];
  }

  lemma SpellingOccurs(key: string, marker: string, i: nat, j: nat)
    requires SpelledAt(key, marker, i, j)
    ensures Contains(Normalise(key), marker)
  {
    hide Normalise;
    Split(key, i);
    Split(key[i..], j - i);
    assert key[i..][..j - i] == key[i..j];
    assert OccursAt(Normalise(key), marker, |Normalise(key[..i])|);
  }

  /** A key is sensitive exactly when some stretch of the key as written spells a marker, with any
      separators and any letter case inside it. */
  lemma SensitiveIffMarkerSpelled(key: string)
    ensures SensitiveKey(key) <==>
      exists k, i, j | 0 <= k < |MARKERS| && 0 <= i <= j <= |key| :: SpelledAt(key, MARKERS[k], i, j)
  {
    hide Normalise, SpelledAt, OccursAt;
    if SensitiveKey(key) {
      var k :| 0 <= k < |MARKERS| && Contains(Normalise(key), MARKERS[k]);
      var p: nat :| p <= |Normalise(key)| && OccursAt(Normalise(key), MARKERS[k], p);
      var i, j := OccurrenceIsSpelled(key, MARKERS[k], p);
      InBounds(key, MARKERS[k], i, j);
    }
    forall k, i, j | 0 <= k < |MARKERS| && 0 <= i <= j <= |key| && SpelledAt(key, MARKERS[k], i, j)
      ensures SensitiveKey(key)
    {
      SpellingOccurs(key, MARKERS[k], i, j);
    }
  }

  lemma InBounds(key: string, marker: string, i: nat, j: nat)
    requires SpelledAt(key, marker, i, j)
    ensures 0 <= i <= j <= |key|
  {
  }

  lemma Split(key: string, i: nat)
    requires i <= |key|
    ensures Normalise(key) == Normalise(key[..i]) + Normalise(key[i..])
  {
    hide Normalise;
    NormaliseConcat(key[..i], key[i..]);
    assert key == key[..i] + key[i..];
  }

  // Disguises

  /** The text is this word with any case for each letter and any separators before, between and after. */
  predicate Disguises(word: string, text: string)
    decreases |text|
  {
    if text == "" then word == ""
    else if text[0] in {'_', '-', '.'} then Disguises(word, text[1..])
    else word != "" && SameLetter(word[0], text[0]) && Disguises(word[1..], text[1..])
  }

  predicate SmallLetters(s: string) { forall i | 0 <= i < |s| :: 'a' <= s[i] <= 'z' }

  lemma {:induction false} DisguisesIff(word: string, text: string)
    requires SmallLetters(word)
    ensures Disguises(word, text) <==> Normalise(text) == word
    decreases |text|
  {
    if text != "" {
      if text[0] in {'_', '-', '.'} {
        DisguisesIff(word, text[1..]);
        assert Kept(text[0]) == "" && Normalise(text) == Normalise(text[1..]);
      } else if word != "" {
        DisguisesIff(word[1..], text[1..]);
        assert word == [word[0]] + word[1..];
        assert Kept(text[0]) == [Lower(text[0])];
        assert Normalise(text) == [Lower(text[0])] + Normalise(text[1..]);
        assert Normalise(text)[0] == Lower(text[0]) && Normalise(text)[1..] == Normalise(text[1..]);
      }
    }
  }

  predicate SecretWord(word: string)
  {
    || word == "password" || word == "secret" || word == "token" || word == "authorization"
    || word == "credential" || word == "privatekey" || word == "apikey"
  }

  lemma MarkersAreSecretWords(word: string)
    ensures SecretWord(word) <==> word in MARKERS
    ensures SecretWord(word) ==> SmallLetters(word)
  {
    if SecretWord(word) {
      assert MARKERS[0] == "password" && MARKERS[1] == "secret" && MARKERS[2] == "token";
      assert MARKERS[3] == "authorization" && MARKERS[4] == "credential";
      assert MARKERS[5] == "privatekey" && MARKERS[6] == "apikey";
    }
  }

  /** A key is sensitive exactly when some stretch of it is one of the seven words in disguise, whatever
      stands around it. */
  lemma SensitiveIffDisguised(key: string)
    ensures SensitiveKey(key) <==>
      exists word, i, j :: SecretWord(word) && 0 <= i <= j <= |key| && Disguises(word, key[i..j])
  {
    hide SensitiveKey, SecretWord, Disguises, MARKERS, Normalise, SmallLetters;
    SensitiveIffMarkerSpelled(key);
    forall word, i, j | SecretWord(word) && 0 <= i <= j <= |key|
      ensures Disguises(word, key[i..j]) <==> SpelledAt(key, word, i, j)
    {
      MarkersAreSecretWords(word);
      DisguisesIff(word, key[i..j]);
    }
    forall k | 0 <= k < |MARKERS| ensures SecretWord(MARKERS[k]) {
      MarkersAreSecretWords(MARKERS[k]);
    }
    forall word | SecretWord(word) ensures word in MARKERS {
      MarkersAreSecretWords(word);
    }
  }

  // A spelling that the documentation names and the broker does not know

  lemma HasItsLetters(s: string, part: string, i: nat)
    requires i < |part|
    ensures Contains(s, part) ==> part[i] in s
  {
    forall p: nat | p <= |s| && OccursAt(s, part, p) ensures part[i] in s {
      assert s[p..p + |part|][i] == s[p + i];
    }
  }

  /** No key spelled with the letters of "authorisation" alone is redacted: each marker needs a letter
      that it lacks. */
  lemma AuthorisationIsNotRecognised(key: string)
    requires forall c | c in Normalise(key) :: c in {'a', 'u', 't', 'h', 'o', 'r', 'i', 's', 'n'}
    ensures !SensitiveKey(key)
  {
    hide Contains, Normalise;
    var s := Normalise(key);
    HasItsLetters(s, MARKERS[0], 0);
    HasItsLetters(s, MARKERS[1], 2);
    HasItsLetters(s, MARKERS[2], 2);
    HasItsLetters(s, MARKERS[3], 7);
    HasItsLetters(s, MARKERS[4], 0);
    HasItsLetters(s, MARKERS[5], 0);
    HasItsLetters(s, MARKERS[6], 1);
    assert |MARKERS| == 7;
  }
}
