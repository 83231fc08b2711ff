/** strstr, atoi and Java's decimal printing, as the two sides of the launch string use them. */
module Strings {
  import opened Options

  // ---------------------------------------------------------------------------
  // strstr
  // ---------------------------------------------------------------------------

  /** The text behind the first occurrence of the key, or None if there is none. */
  function Behind(text: string, key: string): Option<string> {
    if key <= text then Some(text[|key|..])
    else if text == "" then None
    else Behind(text[1..], key)
  }

  predicate Contains(text: string, key: string) {
    Behind(text, key).Some?
  }

  /** Behind speaks about the first occurrence. */
  lemma {:induction false} BehindIsFirst(text: string, key: string) returns (at: nat)
    requires Contains(text, key)
    ensures at <= |text| && key <= text[at..]
    ensures Behind(text, key) == Some(text[at + |key|..])
    ensures forall i :: 0 <= i < at ==> !(key <= text[i..])
  {
    if key <= text {
      at := 0;
      assert text[0..] == text;
    } else {
      var rest := BehindIsFirst(text[1..], key);
      at := rest + 1;
      assert text[1..][rest..] == text[at..];
      assert text[1..][rest + |key|..] == text[at + |key|..];
      forall i | 1 <= i < at ensures !(key <= text[i..]) {
        assert text[1..][i - 1..] == text[i..];
      }
      assert text[0..] == text;
    }
  }

  /** No position of the text starts an occurrence of the key. */
  ghost predicate Avoids(text: string, key: string) {
    forall i :: 0 <= i <= |text| ==> !(key <= text[i..])
  }

  /** Behind is None exactly for texts without an occurrence. */
  lemma {:induction false} AbsentIff(text: string, key: string)
    ensures Contains(text, key) <==> !Avoids(text, key)
  {
    if Contains(text, key) {
      var at := BehindIsFirst(text, key);
    } else {
      assert text[0..] == text;
      if text != "" {
        AbsentIff(text[1..], key);
        forall i | 1 <= i <= |text| ensures !(key <= text[i..]) {
          assert text[1..][i - 1..] == text[i..];
        }
      }
    }
  }

  /** A word that lacks one character of the key does not contain it. */
  lemma AbsentByChar(word: string, key: string, c: char)
    requires c in key && c !in word
    ensures Avoids(word, key)
  {
    var k :| 0 <= k < |key| && key[k] == c;
    forall i | 0 <= i <= |word| ensures !(key <= word[i..]) {
      assert i + k < |word| ==> word[i..][k] == word[i + k];
    }
  }

  /** A word in which the key's k-th character occurs only at one place, with a neighbour the key
      does not have, does not contain the key. */
  lemma AbsentByPivot(word: string, key: string, k: nat, at: int, j: nat)
    requires k < |key| && j < |key|
    requires forall i :: 0 <= i < |word| && i != at ==> word[i] != key[k]
    requires at - k + j < 0 || at - k + j >= |word| || word[at - k + j] != key[j]
    ensures Avoids(word, key)
  {
    forall i | 0 <= i <= |word| ensures !(key <= word[i..]) {
      assert i + k < |word| ==> word[i..][k] == word[i + k];
      assert i + j < |word| ==> word[i..][j] == word[i + j];
    }
  }

  /** A separator that is not part of the key keeps occurrences inside the words. */
  lemma {:induction false} SkipWord(word: string, sep: char, rest: string, key: string)
    requires key != "" && sep !in key && Avoids(word, key)
    ensures Behind(word + [sep] + rest, key) == Behind(rest, key)
  {
    var text := word + [sep] + rest;
    assert text[|word|] == sep;
    assert |key| > |word| ==> text[|word|] != key[|word|];
    assert word[0..] == word;
    if word == "" {
      assert text[1..] == rest;
    } else {
      assert text[1..] == word[1..] + [sep] + rest;
      forall i | 0 <= i <= |word[1..]| ensures !(key <= word[1..][i..]) {
        assert word[1..][i..] == word[i + 1..];
      }
      SkipWord(word[1..], sep, rest, key);
    }
  }

  lemma StartsWithKey(key: string, value: string, rest: string)
    ensures Behind(key + value + rest, key) == Some(value + rest)
  {
    assert (key + value + rest)[|key|..] == value + rest;
  }

  /** Whatever surrounds an occurrence, the text contains the key. */
  lemma Surrounded(before: string, key: string, behind: string)
    ensures Contains(before + key + behind, key)
  {
    var text := before + key + behind;
    assert text[|before|..] == key + behind;
    AbsentIff(text, key);
  }

  lemma Prefixed(before: string, text: string, key: string)
    requires Contains(text, key)
    ensures Contains(before + text, key)
  {
    var at := BehindIsFirst(text, key);
    assert (before + text)[|before| + at..] == text[at..];
    AbsentIff(before + text, key);
  }

  // ---------------------------------------------------------------------------
  // Numbers
  // ---------------------------------------------------------------------------

  function Digit(d: nat): char
    requires d < 10
  {
    (d + '0' as int) as char
  }

  predicate IsDigit(c: char) { '0' <= c <= '9' }

  predicate IsSpace(c: char) {
    c == ' ' || c == '\t' || c == '\n' || c == '\r' || c == 11 as char || c == 12 as char
  }

  function Digits(n: nat): (s: string)
    ensures s != "" && forall i :: 0 <= i < |s| ==> IsDigit(s[i])
  {
    if n < 10 then [Digit(n)] else Digits(n / 10) + [Digit(n % 10)]
  }

  /** Java's string form of an int. */
  function Decimal(n: int): (s: string)
    ensures s != "" && forall i :: 0 <= i < |s| ==> IsDigit(s[i]) || s[i] == '-'
  {
    if n < 0 then "-" + Digits(-n) else Digits(n)
  }

  /** The leading digits of a text, read onto an accumulator. */
  function ReadDigits(s: string, acc: nat): nat {
    if s == "" || !IsDigit(s[0]) then acc
    else ReadDigits(s[1..], 10 * acc + (s[0] as int - '0' as int))
  }

  /** atoi: leading white space, an optional sign, then digits. */
  function Atoi(s: string): int {
    if s == "" then 0
    else if IsSpace(s[0]) then Atoi(s[1..])
    else if s[0] == '-' then var magnitude: int := ReadDigits(s[1..], 0); -magnitude
    else if s[0] == '+' then ReadDigits(s[1..], 0)
    else ReadDigits(s, 0)
  }

  predicate EndsNumber(rest: string) {
    rest == "" || !IsDigit(rest[0])
  }

  /** One digit in front extends the accumulator by it. */
  lemma ReadDigit(d: nat, rest: string, acc: nat)
    requires d < 10
    ensures ReadDigits([Digit(d)] + rest, acc) == ReadDigits(rest, 10 * acc + d)
  {
    assert ([Digit(d)] + rest)[1..] == rest;
  }

  /** Reading the printed digits of n leaves n in the accumulator. */
  lemma {:induction false} ReadPrinted(n: nat, rest: string)
    ensures ReadDigits(Digits(n) + rest, 0) == ReadDigits(rest, n)
    decreases n
  {
    if n < 10 {
      ReadDigit(n, rest, 0);
    } else {
      var last := [Digit(n % 10)];
      assert Digits(n) + rest == Digits(n / 10) + (last + rest);
      ReadPrinted(n / 10, last + rest);
      ReadDigit(n % 10, rest, n / 10);
    }
  }

  /** atoi reads back what Java printed, whatever non-digit follows. */
  lemma AtoiDecimal(n: int, rest: string)
    requires EndsNumber(rest)
    ensures Atoi(Decimal(n) + rest) == n
  {
    var m: nat := if n < 0 then -n else n;
    ReadPrinted(m, rest);
    assert ReadDigits(rest, m) == m;
    if n < 0 {
      assert (Decimal(n) + rest)[1..] == Digits(m) + rest;
    } else {
      assert IsDigit((Decimal(n) + rest)[0]);
    }
  }
}
