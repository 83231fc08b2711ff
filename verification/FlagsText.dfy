/**
 flags_to_string of gst_element_print_properties.cpp: a flags word as text.  A 32-bit word is the
 set of its set bits, so `&` is intersection; the subtraction the loop uses is related to the sets
 by SubtractionClears below.
 */
module FlagsText {

  const WORD_BITS: nat := 32

  type Word = w: set<nat> | forall b :: b in w ==> b < WORD_BITS witness {}

  /** One GFlagsValue; the table ends with an entry without a name. */
  datatype FlagsValue = FlagsValue(value: Word, nick: string)

  /** The entry can be taken out of what is left. */
  predicate Fits(v: Word, left: Word) {
    v != {} && left * v == v
  }

  /** The positions the greedy loop picks, going down from position n. */
  function Pick(vals: seq<FlagsValue>, n: nat, left: Word): (picked: seq<nat>)
    requires n <= |vals|
    ensures forall k :: 0 <= k < |picked| ==> picked[k] < n
    ensures forall j, k :: 0 <= j < k < |picked| ==> picked[j] > picked[k]
  {
    if n == 0 || left == {} then []
    else if Fits(vals[n - 1].value, left) then [n - 1] + Pick(vals, n - 1, left - vals[n - 1].value)
    else Pick(vals, n - 1, left)
  }

  /** What is left over after that. */
  function Residue(vals: seq<FlagsValue>, n: nat, left: Word): (r: Word)
    requires n <= |vals|
    ensures r <= left
  {
    if n == 0 || left == {} then left
    else if Fits(vals[n - 1].value, left) then Residue(vals, n - 1, left - vals[n - 1].value)
    else Residue(vals, n - 1, left)
  }

  // ---------------------------------------------------------------------------
  // Words and numbers
  // ---------------------------------------------------------------------------

  function Pow2(n: nat): nat {
    if n == 0 then 1 else 2 * Pow2(n - 1)
  }

  /** The unsigned number whose binary digits below position n are the bits of w. */
  function Number(w: set<nat>, n: nat): nat {
    if n == 0 then 0 else Number(w, n - 1) + if n - 1 in w then Pow2(n - 1) else 0
  }

  /** flags_left -= value clears exactly the bits of a contained value. */
  lemma {:induction false} SubtractionClears(left: set<nat>, v: set<nat>, n: nat)
    requires v <= left
    ensures Number(left, n) - Number(v, n) == Number(left - v, n)
  {
    if n > 0 { SubtractionClears(left, v, n - 1); }
  }

  lemma {:induction false} NumberBound(w: set<nat>, n: nat)
    ensures Number(w, n) < Pow2(n)
  {
    if n > 0 { NumberBound(w, n - 1); }
  }

  /** Equal numbers have equal bits, so comparing words compares sets. */
  lemma {:induction false} NumberInjective(a: set<nat>, b: set<nat>, n: nat, bit: nat)
    requires Number(a, n) == Number(b, n) && bit < n
    ensures bit in a <==> bit in b
  {
    NumberBound(a, n - 1);
    NumberBound(b, n - 1);
    if bit < n - 1 { NumberInjective(a, b, n - 1, bit); }
  }

  // ---------------------------------------------------------------------------
  // What the greedy choice guarantees
  // ---------------------------------------------------------------------------

  predicate Apart(a: Word, b: Word) {
    forall bit :: bit in a ==> bit !in b
  }

  /** Every picked entry fits into the word. */
  lemma {:induction false} PickedFits(vals: seq<FlagsValue>, n: nat, left: Word, k: nat)
    requires n <= |vals| && k < |Pick(vals, n, left)|
    ensures vals[Pick(vals, n, left)[k]].value <= left
    ensures Apart(vals[Pick(vals, n, left)[k]].value, Residue(vals, n, left))
  {
    var v := vals[n - 1].value;
    if !Fits(v, left) {
      PickedFits(vals, n - 1, left, k);
    } else if k > 0 {
      PickedFits(vals, n - 1, left - v, k - 1);
    }
  }

  /** No bit is shown twice. */
  lemma {:induction false} PickedApart(vals: seq<FlagsValue>, n: nat, left: Word, j: nat, k: nat)
    requires n <= |vals| && j < k < |Pick(vals, n, left)|
    ensures Apart(vals[Pick(vals, n, left)[j]].value, vals[Pick(vals, n, left)[k]].value)
  {
    var v := vals[n - 1].value;
    if !Fits(v, left) {
      PickedApart(vals, n - 1, left, j, k);
    } else if j > 0 {
      PickedApart(vals, n - 1, left - v, j - 1, k - 1);
    } else {
      PickedFits(vals, n - 1, left - v, k - 1);
    }
  }

  /** A bit of the word that is not left over is shown. */
  lemma {:induction false} Shown(vals: seq<FlagsValue>, n: nat, left: Word, bit: nat) returns (k: nat)
    requires n <= |vals| && bit in left && bit !in Residue(vals, n, left)
    ensures k < |Pick(vals, n, left)| && bit in vals[Pick(vals, n, left)[k]].value
  {
    var v := vals[n - 1].value;
    if !Fits(v, left) {
      k := Shown(vals, n - 1, left, bit);
    } else if bit in v {
      k := 0;
    } else {
      k := Shown(vals, n - 1, left - v, bit);
      k := k + 1;
    }
  }

  /** What is shown and what is left over make up exactly the word: every bit of the word is in the
      residue or in one picked entry, never in two of these, and nothing else is shown. */
  lemma PickPartitions(vals: seq<FlagsValue>, flags: Word, bit: nat)
    ensures var p, r := Pick(vals, |vals|, flags), Residue(vals, |vals|, flags);
            && (bit in flags <==> bit in r || exists k :: 0 <= k < |p| && bit in vals[p[k]].value)
            && (forall k :: 0 <= k < |p| ==> !(bit in vals[p[k]].value && bit in r))
            && (forall j, k :: 0 <= j < k < |p| ==> !(bit in vals[p[j]].value && bit in vals[p[k]].value))
  {
    var n, p := |vals|, Pick(vals, |vals|, flags);
    forall k | 0 <= k < |p|
      ensures vals[p[k]].value <= flags && !(bit in vals[p[k]].value && bit in Residue(vals, n, flags))
    {
      PickedFits(vals, n, flags, k);
    }
    forall j, k | 0 <= j < k < |p| ensures !(bit in vals[p[j]].value && bit in vals[p[k]].value) {
      PickedApart(vals, n, flags, j, k);
    }
    if bit in flags && bit !in Residue(vals, n, flags) {
      var k := Shown(vals, n, flags, bit);
    }
  }

  /** Nothing that could still be shown is left over: no entry fits into the residue. */
  lemma {:induction false} NothingFitsResidue(vals: seq<FlagsValue>, n: nat, left: Word, k: nat)
    requires k < n <= |vals|
    ensures !Fits(vals[k].value, Residue(vals, n, left))
  {
    if left != {} {
      var v := vals[n - 1].value;
      var next := if Fits(v, left) then left - v else left;
      if k < n - 1 {
        NothingFitsResidue(vals, n - 1, next, k);
      }
    }
  }

  /** The residue is empty if every set bit has an entry of its own, whatever other entries the
      table holds and in whatever order. */
  lemma CompleteTableLeavesNothing(vals: seq<FlagsValue>, flags: Word)
    requires forall bit :: bit in flags ==> exists k :: 0 <= k < |vals| && vals[k].value == {bit}
    ensures Residue(vals, |vals|, flags) == {}
  {
    var r := Residue(vals, |vals|, flags);
    if r != {} {
      var bit :| bit in r;
      var k :| 0 <= k < |vals| && vals[k].value == {bit};
      assert r * {bit} == {bit};
      NothingFitsResidue(vals, |vals|, flags, k);
    }
  }

  // ---------------------------------------------------------------------------
  // The code itself
  // ---------------------------------------------------------------------------

  /** The nicks of the entries at the given positions, joined by " | ". */
  function Join(vals: seq<FlagsValue>, picked: seq<nat>, text: string): string
    requires forall k :: 0 <= k < |picked| ==> picked[k] < |vals|
  {
    if picked == [] then text
    else Join(vals, picked[1..], (if text == "" then "" else text + " | ") + vals[picked[0]].nick)
  }

  /** Names with " | " between neighbours. */
  function Separated(names: seq<string>): string {
    if names == [] then ""
    else if |names| == 1 then names[0]
    else names[0] + " | " + Separated(names[1..])
  }

  function Nicks(vals: seq<FlagsValue>, picked: seq<nat>): (names: seq<string>)
    requires forall k :: 0 <= k < |picked| ==> picked[k] < |vals|
    ensures |names| == |picked| && forall k :: 0 <= k < |picked| ==> names[k] == vals[picked[k]].nick
  {
    if picked == [] then [] else [vals[picked[0]].nick] + Nicks(vals, picked[1..])
  }

  /** Joined onto a text, the nicks follow it, each behind a separator. */
  lemma {:induction false} JoinFollows(vals: seq<FlagsValue>, picked: seq<nat>, text: string)
    requires forall k :: 0 <= k < |picked| ==> picked[k] < |vals| && vals[picked[k]].nick != ""
    requires text != ""
    ensures Join(vals, picked, text) == Separated([text] + Nicks(vals, picked))
    decreases picked
  {
    var names := Nicks(vals, picked);
    assert ([text] + names)[1..] == names;
    if picked != [] {
      var nick, rest := names[0], Nicks(vals, picked[1..]);
      assert names == [nick] + rest && names[1..] == rest;
      JoinFollows(vals, picked[1..], text + " | " + nick);
      MergeHead(text, nick, rest);
    }
  }

  lemma MergeHead(a: string, b: string, rest: seq<string>)
    ensures Separated([a + " | " + b] + rest) == Separated([a] + ([b] + rest))
  {
    assert ([a] + ([b] + rest))[1..] == [b] + rest;
    assert ([b] + rest)[1..] == rest && ([a + " | " + b] + rest)[1..] == rest;
    if rest != [] {
      assert a + " | " + (b + " | " + Separated(rest)) == a + " | " + b + " | " + Separated(rest);
    }
  }

  /** The text is the nicks in the order picked, with separators in between only. */
  lemma JoinSeparates(vals: seq<FlagsValue>, picked: seq<nat>)
    requires forall k :: 0 <= k < |picked| ==> picked[k] < |vals| && vals[picked[k]].nick != ""
    ensures Join(vals, picked, "") == Separated(Nicks(vals, picked))
    ensures picked != [] ==> Join(vals, picked, "") != ""
  {
    if picked != [] {
      JoinFollows(vals, picked[1..], vals[picked[0]].nick);
      assert "" + vals[picked[0]].nick == vals[picked[0]].nick;
    }
  }

  /** Every entry of the table has a name. */
  predicate Named(vals: seq<FlagsValue>) {
    forall i :: 0 <= i < |vals| ==> vals[i].nick != ""
  }

  /** What is shown where no entry equals the word. */
  lemma NamedJoin(vals: seq<FlagsValue>, flags: Word)
    requires Named(vals)
    ensures var picked, text := Pick(vals, |vals|, flags), Join(vals, Pick(vals, |vals|, flags), "");
      text == Separated(Nicks(vals, picked)) && (text == "" <==> picked == [])
  {
    JoinSeparates(vals, Pick(vals, |vals|, flags));
  }

  /** The greedy loop. */
  method ShowPicked(vals: seq<FlagsValue>, flags: Word) returns (s: string)
    ensures s == Join(vals, Pick(vals, |vals|, flags), "")
  {
    var i := |vals|;
    s := "";
    var flagsLeft := flags;
    while i > 0
      invariant 0 <= i <= |vals|
      invariant Join(vals, Pick(vals, i, flagsLeft), s) == Join(vals, Pick(vals, |vals|, flags), "")
    {
      i := i - 1;
      var v := vals[i].value;
      if v != {} && flagsLeft * v == v {
        ghost var p := Pick(vals, i + 1, flagsLeft);
        assert p[0] == i && p[1..] == Pick(vals, i, flagsLeft - v);
        if 0 < |s| { s := s + " | "; }
        s := s + vals[i].nick;
        SubtractionClears(flagsLeft, v, WORD_BITS);
        flagsLeft := flagsLeft - v;
        if flagsLeft == {} { break; }
      }
    }
  }

  /** An entry equal to the whole word is shown alone; otherwise the picked entries are, with " | " in
      between, or "(none)" if there are none. */
  method FlagsToString(vals: seq<FlagsValue>, flags: Word) returns (s: string)
    ensures (exists i :: 0 <= i < |vals| && vals[i].value == flags) ==>
              exists i :: 0 <= i < |vals| && vals[i].value == flags && s == vals[i].nick
                          && forall k :: 0 <= k < i ==> vals[k].value != flags
    ensures !(exists i :: 0 <= i < |vals| && vals[i].value == flags) ==>
              var text := Join(vals, Pick(vals, |vals|, flags), "");
              s == if text == "" then "(none)" else text
    ensures !(exists i :: 0 <= i < |vals| && vals[i].value == flags) && Named(vals) ==>
              var picked := Pick(vals, |vals|, flags);
              s == if picked == [] then "(none)" else Separated(Nicks(vals, picked))
  {
    var i := 0;
    while i < |vals|
      invariant 0 <= i <= |vals|
      invariant forall k :: 0 <= k < i ==> vals[k].value != flags
    {
      if vals[i].value == flags { return vals[i].nick; }
      i := i + 1;
    }
    s := ShowPicked(vals, flags);
    if Named(vals) { NamedJoin(vals, flags); }
    if |s| == 0 { s := "(none)"; }
  }
}
