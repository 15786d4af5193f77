// The string operations the configuration uses: trimming, lower-casing, prefixes,
// and splitting at an arrow.
module Text {

  // White space as TrimSpace understands it.
  predicate IsSpace(c: char) {
    var n := c as int;
    || 9 <= n <= 13 || n == 32 || n == 0x85 || n == 0xA0 || n == 0x1680
    || 0x2000 <= n <= 0x200A || n == 0x2028 || n == 0x2029 || n == 0x202F || n == 0x205F || n == 0x3000
  }

  lemma AsciiSpaces(c: char)
    requires c as int < 128
    ensures IsSpace(c) <==> c == ' ' || c == '\t' || c == '\n' || c == '\r' || c as int == 11 || c as int == 12
  {
  }

  function TrimLeft(s: string): string {
    if s != "" && IsSpace(s[0]) then TrimLeft(s[1..]) else s
  }

  function TrimRight(s: string): string {
    if s != "" && IsSpace(s[|s| - 1]) then TrimRight(s[..|s| - 1]) else s
  }

  function Trim(s: string): string {
    TrimRight(TrimLeft(s))
  }

  predicate Tight(s: string) {
    s == "" || (!IsSpace(s[0]) && !IsSpace(s[|s| - 1]))
  }

  lemma {:induction false} TrimLeftTight(s: string)
    ensures TrimLeft(s) == "" || !IsSpace(TrimLeft(s)[0])
  {
    if s != "" && IsSpace(s[0]) {
      TrimLeftTight(s[1..]);
    }
  }

  lemma {:induction false} TrimRightTight(s: string)
    requires s == "" || !IsSpace(s[0])
    ensures Tight(TrimRight(s))
  {
    if s != "" && IsSpace(s[|s| - 1]) {
      TrimRightTight(s[..|s| - 1]);
    }
  }

  lemma TrimTight(s: string)
    ensures Tight(Trim(s))
  {
    TrimLeftTight(s);
    TrimRightTight(TrimLeft(s));
  }

  lemma {:induction false} TrimLeftExact(s: string) returns (i: nat)
    ensures i <= |s| && TrimLeft(s) == s[i..] && forall k | 0 <= k < i :: IsSpace(s[k])
  {
    i := 0;
    if s != "" && IsSpace(s[0]) {
      var j := TrimLeftExact(s[1..]);
      i := j + 1;
      assert forall k | 1 <= k < i :: s[k] == s[1..][k - 1];
    }
  }

  lemma {:induction false} TrimRightExact(s: string) returns (j: nat)
    ensures j <= |s| && TrimRight(s) == s[..j] && forall k | j <= k < |s| :: IsSpace(s[k])
  {
    j := |s|;
    if s != "" && IsSpace(s[|s| - 1]) {
      j := TrimRightExact(s[..|s| - 1]);
      assert forall k | j <= k < |s| - 1 :: s[k] == s[..|s| - 1][k];
    }
  }

  // Trimming takes white space off both ends, all of it and nothing else.
  lemma TrimExact(s: string) returns (i: nat, j: nat)
    ensures i <= j <= |s| && Trim(s) == s[i..j] && Tight(Trim(s))
    ensures forall k | 0 <= k < i || j <= k < |s| :: IsSpace(s[k])
  {
    TrimTight(s);
    i := TrimLeftExact(s);
    var t := s[i..];
    var n := TrimRightExact(t);
    j := i + n;
    assert forall k | j <= k < |s| :: s[k] == t[k - i];
  }

  lemma TightTrim(s: string)
    requires Tight(s)
    ensures Trim(s) == s
  {
  }

  function LowerChar(c: char): char {
    if 'A' <= c <= 'Z' then (c as int + 32) as char else c
  }

  function Lower(s: string): string {
    seq(|s|, i requires 0 <= i < |s| => LowerChar(s[i]))
  }

  lemma LowerExact()
    ensures Lower("ABCDEFGHIJKLMNOPQRSTUVWXYZ") == "abcdefghijklmnopqrstuvwxyz"
    ensures forall s: string :: (forall i | 0 <= i < |s| :: !('A' <= s[i] <= 'Z')) ==> Lower(s) == s
  {
  }

  lemma LowerTwice(s: string)
    ensures Lower(Lower(s)) == Lower(s)
  {
  }

  lemma LowerTight(s: string)
    requires Tight(s)
    ensures Tight(Lower(s))
  {
  }

  // Normalising twice is normalising once.
  lemma LowerTrimStable(s: string)
    ensures Lower(Trim(Lower(Trim(s)))) == Lower(Trim(s))
    ensures Lower(Lower(Trim(s))) == Lower(Trim(s))
  {
    TrimTight(s);
    LowerTight(Trim(s));
    TightTrim(Lower(Trim(s)));
    LowerTwice(Trim(s));
  }

  lemma TrimStable(s: string)
    ensures Trim(Trim(s)) == Trim(s)
  {
    TrimTight(s);
    TightTrim(Trim(s));
  }

  // ---------- Splitting at "->" ----------

  const ARROW: string := "->"

  predicate ArrowAt(s: string, i: nat) {
    i + 1 < |s| && s[i] == '-' && s[i + 1] == '>'
  }

  // One more character in front of the first part.
  function Onto(c: char, parts: seq<string>): seq<string>
    requires parts != []
  {
    [[c] + parts[0]] + parts[1..]
  }

  // The parts between arrows, which are taken from the left without overlap.
  function Split(s: string): (parts: seq<string>)
    ensures parts != []
    decreases |s|
  {
    if s == "" then [""]
    else if ArrowAt(s, 0) then [""] + Split(s[2..])
    else Onto(s[0], Split(s[1..]))
  }

  predicate HasArrow(s: string) {
    exists i :: 0 <= i < |s| && ArrowAt(s, i)
  }

  lemma Associative(a: seq<string>, b: seq<string>, c: seq<string>)
    ensures (a + b) + c == a + (b + c)
  {
  }

  lemma OntoJoin(c: char, a: seq<string>, b: seq<string>)
    requires a != []
    ensures Onto(c, a + b) == Onto(c, a) + b
  {
    assert (a + b)[1..] == a[1..] + b;
  }

  // Splitting a join gives the parts of the one, then the parts of the other: no arrow
  // arises across the join.
  lemma {:induction false} SplitJoin(a: string, b: string)
    ensures Split(a + ARROW + b) == Split(a) + Split(b)
    decreases |a|
  {
    var s := a + ARROW + b;
    if a == "" {
      assert s[2..] == b;
    } else if ArrowAt(a, 0) {
      assert s[2..] == a[2..] + ARROW + b;
      SplitJoin(a[2..], b);
      Associative([""], Split(a[2..]), Split(b));
    } else {
      assert s[1..] == a[1..] + ARROW + b;
      SplitJoin(a[1..], b);
      OntoJoin(a[0], Split(a[1..]), Split(b));
    }
  }

  lemma {:induction false} SplitWhole(s: string)
    ensures |Split(s)| == 1 <==> !HasArrow(s)
    ensures !HasArrow(s) ==> Split(s) == [s]
    decreases |s|
  {
    if s != "" && !ArrowAt(s, 0) {
      SplitWhole(s[1..]);
      assert s == [s[0]] + s[1..];
      if HasArrow(s) {
        var i :| 0 <= i < |s| && ArrowAt(s, i);
        assert ArrowAt(s[1..], i - 1);
      }
      if HasArrow(s[1..]) {
        var i :| 0 <= i < |s[1..]| && ArrowAt(s[1..], i);
        assert ArrowAt(s, i + 1);
      }
    }
  }
}
