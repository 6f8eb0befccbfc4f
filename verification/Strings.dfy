/** The string operations of the host languages that the modules share. */
module Strings {

  /** The characters that `trim` removes at either end. */
  predicate IsSpace(c: char) {
    c in " \t\n\r" || c as int in {0x0B, 0x0C, 0xA0, 0x1680, 0x2028, 0x2029, 0x202F, 0x205F, 0x3000, 0xFEFF}
    || 0x2000 <= c as int <= 0x200A
  }

  function TrimLeft(s: string): string {
    if s != "" && IsSpace(s[0]) then TrimLeft(s[1..]) else s
  }

  function TrimRight(s: string): string {
    if s != "" && IsSpace(s[|s| - 1]) then TrimRight(s[..|s| - 1]) else s
  }

  function Trim(s: string): string {
    TrimRight(TrimLeft(s))
  }

  /** `indexOf(c)`, with the length for a character that does not occur. */
  function IndexOf(s: string, c: char): (i: nat)
    ensures i <= |s| && c !in s[..i]
    ensures i < |s| ==> s[i] == c
  {
    if s == "" || s[0] == c then 0
    else
      var i := IndexOf(s[1..], c) + 1;
      assert s[..i] == [s[0]] + s[1..][..i - 1];
      i
  }

  function Split(s: string, c: char): seq<string>
    decreases |s|
  {
    var i := IndexOf(s, c);
    if i == |s| then [s] else [s[..i]] + Split(s[i + 1..], c)
  }

  function Join(parts: seq<string>, separator: string): string {
    if parts == [] then ""
    else if |parts| == 1 then parts[0]
    else parts[0] + separator + Join(parts[1..], separator)
  }

  // ----- what these operations mean

  predicate AllSpace(s: string) {
    forall c :: c in s ==> IsSpace(c)
  }

  lemma {:induction false} TrimLeftMeans(s: string) returns (left: string)
    ensures s == left + TrimLeft(s) && AllSpace(left)
    ensures TrimLeft(s) != "" ==> !IsSpace(TrimLeft(s)[0])
  {
    if s != "" && IsSpace(s[0]) {
      var rest := TrimLeftMeans(s[1..]);
      left := [s[0]] + rest;
      assert s == [s[0]] + s[1..];
    } else {
      left := "";
      assert s == "" + s;
    }
  }

  lemma {:induction false} TrimRightMeans(s: string) returns (right: string)
    ensures s == TrimRight(s) + right && AllSpace(right)
    ensures TrimRight(s) != "" ==> !IsSpace(TrimRight(s)[|TrimRight(s)| - 1])
  {
    if s != "" && IsSpace(s[|s| - 1]) {
      var rest := TrimRightMeans(s[..|s| - 1]);
      right := rest + [s[|s| - 1]];
      assert s == s[..|s| - 1] + [s[|s| - 1]];
    } else {
      right := "";
      assert s == s + "";
    }
  }

  /** Only spaces are removed, at both ends, and no space is left at either. */
  lemma TrimMeans(s: string) returns (left: string, right: string)
    ensures s == left + Trim(s) + right && AllSpace(left) && AllSpace(right)
    ensures Trim(s) != "" ==> !IsSpace(Trim(s)[0]) && !IsSpace(Trim(s)[|Trim(s)| - 1])
  {
    left := TrimLeftMeans(s);
    right := TrimRightMeans(TrimLeft(s));
    assert left + (Trim(s) + right) == left + Trim(s) + right;
    assert Trim(s) != "" ==> Trim(s)[0] == TrimLeft(s)[0];
  }

  predicate HasText(s: string) {
    exists k :: 0 <= k < |s| && !IsSpace(s[k])
  }

  lemma TrimLeavesText(s: string)
    ensures Trim(s) != "" <==> HasText(s)
  {
    var left, right := TrimMeans(s);
    if Trim(s) != "" {
      assert !IsSpace(s[|left|]);
    } else {
      assert forall k :: 0 <= k < |s| ==> s[k] in left || s[k] in right;
    }
  }

  lemma NothingToTrim(s: string)
    requires s != "" ==> !IsSpace(s[0]) && !IsSpace(s[|s| - 1])
    ensures Trim(s) == s
  {
  }

  lemma TrimTwice(s: string)
    ensures Trim(Trim(s)) == Trim(s)
  {
    var left, right := TrimMeans(s);
    NothingToTrim(Trim(s));
  }

  lemma {:induction false} IndexOfNone(s: string, c: char)
    requires c !in s
    ensures IndexOf(s, c) == |s|
  {
    assert forall i :: 0 <= i < |s| ==> s[i] in s;
  }

  lemma IndexOfFirst(a: string, c: char, b: string)
    requires c !in a
    ensures IndexOf(a + [c] + b, c) == |a|
  {
    var s := a + [c] + b;
    var i := IndexOf(s, c);
    assert s[|a|] == c;
    assert forall k :: 0 <= k < |a| ==> s[k] in a;
    assert forall k :: 0 <= k < i ==> s[k] in s[..i];
  }

  lemma SplitFirst(a: string, c: char, b: string)
    requires c !in a
    ensures Split(a + [c] + b, c) == [a] + Split(b, c)
  {
    var s := a + [c] + b;
    IndexOfFirst(a, c, b);
    assert s[..|a|] == a && s[|a| + 1..] == b;
  }

  /** Splitting undoes joining lines that do not hold the separator. */
  lemma {:induction false} SplitOfJoin(lines: seq<string>, c: char)
    requires lines != [] && forall l :: l in lines ==> c !in l
    ensures Split(Join(lines, [c]), c) == lines
  {
    assert lines[0] in lines;
    if |lines| == 1 {
      IndexOfNone(lines[0], c);
    } else {
      SplitOfJoin(lines[1..], c);
      SplitFirst(lines[0], c, Join(lines[1..], [c]));
      assert lines == [lines[0]] + lines[1..];
    }
  }

  /** Joining undoes splitting, and no part holds the separator. */
  lemma {:induction false} JoinOfSplit(s: string, c: char)
    ensures Join(Split(s, c), [c]) == s && Split(s, c) != []
    ensures forall l :: l in Split(s, c) ==> c !in l
    decreases |s|
  {
    var i := IndexOf(s, c);
    if i < |s| {
      JoinOfSplit(s[i + 1..], c);
      assert ([s[..i]] + Split(s[i + 1..], c))[1..] == Split(s[i + 1..], c);
      assert s == s[..i] + [c] + s[i + 1..];
    }
  }

  lemma {:induction false} JoinLacks(parts: seq<string>, separator: char, c: char)
    requires c != separator && forall l :: l in parts ==> c !in l
    ensures c !in Join(parts, [separator])
  {
    if |parts| > 0 {
      assert parts[0] in parts;
      JoinLacks(parts[1..], separator, c);
    }
  }

  lemma {:induction false} JoinEnds(lines: seq<string>, separator: string)
    requires lines != [] && lines[0] != "" && lines[|lines| - 1] != ""
    ensures
      var all, last := Join(lines, separator), lines[|lines| - 1];
      all != "" && all[0] == lines[0][0] && all[|all| - 1] == last[|last| - 1]
    decreases |lines|
  {
    if |lines| > 1 {
      JoinLast(lines, separator);
    }
  }

  lemma {:induction false} JoinLast(lines: seq<string>, separator: string)
    requires lines != [] && lines[|lines| - 1] != ""
    ensures
      var all, last := Join(lines, separator), lines[|lines| - 1];
      all != "" && all[|all| - 1] == last[|last| - 1]
  {
    if |lines| > 1 {
      JoinLast(lines[1..], separator);
    }
  }
}
