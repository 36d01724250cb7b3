/** Small datatypes and sequence facts the other modules share. */
module Wrappers {
  datatype Option<+T> = None | Some(value: T)
}

module Sequences {

  /** The position of the first `x`, or `|s|` when there is none: the shape of every search loop of
      the program. */
  function IndexOf<T(==)>(s: seq<T>, x: T): (i: nat)
    ensures i <= |s|
    ensures i < |s| ==> s[i] == x
    ensures x !in s[..i]
    ensures i < |s| <==> x in s
  {
    if s == [] then 0 else if s[0] == x then 0 else 1 + IndexOf(s[1..], x)
  }

  /** `s` without its first `x`. */
  function RemoveFirst<T(==)>(s: seq<T>, x: T): (r: seq<T>)
    ensures multiset(r) == multiset(s) - multiset{x}
    ensures x !in s ==> r == s
  {
    var i := IndexOf(s, x);
    if i < |s| then
      assert s == s[..i] + [x] + s[i + 1..];
      s[..i] + s[i + 1..]
    else s
  }

  /** The first position is determined by what `IndexOf` promises. */
  lemma IndexOfIsUnique<T>(s: seq<T>, x: T, i: nat)
    requires i <= |s| && x !in s[..i]
    requires i < |s| ==> s[i] == x
    ensures IndexOf(s, x) == i
  {
    var j := IndexOf(s, x);
    assert forall k :: 0 <= k < i ==> s[..i][k] == s[k];
    assert forall k :: 0 <= k < j ==> s[..j][k] == s[k];
  }

  /** There is always one more string. */
  lemma UnusedString(s: set<string>) returns (t: string)
    ensures t !in s
  {
    var n := LongerThanAll(s);
    t := seq(n, _ => 'x');
  }

  lemma {:induction false} LongerThanAll(s: set<string>) returns (n: nat)
    ensures forall t | t in s :: |t| < n
  {
    n := 0;
    if s != {} {
      var t :| t in s;
      var k := LongerThanAll(s - {t});
      n := if k > |t| then k else |t| + 1;
    }
  }

  ghost predicate Distinct<T>(s: seq<T>) {
    forall i, j :: 0 <= i < j < |s| ==> s[i] != s[j]
  }
}
