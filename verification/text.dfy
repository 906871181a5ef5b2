/** Splitting an option value on ':' the way Python's `str.split(':')` does. */
module Text {

  /** The number of ':' characters in `s`. */
  function Colons(s: string): (n: nat)
    ensures n == 0 <==> ':' !in s
    ensures n <= |s|
  {
    if s == [] then 0
    else
      assert s == [s[0]] + s[1..];
      (if s[0] == ':' then 1 else 0) + Colons(s[1..])
  }

  /** The position of the first ':' in `s`. */
  function FirstColon(s: string): (i: nat)
    requires ':' in s
    ensures i < |s| && s[i] == ':' && ':' !in s[..i]
  {
    if s[0] == ':' then 0
    else
      assert s == [s[0]] + s[1..];
      var j := FirstColon(s[1..]);
      assert s[..j + 1] == [s[0]] + s[1..][..j];
      j + 1
  }

  /** Cutting `s` at its first colon loses only that colon, and the part
      before it has one colon fewer than `s`. */
  lemma CutAtFirstColon(s: string)
    requires ':' in s
    ensures s == s[..FirstColon(s)] + ":" + s[FirstColon(s) + 1..]
    ensures Colons(s) == Colons(s[FirstColon(s) + 1..]) + 1
  {
    var i := FirstColon(s);
    SliceAround(s, i);
    assert [s[i]] == ":";
    ColonsAroundColon(s[..i], s[i + 1..]);
  }

  lemma SliceAround(s: string, i: nat)
    requires i < |s|
    ensures s == s[..i] + [s[i]] + s[i + 1..]
  {
    assert s == s[..i] + s[i..];
    assert s[i..] == [s[i]] + s[i + 1..];
  }

  /** A colon-free part, a colon and a tail hold one colon more than the tail. */
  lemma ColonsAroundColon(head: string, tail: string)
    requires ':' !in head
    ensures Colons(head + ":" + tail) == Colons(tail) + 1
  {
    assert head + ":" + tail == head + (":" + tail);
    ColonsAppend(head, ":" + tail);
    ColonsAppend(":", tail);
  }

  lemma {:induction false} ColonsAppend(a: string, b: string)
    ensures Colons(a + b) == Colons(a) + Colons(b)
  {
    if a == [] {
      assert a + b == b;
    } else {
      assert (a + b)[1..] == a[1..] + b;
      ColonsAppend(a[1..], b);
    }
  }

  /** The inverse of `Split`: the parts glued back together with ':' between them. */
  function Join(parts: seq<string>): string
    requires |parts| >= 1
  {
    if |parts| == 1 then parts[0] else parts[0] + ":" + Join(parts[1..])
  }

  /** `s.split(':')`: one more part than there are colons, no part holds a colon,
      and gluing the parts back together gives `s` again. */
  function Split(s: string): (parts: seq<string>)
    ensures |parts| == Colons(s) + 1
    ensures forall i :: 0 <= i < |parts| ==> ':' !in parts[i]
    ensures Join(parts) == s
    decreases |s|
  {
    if ':' !in s then [s]
    else
      var i := FirstColon(s);
      CutAtFirstColon(s);
      var parts := [s[..i]] + Split(s[i + 1..]);
      assert parts[1..] == Split(s[i + 1..]);
      parts
  }

  /** `s.split(':')` has a single part exactly when `s` holds no colon. */
  lemma SplitSingle(s: string)
    ensures |Split(s)| == 1 <==> ':' !in s
  {
  }

  /** Splitting is a left inverse of joining colon-free parts. */
  lemma {:induction false} SplitJoin(parts: seq<string>)
    requires |parts| >= 1
    requires forall i :: 0 <= i < |parts| ==> ':' !in parts[i]
    ensures Split(Join(parts)) == parts
  {
    if |parts| > 1 {
      var s := Join(parts);
      var head := parts[0];
      var tail := Join(parts[1..]);
      assert s == head + ":" + tail;
      assert s[|head|] == ':';
      assert s[..|head|] == head;
      assert s[|head| + 1..] == tail;
      assert FirstColon(s) == |head|;
      SplitJoin(parts[1..]);
      assert parts == [head] + parts[1..];
    }
  }

  /** The two-part case used by `a:b` ranges and `Lmax:dL` lengths. */
  lemma SplitPair(a: string, b: string)
    requires ':' !in a && ':' !in b
    ensures Split(a + ":" + b) == [a, b]
  {
    assert [a, b][1..] == [b];
    assert Join([a, b]) == a + ":" + b;
    SplitJoin([a, b]);
  }
}
