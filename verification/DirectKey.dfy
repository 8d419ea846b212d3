/** The key of a direct conversation: both user ids in lower case, sorted, joined by a colon. */
module DirectKey {
  import opened Prelude

  function LowerChar(c: char): char {
    if 'A' <= c <= 'Z' then c + 32 as char else c
  }

  /** Lower case of the letters that occur in ids. */
  function Lower(s: string): (r: string)
    ensures |r| == |s| && forall i :: 0 <= i < |s| ==> r[i] == LowerChar(s[i])
  {
    if s == [] then [] else [LowerChar(s[0])] + Lower(s[1..])
  }

  /** The order of strings that sort() uses: by the first code unit that differs. */
  predicate AtMost(a: string, b: string) {
    a == [] || (b != [] && (a[0] < b[0] || (a[0] == b[0] && AtMost(a[1..], b[1..]))))
  }

  function CreateKey(first: string, second: string): string {
    var a, b := Lower(first), Lower(second);
    if AtMost(a, b) then a + ":" + b else b + ":" + a
  }

  /** The unordered pair a key stands for. */
  function Pair(first: string, second: string): set<string> {
    {Lower(first), Lower(second)}
  }

  ghost predicate IsId(s: string) {
    ':' !in s
  }

  lemma {:induction false} AtMostIsTotal(a: string, b: string)
    ensures AtMost(a, b) || AtMost(b, a)
    ensures AtMost(a, b) && AtMost(b, a) ==> a == b
  {
    if a != [] && b != [] {
      AtMostIsTotal(a[1..], b[1..]);
      if a[0] == b[0] && a[1..] == b[1..] {
        assert a == [a[0]] + a[1..] && b == [b[0]] + b[1..];
      }
    }
  }

  /** It does not matter who starts. */
  lemma KeySymmetric(a: string, b: string)
    ensures CreateKey(a, b) == CreateKey(b, a)
  {
    AtMostIsTotal(Lower(a), Lower(b));
  }

  lemma {:induction false} LowerTwice(s: string)
    ensures Lower(Lower(s)) == Lower(s)
  {
    if s != [] { LowerTwice(s[1..]); }
  }

  lemma LowerIsId(s: string)
    requires IsId(s)
    ensures IsId(Lower(s))
  {
    forall i | 0 <= i < |s| ensures Lower(s)[i] != ':' { assert s[i] in s; }
  }

  /** For ids, which contain no colon, keys are equal exactly for the same unordered pair of users. */
  lemma KeyInjective(a: string, b: string, c: string, d: string)
    requires IsId(a) && IsId(b) && IsId(c) && IsId(d)
    ensures CreateKey(a, b) == CreateKey(c, d) <==> Pair(a, b) == Pair(c, d)
  {
    LowerIsId(a);
    LowerIsId(b);
    LowerIsId(c);
    LowerIsId(d);
    if CreateKey(a, b) == CreateKey(c, d) {
      var (x, y) := if AtMost(Lower(a), Lower(b)) then (Lower(a), Lower(b)) else (Lower(b), Lower(a));
      var (z, w) := if AtMost(Lower(c), Lower(d)) then (Lower(c), Lower(d)) else (Lower(d), Lower(c));
      SplitAt(':', x, y, z, w);
    }
    if Pair(a, b) == Pair(c, d) {
      assert Lower(a) in Pair(c, d) && Lower(b) in Pair(c, d) && Lower(c) in Pair(a, b) && Lower(d) in Pair(a, b);
      AtMostIsTotal(Lower(a), Lower(b));
    }
  }

  /** The text of the key: both ids in lower case with a colon between, the smaller one first. */
  lemma KeyText(first: string, second: string)
    ensures forall i :: 0 <= i < |first| ==> Lower(first)[i] == if 'A' <= first[i] <= 'Z' then first[i] + 32 as char else first[i]
    ensures CreateKey(first, second) == Lower(first) + [':'] + Lower(second) || CreateKey(first, second) == Lower(second) + [':'] + Lower(first)
    ensures CreateKey("B", "a") == "a:b" && CreateKey("a", "B") == "a:b" && CreateKey("a1", "a") == "a:a1"
  {
    assert Lower("B") == "b" && Lower("a") == "a" && Lower("a1") == "a1" && "a1"[1..] == "1" && "a"[1..] == "";
    assert AtMost("a", "b") && AtMost("a", "a1") && !AtMost("b", "a") && !AtMost("a1", "a");
  }

  /** Without that condition the key would not tell pairs apart. */
  lemma ColonsCollide()
    ensures CreateKey("a:b", "c") == CreateKey("a", "b:c") && Pair("a:b", "c") != Pair("a", "b:c")
  {
    assert Lower("a:b") == "a:b" && Lower("c") == "c" && Lower("a") == "a" && Lower("b:c") == "b:c";
    assert AtMost("a:b", "c") && AtMost("a", "b:c");
    assert "a:b" in Pair("a:b", "c");
  }
}
