/** JavaScript's `Array.prototype.join` and `String.prototype.split` on
    strings, with the facts the handlers' templates rely on. */
module Text {

  /** `parts.join(sep)`: the empty array joins to "", one part to itself. */
  function Join(parts: seq<string>, sep: string): (r: string)
    ensures |parts| == 0 ==> r == ""
    ensures |parts| == 1 ==> r == parts[0]
    ensures |parts| > 0 ==> |parts[0]| <= |r| && r[..|parts[0]|] == parts[0]
  {
    if |parts| == 0 then ""
    else if |parts| == 1 then parts[0]
    else parts[0] + sep + Join(parts[1..], sep)
  }

  /** `s.split(c)` for a one-character separator: the pieces between the
      occurrences of `c`; a string without `c` splits to itself alone. */
  function Split(s: string, c: char): (r: seq<string>)
    ensures |r| >= 1
  {
    if |s| == 0 then [""]
    else if s[0] == c then [""] + Split(s[1..], c)
    else
      var rest := Split(s[1..], c);
      [[s[0]] + rest[0]] + rest[1..]
  }

  /** Joining two non-empty lists puts one separator between their joins. */
  lemma {:induction false} JoinAppend(a: seq<string>, b: seq<string>, sep: string)
    requires |a| > 0 && |b| > 0
    ensures Join(a + b, sep) == Join(a, sep) + sep + Join(b, sep)
    decreases |a|
  {
    if |a| == 1 {
      assert (a + b)[1..] == b;
    } else {
      assert (a + b)[1..] == a[1..] + b;
      JoinAppend(a[1..], b, sep);
    }
  }

  /** Part `k` appears whole in the join, after the parts before it and a
      separator, and before a separator and the parts after it. */
  lemma JoinAt(parts: seq<string>, sep: string, k: nat)
    requires k < |parts|
    ensures Join(parts, sep) ==
      (if k == 0 then "" else Join(parts[..k], sep) + sep)
      + parts[k]
      + (if k == |parts| - 1 then "" else sep + Join(parts[k + 1..], sep))
  {
    assert Join([parts[k]], sep) == parts[k];
    if k > 0 {
      assert parts == parts[..k] + parts[k..];
      JoinAppend(parts[..k], parts[k..], sep);
    }
    if k < |parts| - 1 {
      assert parts[k..] == [parts[k]] + parts[k + 1..];
      JoinAppend([parts[k]], parts[k + 1..], sep);
    }
  }

  /** A prefix free of the separator is the first piece; the split goes on
      after the separator that ends it. */
  lemma {:induction false} SplitAfter(a: string, c: char, b: string)
    requires c !in a
    ensures Split(a + [c] + b, c) == [a] + Split(b, c)
    decreases |a|
  {
    if |a| == 0 {
      assert a + [c] + b == [c] + b;
      assert ([c] + b)[1..] == b;
    } else {
      assert (a + [c] + b)[1..] == a[1..] + [c] + b;
      SplitAfter(a[1..], c, b);
      assert [a[0]] + a[1..] == a;
    }
  }

  /** A string free of the separator splits into itself alone. */
  lemma {:induction false} SplitNone(a: string, c: char)
    requires c !in a
    ensures Split(a, c) == [a]
    decreases |a|
  {
    if |a| > 0 {
      SplitNone(a[1..], c);
      assert [a[0]] + a[1..] == a;
    }
  }

  /** Splitting a join at its one-character separator gives the parts back,
      when no part contains that character. */
  lemma {:induction false} SplitJoin(parts: seq<string>, c: char)
    requires |parts| > 0
    requires forall i :: 0 <= i < |parts| ==> c !in parts[i]
    ensures Split(Join(parts, [c]), c) == parts
    decreases |parts|
  {
    if |parts| == 1 {
      SplitNone(parts[0], c);
    } else {
      SplitJoin(parts[1..], c);
      SplitAfter(parts[0], c, Join(parts[1..], [c]));
      assert parts == [parts[0]] + parts[1..];
    }
  }

  /** Three fields separated by a character none of them holds split back
      into those three fields. */
  lemma SplitThree(first: string, c: char, second: string, third: string)
    requires c !in first && c !in second && c !in third
    ensures Split(first + [c] + second + [c] + third, c) == [first, second, third]
  {
    assert first + [c] + second + [c] + third == first + [c] + (second + [c] + third);
    SplitAfter(first, c, second + [c] + third);
    SplitAfter(second, c, third);
    SplitNone(third, c);
  }

  /** The join of six parts, written out. */
  lemma JoinSix(parts: seq<string>, sep: string)
    requires |parts| == 6
    ensures Join(parts, sep) ==
      parts[0] + sep + parts[1] + sep + parts[2] + sep + parts[3] + sep + parts[4] + sep + parts[5]
  {
    assert Join(parts[4..], sep) == parts[4] + sep + parts[5];
    assert Join(parts[3..], sep) == parts[3] + sep + parts[4] + sep + parts[5];
    assert Join(parts[2..], sep) == parts[2] + sep + parts[3] + sep + parts[4] + sep + parts[5];
  }

  /** Two fields separated by a character neither holds split back into
      those two fields. */
  lemma SplitOnce(first: string, c: char, second: string)
    requires c !in first && c !in second
    ensures Split(first + [c] + second, c) == [first, second]
  {
    SplitAfter(first, c, second);
    SplitNone(second, c);
  }
}
