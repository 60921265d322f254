/** Python string operations on code-point sequences: substring tests, and split and join on a blank line. */
module Text {
  import opened Options

  const BLANK_LINE: string := "\n\n"

  predicate OccursAt(hay: string, needle: string, i: int) {
    0 <= i <= |hay| - |needle| && hay[i..i + |needle|] == needle
  }

  /** `needle in hay`. */
  predicate Contains(hay: string, needle: string) {
    exists i | 0 <= i <= |hay| - |needle| :: OccursAt(hay, needle, i)
  }

  /** `s.startswith(prefix)`. */
  predicate StartsWith(s: string, prefix: string) {
    |prefix| <= |s| && s[..|prefix|] == prefix
  }

  predicate EndsInNewline(s: string) {
    s != "" && s[|s| - 1] == '\n'
  }

  /** A blank-line separator begins at index `i`. */
  predicate SeparatorAt(s: string, i: int) {
    0 <= i < |s| - 1 && s[i] == '\n' && s[i + 1] == '\n'
  }

  predicate HasSeparator(s: string) {
    exists i | 0 <= i < |s| - 1 :: SeparatorAt(s, i)
  }

  /** Index of the leftmost separator, or `|s|` when there is none. */
  function FindSeparator(s: string): (r: nat)
    ensures r == |s| || SeparatorAt(s, r)
    ensures forall k | 0 <= k < r :: !SeparatorAt(s, k)
  {
    if |s| < 2 then |s|
    else if s[0] == '\n' && s[1] == '\n' then 0
    else
      var r := FindSeparator(s[1..]);
      assert forall k | 1 <= k < r + 1 :: SeparatorAt(s, k) == SeparatorAt(s[1..], k - 1);
      r + 1
  }

  /** `s.split("\n\n")`: leftmost, non-overlapping. */
  function Split(s: string): (parts: seq<string>)
    ensures |parts| > 0
    decreases |s|
  {
    var i := FindSeparator(s);
    if i == |s| then [s] else [s[..i]] + Split(s[i + 2..])
  }

  /** `"\n\n".join(parts)`. */
  function Join(parts: seq<string>): string {
    if parts == [] then ""
    else if |parts| == 1 then parts[0]
    else parts[0] + BLANK_LINE + Join(parts[1..])
  }

  /** The lists that splitting can produce: no part holds a separator, and only the last may end in a newline. */
  predicate Splittable(parts: seq<string>) {
    && parts != []
    && (forall i | 0 <= i < |parts| :: !HasSeparator(parts[i]))
    && (forall i | 0 <= i < |parts| - 1 :: !EndsInNewline(parts[i]))
  }

  /** Joining a split text gives the text back, for every text. */
  lemma {:induction false} JoinOfSplit(s: string)
    ensures Join(Split(s)) == s
    decreases |s|
  {
    var i := FindSeparator(s);
    if i != |s| {
      JoinOfSplit(s[i + 2..]);
      assert s == s[..i] + BLANK_LINE + s[i + 2..];
      assert Split(s)[1..] == Split(s[i + 2..]);
    }
  }

  /** The leftmost separator of `head + "\n\n" + tail` is the one written there. */
  lemma SeparatorAfter(head: string, tail: string)
    requires !HasSeparator(head) && !EndsInNewline(head)
    ensures FindSeparator(head + BLANK_LINE + tail) == |head|
  {
    var s := head + BLANK_LINE + tail;
    assert s[|head|] == '\n' && s[|head| + 1] == '\n';
    assert SeparatorAt(s, |head|);
    var r := FindSeparator(s);
    assert r < |head| - 1 ==> SeparatorAt(head, r);
  }

  /** What is written behind a text does not move its leftmost separator. */
  lemma SeparatorKept(a: string, b: string)
    requires FindSeparator(a) < |a|
    ensures FindSeparator(a + BLANK_LINE + b) == FindSeparator(a)
  {
    var s, i := a + BLANK_LINE + b, FindSeparator(a);
    assert forall k | 0 <= k <= i :: SeparatorAt(s, k) == SeparatorAt(a, k);
  }

  /** Splitting distributes over a blank line between two texts, unless the first ends in a newline of its own. */
  lemma {:induction false} SplitConcat(a: string, b: string)
    requires !EndsInNewline(a)
    ensures Split(a + BLANK_LINE + b) == Split(a) + Split(b)
    decreases |a|
  {
    var s, i := a + BLANK_LINE + b, FindSeparator(a);
    if i == |a| {
      SeparatorAfter(a, b);
      assert s[..|a|] == a && s[|a| + 2..] == b;
    } else {
      var behind := a[i + 2..];
      SeparatorKept(a, b);
      SplitConcat(behind, b);
      assert s[..i] == a[..i];
      assert s[i + 2..] == behind + BLANK_LINE + b;
      Regroup([a[..i]], Split(behind), Split(b));
    }
  }

  lemma SplitAfterBlank(s: string)
    ensures Split(BLANK_LINE + s) == [""] + Split(s)
  {
    SplitConcat("", s);
    assert "" + BLANK_LINE + s == BLANK_LINE + s;
  }

  predicate StartsWithNewline(s: string) {
    s != "" && s[0] == '\n'
  }

  /** A newline in front completes a separator, or else becomes part of the first part. */
  lemma SplitAfterNewline(r: string)
    ensures Split("\n" + r)
      == if StartsWithNewline(r) then [""] + Split(r[1..]) else ["\n" + Split(r)[0]] + Split(r)[1..]
  {
    var s := "\n" + r;
    assert s[1..] == r;
    if StartsWithNewline(r) {
      assert s == BLANK_LINE + r[1..];
      SplitAfterBlank(r[1..]);
    } else {
      var i := FindSeparator(r);
      assert FindSeparator(s) == i + 1;
      assert s[..i + 1] == "\n" + r[..i];
      if i == |r| {
        assert r[..i] == r && s[..i + 1] == s;
      } else {
        assert s[i + 3..] == r[i + 2..];
      }
    }
  }

  lemma HeadFirst<T>(front: seq<T>, rest: seq<T>)
    requires front != []
    ensures [front[0]] + (front[1..] + rest) == front + rest
  {
  }

  /** Whole parts at the front of a joined list are split off again, whatever the last text is. */
  lemma {:induction false} SplitOfFront(front: seq<string>, s: string)
    requires forall i | 0 <= i < |front| :: !HasSeparator(front[i]) && !EndsInNewline(front[i])
    ensures Split(Join(front + [s])) == front + Split(s)
  {
    if front == [] {
      assert front + [s] == [s];
    } else {
      var first, rest := front[0], front[1..];
      assert (front + [s])[1..] == rest + [s];
      var behind := Join(rest + [s]);
      assert Join(front + [s]) == first + BLANK_LINE + behind;
      SplitConcat(first, behind);
      assert Split(first) == [first] by {
        assert FindSeparator(first) == |first|;
      }
      SplitOfFront(rest, s);
      HeadFirst(front, Split(s));
    }
  }

  lemma {:induction false} JoinConcat(a: seq<string>, b: seq<string>)
    requires a != [] && b != []
    ensures Join(a + b) == Join(a) + BLANK_LINE + Join(b)
  {
    if |a| == 1 {
      assert (a + b)[1..] == b;
    } else {
      assert (a + b)[1..] == a[1..] + b;
      JoinConcat(a[1..], b);
    }
  }

  /** A run of parts may as well be joined first. */
  lemma JoinMiddle(front: seq<string>, parts: seq<string>, rest: seq<string>)
    requires parts != []
    ensures Join(front + parts + rest) == Join(front + [Join(parts)] + rest)
  {
    var one := [Join(parts)];
    assert Join(parts + rest) == Join(one + rest) by {
      if rest == [] {
        assert parts + rest == parts && one + rest == one;
      } else {
        JoinConcat(parts, rest);
        JoinConcat(one, rest);
      }
    }
    assert front + parts + rest == front + (parts + rest) && front + one + rest == front + (one + rest);
    if front == [] {
      assert front + (parts + rest) == parts + rest && front + (one + rest) == one + rest;
    } else {
      JoinConcat(front, parts + rest);
      JoinConcat(front, one + rest);
    }
  }

  lemma JoinTail(front: seq<string>, s: string, rest: seq<string>)
    requires rest != []
    ensures Join(front + [s] + rest) == Join(front + [s + BLANK_LINE + Join(rest)])
  {
    var one := [s + BLANK_LINE + Join(rest)];
    JoinMiddle(front, [s] + rest, []);
    assert ([s] + rest)[1..] == rest;
    assert front + ([s] + rest) + [] == front + [s] + rest && front + one + [] == front + one;
  }

  lemma {:induction false} JoinEnd(parts: seq<string>)
    requires parts != [] && EndsInNewline(parts[|parts| - 1])
    ensures EndsInNewline(Join(parts))
  {
    if |parts| > 1 {
      JoinEnd(parts[1..]);
    }
  }

  /**
   * A text that ends in a newline runs into the separator behind it: either an empty part
   * appears before what follows, or what follows begins with a newline it did not have.
   */
  lemma {:induction false} NewlineRunsOn(s: string, rest: string) returns (front: seq<string>, shifted: bool)
    requires EndsInNewline(s)
    ensures Split(s + BLANK_LINE + rest)
      == if shifted then front + Split("\n" + rest) else front + [""] + Split(rest)
    decreases |s|
  {
    var one := s[..|s| - 1];
    if !EndsInNewline(one) {
      SplitConcat(one, "\n" + rest);
      assert s + BLANK_LINE + rest == one + BLANK_LINE + ("\n" + rest);
      front, shifted := Split(one), true;
    } else {
      var two := one[..|one| - 1];
      assert s + BLANK_LINE + rest == two + BLANK_LINE + (BLANK_LINE + rest);
      SplitAfterBlank(rest);
      if !EndsInNewline(two) {
        SplitConcat(two, BLANK_LINE + rest);
        Regroup(Split(two), [""], Split(rest));
        front, shifted := Split(two), false;
      } else {
        front, shifted := NewlineRunsOn(two, BLANK_LINE + rest);
        assert "\n" + (BLANK_LINE + rest) == BLANK_LINE + ("\n" + rest);
        SplitAfterBlank("\n" + rest);
        Regroup(front, [""], Split("\n" + rest));
        Regroup(front + [""], [""], Split(rest));
        front := front + [""];
      }
    }
  }

  /** Splitting undoes joining on splittable lists. */
  lemma {:induction false} SplitOfJoin(parts: seq<string>)
    requires Splittable(parts)
    ensures Split(Join(parts)) == parts
  {
    if |parts| == 1 {
      assert FindSeparator(parts[0]) == |parts[0]|;
    } else {
      var s := parts[0] + BLANK_LINE + Join(parts[1..]);
      SeparatorAfter(parts[0], Join(parts[1..]));
      assert s[..|parts[0]|] == parts[0] && s[|parts[0]| + 2..] == Join(parts[1..]);
      SplitOfJoin(parts[1..]);
    }
  }

  /** Every split result is splittable. */
  lemma {:induction false} SplitIsSplittable(s: string)
    ensures Splittable(Split(s))
    decreases |s|
  {
    var i := FindSeparator(s);
    if i != |s| {
      var parts, rest := Split(s), Split(s[i + 2..]);
      SplitIsSplittable(s[i + 2..]);
      assert parts == [s[..i]] + rest;
      assert !HasSeparator(s[..i]) by {
        forall k | 0 <= k && k + 1 < i ensures !SeparatorAt(s[..i], k) {
          assert !SeparatorAt(s, k);
        }
      }
      assert !EndsInNewline(s[..i]) by {
        if i > 0 {
          assert !SeparatorAt(s, i - 1);
        }
      }
      forall k | 0 < k < |parts| ensures !HasSeparator(parts[k]) && (k < |parts| - 1 ==> !EndsInNewline(parts[k])) {
        assert parts[k] == rest[k - 1];
      }
    }
  }

  /** The exact round-trip condition: splitting undoes joining on the splittable lists and on no others. */
  lemma SplitOfJoinExact(parts: seq<string>)
    ensures Split(Join(parts)) == parts <==> Splittable(parts)
  {
    if Splittable(parts) {
      SplitOfJoin(parts);
    }
    SplitIsSplittable(Join(parts));
  }

  /** What is written between two texts is contained in the whole. */
  lemma ContainsMiddle(before: string, needle: string, after: string)
    ensures Contains(before + needle + after, needle)
  {
    var hay := before + needle + after;
    assert OccursAt(hay, needle, |before|);
  }

  lemma ContainsChar(hay: string, needle: string, c: char)
    requires Contains(hay, needle) && c in needle
    ensures c in hay
  {
    var i :| 0 <= i <= |hay| - |needle| && OccursAt(hay, needle, i);
    assert OccursAt(hay, needle, i);
    var k :| 0 <= k < |needle| && needle[k] == c;
    assert hay[i..i + |needle|][k] == hay[i + k];
  }

  lemma ContainsTransitive(hay: string, mid: string, needle: string)
    requires Contains(hay, mid) && Contains(mid, needle)
    ensures Contains(hay, needle)
  {
    var i :| OccursAt(hay, mid, i);
    var j :| OccursAt(mid, needle, j);
    assert OccursAt(hay, mid, i) && OccursAt(mid, needle, j);
    forall k | 0 <= k < |needle| ensures hay[i + j + k] == needle[k] {
      assert hay[i..i + |mid|][j + k] == mid[j..j + |needle|][k];
    }
    assert OccursAt(hay, needle, i + j);
  }

  /** A joined text contains each of its parts. */
  lemma {:induction false} JoinContainsPart(parts: seq<string>, k: nat)
    requires k < |parts|
    ensures Contains(Join(parts), parts[k])
  {
    var s := Join(parts);
    if |parts| == 1 {
      assert OccursAt(s, parts[0], 0);
    } else if k == 0 {
      ContainsMiddle("", parts[0], BLANK_LINE + Join(parts[1..]));
      assert s == "" + parts[0] + (BLANK_LINE + Join(parts[1..]));
    } else {
      JoinContainsPart(parts[1..], k - 1);
      ContainsMiddle(parts[0] + BLANK_LINE, Join(parts[1..]), "");
      assert s == parts[0] + BLANK_LINE + Join(parts[1..]) + "";
      ContainsTransitive(s, Join(parts[1..]), parts[k]);
    }
  }
}
