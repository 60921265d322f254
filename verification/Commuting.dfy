/**
 * When edits of two sections commute: where a section is found after another one has been
 * exchanged for any text, and what that means for two edits made in either order.
 */
module Commuting {
  import opened Options
  import opened Text
  import opened Sections

  // ---- Where the first section under a heading stands in a text ----

  datatype Span = Span(start: nat, end: nat)

  /** Where part `k` begins in the joined text. */
  function Start(parts: seq<string>, k: nat): nat
    requires k <= |parts|
  {
    if k == 0 then 0 else |parts[0]| + 2 + Start(parts[1..], k - 1)
  }

  function SpanAt(parts: seq<string>, k: nat): Span
    requires k < |parts|
  {
    Span(Start(parts, k), Start(parts, k) + |parts[k]|)
  }

  function SpanAmong(parts: seq<string>, marker: string): Option<Span> {
    var k := FindSection(parts, marker);
    if k < |parts| then Some(SpanAt(parts, k)) else None
  }

  function SpanOf(s: string, marker: string): Option<Span> {
    SpanAmong(Split(s), marker)
  }

  function Shifted(span: Option<Span>, n: nat): Option<Span> {
    if span.None? then None else Some(Span(span.value.start + n, span.value.end + n))
  }

  /** A text with the stretch `at` exchanged. */
  function Spliced(s: string, at: Span, t: string): string
    requires at.start <= at.end <= |s|
  {
    s[..at.start] + t + s[at.end..]
  }

  /** The text ends at `end`, or a blank line stands there. */
  predicate EndsPart(s: string, end: nat) {
    end == |s| || (end + 2 <= |s| && s[end..end + 2] == BLANK_LINE)
  }

  /** The stretch of a part: what stands there, what ends there, and what exchanging the part does. */
  lemma {:induction false} SpanOfPart(parts: seq<string>, k: nat, t: string)
    requires k < |parts|
    ensures var s, at := Join(parts), SpanAt(parts, k);
      && at.start <= at.end <= |s| && s[at.start..at.end] == parts[k]
      && EndsPart(s, at.end) && (k < |parts| - 1 ==> at.end < |s|)
      && Join(parts[k := t]) == Spliced(s, at, t)
    decreases |parts|
  {
    var s := Join(parts);
    if |parts| == 1 {
      assert parts[0 := t] == [t];
    } else if k == 0 {
      assert parts[0 := t][1..] == parts[1..];
      assert s[|parts[0]|..] == BLANK_LINE + Join(parts[1..]);
      assert s[|parts[0]|..][..2] == BLANK_LINE;
    } else {
      SpanOfLaterPart(parts, k, t);
    }
  }

  lemma {:induction false} SpanOfLaterPart(parts: seq<string>, k: nat, t: string)
    requires 0 < k < |parts|
    ensures var s, at := Join(parts), SpanAt(parts, k);
      && at.start <= at.end <= |s| && s[at.start..at.end] == parts[k]
      && EndsPart(s, at.end) && (k < |parts| - 1 ==> at.end < |s|)
      && Join(parts[k := t]) == Spliced(s, at, t)
    decreases |parts|, 0
  {
    var front, rest := parts[0] + BLANK_LINE, parts[1..];
    var tail, at := Join(rest), SpanAt(rest, k - 1);
    SpanOfPart(rest, k - 1, t);
    assert SpanAt(parts, k) == Span(|front| + at.start, |front| + at.end);
    assert parts[k := t][1..] == rest[k - 1 := t];
    assert Join(parts) == front + tail && Join(parts[k := t]) == front + Join(rest[k - 1 := t]);
    SplicedBehind(front, tail, at, t);
  }

  lemma {:induction false} SplicedBehind(front: string, s: string, at: Span, t: string)
    requires at.start <= at.end <= |s|
    ensures Spliced(front + s, Span(|front| + at.start, |front| + at.end), t) == front + Spliced(s, at, t)
    ensures (front + s)[|front| + at.start..|front| + at.end] == s[at.start..at.end]
    ensures EndsPart(s, at.end) ==> EndsPart(front + s, |front| + at.end)
  {
    assert (front + s)[|front| + at.end..] == s[at.end..];
  }

  lemma {:induction false} StartConcat(a: seq<string>, b: seq<string>, k: nat)
    requires k <= |b|
    ensures Start(a + b, |a| + k) == Start(a, |a|) + Start(b, k)
    ensures forall m | 0 <= m <= |a| :: Start(a + b, m) == Start(a, m)
  {
    if a == [] {
      assert a + b == b;
    } else {
      assert (a + b)[1..] == a[1..] + b;
      StartConcat(a[1..], b, k);
      forall m | 0 < m <= |a| ensures Start(a + b, m) == Start(a, m) {
        assert Start(a[1..] + b, m - 1) == Start(a[1..], m - 1);
      }
    }
  }

  lemma {:induction false} FindConcat(a: seq<string>, b: seq<string>, marker: string)
    ensures FindSection(a + b, marker)
      == if FindSection(a, marker) < |a| then FindSection(a, marker) else |a| + FindSection(b, marker)
  {
    if a == [] {
      assert a + b == b;
    } else {
      assert (a + b)[1..] == a[1..] + b;
      FindConcat(a[1..], b, marker);
    }
  }

  lemma {:induction false} SpanConcat(a: seq<string>, b: seq<string>, marker: string)
    ensures SpanAmong(a + b, marker)
      == if SpanAmong(a, marker).Some? then SpanAmong(a, marker) else Shifted(SpanAmong(b, marker), Start(a, |a|))
  {
    FindConcat(a, b, marker);
    StartConcat(a, b, if FindSection(b, marker) < |b| then FindSection(b, marker) else 0);
  }

  /** A list of parts that splitting leaves alone wherever it stands. */
  predicate Whole(parts: seq<string>) {
    forall i | 0 <= i < |parts| :: !HasSeparator(parts[i]) && !EndsInNewline(parts[i])
  }

  /** Behind whole parts that are not under the heading, a section is found where it would be found alone. */
  lemma {:induction false} SpanBehind(front: seq<string>, s: string, marker: string)
    requires Whole(front)
    ensures SpanOf(Join(front + [s]), marker)
      == if SpanAmong(front, marker).Some? then SpanAmong(front, marker) else Shifted(SpanOf(s, marker), Start(front, |front|))
  {
    SplitOfFront(front, s);
    SpanConcat(front, Split(s), marker);
  }

  lemma {:induction false} SpanBehindBlank(s: string, heading: string)
    ensures SpanOf(BLANK_LINE + s, Marker(heading)) == Shifted(SpanOf(s, Marker(heading)), 2)
  {
    SpanBehind([""], s, Marker(heading));
    assert [""] + [s] == ["", s] && ["", s][1..] == [s];
    assert Join([""] + [s]) == "" + BLANK_LINE + s == BLANK_LINE + s;
    assert [""][1..] == [];
  }

  // ---- What a run of newlines in front of the remaining sections does ----

  function Newlines(n: nat): (s: string)
    ensures |s| == n && forall k | 0 <= k < n :: s[k] == '\n'
  {
    seq(n, _ => '\n')
  }

  /**
   * One newline in front of these parts leaves the first section under the heading as it is. Blank
   * parts pass the newline on. The first part that is not blank takes it: that part must not be
   * under the heading, and must not be under it but for a newline at its front.
   */
  predicate TakesNewline(parts: seq<string>, marker: string) {
    if parts == [] then true
    else if parts[0] == "" then TakesNewline(parts[1..], marker)
    else !StartsWith(parts[0], marker) && !StartsWith(parts[0], "\n" + marker)
  }

  /** The section is found where it was, `n` further on, or it is not found to end there. */
  predicate FoundIff(found: Option<Span>, at: Span, n: nat, condition: bool) {
    if condition then found == Some(Span(at.start + n, at.end + n))
    else found.None? || found.value.end != at.end + n
  }

  lemma {:induction false} SpanOfFirst(first: string, behind: seq<string>, marker: string)
    ensures SpanAmong([first] + behind, marker)
      == if StartsWith(first, marker) then Some(Span(0, |first|)) else Shifted(SpanAmong(behind, marker), |first| + 2)
  {
    assert ([first] + behind)[1..] == behind;
  }

  lemma {:induction false} NewlineInFrontOfText(rest: seq<string>, h: string)
    requires Splittable(rest) && rest[0] != "" && rest[0][0] != '\n'
    requires SpanAmong(rest, Marker(h)).Some?
    ensures FoundIff(SpanOf("\n" + Join(rest), Marker(h)), SpanAmong(rest, Marker(h)).value, 1, !StartsWith(rest[0], Marker(h)))
  {
    var first, behind := rest[0], rest[1..];
    assert rest == [first] + behind;
    var later, under := SpanAmong(behind, Marker(h)), StartsWith(first, Marker(h));
    ShiftedFirst(rest, h);
    SpanOfFirst(first, behind, Marker(h));
    NewlineLost(later, |first|, under);
  }

  lemma {:induction false} ShiftedFirst(rest: seq<string>, h: string)
    requires Splittable(rest) && rest[0] != "" && rest[0][0] != '\n'
    ensures SpanOf("\n" + Join(rest), Marker(h)) == Shifted(SpanAmong(rest[1..], Marker(h)), |rest[0]| + 3)
  {
    NewlineStaysInFront(rest);
    NewlineUnmarks(rest[0], h);
    SpanOfFirst("\n" + rest[0], rest[1..], Marker(h));
  }

  lemma NewlineLost(later: Option<Span>, n: nat, under: bool)
    requires under || later.Some?
    ensures FoundIff(Shifted(later, n + 3), if under then Span(0, n) else Shifted(later, n + 2).value, 1, !under)
  {
  }

  lemma {:induction false} NewlineStaysInFront(rest: seq<string>)
    requires Splittable(rest) && rest[0] != "" && rest[0][0] != '\n'
    ensures Split("\n" + Join(rest)) == ["\n" + rest[0]] + rest[1..]
  {
    SplitOfJoin(rest);
    SplitAfterNewline(Join(rest));
    assert Join(rest)[0] == rest[0][0];
  }

  lemma {:induction false} SpanWithoutNewline(rest: seq<string>, h: string)
    requires Splittable(rest) && rest[0] != "" && rest[0][0] == '\n' && |rest| > 1
    ensures SpanOf("\n" + Join(rest), Marker(h)) == Shifted(SpanAmong([rest[0][1..]] + rest[1..], Marker(h)), 2)
  {
    var parts := [rest[0][1..]] + rest[1..];
    WithoutNewline(rest);
    SplitOfJoin(parts);
    assert "\n" + Join(rest) == BLANK_LINE + Join(parts);
    SpanBehindBlank(Join(parts), h);
  }

  lemma {:induction false} SpanBehindEmptyPart(rest: seq<string>, h: string)
    requires |rest| > 1 && rest[0] == ""
    ensures SpanOf("\n" + Join(rest), Marker(h)) == Shifted(SpanOf("\n" + Join(rest[1..]), Marker(h)), 2)
  {
    assert Join(rest) == "" + BLANK_LINE + Join(rest[1..]);
    assert "\n" + Join(rest) == BLANK_LINE + ("\n" + Join(rest[1..]));
    SpanBehindBlank("\n" + Join(rest[1..]), h);
  }

  lemma {:induction false} SpanBehindTwoNewlines(n: nat, s: string, h: string)
    requires n >= 2
    ensures SpanOf(Newlines(n) + s, Marker(h)) == Shifted(SpanOf(Newlines(n - 2) + s, Marker(h)), 2)
  {
    assert Newlines(n) == BLANK_LINE + Newlines(n - 2);
    assert Newlines(n) + s == BLANK_LINE + (Newlines(n - 2) + s);
    SpanBehindBlank(Newlines(n - 2) + s, h);
  }

  lemma {:induction false} NewlineInFrontOfNewline(rest: seq<string>, h: string)
    requires Splittable(rest) && rest[0] != "" && rest[0][0] == '\n'
    requires SpanAmong(rest, Marker(h)).Some?
    ensures FoundIff(SpanOf("\n" + Join(rest), Marker(h)), SpanAmong(rest, Marker(h)).value, 1, !StartsWith(rest[0], "\n" + Marker(h)))
  {
    var m, p, behind := Marker(h), rest[0][1..], rest[1..];
    assert rest == [rest[0]] + behind && rest[0] == "\n" + p;
    PrefixBehindNewline(p, m);
    NewlineUnmarks(p, h);
    SpanOfFirst(rest[0], behind, m);
    assert behind != [];
    SpanWithoutNewline(rest, h);
    SpanOfFirst(p, behind, m);
    var later, under := SpanAmong(behind, m), StartsWith(p, m);
    assert SpanAmong(rest, m) == Shifted(later, |p| + 3);
    assert SpanOf("\n" + Join(rest), m) == Shifted(if under then Some(Span(0, |p|)) else Shifted(later, |p| + 2), 2);
    NewlineTaken(later, |p|, under);
  }

  lemma NewlineTaken(later: Option<Span>, n: nat, under: bool)
    requires later.Some?
    ensures FoundIff(Shifted(if under then Some(Span(0, n)) else Shifted(later, n + 2), 2), Shifted(later, n + 3).value, 1, !under)
  {
  }

  lemma {:induction false} PrefixBehindNewline(p: string, m: string)
    ensures StartsWith("\n" + p, "\n" + m) <==> StartsWith(p, m)
  {
    if |m| <= |p| {
      assert ("\n" + p)[..|m| + 1] == "\n" + p[..|m|];
      if "\n" + p[..|m|] == "\n" + m {
        assert ("\n" + p[..|m|])[1..] == ("\n" + m)[1..];
      }
    }
  }

  /** Taking the newline off the first part leaves a list that splitting can produce. */
  lemma {:induction false} WithoutNewline(rest: seq<string>)
    requires Splittable(rest) && rest[0] != "" && rest[0][0] == '\n' && |rest| > 1
    ensures Splittable([rest[0][1..]] + rest[1..])
    ensures Join(rest) == "\n" + Join([rest[0][1..]] + rest[1..])
  {
    var p, parts := rest[0][1..], [rest[0][1..]] + rest[1..];
    forall k | 0 <= k && k + 1 < |p| ensures !SeparatorAt(p, k) {
      assert !SeparatorAt(rest[0], k + 1);
    }
    forall i | 0 < i < |parts| ensures !HasSeparator(parts[i]) && (i < |parts| - 1 ==> !EndsInNewline(parts[i])) {
      assert parts[i] == rest[i];
    }
    assert parts[1..] == rest[1..];
  }

  lemma {:induction false} OneNewline(rest: seq<string>, h: string)
    requires Splittable(rest) && SpanAmong(rest, Marker(h)).Some?
    ensures FoundIff(SpanOf("\n" + Join(rest), Marker(h)), SpanAmong(rest, Marker(h)).value, 1, TakesNewline(rest, Marker(h)))
    decreases |rest|
  {
    if rest[0] == "" {
      var behind := rest[1..];
      assert rest == [""] + behind;
      SpanOfFirst("", behind, Marker(h));
      SplittableBehind(rest, 1);
      OneNewline(behind, h);
      SpanBehindEmptyPart(rest, h);
      FoundBothFurther(SpanOf("\n" + Join(behind), Marker(h)), SpanAmong(behind, Marker(h)), TakesNewline(behind, Marker(h)));
    } else if rest[0][0] == '\n' {
      assert !StartsWith(rest[0], Marker(h));
      NewlineInFrontOfNewline(rest, h);
    } else {
      assert !StartsWith(rest[0], "\n" + Marker(h));
      NewlineInFrontOfText(rest, h);
    }
  }

  /** An even run of newlines only adds empty parts; an odd one leaves one newline over. */
  lemma {:induction false} RunOfNewlines(n: nat, rest: seq<string>, h: string)
    requires Splittable(rest) && SpanAmong(rest, Marker(h)).Some?
    ensures FoundIff(SpanOf(Newlines(n) + Join(rest), Marker(h)), SpanAmong(rest, Marker(h)).value, n,
                     n % 2 == 0 || TakesNewline(rest, Marker(h)))
  {
    if n == 0 {
      SplitOfJoin(rest);
      assert Newlines(0) + Join(rest) == Join(rest);
    } else if n == 1 {
      assert Newlines(1) == "\n";
      OneNewline(rest, h);
    } else {
      RunOfNewlines(n - 2, rest, h);
      SpanBehindTwoNewlines(n, Join(rest), h);
      assert (n - 2) % 2 == n % 2;
      FoundFurther(SpanOf(Newlines(n - 2) + Join(rest), Marker(h)), SpanAmong(rest, Marker(h)).value, n - 2,
                   n % 2 == 0 || TakesNewline(rest, Marker(h)));
    }
  }

  lemma FoundBothFurther(found: Option<Span>, at: Option<Span>, condition: bool)
    requires at.Some? && FoundIff(found, at.value, 1, condition)
    ensures FoundIff(Shifted(found, 2), Shifted(at, 2).value, 1, condition)
  {
  }

  lemma FoundFurther(found: Option<Span>, at: Span, n: nat, condition: bool)
    requires FoundIff(found, at, n, condition)
    ensures FoundIff(Shifted(found, 2), at, n + 2, condition)
  {
  }

  // ---- Where a section is found once another part has been exchanged for any text ----

  /** A text without the newlines at its end. */
  function Trim(text: string): (t: string)
    ensures !EndsInNewline(t) && |t| <= |text|
    ensures text == t + Newlines(|text| - |t|)
  {
    if EndsInNewline(text) then
      var t := Trim(text[..|text| - 1]);
      assert Newlines(|text| - |t|) == Newlines(|text| - 1 - |t|) + "\n";
      t
    else text
  }

  /**
   * The condition under which the first section under a heading is found as it was after part `i`
   * has been exchanged for the text: it stands before that part; or else no piece of the text,
   * taken without the newlines at its end, stands under the heading, and those newlines are even
   * in number or taken by the parts behind.
   */
  predicate StillFound(parts: seq<string>, i: nat, text: string, marker: string)
    requires i < |parts|
  {
    || FindSection(parts, marker) < i
    || (FindSection(Split(Trim(text)), marker) == |Split(Trim(text))|
        && ((|text| - |Trim(text)|) % 2 == 0 || TakesNewline(parts[i + 1..], marker)))
  }

  /** The section stands before the exchanged part. */
  lemma {:induction false} FoundBefore(parts: seq<string>, i: nat, text: string, marker: string)
    requires Splittable(parts) && i < |parts| && FindSection(parts, marker) < i
    ensures SpanOf(Join(parts[i := text]), marker) == Some(SpanAt(parts[i := text], FindSection(parts, marker)))
  {
    var rest := parts[i + 1..];
    EditedSplit(parts, i, text);
    SpanInFront(parts, i, Split(if rest == [] then text else text + BLANK_LINE + Join(rest)), marker);
    SpanInFront(parts, i, parts[i := text][i..], marker);
    assert parts[i := text] == parts[..i] + parts[i := text][i..];
    assert parts[i := text][..i] == parts[..i];
    StartConcat(parts[..i], parts[i := text][i..], 0);
  }

  lemma {:induction false} SpanInFront(parts: seq<string>, i: nat, behind: seq<string>, marker: string)
    requires FindSection(parts, marker) < i <= |parts|
    ensures SpanAmong(parts[..i] + behind, marker) == Some(SpanAt(parts[..i], FindSection(parts, marker)))
  {
    FoundFirst(parts[..i], marker, FindSection(parts, marker));
    SpanConcat(parts[..i], behind, marker);
  }

  /** The body after the exchange, as whole parts and what follows them. */
  lemma {:induction false} ExchangedFront(parts: seq<string>, i: nat, text: string)
    requires Splittable(parts) && i < |parts| - 1
    ensures var front, rest := parts[..i] + Split(Trim(text)), parts[i + 1..];
      && Whole(front) && Splittable(rest)
      && Join(parts[i := text]) == Join(front + [Newlines(|text| - |Trim(text)|) + Join(rest)])
  {
    SplittableBehind(parts, i + 1);
    LastPieceOf(Trim(text));
    assert parts[i := text] == parts[..i] + [text] + parts[i + 1..];
    NewlinesMoveOn(parts[..i], Trim(text), |text| - |Trim(text)|, parts[i + 1..]);
  }

  /** The newlines at the end of a text may as well stand behind the blank line that follows it. */
  lemma {:induction false} NewlinesMoveOn(front: seq<string>, t: string, n: nat, rest: seq<string>)
    requires rest != []
    ensures Join(front + [t + Newlines(n)] + rest) == Join(front + Split(t) + [Newlines(n) + Join(rest)])
  {
    var behind := Newlines(n) + Join(rest);
    JoinTail(front, t + Newlines(n), rest);
    NewlinesCommute(t, n, Join(rest));
    JoinTail(front, t, [behind]);
    assert Join([behind]) == behind;
    JoinOfSplit(t);
    JoinMiddle(front, Split(t), [behind]);
  }

  lemma NewlinesCommute(t: string, n: nat, s: string)
    ensures (t + Newlines(n)) + BLANK_LINE + s == t + BLANK_LINE + (Newlines(n) + s)
  {
    assert Newlines(n) + BLANK_LINE == BLANK_LINE + Newlines(n);
    assert (t + Newlines(n)) + BLANK_LINE + s == t + (Newlines(n) + BLANK_LINE) + s;
  }

  lemma {:induction false} LastPieceOf(t: string)
    requires !EndsInNewline(t)
    ensures Whole(Split(t))
  {
    SplitIsSplittable(t);
    JoinOfSplit(t);
    if EndsInNewline(Split(t)[|Split(t)| - 1]) {
      JoinEnd(Split(t));
    }
  }

  lemma {:induction false} StartAll(parts: seq<string>)
    requires parts != []
    ensures Start(parts, |parts|) == |Join(parts)| + 2
  {
    if |parts| > 1 {
      StartAll(parts[1..]);
    }
  }

  lemma {:induction false} StartOfPieces(parts: seq<string>, i: nat, pieces: seq<string>)
    requires i < |parts| && pieces != []
    ensures Start(parts[..i] + pieces, i + |pieces|) == Start(parts[..i], i) + |Join(pieces)| + 2
  {
    StartConcat(parts[..i], pieces, |pieces|);
    StartAll(pieces);
  }

  lemma {:induction false} StartBehind(parts: seq<string>, i: nat, text: string)
    requires i < |parts|
    ensures Start(parts[i := text], i + 1) == Start(parts[..i], i) + |text| + 2
  {
    var rest := [text] + parts[i + 1..];
    assert parts[i := text] == parts[..i] + rest;
    StartConcat(parts[..i], rest, 1);
    assert Start(rest[1..], 0) == 0 && rest[0] == text;
  }

  /** What stands before the newlines that a text leaves behind. */
  function FrontOf(parts: seq<string>, i: nat, text: string): seq<string>
    requires i < |parts|
  {
    parts[..i] + Split(Trim(text))
  }

  lemma {:induction false} FrontLength(parts: seq<string>, i: nat, text: string)
    requires i < |parts|
    ensures var front := FrontOf(parts, i, text);
      Start(front, |front|) + |text| - |Trim(text)| == Start(parts[i := text], i + 1)
  {
    StartOfPieces(parts, i, Split(Trim(text)));
    JoinOfSplit(Trim(text));
    StartBehind(parts, i, text);
  }

  lemma {:induction false} SpanOfExchanged(parts: seq<string>, i: nat, text: string, marker: string)
    requires Splittable(parts) && i < |parts| - 1
    ensures var front, behind := FrontOf(parts, i, text), Newlines(|text| - |Trim(text)|) + Join(parts[i + 1..]);
      SpanOf(Join(parts[i := text]), marker)
      == if SpanAmong(front, marker).Some? then SpanAmong(front, marker) else Shifted(SpanOf(behind, marker), Start(front, |front|))
  {
    ExchangedFront(parts, i, text);
    SpanBehind(FrontOf(parts, i, text), Newlines(|text| - |Trim(text)|) + Join(parts[i + 1..]), marker);
  }

  /** The section stands behind the exchanged part. */
  lemma {:induction false} FoundBehind(parts: seq<string>, i: nat, text: string, h: string)
    requires Splittable(parts) && i < FindSection(parts, Marker(h)) < |parts|
    ensures FoundIff(SpanOf(Join(parts[i := text]), Marker(h)), SpanAt(parts[i := text], FindSection(parts, Marker(h))), 0,
                     StillFound(parts, i, text, Marker(h)))
  {
    var m, j, rest := Marker(h), FindSection(parts, Marker(h)), parts[i + 1..];
    var n, front, pieces := |text| - |Trim(text)|, FrontOf(parts, i, text), Split(Trim(text));
    SplittableBehind(parts, i + 1);
    SpanOfRest(parts, i, m);
    RunOfNewlines(n, rest, h);
    SpanOfPieces(parts, i, pieces, m);
    var inFront, length, found, at := SpanAmong(front, m), Start(front, |front|), SpanOf(Newlines(n) + Join(rest), m), SpanAmong(rest, m).value;
    var clean, runs := FindSection(pieces, m) == |pieces|, n % 2 == 0 || TakesNewline(rest, m);
    FoundPastFront(inFront, length, found, at, n, clean, runs);
    assert StillFound(parts, i, text, m) == (clean && runs);
    assert SpanAt(parts[i := text], j) == Span(length + n + at.start, length + n + at.end) by {
      FrontLength(parts, i, text);
      ExpectedSpan(parts, i, text, j);
    }
    SpanOfExchanged(parts, i, text, m);
  }

  lemma FoundPastFront(
    inFront: Option<Span>, length: nat, found: Option<Span>, at: Span, n: nat, clean: bool, runs: bool)
    requires FoundIff(found, at, n, runs)
    requires if clean then inFront.None? else inFront.Some? && inFront.value.end < length
    requires at.start <= at.end
    ensures FoundIff(if inFront.Some? then inFront else Shifted(found, length),
                     Span(length + n + at.start, length + n + at.end), 0, clean && runs)
  {
  }

  lemma {:induction false} SpanOfRest(parts: seq<string>, i: nat, marker: string)
    requires i < FindSection(parts, marker) < |parts|
    ensures SpanAmong(parts[i + 1..], marker) == Some(SpanAt(parts[i + 1..], FindSection(parts, marker) - i - 1))
  {
    FoundFirst(parts[i + 1..], marker, FindSection(parts, marker) - i - 1);
  }

  /** Among the pieces put in place of part `i`, nothing is found unless one of them is under the heading. */
  lemma {:induction false} SpanOfPieces(parts: seq<string>, i: nat, pieces: seq<string>, marker: string)
    requires i < FindSection(parts, marker)
    ensures var front := parts[..i] + pieces;
      if FindSection(pieces, marker) == |pieces| then SpanAmong(front, marker).None?
      else SpanAmong(front, marker).Some? && SpanAmong(front, marker).value.end < Start(front, |front|)
  {
    var front := parts[..i] + pieces;
    NothingFound(parts[..i], marker);
    FindConcat(parts[..i], pieces, marker);
    if FindSection(pieces, marker) < |pieces| {
      EarlierEnds(front, i + FindSection(pieces, marker));
    }
  }

  lemma {:induction false} NothingFound(parts: seq<string>, marker: string)
    requires forall k | 0 <= k < |parts| :: !StartsWith(parts[k], marker)
    ensures FindSection(parts, marker) == |parts|
  {
  }

  lemma {:induction false} EarlierEnds(parts: seq<string>, k: nat)
    requires k < |parts|
    ensures SpanAt(parts, k).end < Start(parts, |parts|)
  {
    StartConcat(parts[..k], parts[k..], |parts| - k);
    assert parts == parts[..k] + parts[k..];
  }

  lemma {:induction false} ExpectedSpan(parts: seq<string>, i: nat, text: string, j: nat)
    requires i < j < |parts|
    ensures var at := SpanAt(parts[i + 1..], j - i - 1);
      var before := Start(parts[i := text], i + 1);
      SpanAt(parts[i := text], j) == Span(before + at.start, before + at.end)
  {
    var front, rest := parts[i := text][..i + 1], parts[i + 1..];
    assert parts[i := text] == front + rest;
    StartConcat(front, rest, j - i - 1);
  }

  /**
   * After any exchange of part `i` the first section under another heading is found where it then
   * stands if and only if the condition holds; otherwise it is not found, or another one is.
   */
  lemma {:induction false} FoundAfterExchange(parts: seq<string>, i: nat, text: string, h: string)
    requires Splittable(parts) && i < |parts|
    requires FindSection(parts, Marker(h)) < |parts| && FindSection(parts, Marker(h)) != i
    ensures FoundIff(SpanOf(Join(parts[i := text]), Marker(h)), SpanAt(parts[i := text], FindSection(parts, Marker(h))), 0,
                     StillFound(parts, i, text, Marker(h)))
  {
    if FindSection(parts, Marker(h)) < i {
      FoundBefore(parts, i, text, Marker(h));
    } else {
      FoundBehind(parts, i, text, h);
    }
  }

  // ---- Two edits, one after the other ----

  /** A section found at a stretch is what stands there, and an edit of it exchanges that stretch. */
  lemma {:induction false} EditOfSpan(s: string, h: string, text: string)
    requires HasSection(s, h)
    ensures var at := SpanOf(s, Marker(h));
      && at.Some? && at.value.start <= at.value.end <= |s| && EndsPart(s, at.value.end)
      && SectionOf(s, h) == s[at.value.start..at.value.end]
      && WithSection(s, h, text) == Spliced(s, at.value, text)
  {
    SpanOfPart(Split(s), FindSection(Split(s), Marker(h)), text);
    JoinOfSplit(s);
  }

  /** Two edits of different sections: the second finds its section as it was, and both end up in their places. */
  lemma {:induction false} EditAfterEdit(body: string, h: string, text: string, g: string, second: string)
    requires HasSection(body, h) && HasSection(body, g)
    requires FindSection(Split(body), Marker(h)) != FindSection(Split(body), Marker(g))
    requires StillFound(Split(body), FindSection(Split(body), Marker(h)), text, Marker(g))
    ensures var parts := Split(body);
      var i, j := FindSection(parts, Marker(h)), FindSection(parts, Marker(g));
      var edited := WithSection(body, h, text);
      && HasSection(edited, g) && SectionOf(edited, g) == parts[j]
      && WithSection(edited, g, second) == Join(parts[i := text][j := second])
  {
    var parts := Split(body);
    var i, j := FindSection(parts, Marker(h)), FindSection(parts, Marker(g));
    SplitIsSplittable(body);
    FoundAfterExchange(parts, i, text, g);
    SpanOfPart(parts[i := text], j, second);
    EditOfSpan(WithSection(body, h, text), g, second);
  }

  /** Inserting at two different places gives two texts, when a blank line stands at the earlier place. */
  lemma {:induction false} InsertionsDiffer(s: string, early: nat, late: nat, x: string)
    requires early < late <= |s| && EndsPart(s, early)
    requires |x| >= 2 && x[0] == '\n' && x[1] != '\n'
    ensures s[..early] + x + s[early..] != s[..late] + x + s[late..]
  {
    var a, b := s[..early] + x + s[early..], s[..late] + x + s[late..];
    assert a[early + 1] == x[1];
    assert s[early + 1] == s[early..early + 2][1] == '\n';
    assert b[early + 1] == '\n';
  }

  lemma ExtendedAt(s: string, at: Span, note: string)
    requires at.start <= at.end <= |s|
    ensures Spliced(s, at, Extended(s[at.start..at.end], note)) == s[..at.end] + ("\n" + note) + s[at.end..]
  {
    assert s[..at.start] + s[at.start..at.end] == s[..at.end];
  }

  /** An append writes at the end of the section that is found. */
  lemma {:induction false} AppendInserts(s: string, h: string, note: string)
    requires HasSection(s, h)
    ensures var at := SpanOf(s, Marker(h));
      && at.Some? && at.value.end <= |s| && EndsPart(s, at.value.end)
      && AppendToSection(s, h, note) == Ok(s[..at.value.end] + ("\n" + note) + s[at.value.end..])
  {
    var at := SpanOf(s, Marker(h)).value;
    EditOfSpan(s, h, Extended(SectionOf(s, h), note));
    ExtendedAt(s, at, note);
  }

  lemma {:induction false} NoteLands(s: string, h: string, note: string, at: Span)
    requires note != "" && note[0] != '\n' && at.end <= |s| && EndsPart(s, at.end)
    ensures AppendToSection(s, h, note) == Ok(s[..at.end] + ("\n" + note) + s[at.end..])
      <==> SpanOf(s, Marker(h)).Some? && SpanOf(s, Marker(h)).value.end == at.end
  {
    if HasSection(s, h) {
      AppendInserts(s, h, note);
      var end := SpanOf(s, Marker(h)).value.end;
      if end < at.end {
        InsertionsDiffer(s, end, at.end, "\n" + note);
      } else if at.end < end {
        InsertionsDiffer(s, at.end, end, "\n" + note);
      }
    }
  }

  /** Appending a note after a section has been exchanged: it lands where it belongs if and only if its section is still found. */
  lemma {:induction false} NoteAfterExchange(parts: seq<string>, j: nat, text: string, h: string, note: string)
    requires Splittable(parts) && j < |parts| && note != "" && note[0] != '\n'
    requires FindSection(parts, Marker(h)) < |parts| && FindSection(parts, Marker(h)) != j
    ensures var i := FindSection(parts, Marker(h));
      AppendToSection(Join(parts[j := text]), h, note) == Ok(Join(parts[j := text][i := Extended(parts[i], note)]))
      <==> StillFound(parts, j, text, Marker(h))
  {
    var s, i := Join(parts[j := text]), FindSection(parts, Marker(h));
    var at := SpanAt(parts[j := text], i);
    FoundAfterExchange(parts, j, text, h);
    SpanOfPart(parts[j := text], i, Extended(parts[i], note));
    ExtendedAt(s, at, note);
    NoteLands(s, h, note, at);
  }

  /**
   * Appending to one section and replacing another commute, and give the old body with both
   * sections exchanged, whenever each new text leaves the other section found. For a note that
   * leaves the other section found and does not begin with a newline, this is exact: the two
   * orders give the same body if and only if the replacement leaves the note's section found.
   */
  lemma {:induction false} EditsCommute(body: string, h: string, note: string, g: string, content: string)
    requires h != g && '\n' !in h && '\n' !in g
    requires HasSection(body, h) && HasSection(body, g)
    requires StillFound(Split(body), FindSection(Split(body), Marker(h)), Extended(SectionOf(body, h), note), Marker(g))
    ensures var parts := Split(body);
      var i, j := FindSection(parts, Marker(h)), FindSection(parts, Marker(g));
      var appended, replaced := AppendToSection(body, h, note), ReplaceSection(body, g, content);
      && appended.Ok? && replaced.Ok?
      && ReplaceSection(appended.value, g, content) == Ok(Join(parts[i := Extended(parts[i], note)][j := Replaced(g, content)]))
      && (StillFound(parts, j, Replaced(g, content), Marker(h)) ==>
            ReplaceSection(appended.value, g, content) == AppendToSection(replaced.value, h, note))
      && (note != "" && note[0] != '\n' ==>
            (ReplaceSection(appended.value, g, content) == AppendToSection(replaced.value, h, note)
             <==> StillFound(parts, j, Replaced(g, content), Marker(h))))
  {
    var parts := Split(body);
    var i, j := FindSection(parts, Marker(h)), FindSection(parts, Marker(g));
    if i == j { MarkersExclude(parts[i], h, g); }
    var extended, rewritten := Extended(parts[i], note), Replaced(g, content);
    EditAfterEdit(body, h, extended, g, rewritten);
    assert parts[i := extended][j := rewritten] == parts[j := rewritten][i := extended];
    if StillFound(parts, j, rewritten, Marker(h)) {
      EditAfterEdit(body, g, rewritten, h, extended);
    }
    if note != "" && note[0] != '\n' {
      SplitIsSplittable(body);
      NoteAfterExchange(parts, j, rewritten, h, note);
    }
  }

  // ---- Notes of one line ----

  /** Text on one line: how the scenarios write headings, section contents, notes and replacements. */
  predicate Line(s: string) {
    s != "" && '\n' !in s
  }

  lemma {:induction false} TrimOfNone(text: string)
    requires !EndsInNewline(text)
    ensures Trim(text) == text
  {
  }

  /** A text that fits under its own heading leaves every other section found. */
  lemma {:induction false} FitsStillFound(parts: seq<string>, i: nat, text: string, h: string, g: string)
    requires h != g && '\n' !in h && '\n' !in g && i < |parts|
    requires StartsWith(text, Marker(h)) && Fits(text, i == |parts| - 1)
    requires FindSection(parts, Marker(g)) < |parts| && FindSection(parts, Marker(g)) != i
    ensures StillFound(parts, i, text, Marker(g))
  {
    if FindSection(parts, Marker(g)) > i {
      TrimOfNone(text);
      assert FindSeparator(text) == |text|;
      if StartsWith(text, Marker(g)) { MarkersExclude(text, h, g); }
    }
  }

  lemma {:induction false} LineNoteStillFound(body: string, h: string, note: string, g: string)
    requires h != g && '\n' !in h && '\n' !in g && Line(note)
    requires HasSection(body, h) && HasSection(body, g)
    ensures StillFound(Split(body), FindSection(Split(body), Marker(h)), Extended(SectionOf(body, h), note), Marker(g))
  {
    var parts := Split(body);
    var i, j := FindSection(parts, Marker(h)), FindSection(parts, Marker(g));
    if i == j { MarkersExclude(parts[i], h, g); }
    SplitIsSplittable(body);
    var text := Extended(parts[i], note);
    if i < j {
      assert text[..|Marker(h)|] == parts[i][..|Marker(h)|];
      forall k | 0 <= k < |text| - 1 ensures !SeparatorAt(text, k) {
        if k < |parts[i]| - 1 {
          assert !SeparatorAt(parts[i], k);
        }
      }
      FitsStillFound(parts, i, text, h, g);
    }
  }

  /**
   * For every note of one line, on every body that has both sections: the two orders give the same
   * body if and only if the note's section stands before the replaced one, or no piece of the
   * replacement stands under the note's heading and the newlines at its end are even in number or
   * taken by the parts behind it.
   */
  lemma {:induction false} LineNotesCommute(body: string, h: string, note: string, g: string, content: string)
    requires h != g && '\n' !in h && '\n' !in g && Line(note)
    requires HasSection(body, h) && HasSection(body, g)
    ensures var appended, replaced := AppendToSection(body, h, note), ReplaceSection(body, g, content);
      && appended.Ok? && replaced.Ok? && ReplaceSection(appended.value, g, content).Ok?
      && (ReplaceSection(appended.value, g, content) == AppendToSection(replaced.value, h, note)
          <==> StillFound(Split(body), FindSection(Split(body), Marker(g)), Replaced(g, content), Marker(h)))
  {
    LineNoteStillFound(body, h, note, g);
    EditsCommute(body, h, note, g, content);
  }

  // ---- Two orders that differ ----

  lemma {:induction false} JoinNested(a: string, b: string, c: string)
    ensures Join([a + BLANK_LINE + b, c]) == Join([a, b, c])
  {
    assert [a + BLANK_LINE + b, c][1..] == [c];
    assert [a, b, c][1..] == [b, c] && [b, c][1..] == [c];
    assert Join([b, c]) == b + BLANK_LINE + c;
    assert (a + BLANK_LINE + b) + BLANK_LINE + c == a + BLANK_LINE + (b + BLANK_LINE + c);
  }

  /** An edit of a body with a known splitting. */
  lemma {:induction false} EditOfJoin(parts: seq<string>, i: nat, heading: string, text: string)
    requires Splittable(parts) && i < |parts| && StartsWith(parts[i], Marker(heading))
    requires forall k | 0 <= k < i :: !StartsWith(parts[k], Marker(heading))
    ensures ReplaceSection(Join(parts), heading, text) == Ok(Join(parts[i := Replaced(heading, text)]))
    ensures AppendToSection(Join(parts), heading, text) == Ok(Join(parts[i := Extended(parts[i], text)]))
  {
    SplitOfJoin(parts);
    FoundFirst(parts, Marker(heading), i);
  }

  /** Two sections, `x` under `h` and `y` under `g`, and a replacement that brings a section under `g` of its own. */
  predicate Importing(x: string, y: string, h: string, g: string, content: string, imported: string, note: string) {
    && h != g && '\n' !in h && '\n' !in g
    && StartsWith(x, Marker(h)) && StartsWith(y, Marker(g)) && Splittable([x, y])
    && Fits(Replaced(h, content), false) && Fits(Replaced(g, imported), false)
    && Fits(Extended(Replaced(g, imported), note), false) && Fits(Extended(y, note), true)
  }

  lemma {:induction false} NoteFirst(x: string, y: string, h: string, g: string, content: string, imported: string, note: string)
    requires Importing(x, y, h, g, content, imported, note)
    ensures AppendToSection(Join([x, y]), g, note) == Ok(Join([x, Extended(y, note)]))
    ensures ReplaceSection(Join([x, Extended(y, note)]), h, content + BLANK_LINE + Replaced(g, imported))
      == Ok(Join([Replaced(h, content), Replaced(g, imported), Extended(y, note)]))
  {
    var noted, both := Extended(y, note), content + BLANK_LINE + Replaced(g, imported);
    if StartsWith(x, Marker(g)) { MarkersExclude(x, h, g); }
    EditOfJoin([x, y], 1, g, note);
    assert [x, y][1 := noted] == [x, noted];
    EditOfJoin([x, noted], 0, h, both);
    assert [x, noted][0 := Replaced(h, both)] == [Replaced(h, both), noted];
    assert Replaced(h, both) == Replaced(h, content) + BLANK_LINE + Replaced(g, imported);
    JoinNested(Replaced(h, content), Replaced(g, imported), noted);
  }

  lemma {:induction false} ReplaceFirst(x: string, y: string, h: string, g: string, content: string, imported: string, note: string)
    requires Importing(x, y, h, g, content, imported, note)
    ensures ReplaceSection(Join([x, y]), h, content + BLANK_LINE + Replaced(g, imported))
      == Ok(Join([Replaced(h, content), Replaced(g, imported), y]))
    ensures AppendToSection(Join([Replaced(h, content), Replaced(g, imported), y]), g, note)
      == Ok(Join([Replaced(h, content), Extended(Replaced(g, imported), note), y]))
  {
    var both, extra := content + BLANK_LINE + Replaced(g, imported), Replaced(g, imported);
    EditOfJoin([x, y], 0, h, both);
    assert [x, y][0 := Replaced(h, both)] == [Replaced(h, both), y];
    assert Replaced(h, both) == Replaced(h, content) + BLANK_LINE + extra;
    JoinNested(Replaced(h, content), extra, y);
    var parts := [Replaced(h, content), extra, y];
    if StartsWith(parts[0], Marker(g)) { MarkersExclude(parts[0], h, g); }
    EditOfJoin(parts, 1, g, note);
    assert parts[1 := Extended(extra, note)] == [Replaced(h, content), Extended(extra, note), y];
  }

  /**
   * Without that condition edits do not commute: on a body of two sections, a replacement
   * that brings along a section under the other heading captures the note if it comes first.
   */
  lemma {:induction false} ImportBreaksCommuting(
    x: string, y: string, h: string, g: string, content: string, imported: string, note: string)
    requires Importing(x, y, h, g, content, imported, note)
    ensures var body, both := Join([x, y]), content + BLANK_LINE + Replaced(g, imported);
      && AppendToSection(body, g, note).Ok? && ReplaceSection(body, h, both).Ok?
      && ReplaceSection(AppendToSection(body, g, note).value, h, both)
         != AppendToSection(ReplaceSection(body, h, both).value, g, note)
  {
    NoteFirst(x, y, h, g, content, imported, note);
    ReplaceFirst(x, y, h, g, content, imported, note);
    var first := [Replaced(h, content), Replaced(g, imported), Extended(y, note)];
    var second := [Replaced(h, content), Extended(Replaced(g, imported), note), y];
    assert |first[2]| != |second[2]|;
    assert Splittable([x, y]) && !HasSeparator([x, y][1]);
    assert Splittable(first) && Splittable(second);
    SplitOfJoin(first);
    SplitOfJoin(second);
  }

  /** One such input: a note for B, and a replacement of A that brings along a section B. */
  lemma {:induction false} ImportExample()
    ensures Importing("## A\na", "## B\nb", "A", "B", "c", "d", "e")
  {
    SectionSeparators("A", "a");
    SectionSeparators("A", "c");
    SectionSeparators("B", "b");
    SectionSeparators("B", "d");
    SectionSeparators("B", "d\ne");
    SectionSeparators("B", "b\ne");
    assert Replaced("A", "a") == "## A\na" && Replaced("B", "b") == "## B\nb";
    assert Extended(Replaced("B", "d"), "e") == Replaced("B", "d\ne");
    assert Extended("## B\nb", "e") == Replaced("B", "b\ne");
  }
}
