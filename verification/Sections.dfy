/** Editing one section of a Markdown page body: a split, a change to one part, and a join. */
module Sections {
  import opened Options
  import opened Text

  datatype SectionError = SectionNotFound(heading: string)

  function Marker(heading: string): string {
    "## " + heading + "\n"
  }

  function SectionTextsOf(sections: seq<(string, string)>): (texts: seq<string>)
    ensures |texts| == |sections|
    ensures forall i | 0 <= i < |sections| :: texts[i] == Marker(sections[i].0) + sections[i].1
  {
    seq(|sections|, i requires 0 <= i < |sections| => Marker(sections[i].0) + sections[i].1)
  }

  /** `sectioned_body`. */
  function SectionedBody(sections: seq<(string, string)>): string {
    Join(SectionTextsOf(sections))
  }

  /** The first part that begins with the marker, or the number of parts when none does. */
  function FindSection(parts: seq<string>, marker: string): (r: nat)
    ensures r <= |parts|
    ensures r < |parts| ==> StartsWith(parts[r], marker)
    ensures forall k | 0 <= k < r :: !StartsWith(parts[k], marker)
  {
    if parts == [] then 0
    else if StartsWith(parts[0], marker) then 0
    else 1 + FindSection(parts[1..], marker)
  }

  predicate HasSection(body: string, heading: string) {
    FindSection(Split(body), Marker(heading)) < |Split(body)|
  }

  /** The section that an edit of `heading` would change. */
  function SectionOf(body: string, heading: string): string
    requires HasSection(body, heading)
  {
    Split(body)[FindSection(Split(body), Marker(heading))]
  }

  /** Puts `text` in place of the first section under `heading`. */
  function WithSection(body: string, heading: string, text: string): string
    requires HasSection(body, heading)
  {
    Join(Split(body)[FindSection(Split(body), Marker(heading)) := text])
  }

  function Replaced(heading: string, content: string): string {
    Marker(heading) + content
  }

  function Extended(section: string, text: string): string {
    section + "\n" + text
  }

  /** `replace_section`. */
  function ReplaceSection(body: string, heading: string, content: string): Result<string, SectionError> {
    if HasSection(body, heading) then Ok(WithSection(body, heading, Replaced(heading, content)))
    else Err(SectionNotFound(heading))
  }

  /** `append_to_section`. */
  function AppendToSection(body: string, heading: string, text: string): Result<string, SectionError> {
    if HasSection(body, heading) then Ok(WithSection(body, heading, Extended(SectionOf(body, heading), text)))
    else Err(SectionNotFound(heading))
  }

  /** `append_section`. */
  function AppendSection(body: string, heading: string, content: string): string {
    body + BLANK_LINE + Marker(heading) + content
  }

  function Excluding(parts: seq<string>, marker: string): seq<string> {
    if parts == [] then []
    else (if StartsWith(parts[0], marker) then [] else [parts[0]]) + Excluding(parts[1..], marker)
  }

  lemma {:induction false} InExcluding(parts: seq<string>, marker: string, t: string)
    ensures t in Excluding(parts, marker) <==> t in parts && !StartsWith(t, marker)
  {
    if parts != [] {
      InExcluding(parts[1..], marker, t);
      assert parts == [parts[0]] + parts[1..];
    }
  }

  /** `section_texts`. */
  function SectionTexts(body: string, excluding: Option<string>): seq<string> {
    if excluding.None? then Split(body) else Excluding(Split(body), Marker(excluding.value))
  }

  lemma {:induction false} ExcludingCounts(parts: seq<string>, marker: string, t: string)
    ensures multiset(Excluding(parts, marker))[t] == if StartsWith(t, marker) then 0 else multiset(parts)[t]
  {
    if parts != [] {
      ExcludingCounts(parts[1..], marker, t);
      assert parts == [parts[0]] + parts[1..];
    }
  }

  /** The texts are the parts of the body that do not begin with the excluded heading's line, each as often as it is there. */
  lemma {:induction false} SectionTextsExact(body: string, heading: string, text: string)
    ensures multiset(SectionTexts(body, Some(heading)))[text]
      == if StartsWith(text, "## " + heading + "\n") then 0 else multiset(Split(body))[text]
    ensures SectionTexts(body, None) == Split(body)
  {
    ExcludingCounts(Split(body), Marker(heading), text);
  }

  lemma FoundFirst(parts: seq<string>, marker: string, i: nat)
    requires i < |parts| && StartsWith(parts[i], marker)
    requires forall k | 0 <= k < i :: !StartsWith(parts[k], marker)
    ensures FindSection(parts, marker) == i
  {
  }

  /** The loop of `replace_section`: the first section under the heading is overwritten in the list of sections. */
  method ReplaceInPlace(body: string, heading: string, content: string) returns (r: Result<string, SectionError>)
    ensures r == ReplaceSection(body, heading, content)
  {
    var marker, sections := Marker(heading), Split(body);
    for index := 0 to |sections|
      invariant sections == Split(body)
      invariant forall k | 0 <= k < index :: !StartsWith(sections[k], marker)
    {
      if StartsWith(sections[index], marker) {
        FoundFirst(sections, marker, index);
        sections := sections[index := marker + content];
        return Ok(Join(sections));
      }
    }
    r := Err(SectionNotFound(heading));
  }

  /** The loop of `append_to_section`. */
  method AppendInPlace(body: string, heading: string, text: string) returns (r: Result<string, SectionError>)
    ensures r == AppendToSection(body, heading, text)
  {
    var marker, sections := Marker(heading), Split(body);
    for index := 0 to |sections|
      invariant sections == Split(body)
      invariant forall k | 0 <= k < index :: !StartsWith(sections[k], marker)
    {
      if StartsWith(sections[index], marker) {
        FoundFirst(sections, marker, index);
        sections := sections[index := sections[index] + "\n" + text];
        return Ok(Join(sections));
      }
    }
    r := Err(SectionNotFound(heading));
  }

  // ---- When an edit leaves every other section byte-stable ----

  /** A text that can stand as a section: no blank line inside, and no newline at its end unless it is the last. */
  predicate Fits(text: string, isLast: bool) {
    !HasSeparator(text) && (isLast || !EndsInNewline(text))
  }

  predicate IsLastSection(body: string, heading: string) {
    FindSection(Split(body), Marker(heading)) == |Split(body)| - 1
  }

  /** The edited body splits into the same sections with the one changed exactly when the new text fits. */
  lemma EditExact(body: string, heading: string, text: string)
    requires HasSection(body, heading)
    ensures var i := FindSection(Split(body), Marker(heading));
      Split(WithSection(body, heading, text)) == Split(body)[i := text] <==> Fits(text, IsLastSection(body, heading))
  {
    var parts := Split(body);
    var i := FindSection(parts, Marker(heading));
    var edited := parts[i := text];
    SplitIsSplittable(body);
    SplitOfJoinExact(edited);
    if Fits(text, IsLastSection(body, heading)) {
      assert Splittable(edited);
    } else {
      assert edited[i] == text;
    }
  }

  lemma MarkerAt(section: string, h: string, k: nat)
    requires StartsWith(section, Marker(h)) && k <= |h|
    ensures 3 + k < |section| && section[3 + k] == if k < |h| then h[k] else '\n'
  {
    assert section[3 + k] == section[..|Marker(h)|][3 + k];
  }

  lemma HeadingNotShorter(section: string, h: string, g: string)
    requires '\n' !in g
    requires StartsWith(section, Marker(h)) && StartsWith(section, Marker(g))
    ensures |h| >= |g|
  {
    if |h| < |g| {
      MarkerAt(section, h, |h|);
      MarkerAt(section, g, |h|);
    }
  }

  /** Two headings without newlines can never both mark the same section. */
  lemma MarkersExclude(section: string, h: string, g: string)
    requires '\n' !in h && '\n' !in g
    requires StartsWith(section, Marker(h)) && StartsWith(section, Marker(g))
    ensures h == g
  {
    HeadingNotShorter(section, h, g);
    HeadingNotShorter(section, g, h);
    forall k | 0 <= k < |h| ensures h[k] == g[k] {
      MarkerAt(section, h, k);
      MarkerAt(section, g, k);
    }
  }

  lemma SplittableBehind(parts: seq<string>, k: nat)
    requires Splittable(parts) && k <= |parts|
    ensures parts[k..] == [] || Splittable(parts[k..])
  {
    var rest := parts[k..];
    forall i | 0 <= i < |rest| ensures !HasSeparator(rest[i]) && (i < |rest| - 1 ==> !EndsInNewline(rest[i])) {
      assert rest[i] == parts[k + i];
    }
  }

  /** How a body splits once one of its sections is overwritten with any text. */
  lemma EditedSplit(parts: seq<string>, i: nat, text: string)
    requires Splittable(parts) && i < |parts|
    ensures var rest := parts[i + 1..];
      var tail := if rest == [] then text else text + BLANK_LINE + Join(rest);
      Split(Join(parts[i := text])) == parts[..i] + Split(tail)
  {
    var front, rest := parts[..i], parts[i + 1..];
    assert parts[i := text] == front + [text] + rest;
    if rest != [] {
      JoinTail(front, text, rest);
      SplitOfFront(front, text + BLANK_LINE + Join(rest));
    } else {
      assert front + [text] + rest == front + [text];
      SplitOfFront(front, text);
    }
  }

  lemma {:induction false} ExcludingConcat(a: seq<string>, b: seq<string>, marker: string)
    ensures Excluding(a + b, marker) == Excluding(a, marker) + Excluding(b, marker)
  {
    if a == [] {
      assert a + b == b;
    } else {
      assert (a + b)[1..] == a[1..] + b;
      ExcludingConcat(a[1..], b, marker);
    }
  }

  /** Every piece of the text, once split, stands under the marker. */
  predicate AllUnder(text: string, marker: string) {
    forall k | 0 <= k < |Split(text)| :: StartsWith(Split(text)[k], marker)
  }

  lemma {:induction false} NothingKept(parts: seq<string>, marker: string)
    ensures Excluding(parts, marker) == [] <==> forall k | 0 <= k < |parts| :: StartsWith(parts[k], marker)
  {
    if parts != [] {
      NothingKept(parts[1..], marker);
      assert forall k | 1 <= k < |parts| :: parts[k] == parts[1..][k - 1];
    }
  }

  lemma ExcludingFirst(part: string, rest: seq<string>, marker: string)
    ensures Excluding([part] + rest, marker) == (if StartsWith(part, marker) then [] else [part]) + Excluding(rest, marker)
  {
    assert ([part] + rest)[1..] == rest;
  }

  /** A different list that is no shorter. */
  predicate Outgrows(a: seq<string>, b: seq<string>) {
    |a| >= |b| && a != b
  }

  /** A text that begins with a newline is under no heading. */
  lemma NewlineUnmarks(text: string, h: string)
    ensures !StartsWith("\n" + text, Marker(h))
  {
    var s := "\n" + text;
    assert s[0] != Marker(h)[0];
    assert |Marker(h)| <= |s| ==> s[..|Marker(h)|][0] == s[0];
  }

  lemma NewlineAtStart(r: string, h: string)
    requires !StartsWithNewline(r)
    ensures Outgrows(Excluding(Split("\n" + r), Marker(h)), Excluding(Split(r), Marker(h)))
    ensures Split(r) != [] && Excluding(Split("\n" + r), Marker(h)) == ["\n" + Split(r)[0]] + Excluding(Split(r)[1..], Marker(h))
  {
    var first, rest := Split(r)[0], Split(r)[1..];
    SplitAfterNewline(r);
    NewlineUnmarks(first, h);
    ExcludingFirst("\n" + first, rest, Marker(h));
    assert Split(r) == [first] + rest;
    ExcludingFirst(first, rest, Marker(h));
    var kept, dropped := Excluding(rest, Marker(h)), StartsWith(first, Marker(h));
    assert Excluding(Split("\n" + r), Marker(h)) == ["\n" + first] + kept;
    assert Excluding(Split(r), Marker(h)) == (if dropped then [] else [first]) + kept;
    NewlineShows(first, kept, dropped);
  }

  lemma NewlineShows(first: string, kept: seq<string>, dropped: bool)
    ensures Outgrows(["\n" + first] + kept, (if dropped then [] else [first]) + kept)
  {
    var with, without := ["\n" + first] + kept, (if dropped then [] else [first]) + kept;
    assert |with[0]| != |first|;
    assert !dropped ==> without[0] == first;
  }

  lemma NewlineBeforeNewline(r: string, h: string)
    requires !StartsWithNewline(r)
    ensures Outgrows(Excluding(Split("\n" + ("\n" + r)), Marker(h)), Excluding(Split("\n" + r), Marker(h)))
  {
    assert ("\n" + r)[1..] == r;
    SplitAfterNewline("\n" + r);
    ExcludingFirst("", Split(r), Marker(h));
    NewlineAtStart(r, h);
    ExcludingFirst(Split(r)[0], Split(r)[1..], Marker(h));
    assert Split(r) == [Split(r)[0]] + Split(r)[1..];
    var with, without := Excluding(Split("\n" + ("\n" + r)), Marker(h)), Excluding(Split("\n" + r), Marker(h));
    assert with[0] != without[0];
  }

  /** A blank line in front of a text adds an empty part, with or without a newline before the text. */
  lemma BlankInFront(r: string, h: string)
    ensures Excluding(Split("\n" + ("\n" + r)), Marker(h)) == [""] + Excluding(Split(r), Marker(h))
  {
    assert ("\n" + r)[1..] == r;
    SplitAfterNewline("\n" + r);
    ExcludingFirst("", Split(r), Marker(h));
  }

  /** A newline put in front of a text changes what is kept of it, and never makes it shorter. */
  lemma {:induction false} NewlineInFront(r: string, h: string)
    ensures Outgrows(Excluding(Split("\n" + r), Marker(h)), Excluding(Split(r), Marker(h)))
    decreases |r|
  {
    if !StartsWithNewline(r) {
      NewlineAtStart(r, h);
    } else {
      var r1 := r[1..];
      assert r == "\n" + r1;
      if StartsWithNewline(r1) {
        var r2 := r1[1..];
        assert r1 == "\n" + r2;
        BlankInFront(r1, h);
        BlankInFront(r2, h);
        NewlineInFront(r2, h);
        SameBehind([""], Excluding(Split(r1), Marker(h)), Excluding(Split(r2), Marker(h)));
      } else {
        NewlineBeforeNewline(r1, h);
      }
    }
  }

  /** A new section text that stays under its own marker, pieces and all, and does not run into the next section. */
  predicate KeepsToItself(text: string, heading: string, isLast: bool) {
    AllUnder(text, Marker(heading)) && (isLast || !EndsInNewline(text))
  }

  lemma FitsKeepsToItself(text: string, heading: string, isLast: bool)
    requires Fits(text, isLast) && StartsWith(text, Marker(heading))
    ensures KeepsToItself(text, heading, isLast)
  {
    assert FindSeparator(text) == |text|;
  }

  /** What is kept of a replacement and everything behind it: exactly what was kept behind it, if it keeps to itself. */
  lemma TailKept(text: string, rest: seq<string>, heading: string)
    requires rest == [] || Splittable(rest)
    ensures var tail := if rest == [] then text else text + BLANK_LINE + Join(rest);
      Excluding(Split(tail), Marker(heading)) == Excluding(rest, Marker(heading))
      <==> KeepsToItself(text, heading, rest == [])
  {
    var m := Marker(heading);
    NothingKept(Split(text), m);
    if rest != [] {
      SplitOfJoin(rest);
      if EndsInNewline(text) {
        var front, shifted := NewlineRunsOn(text, Join(rest));
        if shifted {
          ExcludingConcat(front, Split("\n" + Join(rest)), m);
          NewlineInFront(Join(rest), heading);
        } else {
          ExcludingConcat(front + [""], rest, m);
          ExcludingConcat(front, [""], m);
        }
      } else {
        SplitConcat(text, Join(rest));
        ExcludingConcat(Split(text), rest, m);
      }
    }
  }

  /**
   * Replacing a section leaves the texts of all sections under other headings exactly as they were
   * if and only if the new section keeps to itself: all its pieces stand under its own heading,
   * and it does not end in a newline with another section behind it.
   */
  lemma ReplaceFrames(body: string, heading: string, content: string)
    requires HasSection(body, heading)
    ensures SectionTexts(ReplaceSection(body, heading, content).value, Some(heading)) == SectionTexts(body, Some(heading))
      <==> KeepsToItself(Replaced(heading, content), heading, IsLastSection(body, heading))
  {
    var m, text, parts := Marker(heading), Replaced(heading, content), Split(body);
    var i := FindSection(parts, m);
    var front, rest := parts[..i], parts[i + 1..];
    SplitIsSplittable(body);
    EditedSplit(parts, i, text);
    var tail := if rest == [] then text else text + BLANK_LINE + Join(rest);
    ExcludingConcat(front, Split(tail), m);
    ExcludingAround(parts, i, m);
    SplittableBehind(parts, i + 1);
    TailKept(text, rest, heading);
    SameBehind(Excluding(front, m), Excluding(Split(tail), m), Excluding(rest, m));
  }

  lemma ExcludingAround(parts: seq<string>, i: nat, marker: string)
    requires i < |parts| && StartsWith(parts[i], marker)
    ensures Excluding(parts, marker) == Excluding(parts[..i], marker) + Excluding(parts[i + 1..], marker)
  {
    assert parts == parts[..i] + ([parts[i]] + parts[i + 1..]);
    ExcludingConcat(parts[..i], [parts[i]] + parts[i + 1..], marker);
    ExcludingFirst(parts[i], parts[i + 1..], marker);
  }

  /** A body of two sections whose contents are one line each. */
  lemma {:induction false} TwoSections(h: string, x: string, g: string, y: string)
    requires h != g && '\n' !in h && '\n' !in g && x != "" && '\n' !in x && y != "" && '\n' !in y
    ensures var body := Replaced(h, x) + BLANK_LINE + Replaced(g, y);
      && Split(body) == [Replaced(h, x), Replaced(g, y)]
      && FindSection(Split(body), Marker(h)) == 0
      && FindSection(Split(body), Marker(g)) == 1
  {
    var a, b := Replaced(h, x), Replaced(g, y);
    SectionSeparators(h, x);
    SectionSeparators(g, y);
    SplitConcat(a, b);
    assert FindSeparator(a) == |a| && FindSeparator(b) == |b|;
    assert Split(a) == [a] && Split(b) == [b];
    assert [a] + [b] == [a, b];
    if StartsWith(a, Marker(g)) { MarkersExclude(a, h, g); }
    FoundFirst([a, b], Marker(h), 0);
    FoundFirst([a, b], Marker(g), 1);
  }

  /** One replacement that does not keep to itself: the content for A brings along a section B. */
  lemma {:induction false} ReplaceFramesExample()
    ensures var body := "## A\na\n\n## B\nb";
      var replaced := ReplaceSection(body, "A", "c\n\n## B\nd");
      replaced.Ok? && SectionTexts(replaced.value, Some("A")) != SectionTexts(body, Some("A"))
  {
    ExampleBody();
    var body := Replaced("A", "a") + BLANK_LINE + Replaced("B", "b");
    TwoSections("A", "a", "B", "b");
    BringsAlong("A", "c", "B", "d");
    ReplaceFrames(body, "A", "c" + BLANK_LINE + Replaced("B", "d"));
  }

  lemma ExampleBody()
    ensures "## A\na\n\n## B\nb" == Replaced("A", "a") + BLANK_LINE + Replaced("B", "b")
    ensures "c\n\n## B\nd" == "c" + BLANK_LINE + Replaced("B", "d")
  {
  }

  /** A content that brings along a section under another heading does not keep to itself. */
  lemma {:induction false} BringsAlong(h: string, x: string, g: string, y: string)
    requires h != g && '\n' !in h && '\n' !in g && x != "" && '\n' !in x && y != "" && '\n' !in y
    ensures !AllUnder(Replaced(h, x + BLANK_LINE + Replaced(g, y)), Marker(h))
  {
    TwoSections(h, x, g, y);
    var text, piece := Replaced(h, x + BLANK_LINE + Replaced(g, y)), Replaced(g, y);
    assert text == Replaced(h, x) + BLANK_LINE + piece;
    if StartsWith(piece, Marker(h)) { MarkersExclude(piece, h, g); }
    assert Split(text)[1] == piece;
  }

  lemma SameBehind<T>(front: seq<T>, a: seq<T>, b: seq<T>)
    ensures front + a == front + b <==> a == b
  {
    if front + a == front + b {
      assert a == (front + a)[|front|..] && b == (front + b)[|front|..];
    }
  }

  /** An edited body contains the new section, and every section it did not edit. */
  lemma EditContains(body: string, heading: string, text: string, k: nat)
    requires HasSection(body, heading) && k < |Split(body)|
    ensures Contains(WithSection(body, heading, text), text)
    ensures k != FindSection(Split(body), Marker(heading)) ==> Contains(WithSection(body, heading, text), Split(body)[k])
  {
    var i := FindSection(Split(body), Marker(heading));
    var edited := Split(body)[i := text];
    JoinContainsPart(edited, i);
    JoinContainsPart(edited, k);
  }

  /** A section of a newline-free heading has a blank line, or a newline at its end, only through its content. */
  lemma SectionSeparators(heading: string, content: string)
    requires '\n' !in heading
    ensures HasSeparator(Replaced(heading, content)) <==> HasSeparator(content) || (content != "" && content[0] == '\n')
    ensures EndsInNewline(Replaced(heading, content)) <==> content == "" || EndsInNewline(content)
  {
    var m, s := Marker(heading), Replaced(heading, content);
    assert forall i | 0 <= i < |s| :: s[i] == if i < |m| then m[i] else content[i - |m|];
    assert m[|m| - 1] == '\n' && forall i | 0 <= i < |m| - 1 :: m[i] != '\n';
    if HasSeparator(content) {
      var i :| 0 <= i < |content| - 1 && SeparatorAt(content, i);
      assert SeparatorAt(s, i + |m|);
    }
    if content != "" && content[0] == '\n' {
      assert SeparatorAt(s, |m| - 1);
    }
    if HasSeparator(s) {
      var i :| 0 <= i < |s| - 1 && SeparatorAt(s, i);
      assert i >= |m| ==> SeparatorAt(content, i - |m|);
    }
  }

  /** The contents a section may have for its body to split back into the sections it was made of. */
  predicate SplitsBack(sections: seq<(string, string)>) {
    && sections != []
    && forall i | 0 <= i < |sections| ::
         var content := sections[i].1;
         && !HasSeparator(content) && (content != "" ==> content[0] != '\n')
         && (i < |sections| - 1 ==> content != "" && !EndsInNewline(content))
  }

  /** A sectioned body splits back into its sections exactly when the contents allow it. */
  lemma SectionedBodySplitsBack(sections: seq<(string, string)>)
    requires forall i | 0 <= i < |sections| :: '\n' !in sections[i].0
    ensures Split(SectionedBody(sections)) == SectionTextsOf(sections) <==> SplitsBack(sections)
  {
    var texts := SectionTextsOf(sections);
    forall i | 0 <= i < |sections|
      ensures HasSeparator(texts[i]) <==> HasSeparator(sections[i].1) || (sections[i].1 != "" && sections[i].1[0] == '\n')
      ensures EndsInNewline(texts[i]) <==> sections[i].1 == "" || EndsInNewline(sections[i].1)
    {
      SectionSeparators(sections[i].0, sections[i].1);
    }
    SplitOfJoinExact(texts);
  }

  // ---- Appending a section ----

  lemma AppendedText(body: string, heading: string, content: string)
    ensures AppendSection(body, heading, content) == body + "\n\n" + ("## " + heading + "\n" + content)
  {
    assert AppendSection(body, heading, content) == body + BLANK_LINE + (Marker(heading) + content);
  }

  /** The last part of a body does not end in a newline. */
  predicate CleanEnd(body: string) {
    !EndsInNewline(Split(body)[|Split(body)| - 1])
  }

  /**
   * An appended section stands behind all the others, as one part, if and only if the last of them
   * does not end in a newline and the content brings no separator: no blank line, and no newline in front.
   */
  lemma {:induction false} AppendExact(body: string, heading: string, content: string)
    requires '\n' !in heading
    ensures Split(AppendSection(body, heading, content)) == Split(body) + ["## " + heading + "\n" + content]
      <==> CleanEnd(body) && !HasSeparator(content) && (content != "" ==> content[0] != '\n')
  {
    var parts, text := Split(body), "## " + heading + "\n" + content;
    AppendedText(body, heading, content);
    SectionSeparators(heading, content);
    assert text == Replaced(heading, content);
    JoinConcat(parts, [text]);
    JoinOfSplit(body);
    SplitIsSplittable(body);
    SplitOfJoinExact(parts + [text]);
    assert (parts + [text])[|parts| - 1] == parts[|parts| - 1] && (parts + [text])[|parts|] == text;
  }

  /** A part without separators, and a newline behind it. */
  lemma {:induction false} PartAndNewline(last: string)
    requires !HasSeparator(last)
    ensures if EndsInNewline(last) then Split(last + "\n") == [last[..|last| - 1], ""] else Split(last + "\n") == [last + "\n"]
  {
    var s := last + "\n";
    forall i | 0 <= i < |last| - 1 ensures !SeparatorAt(s, i) {
      assert !SeparatorAt(last, i);
    }
    if EndsInNewline(last) {
      var q := last[..|last| - 1];
      if EndsInNewline(q) { assert SeparatorAt(last, |q| - 1); }
      forall i | 0 <= i < |q| - 1 ensures !SeparatorAt(q, i) {
        assert !SeparatorAt(last, i);
      }
      SplitConcat(q, "");
      assert FindSeparator(q) == |q|;
      assert s == q + BLANK_LINE + "";
    } else {
      assert FindSeparator(s) == |s|;
    }
  }

  /** One newline more at its end turns a clean body into one that is not, and the other way round. */
  lemma {:induction false} NewlineTurnsEnd(body: string)
    ensures CleanEnd(body + "\n") <==> !CleanEnd(body)
  {
    var parts := Split(body);
    var front, last := parts[..|parts| - 1], parts[|parts| - 1];
    SplitIsSplittable(body);
    JoinOfSplit(body);
    assert parts == front + [last];
    PartAndNewline(last);
    SplitOfFront(front, last + "\n");
    JoinLast(front, last, "\n");
  }

  lemma {:induction false} JoinLast(front: seq<string>, last: string, more: string)
    ensures Join(front + [last + more]) == Join(front + [last]) + more
  {
    if front == [] {
      assert front + [last + more] == [last + more] && front + [last] == [last];
    } else {
      JoinConcat(front, [last + more]);
      JoinConcat(front, [last]);
      assert Join(front) + BLANK_LINE + (last + more) == Join(front) + BLANK_LINE + last + more;
    }
  }

  /** A body is clean at its end exactly when the newlines there are even in number. */
  lemma {:induction false} CleanEndIsEven(body: string, newlines: string)
    requires !EndsInNewline(body) && forall i | 0 <= i < |newlines| :: newlines[i] == '\n'
    ensures CleanEnd(body + newlines) <==> |newlines| % 2 == 0
    decreases |newlines|
  {
    if newlines == "" {
      assert body + newlines == body;
      LastPartEnds(body);
    } else {
      var fewer := newlines[..|newlines| - 1];
      CleanEndIsEven(body, fewer);
      NewlineTurnsEnd(body + fewer);
      assert body + fewer + "\n" == body + newlines;
    }
  }

  lemma LastPartEnds(body: string)
    requires !EndsInNewline(body)
    ensures CleanEnd(body)
  {
    JoinOfSplit(body);
    if !CleanEnd(body) {
      JoinEnd(Split(body));
    }
  }

  lemma {:induction false} NewlineBefore(text: string)
    requires text != "" && text[0] != '\n' && !HasSeparator(text)
    ensures !HasSeparator("\n" + text)
  {
    var s := "\n" + text;
    forall i | 0 <= i < |s| - 1 ensures !SeparatorAt(s, i) {
      if i > 0 { assert !SeparatorAt(text, i - 1); }
    }
  }

  lemma NewlinePasses(a: string, b: string)
    ensures a + "\n" + BLANK_LINE + b == a + BLANK_LINE + ("\n" + b)
  {
    assert "\n" + BLANK_LINE == BLANK_LINE + "\n";
    assert a + "\n" + BLANK_LINE + b == a + ("\n" + BLANK_LINE) + b;
    assert a + BLANK_LINE + ("\n" + b) == a + (BLANK_LINE + "\n") + b;
  }

  lemma SplittableMore(front: seq<string>, part: string)
    requires Splittable(front) && !EndsInNewline(front[|front| - 1]) && !HasSeparator(part)
    ensures Splittable(front + [part])
  {
  }

  /** A newline more in front of the separator behind a clean body belongs to what follows. */
  lemma {:induction false} ShiftedPart(shorter: string, text: string)
    requires CleanEnd(shorter) && text != "" && text[0] != '\n' && !HasSeparator(text)
    ensures Split(shorter + "\n" + BLANK_LINE + text) == Split(shorter) + ["\n" + text]
  {
    var front, part := Split(shorter), "\n" + text;
    NewlineBefore(text);
    SplitIsSplittable(shorter);
    SplittableMore(front, part);
    SplitOfJoin(front + [part]);
    JoinConcat(front, [part]);
    JoinOfSplit(shorter);
    NewlinePasses(shorter, text);
  }

  /**
   * What happens otherwise, for a content without separators: the newline moves from the end of the
   * last section to the front of the new one, which is then not under its heading.
   */
  lemma {:induction false} AppendRunsOn(body: string, heading: string, content: string)
    requires '\n' !in heading && !HasSeparator(content) && (content != "" ==> content[0] != '\n')
    requires !CleanEnd(body)
    ensures var text := "## " + heading + "\n" + content;
      && body != "" && body[|body| - 1] == '\n'
      && Split(AppendSection(body, heading, content)) == Split(body[..|body| - 1]) + ["\n" + text]
      && !StartsWith("\n" + text, Marker(heading))
  {
    JoinOfSplit(body);
    JoinEnd(Split(body));
    var shorter, text := body[..|body| - 1], "## " + heading + "\n" + content;
    assert shorter + "\n" == body && text == Replaced(heading, content);
    NewlineTurnsEnd(shorter);
    SectionSeparators(heading, content);
    NewlineUnmarks(text, heading);
    ShiftedPart(shorter, text);
    AppendedText(body, heading, content);
  }

  lemma {:induction false} FindBehind(parts: seq<string>, text: string, marker: string)
    ensures FindSection(parts + [text], marker)
      == if FindSection(parts, marker) < |parts| then FindSection(parts, marker)
         else |parts| + if StartsWith(text, marker) then 0 else 1
  {
    if parts == [] {
      assert parts + [text] == [text];
    } else {
      assert (parts + [text])[1..] == parts[1..] + [text];
      FindBehind(parts[1..], text, marker);
    }
  }

  /**
   * What that means for the sections: the texts are the old ones and the new one behind them; a new
   * heading is found there; every other heading is found where it was, with the text it had; and
   * the sections not under the heading stay as they were.
   */
  lemma {:induction false} AppendFrames(body: string, heading: string, content: string, other: string)
    requires '\n' !in heading && '\n' !in other
    requires CleanEnd(body) && !HasSeparator(content) && (content != "" ==> content[0] != '\n')
    ensures var appended, text := AppendSection(body, heading, content), "## " + heading + "\n" + content;
      && SectionTexts(appended, None) == SectionTexts(body, None) + [text]
      && SectionTexts(appended, Some(heading)) == SectionTexts(body, Some(heading))
      && HasSection(appended, heading)
      && (!HasSection(body, heading) ==>
            FindSection(Split(appended), Marker(heading)) == |Split(body)| && SectionOf(appended, heading) == text)
      && (other != heading || HasSection(body, heading) ==>
            && (HasSection(appended, other) <==> HasSection(body, other))
            && (HasSection(body, other) ==> SectionOf(appended, other) == SectionOf(body, other)))
  {
    var text := "## " + heading + "\n" + content;
    AppendExact(body, heading, content);
    FindBehind(Split(body), text, Marker(heading));
    FindBehind(Split(body), text, Marker(other));
    assert text == Replaced(heading, content) && StartsWith(text, Marker(heading));
    if StartsWith(text, Marker(other)) { MarkersExclude(text, heading, other); }
    ExcludingConcat(Split(body), [text], Marker(heading));
    ExcludingFirst(text, [], Marker(heading));
    assert [text] + [] == [text];
  }

  /** Appending a section to a sectioned body makes the sectioned body of one section more. */
  lemma {:induction false} AppendIsOneMore(sections: seq<(string, string)>, heading: string, content: string)
    requires sections != []
    ensures AppendSection(SectionedBody(sections), heading, content) == SectionedBody(sections + [(heading, content)])
  {
    var texts, text := SectionTextsOf(sections), Marker(heading) + content;
    assert SectionTextsOf(sections + [(heading, content)]) == texts + [text];
    JoinConcat(texts, [text]);
    assert SectionedBody(sections) + BLANK_LINE + text == AppendSection(SectionedBody(sections), heading, content);
  }
}
