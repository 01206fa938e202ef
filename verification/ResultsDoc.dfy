/** The shared results document: several writers, each replacing only the text between its
    own pair of marker comments. */
module ResultsDoc {
  import opened Versions

  // ----- Text

  /** The characters Python's `str.strip` removes. */
  predicate IsSpace(c: char) {
    || '\U{9}' <= c <= '\U{D}' || '\U{1C}' <= c <= ' ' || c == '\U{85}' || c == '\U{A0}' || c == '\U{1680}'
    || '\U{2000}' <= c <= '\U{200A}' || c == '\U{2028}' || c == '\U{2029}' || c == '\U{202F}'
    || c == '\U{205F}' || c == '\U{3000}'
  }

  /** One by one: tab to carriage return, the four separators and the blank, next line,
      no-break space, and the spaces and separators of other scripts. */
  lemma SpacesAre(c: char)
    ensures IsSpace(c) <==>
              c as int in {9, 10, 11, 12, 13, 28, 29, 30, 31, 32, 133, 160, 5760,
                           8192, 8193, 8194, 8195, 8196, 8197, 8198, 8199, 8200, 8201, 8202,
                           8232, 8233, 8239, 8287, 12288}
  {
  }

  function LStrip(s: string): string {
    if s != "" && IsSpace(s[0]) then LStrip(s[1..]) else s
  }

  function RStrip(s: string): string {
    if s != "" && IsSpace(s[|s| - 1]) then RStrip(s[..|s| - 1]) else s
  }

  function Strip(s: string): string {
    RStrip(LStrip(s))
  }

  /** `t` is `s` without the space around it: a stretch of `s`, all before and after it
      space, and neither of its own ends. */
  ghost predicate Stripped(s: string, t: string) {
    exists i, j :: StrippedAt(s, t, i, j)
  }

  ghost predicate StrippedAt(s: string, t: string, i: int, j: int) {
    && 0 <= i <= j <= |s| && t == s[i..j]
    && (forall k | 0 <= k < i || j <= k < |s| :: IsSpace(s[k]))
    && (t != "" ==> !IsSpace(t[0]) && !IsSpace(t[|t| - 1]))
  }

  lemma {:induction false} RStripAt(s: string) returns (j: int)
    ensures 0 <= j <= |s| && RStrip(s) == s[..j] && forall k | j <= k < |s| :: IsSpace(s[k])
    ensures j > 0 ==> !IsSpace(s[j - 1])
    decreases |s|
  {
    if s != "" && IsSpace(s[|s| - 1]) {
      j := RStripAt(s[..|s| - 1]);
    } else {
      j := |s|;
    }
  }

  lemma {:induction false} LStripAt(s: string) returns (i: int)
    ensures 0 <= i <= |s| && LStrip(s) == s[i..] && forall k | 0 <= k < i :: IsSpace(s[k])
    ensures i < |s| ==> !IsSpace(s[i])
    decreases |s|
  {
    if s != "" && IsSpace(s[0]) {
      i := LStripAt(s[1..]);
      i := i + 1;
      assert forall k | 1 <= k < i :: s[k] == s[1..][k - 1];
    } else {
      i := 0;
    }
  }

  /** Stripping takes off the space around the content and nothing else; there is only one
      such result. */
  lemma StripIs(s: string, t: string)
    ensures Stripped(s, t) <==> t == Strip(s)
  {
    var i := LStripAt(s);
    var l := LStrip(s);
    var j := RStripAt(l);
    assert l[..j] == s[i..i + j];
    forall k | 0 <= k < i || i + j <= k < |s| ensures IsSpace(s[k]) {
      if k >= i { assert s[k] == l[k - i]; }
    }
    assert StrippedAt(s, Strip(s), i, i + j);
    if i2, j2 :| StrippedAt(s, t, i2, j2) {
      StrippedOnce(s, t, i2, j2, Strip(s), i, i + j);
    }
  }

  lemma StrippedOnce(s: string, t: string, i: int, j: int, t2: string, i2: int, j2: int)
    requires StrippedAt(s, t, i, j) && StrippedAt(s, t2, i2, j2)
    ensures t == t2
  {
    if t != "" { EndsOfStripped(s, t, i, j); }
    if t2 != "" { EndsOfStripped(s, t2, i2, j2); }
  }

  lemma EndsOfStripped(s: string, t: string, i: int, j: int)
    requires StrippedAt(s, t, i, j) && t != ""
    ensures i < j && !IsSpace(s[i]) && !IsSpace(s[j - 1])
  {
    assert t[0] == s[i] && t[|t| - 1] == s[j - 1];
  }

  function RStripNewlines(s: string): (r: string)
    ensures r <= s && forall i | |r| <= i < |s| :: s[i] == '\n'
    ensures r == "" || r[|r| - 1] != '\n'
  {
    if s != "" && s[|s| - 1] == '\n' then RStripNewlines(s[..|s| - 1]) else s
  }

  predicate OccursAt(text: string, p: string, i: int) {
    0 <= i && i + |p| <= |text| && text[i..i + |p|] == p
  }

  /** The first occurrence, or -1. */
  function Find(text: string, p: string): (r: int)
    ensures r == -1 || OccursAt(text, p, r)
    ensures forall i | 0 <= i && (r == -1 || i < r) :: !OccursAt(text, p, i)
  {
    FindFrom(text, p, 0)
  }

  function FindFrom(text: string, p: string, start: nat): (r: int)
    ensures r == -1 || (r >= start && OccursAt(text, p, r))
    ensures forall i | start <= i && (r == -1 || i < r) :: !OccursAt(text, p, i)
    decreases |text| - start
  {
    if start + |p| > |text| then -1
    else if OccursAt(text, p, start) then start
    else if start == |text| then -1
    else FindFrom(text, p, start + 1)
  }

  // ----- The update

  function Begin(m: string): string {
    "<!-- BEGIN:" + m + " -->"
  }

  function End(m: string): string {
    "<!-- END:" + m + " -->"
  }

  /** `file` is absent when there is no such file yet. */
  function ReplaceSection(file: Option<string>, m: string, content: string): string {
    var text := if file.Some? then file.value else "";
    Replace(text, Begin(m), End(m), content)
  }

  function SectionOf(b: string, e: string, content: string): string {
    b + Written(content) + e
  }

  function Written(content: string): string {
    "\n" + Strip(content) + "\n"
  }

  /** Both markers are there, in order. */
  predicate HasSection(text: string, b: string, e: string) {
    Find(text, b) != -1 && Find(text, e) != -1 && Find(text, b) < Find(text, e)
  }

  /** The new text, for the section between the markers `b` and `e`. */
  function Replace(text: string, b: string, e: string, content: string): string {
    if HasSection(text, b, e) then
      text[..Find(text, b)] + SectionOf(b, e, content) + text[Find(text, e) + |e|..]
    else if Strip(text) != "" then
      RStripNewlines(text) + "\n\n" + SectionOf(b, e, content) + "\n"
    else
      SectionOf(b, e, content) + "\n"
  }

  /** What a reader finds between the markers. */
  function Body(text: string, b: string, e: string): Option<string> {
    var startIdx, endIdx := Find(text, b), Find(text, e);
    if startIdx != -1 && endIdx != -1 && startIdx + |b| <= endIdx then Some(text[startIdx + |b|..endIdx])
    else None
  }

  // ----- Markers in text

  predicate ValidName(m: string) {
    '<' !in m && '>' !in m && '\n' !in m
  }

  /** A marker opens with its only '<', closes with its only '>' and stays on its line. */
  ghost predicate Marker(p: string) {
    && |p| >= 2 && p[0] == '<' && p[|p| - 1] == '>'
    && (forall i | 0 < i < |p| :: p[i] != '<')
    && (forall i | 0 <= i < |p| - 1 :: p[i] != '>')
    && (forall i | 0 <= i < |p| :: p[i] != '\n')
  }

  lemma MarkersOf(m: string)
    requires ValidName(m)
    ensures Marker(Begin(m)) && Marker(End(m))
  {
    MarkerShape("<!-- BEGIN:", m);
    MarkerShape("<!-- END:", m);
  }

  lemma MarkerShape(head: string, m: string)
    requires ValidName(m) && |head| >= 1 && head[0] == '<'
    requires forall i | 0 < i < |head| :: head[i] != '<'
    requires forall i | 0 <= i < |head| :: head[i] != '>' && head[i] != '\n'
    ensures Marker(head + m + " -->")
  {
    var p := head + m + " -->";
    forall i | |head| <= i < |head| + |m| ensures p[i] != '<' && p[i] != '>' && p[i] != '\n' {
      assert p[i] == m[i - |head|];
      assert m[i - |head|] in m;
    }
  }

  /** No marker can straddle the joint between `x` and `y`. */
  predicate Joint(x: string, y: string) {
    x == "" || y == "" || y[0] == '<' || y[0] == '\n' || x[|x| - 1] == '>' || x[|x| - 1] == '\n'
  }

  lemma StraddleChars(x: string, y: string, p: string, i: int)
    requires OccursAt(x + y, p, i) && i < |x| < i + |p|
    ensures p[|x| - i] == y[0] && p[|x| - 1 - i] == x[|x| - 1]
  {
    var all := x + y;
    assert all[i..i + |p|][|x| - i] == all[|x|];
    assert all[i..i + |p|][|x| - 1 - i] == all[|x| - 1];
  }

  lemma SliceLeft(x: string, y: string, i: int, j: int)
    ensures 0 <= i <= j <= |x| ==> (x + y)[i..j] == x[i..j]
  {
    if 0 <= i <= j <= |x| {
      forall k | 0 <= k < j - i ensures (x + y)[i..j][k] == x[i..j][k] {
      }
    }
  }

  lemma SliceRight(x: string, y: string, i: int, j: int)
    ensures 0 <= i <= j <= |y| ==> (x + y)[|x| + i..|x| + j] == y[i..j]
  {
    if 0 <= i <= j <= |y| {
      forall k | 0 <= k < j - i ensures (x + y)[|x| + i..|x| + j][k] == y[i..j][k] {
      }
    }
  }

  lemma OccursInOne(x: string, y: string, p: string, i: int)
    requires Marker(p) && Joint(x, y) && OccursAt(x + y, p, i)
    ensures OccursAt(x, p, i) || (i >= |x| && OccursAt(y, p, i - |x|))
  {
    if i + |p| <= |x| {
      SliceLeft(x, y, i, i + |p|);
    } else if i >= |x| {
      SliceRight(x, y, i - |x|, i - |x| + |p|);
    } else {
      StraddleChars(x, y, p, i);
    }
  }

  lemma OccursInLeft(x: string, y: string, p: string, i: int)
    requires OccursAt(x, p, i)
    ensures OccursAt(x + y, p, i)
  {
    SliceLeft(x, y, i, i + |p|);
  }

  lemma OccursInRight(x: string, y: string, p: string, i: int)
    requires OccursAt(y, p, i)
    ensures OccursAt(x + y, p, |x| + i)
  {
    SliceRight(x, y, i, i + |p|);
  }

  /** Searching a concatenation that no marker straddles. */
  lemma FindInTwo(x: string, y: string, p: string)
    requires Marker(p) && Joint(x, y)
    ensures Find(x + y, p) == if Find(x, p) != -1 then Find(x, p) else if Find(y, p) != -1 then |x| + Find(y, p) else -1
  {
    var r := Find(x + y, p);
    if r != -1 {
      OccursInOne(x, y, p, r);
    }
    if Find(x, p) != -1 {
      OccursInLeft(x, y, p, Find(x, p));
    } else if Find(y, p) != -1 {
      OccursInRight(x, y, p, Find(y, p));
    }
  }

  lemma FreeLeft(x: string, y: string, p: string)
    requires Find(x + y, p) == -1 || |x| < Find(x + y, p) + |p|
    ensures Find(x, p) == -1
  {
    var r := Find(x, p);
    if r != -1 {
      OccursInLeft(x, y, p, r);
    }
  }

  lemma FreePrefix(text: string, p: string, n: nat)
    requires n <= |text| && (Find(text, p) == -1 || n < Find(text, p) + |p|)
    ensures Find(text[..n], p) == -1
  {
    assert text[..n] + text[n..] == text;
    FreeLeft(text[..n], text[n..], p);
  }

  lemma PrefixChar(p: string, q: string, text: string, i: int)
    requires OccursAt(text, p, i) && OccursAt(text, q, i) && 0 < |p| < |q|
    ensures q[|p| - 1] == p[|p| - 1]
  {
    assert text[i..i + |q|][|p| - 1] == text[i..i + |p|][|p| - 1];
  }

  /** Different markers never start at the same place. */
  lemma MarkersDiffer(p: string, q: string, text: string, i: int)
    requires Marker(p) && Marker(q) && OccursAt(text, p, i) && OccursAt(text, q, i)
    ensures p == q
  {
    if |p| < |q| {
      PrefixChar(p, q, text, i);
    } else if |q| < |p| {
      PrefixChar(q, p, text, i);
    }
  }

  lemma HeadOfOccurrence(text: string, p: string)
    requires |p| > 0
    ensures forall i | OccursAt(text, p, i) :: 0 <= i < |text| && text[i] == p[0]
  {
    forall i | OccursAt(text, p, i) ensures 0 <= i < |text| && text[i] == p[0] {
      assert text[i] == text[i..i + |p|][0];
    }
  }

  lemma MarkerHoldsNoOther(p: string, q: string)
    requires Marker(p) && Marker(q) && p != q
    ensures Find(p, q) == -1
  {
    HeadOfOccurrence(p, q);
    assert p[0..|p|] == p;
    if OccursAt(p, q, 0) {
      MarkersDiffer(p, q, p, 0);
    }
  }

  lemma MarkerFoundAtHead(p: string, rest: string)
    requires Marker(p)
    ensures Find(p + rest, p) == 0
  {
    assert (p + rest)[0..|p|] == p;
    assert OccursAt(p + rest, p, 0);
  }

  lemma BeginIsNotEnd(m: string, n: string)
    ensures Begin(m) != End(n)
    ensures Begin(m) == Begin(n) ==> m == n
    ensures End(m) == End(n) ==> m == n
  {
    assert Begin(m)[5] == 'B' && End(n)[5] == 'E';
    if Begin(m) == Begin(n) {
      assert |m| == |n|;
      assert Begin(m)[11..11 + |m|] == m && Begin(n)[11..11 + |n|] == n;
    }
    if End(m) == End(n) {
      assert |m| == |n|;
      assert End(m)[9..9 + |m|] == m && End(n)[9..9 + |n|] == n;
    }
  }

  /** The two markers of one section. */
  ghost predicate Markers(b: string, e: string) {
    Marker(b) && Marker(e) && b != e
  }

  lemma NamesGiveMarkers(m: string)
    requires ValidName(m)
    ensures Markers(Begin(m), End(m))
  {
    MarkersOf(m);
    BeginIsNotEnd(m, m);
  }

  ghost predicate FreeOf(text: string, b: string, e: string) {
    Find(text, b) == -1 && Find(text, e) == -1
  }

  lemma FreeOfTwo(x: string, y: string, b: string, e: string)
    requires Markers(b, e) && Joint(x, y) && FreeOf(x, b, e) && FreeOf(y, b, e)
    ensures FreeOf(x + y, b, e)
  {
    FindInTwo(x, y, b);
    FindInTwo(x, y, e);
  }

  /** How far `raw` goes before the end marker `e` in it, or all the way. */
  function UpTo(raw: string, e: string): nat {
    if Find(raw, e) != -1 then Find(raw, e) else |raw|
  }

  /** Where the markers are in a text made of a part without them, the section, and anything:
      an end marker inside the section ends it early, a begin marker there does not matter. */
  lemma SectionFound(pre: string, b: string, raw: string, e: string, post: string)
    requires Markers(b, e) && FreeOf(pre, b, e)
    ensures var text := pre + (b + raw + e) + post;
            Find(text, b) == |pre| && Find(text, e) == |pre| + |b| + UpTo(raw, e)
  {
    var text := pre + (b + raw + e) + post;
    var rest := raw + (e + post);
    assert text == pre + (b + rest);
    FindInTwo(pre, b + rest, b);
    MarkerFoundAtHead(b, rest);
    FindInTwo(pre, b + rest, e);
    FindInTwo(b, rest, e);
    MarkerHoldsNoOther(b, e);
    FindInTwo(raw, e + post, e);
    MarkerFoundAtHead(e, post);
  }

  lemma SectionRead(pre: string, b: string, raw: string, e: string, post: string) returns (text: string)
    requires Markers(b, e) && FreeOf(pre, b, e) && Find(raw, e) == -1
    ensures text == pre + (b + raw + e) + post
    ensures HasSection(text, b, e) && Body(text, b, e) == Some(raw)
    ensures Before(text, b, e) == pre && After(text, b, e) == post
  {
    SectionFound(pre, b, raw, e, post);
    text := Slices(pre, b, raw, e, post);
    ReadAt(text, b, e, |pre|, |pre| + |b| + |raw|);
  }

  /** With an end marker in the section, part of it is left over behind what is read. */
  lemma SectionCut(pre: string, b: string, raw: string, e: string, post: string) returns (text: string)
    requires Markers(b, e) && FreeOf(pre, b, e) && Find(raw, e) != -1
    ensures text == pre + (b + raw + e) + post
    ensures HasSection(text, b, e) && Before(text, b, e) == pre && |After(text, b, e)| > |post|
  {
    SectionFound(pre, b, raw, e, post);
    text := Slices(pre, b, raw, e, post);
    ReadAt(text, b, e, |pre|, |pre| + |b| + Find(raw, e));
  }

  lemma Slices(pre: string, b: string, raw: string, e: string, post: string) returns (text: string)
    ensures text == pre + (b + raw + e) + post && |pre| + |b| + |raw| + |e| <= |text|
    ensures text[..|pre|] == pre && text[|pre| + |b|..|pre| + |b| + |raw|] == raw
    ensures text[|pre| + |b| + |raw| + |e|..] == post
  {
    text := pre + (b + raw + e) + post;
    assert text == pre + (b + (raw + (e + post)));
  }

  lemma ReadAt(text: string, b: string, e: string, at: nat, to: nat)
    requires Find(text, b) == at && Find(text, e) == to && b != "" && at + |b| <= to
    ensures HasSection(text, b, e) && Body(text, b, e) == Some(text[at + |b|..to])
    ensures Before(text, b, e) == text[..at] && After(text, b, e) == text[to + |e|..]
  {
  }

  // ----- Read-back and last write wins, on every text

  /** Either marker is missing along with the other, or they come in order. */
  ghost predicate Clean(text: string, b: string, e: string) {
    FreeOf(text, b, e) || HasSection(text, b, e)
  }

  /** What an update leaves in front of and behind the section it writes. */
  function Before(text: string, b: string, e: string): string {
    if HasSection(text, b, e) then text[..Find(text, b)]
    else if Strip(text) != "" then Appendable(text)
    else ""
  }

  function Appendable(text: string): string {
    RStripNewlines(text) + "\n\n"
  }

  function After(text: string, b: string, e: string): string {
    if HasSection(text, b, e) then text[Find(text, e) + |e|..] else "\n"
  }

  /** Behind the text, without its trailing newlines, and a blank line. */
  ghost predicate AppendedTo(text: string, section: string, text': string) {
    exists kept, n: nat :: text == kept + Newlines(n) && (kept == "" || kept[|kept| - 1] != '\n')
                           && text' == kept + "\n\n" + section + "\n"
  }

  /** The three ways an update goes, for content that strips to `t`: in the markers' place,
      behind the text, or alone when there is nothing but space. */
  lemma ReplaceIs(text: string, m: string, content: string, t: string)
    requires Stripped(content, t)
    ensures var b, e := "<!-- BEGIN:" + m + " -->", "<!-- END:" + m + " -->";
            var section := b + "\n" + t + "\n" + e;
            var text' := Replace(text, Begin(m), End(m), content);
            if HasSection(text, b, e) then
              text' == text[..Find(text, b)] + section + text[Find(text, e) + |e|..]
            else if exists k :: 0 <= k < |text| && !IsSpace(text[k]) then AppendedTo(text, section, text')
            else text' == section + "\n"
  {
    var b, e := Begin(m), End(m);
    var section := SectionIs(b, e, content, t);
    if HasSection(text, b, e) {
    } else if k :| 0 <= k < |text| && !IsSpace(text[k]) {
      StripKeeps(text, k);
      AppendIs(text, section);
    } else {
      BlankStrips(text);
    }
  }

  lemma SectionIs(b: string, e: string, content: string, t: string) returns (section: string)
    requires Stripped(content, t)
    ensures section == SectionOf(b, e, content) == b + "\n" + t + "\n" + e
  {
    StripIs(content, t);
    section := SectionOf(b, e, content);
    Concat4(b, t, e);
  }

  lemma AppendIs(text: string, section: string)
    ensures AppendedTo(text, section, RStripNewlines(text) + "\n\n" + section + "\n")
  {
    var kept := RStripNewlines(text);
    NewlineTail(text[|kept|..]);
    assert text == kept + text[|kept|..];
  }

  function Newlines(n: nat): string {
    seq(n, i => '\n')
  }

  lemma NewlineTail(s: string)
    requires forall i | 0 <= i < |s| :: s[i] == '\n'
    ensures s == Newlines(|s|)
  {
  }

  lemma Concat4(b: string, t: string, e: string)
    ensures b + ("\n" + t + "\n") + e == b + "\n" + t + "\n" + e
  {
  }

  lemma BlankStrips(s: string)
    requires forall k | 0 <= k < |s| :: IsSpace(s[k])
    ensures Strip(s) == ""
  {
    StripIs(s, "");
    assert StrippedAt(s, "", |s|, |s|);
  }

  lemma ReplaceIsSplice(text: string, b: string, e: string, content: string)
    ensures Replace(text, b, e, content) == Before(text, b, e) + SectionOf(b, e, content) + After(text, b, e)
  {
  }

  lemma WrittenEnd(content: string, e: string)
    requires Marker(e)
    ensures Find(Written(content), e) == -1 <==> Find(Strip(content), e) == -1
  {
    AllNewlinesFree("\n", e);
    FindInTwo("\n", Strip(content), e);
    FindInTwo("\n" + Strip(content), "\n", e);
  }

  lemma WrittenFree(content: string, b: string, e: string)
    requires Markers(b, e) && FreeOf(Strip(content), b, e)
    ensures FreeOf(Written(content), b, e)
  {
    var body := Strip(content);
    AllNewlinesFree("\n", b);
    AllNewlinesFree("\n", e);
    FreeOfTwo("\n", body, b, e);
    FreeOfTwo("\n" + body, "\n", b, e);
  }

  /** Dropping trailing newlines drops no marker. */
  lemma AppendableFind(text: string, p: string)
    requires Marker(p)
    ensures Find(Appendable(text), p) == Find(text, p) == Find(RStripNewlines(text), p)
    ensures Find(text, p) != -1 ==> Find(text, p) + |p| + 2 <= |Appendable(text)|
  {
    var r := RStripNewlines(text);
    assert text == r + text[|r|..];
    AllNewlinesFree(text[|r|..], p);
    FindInTwo(r, text[|r|..], p);
    AllNewlinesFree("\n\n", p);
    FindInTwo(r, "\n\n", p);
  }

  lemma AllNewlinesFree(s: string, p: string)
    requires Marker(p) && forall i | 0 <= i < |s| :: s[i] == '\n'
    ensures Find(s, p) == -1
  {
    HeadOfOccurrence(s, p);
  }

  lemma BlankFree(text: string, p: string)
    requires Marker(p) && Strip(text) == ""
    ensures Find(text, p) == -1
  {
    HeadOfOccurrence(text, p);
    BlankIsSpace(text);
  }

  lemma {:induction false} RStripBlank(s: string)
    requires RStrip(s) == ""
    ensures forall i | 0 <= i < |s| :: IsSpace(s[i])
    decreases |s|
  {
    if s != "" {
      RStripBlank(s[..|s| - 1]);
    }
  }

  lemma {:induction false} BlankIsSpace(s: string)
    requires Strip(s) == ""
    ensures forall i | 0 <= i < |s| :: IsSpace(s[i])
    decreases |s|
  {
    if s != "" && IsSpace(s[0]) {
      BlankIsSpace(s[1..]);
      forall i | 0 <= i < |s| ensures IsSpace(s[i]) {
        if i > 0 { assert s[i] == s[1..][i - 1]; }
      }
    } else {
      RStripBlank(s);
    }
  }

  lemma CleanSplice(text: string, b: string, e: string)
    requires Markers(b, e) && Clean(text, b, e)
    ensures FreeOf(Before(text, b, e), b, e)
  {
    if HasSection(text, b, e) {
      FreePrefix(text, b, Find(text, b));
      FreePrefix(text, e, Find(text, b));
    } else {
      AppendableFind(text, b);
      AppendableFind(text, e);
    }
  }

  /** On a clean text an update without the end marker in its content reads back as exactly
      the stripped content, and a second update of the same section leaves what it would have
      left on the original text. */
  lemma CleanUpdate(text: string, b: string, e: string, first: string, second: string)
    requires Markers(b, e) && Find(Strip(first), e) == -1 && Clean(text, b, e)
    ensures Body(Replace(text, b, e, first), b, e) == Some(Written(first))
    ensures Replace(Replace(text, b, e, first), b, e, second) == Replace(text, b, e, second)
  {
    CleanSplice(text, b, e);
    WrittenEnd(first, e);
    ReplaceIsSplice(text, b, e, first);
    ReplaceIsSplice(text, b, e, second);
    var new1 := SectionRead(Before(text, b, e), b, Written(first), e, After(text, b, e));
    ReplaceIsSplice(new1, b, e, second);
  }

  /** With the end marker in its content, the next update leaves part of it behind. */
  lemma CutLastWrite(text: string, b: string, e: string, first: string, second: string)
    requires Markers(b, e) && Find(Strip(first), e) != -1 && Clean(text, b, e)
    ensures Replace(Replace(text, b, e, first), b, e, second) != Replace(text, b, e, second)
  {
    CleanSplice(text, b, e);
    WrittenEnd(first, e);
    ReplaceIsSplice(text, b, e, first);
    ReplaceIsSplice(text, b, e, second);
    var new1 := SectionCut(Before(text, b, e), b, Written(first), e, After(text, b, e));
    ReplaceIsSplice(new1, b, e, second);
    assert |Before(new1, b, e)| == |Before(text, b, e)|;
  }

  /** Nothing that is read back holds the end marker. */
  lemma BodyHoldsNoEnd(text: string, b: string, e: string)
    requires Markers(b, e) && Body(text, b, e).Some?
    ensures Find(Body(text, b, e).value, e) == -1
  {
    var at, to := Find(text, b) + |b|, Find(text, e);
    FreePrefix(text, e, to);
    assert text[..to] == text[..at] + text[at..to];
    FreeRight(text[..at], text[at..to], e);
  }

  lemma FreeRight(x: string, y: string, p: string)
    requires Find(x + y, p) == -1
    ensures Find(y, p) == -1
  {
    var r := Find(y, p);
    if r != -1 {
      OccursInRight(x, y, p, r);
    }
  }

  lemma UncleanIsNotBlank(text: string, b: string, e: string)
    requires Markers(b, e) && !Clean(text, b, e)
    ensures Strip(text) != ""
  {
    if Strip(text) == "" {
      BlankFree(text, b);
      BlankFree(text, e);
    }
  }

  /** Where the markers are after appending to a text that has at least one of them. */
  lemma AppendedFind(text: string, b: string, e: string, content: string) returns (pre: string, new1: string)
    requires Markers(b, e) && !Clean(text, b, e)
    ensures pre == Appendable(text) && new1 == Replace(text, b, e, content) && Strip(text) != ""
    ensures new1 == pre + SectionOf(b, e, content) + "\n"
    ensures Find(new1, b) == (if Find(text, b) != -1 then Find(text, b) else |pre|)
    ensures Find(new1, e) == (if Find(text, e) != -1 then Find(text, e) else |pre| + |b| + UpTo(Written(content), e))
    ensures Find(text, b) != -1 ==> Find(text, b) + |b| + 2 <= |pre|
    ensures Find(text, e) != -1 ==> Find(text, e) + |e| + 2 <= |pre|
  {
    UncleanIsNotBlank(text, b, e);
    pre := Appendable(text);
    new1 := Replace(text, b, e, content);
    AppendableFind(text, b);
    AppendableFind(text, e);
    AppendedMarkers(pre, b, Written(content), e);
    assert new1 == pre + ((b + Written(content) + e) + "\n");
  }

  lemma AppendedMarkers(pre: string, b: string, raw: string, e: string)
    requires Markers(b, e) && pre != "" && pre[|pre| - 1] == '\n'
    ensures var new1 := pre + ((b + raw + e) + "\n");
            && Find(new1, b) == (if Find(pre, b) != -1 then Find(pre, b) else |pre|)
            && Find(new1, e) == (if Find(pre, e) != -1 then Find(pre, e) else |pre| + |b| + UpTo(raw, e))
  {
    var rest := (b + raw + e) + "\n";
    AllNewlinesFree("", b);
    AllNewlinesFree("", e);
    SectionFound("", b, raw, e, "\n");
    assert rest == "" + (b + raw + e) + "\n";
    FindInTwo(pre, rest, b);
    FindInTwo(pre, rest, e);
  }

  /** On any other text -- one marker without the other, or in the wrong order -- the
      appended section cannot be read back. */
  lemma UncleanReadBack(text: string, b: string, e: string, content: string)
    requires Markers(b, e) && Find(Strip(content), e) == -1 && !Clean(text, b, e)
    ensures Body(Replace(text, b, e, content), b, e) != Some(Written(content))
  {
    WrittenEnd(content, e);
    var pre, new1 := AppendedFind(text, b, e, content);
    var body := Body(new1, b, e);
    assert body.Some? ==> |body.value| == Find(new1, e) - Find(new1, b) - |b|;
  }

  lemma {:induction false} RStripNewlinesLength(x: string, y: string)
    requires x != "" && x <= y && x[|x| - 1] != '\n'
    ensures |RStripNewlines(y)| >= |x|
    decreases |y|
  {
    if |y| > |x| && y[|y| - 1] == '\n' {
      RStripNewlinesLength(x, y[..|y| - 1]);
    }
  }

  lemma {:induction false} RStripKeeps(s: string, i: nat)
    requires i < |s| && !IsSpace(s[i])
    ensures RStrip(s) != ""
    decreases |s|
  {
    if IsSpace(s[|s| - 1]) {
      RStripKeeps(s[..|s| - 1], i);
    }
  }

  lemma {:induction false} StripKeeps(s: string, i: nat)
    requires i < |s| && !IsSpace(s[i])
    ensures Strip(s) != ""
    decreases |s|
  {
    if IsSpace(s[0]) {
      StripKeeps(s[1..], i - 1);
    } else {
      RStripKeeps(s, i);
    }
  }

  /** Nor is it replaced by the next update, whatever either content holds: the end marker
      the next update would see comes at a different place. */
  lemma UncleanLastWrite(text: string, b: string, e: string, first: string, second: string)
    requires Markers(b, e) && !Clean(text, b, e)
    ensures Replace(Replace(text, b, e, first), b, e, second) != Replace(text, b, e, second)
  {
    var pre, new1 := AppendedFind(text, b, e, first);
    if HasSection(new1, b, e) {
      EndMoves(text, b, e, pre, new1, second);
    } else {
      ReplaceIsSplice(text, b, e, second);
      ReplaceIsSplice(new1, b, e, second);
      AppendedTwice(new1, pre, b, e, first);
      assert |Before(new1, b, e)| != |pre| && |After(new1, b, e)| == |After(text, b, e)|;
    }
  }

  lemma EndMoves(text: string, b: string, e: string, pre: string, new1: string, second: string)
    requires Markers(b, e) && !Clean(text, b, e) && HasSection(new1, b, e)
    requires pre == Appendable(text) && Find(text, e) == -1 && 0 <= Find(new1, b) < |pre|
    ensures Replace(new1, b, e, second) != Replace(text, b, e, second)
  {
    var pre2, new2 := AppendedFind(text, b, e, second);
    CleanSplice(new1, b, e);
    ReplaceIsSplice(new1, b, e, second);
    SectionFound(Before(new1, b, e), b, Written(second), e, After(new1, b, e));
    assert Find(Replace(new1, b, e, second), e) == Find(new1, b) + |b| + UpTo(Written(second), e);
  }

  lemma AppendedTwice(new1: string, pre: string, b: string, e: string, content: string)
    requires Markers(b, e) && new1 == pre + SectionOf(b, e, content) + "\n" && !HasSection(new1, b, e)
    ensures |Before(new1, b, e)| > |pre|
  {
    var kept := pre + SectionOf(b, e, content);
    assert kept[|kept| - 1] == e[|e| - 1];
    assert new1[|kept| - 1] == kept[|kept| - 1];
    StripKeeps(new1, |kept| - 1);
    RStripNewlinesLength(kept, new1);
  }

  /** For every text and content: an update reads back as its stripped content exactly when
      the text is clean and the content does not hold the section's own end marker. */
  lemma ReadBackIff(text: string, m: string, content: string)
    requires ValidName(m)
    ensures Stripped(content, Strip(content))
    ensures Body(Replace(text, Begin(m), End(m), content), Begin(m), End(m)) == Some("\n" + Strip(content) + "\n")
            <==> Clean(text, Begin(m), End(m)) && Find(Strip(content), End(m)) == -1
  {
    StripIs(content, Strip(content));
    NamesGiveMarkers(m);
    var b, e := Begin(m), End(m);
    var new1 := Replace(text, b, e, content);
    if Find(Strip(content), e) != -1 {
      WrittenEnd(content, e);
      if Body(new1, b, e).Some? {
        BodyHoldsNoEnd(new1, b, e);
      }
    } else if Clean(text, b, e) {
      CleanUpdate(text, b, e, content, content);
    } else {
      UncleanReadBack(text, b, e, content);
    }
  }

  /** For every text and contents: the second of two updates of a section wins outright
      exactly under the same condition on the text and the first content. With equal contents
      this is idempotence. */
  lemma LastWriteWinsIff(text: string, m: string, first: string, second: string)
    requires ValidName(m)
    ensures Replace(Replace(text, Begin(m), End(m), first), Begin(m), End(m), second)
            == Replace(text, Begin(m), End(m), second)
            <==> Clean(text, Begin(m), End(m)) && Find(Strip(first), End(m)) == -1
  {
    NamesGiveMarkers(m);
    var b, e := Begin(m), End(m);
    if !Clean(text, b, e) {
      UncleanLastWrite(text, b, e, first, second);
    } else if Find(Strip(first), e) != -1 {
      CutLastWrite(text, b, e, first, second);
    } else {
      CleanUpdate(text, b, e, first, second);
    }
  }
}
