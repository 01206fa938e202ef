/** The results document as its sections: updating one leaves the others alone, and the
    text-level update refines an update of a list of named sections. */
module ResultsSections {
  import opened Versions
  import opened ResultsDoc

  // ----- Any other section of any text

  lemma FindInThree(pre: string, mid: string, post: string, p: string)
    requires Marker(p) && Joint(pre, mid) && Joint(mid, post) && mid != "" && mid[0] == '<'
    ensures Find(pre + mid + post, p) ==
            if Find(pre, p) != -1 then Find(pre, p)
            else if Find(mid, p) != -1 then |pre| + Find(mid, p)
            else if Find(post, p) != -1 then |pre| + |mid| + Find(post, p)
            else -1
  {
    assert pre + mid + post == pre + (mid + post);
    FindInTwo(mid, post, p);
    FindInTwo(pre, mid + post, p);
  }

  /** What is read of section (b, e) in a text whose middle part has neither marker. */
  lemma BodyInThree(pre: string, mid: string, post: string, b: string, e: string)
    requires Markers(b, e) && Joint(pre, mid) && Joint(mid, post) && mid != "" && mid[0] == '<' && FreeOf(mid, b, e)
    ensures Body(pre + mid + post, b, e) ==
            if Find(pre, b) != -1 && Find(pre, e) != -1 then Body(pre, b, e)
            else if Find(pre, b) != -1 && Find(post, e) != -1 then
              Some(pre[Find(pre, b) + |b|..] + mid + post[..Find(post, e)])
            else if FreeOf(pre, b, e) then Body(post, b, e)
            else None
  {
    FindInThree(pre, mid, post, b);
    FindInThree(pre, mid, post, e);
    if Find(pre, b) != -1 && Find(pre, e) != -1 {
      Regrouped(pre, mid, post);
      BodyLeft(pre, mid + post, b, e);
    } else if Find(pre, b) != -1 && Find(post, e) != -1 {
      BodyAcross(pre, mid, post, b, e);
    } else if FreeOf(pre, b, e) {
      BodyRight(pre + mid, post, b, e);
    }
  }

  lemma Regrouped(x: string, y: string, z: string)
    ensures x + y + z == x + (y + z)
  {
  }

  lemma BodyLeft(x: string, y: string, b: string, e: string)
    requires Find(x + y, b) == Find(x, b) && Find(x + y, e) == Find(x, e)
    ensures Body(x + y, b, e) == Body(x, b, e)
  {
    SliceLeft(x, y, Find(x, b) + |b|, Find(x, e));
  }

  lemma BodyRight(x: string, y: string, b: string, e: string)
    requires Find(x + y, b) == if Find(y, b) != -1 then |x| + Find(y, b) else -1
    requires Find(x + y, e) == if Find(y, e) != -1 then |x| + Find(y, e) else -1
    ensures Body(x + y, b, e) == Body(y, b, e)
  {
    SliceRight(x, y, Find(y, b) + |b|, Find(y, e));
  }

  lemma BodyAcross(x: string, m: string, y: string, b: string, e: string)
    requires Find(x, b) != -1 && Find(y, e) != -1
    requires Find(x + m + y, b) == Find(x, b) && Find(x + m + y, e) == |x| + |m| + Find(y, e)
    ensures Body(x + m + y, b, e) == Some(x[Find(x, b) + |b|..] + m + y[..Find(y, e)])
  {
    SliceAcross(x, m, y, Find(x, b) + |b|, Find(y, e));
  }

  lemma SliceAcross(x: string, m: string, y: string, i: int, j: int)
    requires 0 <= i <= |x| && 0 <= j <= |y|
    ensures (x + m + y)[i..|x| + |m| + j] == x[i..] + m + y[..j]
  {
  }

  /** The two sections' markers are four different markers. */
  ghost predicate Apart(b: string, e: string, b2: string, e2: string) {
    Markers(b, e) && Markers(b2, e2) && b != b2 && b != e2 && e != b2 && e != e2
  }

  /** Section (b2, e2), as it reads, opens before section (b, e) and closes after it. */
  ghost predicate Encloses(text: string, b: string, e: string, b2: string, e2: string) {
    HasSection(text, b, e) && 0 <= Find(text, b2) < Find(text, b) < Find(text, e2)
  }

  /** The stretch an update of (b, e) would overwrite. */
  function Overwritten(text: string, b: string, e: string): string
    requires HasSection(text, b, e)
  {
    text[Find(text, b)..Find(text, e) + |e|]
  }

  lemma SectionFree(content: string, b: string, e: string, b2: string, e2: string)
    requires Apart(b, e, b2, e2) && FreeOf(Strip(content), b2, e2)
    ensures FreeOf(SectionOf(b, e, content), b2, e2)
  {
    WrittenFree(content, b2, e2);
    MarkerHoldsNoOther(b, b2);
    MarkerHoldsNoOther(b, e2);
    MarkerHoldsNoOther(e, b2);
    MarkerHoldsNoOther(e, e2);
    FreeOfTwo(b, Written(content), b2, e2);
    FreeOfTwo(b + Written(content), e, b2, e2);
  }

  lemma SectionShape(b: string, e: string, content: string)
    requires Markers(b, e)
    ensures var s := SectionOf(b, e, content); s != "" && s[0] == '<' && s[|s| - 1] == '>'
  {
  }

  lemma OverwrittenShape(text: string, b: string, e: string) returns (mid: string)
    requires Markers(b, e) && HasSection(text, b, e)
    ensures mid == Overwritten(text, b, e) && text == Before(text, b, e) + mid + After(text, b, e)
    ensures |mid| == Find(text, e) + |e| - Find(text, b) && |Before(text, b, e)| == Find(text, b)
    ensures mid != "" && mid[0] == '<' && mid[|mid| - 1] == '>'
  {
    mid := MiddleOf(text, Find(text, b), Find(text, e) + |e|);
    EndsOfOccurrence(text, b, Find(text, b));
    EndsOfOccurrence(text, e, Find(text, e));
  }

  lemma MiddleOf(text: string, s: nat, t: nat) returns (mid: string)
    requires s < t <= |text|
    ensures mid == text[s..t] && text == text[..s] + mid + text[t..]
    ensures |mid| == t - s && mid[0] == text[s] && mid[|mid| - 1] == text[t - 1]
  {
    mid := text[s..t];
  }

  lemma EndsOfOccurrence(text: string, p: string, i: int)
    requires |p| > 0 && OccursAt(text, p, i)
    ensures text[i] == p[0] && text[i + |p| - 1] == p[|p| - 1]
  {
    assert text[i] == text[i..i + |p|][0];
    assert text[i + |p| - 1] == text[i..i + |p|][|p| - 1];
  }

  /** Whether section (b2, e2), as it reads, survives an update of (b, e), told by where its
      markers come first: in front of what is overwritten, in it, or behind it. */
  ghost predicate Survives(text: string, b: string, e: string, b2: string, e2: string, content: string)
    requires HasSection(text, b, e)
  {
    var pre, mid, post := Before(text, b, e), Overwritten(text, b, e), After(text, b, e);
    if Find(pre, e2) != -1 then true
    else if Find(pre, b2) == -1 then Body(text, b2, e2) == Body(post, b2, e2)
    else if Find(mid, e2) != -1 then false
    else Find(post, e2) == -1 || mid == SectionOf(b, e, content)
  }

  lemma InPlaceKeepsOthers(text: string, b: string, e: string, b2: string, e2: string, content: string)
    requires Apart(b, e, b2, e2) && FreeOf(Strip(content), b2, e2) && HasSection(text, b, e)
    ensures Body(Replace(text, b, e, content), b2, e2) == Body(text, b2, e2) <==> Survives(text, b, e, b2, e2, content)
  {
    var pre, post := Before(text, b, e), After(text, b, e);
    var mid := OverwrittenShape(text, b, e);
    var sec := SectionOf(b, e, content);
    SectionShape(b, e, content);
    SectionFree(content, b, e, b2, e2);
    ReplaceIsSplice(text, b, e, content);
    BodyInThree(pre, sec, post, b2, e2);
    if Find(pre, e2) != -1 {
      ClosedBefore(pre, mid, post, b2, e2);
    } else if Find(pre, b2) != -1 && Find(mid, e2) != -1 {
      ClosesInside(pre, mid, post, b2, e2);
      EndIsLast(text, b, e);
      OverlapDiffers(pre[Find(pre, b2) + |b2|..], mid, sec, post, b, e, Find(mid, e2), Find(post, e2), e2);
    } else if Find(pre, b2) != -1 {
      ClosesBehind(pre, mid, post, b2, e2);
      if Find(post, e2) != -1 {
        MiddleMatters(pre[Find(pre, b2) + |b2|..], mid, sec, post[..Find(post, e2)]);
      }
    }
  }

  lemma ClosedBefore(pre: string, mid: string, post: string, b: string, e: string)
    requires Markers(b, e) && Joint(pre, mid) && Joint(mid, post) && mid != "" && mid[0] == '<' && Find(pre, e) != -1
    ensures Body(pre + mid + post, b, e) == if Find(pre, b) != -1 then Body(pre, b, e) else None
  {
    FindInThree(pre, mid, post, b);
    FindInThree(pre, mid, post, e);
    if Find(pre, b) != -1 {
      Regrouped(pre, mid, post);
      BodyLeft(pre, mid + post, b, e);
    }
  }

  lemma ClosesInside(pre: string, mid: string, post: string, b: string, e: string)
    requires Markers(b, e) && Joint(pre, mid) && Joint(mid, post) && mid != "" && mid[0] == '<'
    requires Find(pre, b) != -1 && Find(pre, e) == -1 && Find(mid, e) != -1
    ensures Body(pre + mid + post, b, e) == Some(pre[Find(pre, b) + |b|..] + mid[..Find(mid, e)])
  {
    FindInThree(pre, mid, post, b);
    FindInThree(pre, mid, post, e);
    SliceInto(pre, mid, post, Find(pre, b) + |b|, Find(mid, e));
  }

  lemma SliceInto(x: string, m: string, y: string, i: int, j: int)
    requires 0 <= i <= |x| && 0 <= j <= |m|
    ensures (x + m + y)[i..|x| + j] == x[i..] + m[..j]
  {
  }

  lemma ClosesBehind(pre: string, mid: string, post: string, b: string, e: string)
    requires Markers(b, e) && Joint(pre, mid) && Joint(mid, post) && mid != "" && mid[0] == '<'
    requires Find(pre, b) != -1 && Find(pre, e) == -1 && Find(mid, e) == -1
    ensures Body(pre + mid + post, b, e) ==
            if Find(post, e) != -1 then Some(pre[Find(pre, b) + |b|..] + mid + post[..Find(post, e)]) else None
  {
    FindInThree(pre, mid, post, b);
    FindInThree(pre, mid, post, e);
    if Find(post, e) != -1 {
      BodyAcross(pre, mid, post, b, e);
    }
  }

  /** What would be overwritten ends with its first end marker. */
  lemma EndIsLast(text: string, b: string, e: string)
    requires Markers(b, e) && HasSection(text, b, e)
    ensures forall k | OccursAt(Overwritten(text, b, e), e, k) :: k >= |Overwritten(text, b, e)| - |e|
  {
    var mid := OverwrittenShape(text, b, e);
    EndIsLastAt(Before(text, b, e), mid, After(text, b, e), e);
  }

  lemma EndIsLastAt(pre: string, mid: string, post: string, e: string)
    requires Find(pre + mid + post, e) == |pre| + |mid| - |e|
    ensures forall k | OccursAt(mid, e, k) :: k >= |mid| - |e|
  {
    forall k | OccursAt(mid, e, k) ensures k >= |mid| - |e| {
      OccursInRight(pre, mid, e, k);
      OccursInLeft(pre + mid, post, e, |pre| + k);
    }
  }

  /** A section that closed inside what was overwritten cannot read the same afterwards. */
  lemma OverlapDiffers(x: string, mid: string, sec: string, post: string, b: string, e: string, j: int, k: int,
                       e2: string)
    requires Markers(b, e) && Marker(e2) && 0 <= j && j + |e2| <= |mid| && -1 <= k <= |post|
    requires exists content :: sec == SectionOf(b, e, content)
    requires forall n | OccursAt(mid, e, n) :: n >= |mid| - |e|
    ensures k != -1 ==> x + mid[..j] != x + sec + post[..k]
  {
    var content :| sec == SectionOf(b, e, content);
    SectionEnds(b, e, content);
    if k != -1 && x + mid[..j] == x + sec + post[..k] {
      Regrouped(x, sec, post[..k]);
      SameTail(x, mid[..j], sec + post[..k]);
      OccursInPrefix(mid, j, sec, post[..k], e, |sec| - |e|);
    }
  }

  lemma SectionEnds(b: string, e: string, content: string)
    ensures OccursAt(SectionOf(b, e, content), e, |SectionOf(b, e, content)| - |e|)
  {
    OccursInRight(b + Written(content), e, e, 0);
  }

  lemma OccursInPrefix(mid: string, j: nat, x: string, y: string, p: string, n: int)
    requires j <= |mid| && mid[..j] == x + y && OccursAt(x, p, n)
    ensures OccursAt(mid, p, n) && n + |p| <= j
  {
    OccursInLeft(x, y, p, n);
    assert mid == mid[..j] + mid[j..];
    OccursInLeft(mid[..j], mid[j..], p, n);
  }

  lemma SameTail(x: string, y: string, z: string)
    requires x + y == x + z
    ensures y == z
  {
    assert y == (x + y)[|x|..] && z == (x + z)[|x|..];
  }

  lemma MiddleMatters(x: string, m1: string, m2: string, y: string)
    ensures x + m1 + y == x + m2 + y <==> m1 == m2
  {
    if x + m1 + y == x + m2 + y {
      assert |m1| == |m2|;
      assert m1 == (x + m1 + y)[|x|..|x| + |m1|];
      assert m2 == (x + m2 + y)[|x|..|x| + |m2|];
    }
  }

  lemma AppendKeepsOthers(text: string, b: string, e: string, b2: string, e2: string, content: string)
    requires Apart(b, e, b2, e2) && FreeOf(Strip(content), b2, e2) && !HasSection(text, b, e)
    ensures Body(Replace(text, b, e, content), b2, e2) == Body(text, b2, e2)
  {
    var rest := SectionOf(b, e, content) + "\n";
    SectionFree(content, b, e, b2, e2);
    AllNewlinesFree("\n", b2);
    AllNewlinesFree("\n", e2);
    FreeOfTwo(SectionOf(b, e, content), "\n", b2, e2);
    if Strip(text) == "" {
      BlankFree(text, b2);
      BlankFree(text, e2);
    } else {
      AppendableFind(text, b2);
      AppendableFind(text, e2);
      var kept := RStripNewlines(text);
      assert text == kept + text[|kept|..];
      BodyLeft(kept, text[|kept|..], b2, e2);
      Regrouped(kept, "\n\n", rest);
      FindInTwo(Appendable(text), rest, b2);
      FindInTwo(Appendable(text), rest, e2);
      BodyLeft(kept, "\n\n" + rest, b2, e2);
      ReplaceIsSplice(text, b, e, content);
      Regrouped(Appendable(text), SectionOf(b, e, content), "\n");
    }
  }

  /** On every text, sections nested or overlapping included: updating one section leaves
      what is read of another unchanged exactly when the update appends, or the other survives
      what is overwritten. */
  lemma OthersKeptIff(text: string, m: string, n: string, content: string)
    requires ValidName(m) && ValidName(n) && m != n && FreeOf(Strip(content), Begin(n), End(n))
    ensures Body(Replace(text, Begin(m), End(m), content), Begin(n), End(n)) == Body(text, Begin(n), End(n))
            <==> (HasSection(text, Begin(m), End(m)) ==> Survives(text, Begin(m), End(m), Begin(n), End(n), content))
  {
    NamesApart(m, n);
    if HasSection(text, Begin(m), End(m)) {
      InPlaceKeepsOthers(text, Begin(m), End(m), Begin(n), End(n), content);
    } else {
      AppendKeepsOthers(text, Begin(m), End(m), Begin(n), End(n), content);
    }
  }

  /** Where what is overwritten holds neither of the other's markers, the other survives
      exactly when it is not wrapped around it, or what is overwritten is what is written. */
  lemma UntouchedSurvivesIff(text: string, m: string, n: string, content: string)
    requires ValidName(m) && ValidName(n) && m != n && HasSection(text, Begin(m), End(m))
    requires FreeOf(Overwritten(text, Begin(m), End(m)), Begin(n), End(n))
    ensures Survives(text, Begin(m), End(m), Begin(n), End(n), content)
            <==> (Encloses(text, Begin(m), End(m), Begin(n), End(n))
                  ==> Overwritten(text, Begin(m), End(m)) == SectionOf(Begin(m), End(m), content))
  {
    NamesApart(m, n);
    var pre, post := Before(text, Begin(m), End(m)), After(text, Begin(m), End(m));
    var mid := OverwrittenShape(text, Begin(m), End(m));
    FindInThree(pre, mid, post, Begin(n));
    FindInThree(pre, mid, post, End(n));
    BodyInThree(pre, mid, post, Begin(n), End(n));
  }

  lemma NamesApart(m: string, n: string)
    requires ValidName(m) && ValidName(n) && m != n
    ensures Apart(Begin(m), End(m), Begin(n), End(n))
  {
    NamesGiveMarkers(m);
    NamesGiveMarkers(n);
    BeginIsNotEnd(m, n);
    BeginIsNotEnd(n, m);
  }

  // ----- The document as a list of sections

  /** `raw` is everything between the markers, `gap` everything up to the next section. */
  datatype Section = Section(name: string, raw: string, gap: string)

  datatype Doc = Doc(head: string, sections: seq<Section>)

  function RenderSection(s: Section): string {
    Begin(s.name) + s.raw + End(s.name) + s.gap
  }

  function RenderAll(sections: seq<Section>): string
    decreases |sections|
  {
    if sections == [] then "" else RenderAll(sections[..|sections| - 1]) + RenderSection(sections[|sections| - 1])
  }

  function Render(d: Doc): string {
    d.head + RenderAll(d.sections)
  }

  predicate Named(sections: seq<Section>, m: string) {
    exists i :: 0 <= i < |sections| && sections[i].name == m
  }

  function IndexOf(sections: seq<Section>, m: string): (i: nat)
    requires Named(sections, m)
    ensures i < |sections| && sections[i].name == m
    decreases |sections|
  {
    if sections[|sections| - 1].name == m then |sections| - 1
    else
      assert Named(sections[..|sections| - 1], m) by {
        var i :| 0 <= i < |sections| && sections[i].name == m;
        assert sections[..|sections| - 1][i].name == m;
      }
      IndexOf(sections[..|sections| - 1], m)
  }

  /** What an update means to the document: rewrite the named section, or add it at the
      end; a blank document is forgotten. */
  function Update(d: Doc, m: string, content: string): Doc {
    if Named(d.sections, m) then
      var i := IndexOf(d.sections, m);
      d.(sections := d.sections[i := d.sections[i].(raw := Written(content))])
    else if Strip(Render(d)) == "" then
      Doc("", [Section(m, Written(content), "\n")])
    else if d.sections == [] then
      Doc(Appendable(d.head), [Section(m, Written(content), "\n")])
    else
      var last := |d.sections| - 1;
      d.(sections := d.sections[last := d.sections[last].(gap := Appendable(d.sections[last].gap))]
                     + [Section(m, Written(content), "\n")])
  }

  function Read(d: Doc, n: string): Option<string> {
    if Named(d.sections, n) then Some(d.sections[IndexOf(d.sections, n)].raw) else None
  }

  /** Nothing but the sections' own markers is a marker of `n`. */
  ghost predicate Plain(d: Doc, n: string) {
    && FreeOf(d.head, Begin(n), End(n))
    && forall i | 0 <= i < |d.sections| ::
         FreeOf(d.sections[i].raw, Begin(n), End(n)) && FreeOf(d.sections[i].gap, Begin(n), End(n))
  }

  ghost predicate Distinct(sections: seq<Section>) {
    forall i, j | 0 <= i < j < |sections| :: sections[i].name != sections[j].name
  }

  /** A document written by the owners of `names`. */
  ghost predicate WellFormed(d: Doc, names: set<string>) {
    && Distinct(d.sections)
    && (forall i | 0 <= i < |d.sections| :: d.sections[i].name in names)
    && (forall n | n in names :: ValidName(n) && Plain(d, n))
  }

  lemma RenderSectionFree(s: Section, m: string)
    requires ValidName(m) && ValidName(s.name) && s.name != m
    requires FreeOf(s.raw, Begin(m), End(m)) && FreeOf(s.gap, Begin(m), End(m))
    ensures FreeOf(RenderSection(s), Begin(m), End(m))
    ensures RenderSection(s) != "" && RenderSection(s)[0] == '<'
  {
    var b, e := Begin(s.name), End(s.name);
    NamesApart(s.name, m);
    MarkerHoldsNoOther(b, Begin(m));
    MarkerHoldsNoOther(b, End(m));
    MarkerHoldsNoOther(e, Begin(m));
    MarkerHoldsNoOther(e, End(m));
    FreeOfTwo(b, s.raw, Begin(m), End(m));
    FreeOfTwo(b + s.raw, e, Begin(m), End(m));
    FreeOfTwo(b + s.raw + e, s.gap, Begin(m), End(m));
  }

  lemma {:induction false} RenderFree(d: Doc, m: string)
    requires ValidName(m) && Plain(d, m)
    requires forall i | 0 <= i < |d.sections| :: ValidName(d.sections[i].name) && d.sections[i].name != m
    ensures FreeOf(Render(d), Begin(m), End(m))
    decreases |d.sections|
  {
    NamesGiveMarkers(m);
    if d.sections == [] {
      assert Render(d) == d.head;
    } else {
      var n := |d.sections| - 1;
      var init := Doc(d.head, d.sections[..n]);
      RenderFree(init, m);
      RenderSectionFree(d.sections[n], m);
      FreeOfTwo(Render(init), RenderSection(d.sections[n]), Begin(m), End(m));
      assert Render(d) == Render(init) + RenderSection(d.sections[n]);
    }
  }

  lemma {:induction false} RenderSplit(sections: seq<Section>, i: nat)
    requires i < |sections|
    ensures RenderAll(sections) == RenderAll(sections[..i]) + RenderSection(sections[i]) + RenderAll(sections[i + 1..])
    decreases |sections|
  {
    var n := |sections| - 1;
    if i < n {
      var init := sections[..n];
      RenderSplit(init, i);
      assert init[..i] == sections[..i] && init[i] == sections[i];
      assert sections[i + 1..] == init[i + 1..] + [sections[n]];
      RenderSnoc(init[i + 1..], sections[n]);
      Associative(RenderAll(sections[..i]) + RenderSection(sections[i]), RenderAll(init[i + 1..]),
                  RenderSection(sections[n]));
    } else {
      assert sections[i + 1..] == [];
      assert sections[..i] == sections[..n];
    }
  }

  lemma Associative(x: string, y: string, z: string)
    ensures (x + y) + z == x + (y + z)
  {
  }

  /** The text around the section of `m`. */
  lemma Around(d: Doc, m: string, names: set<string>) returns (pre: string, post: string)
    requires WellFormed(d, names) && m in names && Named(d.sections, m)
    ensures var i := IndexOf(d.sections, m);
            && pre == d.head + RenderAll(d.sections[..i])
            && post == d.sections[i].gap + RenderAll(d.sections[i + 1..])
            && Render(d) == pre + (Begin(m) + d.sections[i].raw + End(m)) + post
            && FreeOf(pre, Begin(m), End(m)) && FreeOf(d.sections[i].raw, Begin(m), End(m))
  {
    var i := IndexOf(d.sections, m);
    assert Plain(d, m);
    var front := Doc(d.head, d.sections[..i]);
    forall j | 0 <= j < |front.sections| ensures ValidName(front.sections[j].name) && front.sections[j].name != m {
      assert front.sections[j] == d.sections[j];
    }
    RenderFree(front, m);
    RenderSplit(d.sections, i);
    pre := d.head + RenderAll(d.sections[..i]);
    post := d.sections[i].gap + RenderAll(d.sections[i + 1..]);
    Regroup(d.head, RenderAll(d.sections[..i]), Begin(m) + d.sections[i].raw + End(m), d.sections[i].gap,
            RenderAll(d.sections[i + 1..]));
  }

  lemma Regroup(head: string, front: string, section: string, gap: string, back: string)
    ensures head + (front + (section + gap) + back) == (head + front) + section + (gap + back)
  {
  }

  /** Reading the text is reading the document, for every owner's section. */
  lemma ReadRefines(d: Doc, n: string, names: set<string>)
    requires WellFormed(d, names) && n in names
    ensures Body(Render(d), Begin(n), End(n)) == Read(d, n)
  {
    NamesGiveMarkers(n);
    if Named(d.sections, n) {
      var pre, post := Around(d, n, names);
      var text := SectionRead(pre, Begin(n), d.sections[IndexOf(d.sections, n)].raw, End(n), post);
    } else {
      NotNamedFree(d, n, names);
    }
  }

  lemma NotNamedFree(d: Doc, n: string, names: set<string>)
    requires WellFormed(d, names) && n in names && !Named(d.sections, n)
    ensures FreeOf(Render(d), Begin(n), End(n))
  {
    assert Plain(d, n);
    RenderFree(d, n);
  }

  lemma UpdateExisting(d: Doc, m: string, names: set<string>, content: string)
    requires WellFormed(d, names) && m in names && Named(d.sections, m)
    ensures Replace(Render(d), Begin(m), End(m), content) == Render(Update(d, m, content))
  {
    NamesGiveMarkers(m);
    var i := IndexOf(d.sections, m);
    var pre, post := Around(d, m, names);
    var text := SectionRead(pre, Begin(m), d.sections[i].raw, End(m), post);
    ReplaceIsSplice(text, Begin(m), End(m), content);
    var d' := Update(d, m, content);
    RenderSplit(d'.sections, i);
    assert d'.sections[..i] == d.sections[..i] && d'.sections[i + 1..] == d.sections[i + 1..];
    Regroup(d.head, RenderAll(d.sections[..i]), SectionOf(Begin(m), End(m), content), d.sections[i].gap,
            RenderAll(d.sections[i + 1..]));
  }

  lemma {:induction false} RStripNewlinesSplit(x: string, y: string)
    requires x == "" || x[|x| - 1] != '\n'
    ensures RStripNewlines(x + y) == x + RStripNewlines(y)
    decreases |y|
  {
    if y == "" {
      assert x + y == x;
    } else {
      assert (x + y)[..|x + y| - 1] == x + y[..|y| - 1];
      if y[|y| - 1] == '\n' {
        RStripNewlinesSplit(x, y[..|y| - 1]);
      }
    }
  }

  lemma UpdateNew(d: Doc, m: string, names: set<string>, content: string)
    requires WellFormed(d, names) && m in names && !Named(d.sections, m)
    ensures Replace(Render(d), Begin(m), End(m), content) == Render(Update(d, m, content))
  {
    var b, e := Begin(m), End(m);
    NotNamedFree(d, m, names);
    ReplaceIsSplice(Render(d), b, e, content);
    var added := Section(m, Written(content), "\n");
    Associative("", SectionOf(b, e, content), "\n");
    assert RenderAll([added]) == "" + RenderSection(added);
    if Strip(Render(d)) != "" {
      Associative(Appendable(Render(d)), SectionOf(b, e, content), "\n");
      if d.sections == [] {
        assert Render(d) == d.head;
      } else {
        AppendToGap(d, added);
      }
    }
  }

  lemma RenderSnoc(sections: seq<Section>, s: Section)
    ensures RenderAll(sections + [s]) == RenderAll(sections) + RenderSection(s)
  {
    assert (sections + [s])[..|sections|] == sections;
  }

  lemma AppendToGap(d: Doc, added: Section)
    requires d.sections != []
    ensures var last := |d.sections| - 1;
            Render(Doc(d.head, d.sections[last := d.sections[last].(gap := Appendable(d.sections[last].gap))]
                       + [added]))
            == Appendable(Render(d)) + RenderSection(added)
  {
    var last := |d.sections| - 1;
    var s := d.sections[last];
    var s' := s.(gap := Appendable(s.gap));
    var changed := d.sections[last := s'];
    var front := d.sections[..last];
    var body := Begin(s.name) + s.raw + End(s.name);
    assert changed == front + [s'] && d.sections == front + [s];
    RenderSnoc(changed, added);
    RenderSnoc(front, s');
    RenderSnoc(front, s);
    var x := d.head + RenderAll(front) + body;
    FourParts(d.head, RenderAll(front), body, s.gap);
    FourParts(d.head, RenderAll(front), body, s'.gap);
    EndsInMarker(s.name);
    assert body[|body| - 1] == '>' && x[|x| - 1] == '>';
    RStripNewlinesSplit(x, s.gap);
    Associative(x, RStripNewlines(s.gap), "\n\n");
    Associative(d.head, RenderAll(changed), RenderSection(added));
  }

  lemma FourParts(x: string, y: string, z: string, u: string)
    ensures x + (y + (z + u)) == x + y + z + u
  {
  }

  lemma EndsInMarker(n: string)
    ensures End(n)[|End(n)| - 1] == '>'
  {
  }

  lemma PlainUpdate(d: Doc, m: string, n: string, content: string)
    requires ValidName(n) && Plain(d, n) && FreeOf(Strip(content), Begin(n), End(n))
    ensures Plain(Update(d, m, content), n)
  {
    NamesGiveMarkers(n);
    WrittenFree(content, Begin(n), End(n));
    AllNewlinesFree("", Begin(n));
    AllNewlinesFree("", End(n));
    AllNewlinesFree("\n", Begin(n));
    AllNewlinesFree("\n", End(n));
    AppendableFind(d.head, Begin(n));
    AppendableFind(d.head, End(n));
    if d.sections != [] {
      AppendableFind(d.sections[|d.sections| - 1].gap, Begin(n));
      AppendableFind(d.sections[|d.sections| - 1].gap, End(n));
    }
  }

  /** What an update does to the list of sections: one of them is rewritten, or added. */
  ghost predicate Rewritten(before: seq<Section>, after: seq<Section>, m: string, raw: string) {
    && |before| <= |after| <= |before| + 1
    && (forall i | 0 <= i < |before| ::
          after[i].name == before[i].name && (before[i].name != m ==> after[i].raw == before[i].raw))
    && (if |after| == |before| then exists i :: 0 <= i < |after| && after[i].name == m && after[i].raw == raw
        else !Named(before, m) && after[|before|].name == m && after[|before|].raw == raw)
  }

  lemma UpdateRewrites(d: Doc, m: string, content: string)
    ensures Rewritten(d.sections, Update(d, m, content).sections, m, Written(content))
  {
    var before, after := d.sections, Update(d, m, content).sections;
    if Named(before, m) {
      assert after[IndexOf(before, m)].raw == Written(content);
    } else if before != [] {
      SectionsAreNotBlank(d);
    }
  }

  lemma RewrittenNames(before: seq<Section>, after: seq<Section>, m: string, raw: string, names: set<string>)
    requires Rewritten(before, after, m, raw) && Distinct(before) && m in names
    requires forall i | 0 <= i < |before| :: before[i].name in names
    ensures Distinct(after) && forall i | 0 <= i < |after| :: after[i].name in names
  {
  }

  /** The text-level update refines the update of the document, and leaves a well-formed
      document, so the next update refines too. */
  lemma UpdateRefines(d: Doc, m: string, names: set<string>, content: string)
    requires WellFormed(d, names) && m in names
    requires forall n | n in names :: FreeOf(Strip(content), Begin(n), End(n))
    ensures Replace(Render(d), Begin(m), End(m), content) == Render(Update(d, m, content))
    ensures WellFormed(Update(d, m, content), names)
  {
    if Named(d.sections, m) {
      UpdateExisting(d, m, names, content);
    } else {
      UpdateNew(d, m, names, content);
    }
    UpdateRewrites(d, m, content);
    RewrittenNames(d.sections, Update(d, m, content).sections, m, Written(content), names);
    forall n | n in names ensures ValidName(n) && Plain(Update(d, m, content), n) {
      PlainUpdate(d, m, n, content);
    }
  }

  // ----- Any number of writers

  /** A document with a section is not blank, so no update ever forgets one. */
  lemma SectionsAreNotBlank(d: Doc)
    requires d.sections != []
    ensures Strip(Render(d)) != ""
  {
    var n := |d.sections| - 1;
    var front := d.head + RenderAll(d.sections[..n]);
    assert Begin(d.sections[n].name)[0] == '<';
    Associative(d.head, RenderAll(d.sections[..n]), RenderSection(d.sections[n]));
    assert Render(d)[|front|] == RenderSection(d.sections[n])[0];
    StripKeeps(Render(d), |front|);
  }

  lemma IndexIs(sections: seq<Section>, n: string, i: nat)
    requires Distinct(sections) && i < |sections| && sections[i].name == n
    ensures Named(sections, n) && IndexOf(sections, n) == i
  {
  }

  /** An update changes what is read of its own section and of no other. */
  lemma UpdateReads(d: Doc, m: string, names: set<string>, content: string, n: string)
    requires WellFormed(d, names) && m in names
    ensures Read(Update(d, m, content), n) == if n == m then Some(Written(content)) else Read(d, n)
  {
    UpdateRewrites(d, m, content);
    var before, after := d.sections, Update(d, m, content).sections;
    RewrittenNames(before, after, m, Written(content), names);
    RewrittenReads(before, after, m, Written(content), n);
  }

  lemma RewrittenReads(before: seq<Section>, after: seq<Section>, m: string, raw: string, n: string)
    requires Rewritten(before, after, m, raw) && Distinct(before) && Distinct(after)
    ensures Named(after, n) <==> n == m || Named(before, n)
    ensures Named(after, n) ==> after[IndexOf(after, n)].raw == if n == m then raw else before[IndexOf(before, n)].raw
  {
    if n == m {
      var i :| 0 <= i < |after| && after[i].name == m && after[i].raw == raw;
      IndexIs(after, m, i);
    } else if Named(before, n) {
      IndexIs(after, n, IndexOf(before, n));
    } else {
      assert forall i | 0 <= i < |after| :: after[i].name == m || (i < |before| && after[i].name == before[i].name);
    }
  }

  datatype Edit = Edit(name: string, content: string)

  /** The file after a history of edits, starting with no file. */
  function FileAfter(edits: seq<Edit>): Option<string>
    decreases |edits|
  {
    if edits == [] then None
    else
      var last := edits[|edits| - 1];
      Some(ReplaceSection(FileAfter(edits[..|edits| - 1]), last.name, last.content))
  }

  /** What the last edit of `n` wrote. */
  function LastBody(edits: seq<Edit>, n: string): Option<string> {
    var last := LastContent(edits, n);
    if last.Some? then Some(Written(last.value)) else None
  }

  function LastContent(edits: seq<Edit>, n: string): Option<string>
    decreases |edits|
  {
    if edits == [] then None
    else if edits[|edits| - 1].name == n then Some(edits[|edits| - 1].content)
    else LastContent(edits[..|edits| - 1], n)
  }

  /** Every edit is by one of the owners, and writes nobody's markers. */
  ghost predicate Polite(edits: seq<Edit>, names: set<string>) {
    && (forall n | n in names :: ValidName(n))
    && (forall i | 0 <= i < |edits| :: edits[i].name in names)
    && (forall i, n | 0 <= i < |edits| && n in names :: FreeOf(Strip(edits[i].content), Begin(n), End(n)))
  }

  lemma {:induction false} FileIsDocument(edits: seq<Edit>, names: set<string>) returns (d: Doc)
    requires Polite(edits, names)
    ensures WellFormed(d, names)
    ensures Render(d) == if FileAfter(edits).Some? then FileAfter(edits).value else ""
    ensures forall n | n in names :: Read(d, n) == LastBody(edits, n)
    decreases |edits|
  {
    if edits == [] {
      d := Doc("", []);
      EmptyWellFormed(names);
    } else {
      PoliteSoFar(edits, names);
      var d0 := FileIsDocument(edits[..|edits| - 1], names);
      d := Edited(d0, edits[|edits| - 1], names);
    }
  }

  lemma PoliteSoFar(edits: seq<Edit>, names: set<string>)
    requires Polite(edits, names) && edits != []
    ensures var last := edits[|edits| - 1];
            Polite(edits[..|edits| - 1], names) && last.name in names
            && forall n | n in names :: FreeOf(Strip(last.content), Begin(n), End(n))
  {
  }

  lemma Edited(d0: Doc, edit: Edit, names: set<string>) returns (d: Doc)
    requires WellFormed(d0, names) && edit.name in names
    requires forall n | n in names :: FreeOf(Strip(edit.content), Begin(n), End(n))
    ensures WellFormed(d, names) && Render(d) == Replace(Render(d0), Begin(edit.name), End(edit.name), edit.content)
    ensures forall n | n in names :: Read(d, n) == if n == edit.name then Some(Written(edit.content)) else Read(d0, n)
  {
    d := Update(d0, edit.name, edit.content);
    UpdateRefines(d0, edit.name, names, edit.content);
    forall n | n in names ensures Read(d, n) == if n == edit.name then Some(Written(edit.content)) else Read(d0, n) {
      UpdateReads(d0, edit.name, names, edit.content, n);
    }
  }

  lemma EmptyWellFormed(names: set<string>)
    requires forall n | n in names :: ValidName(n)
    ensures WellFormed(Doc("", []), names)
  {
    forall n | n in names ensures Plain(Doc("", []), n) {
      NamesGiveMarkers(n);
      AllNewlinesFree("", Begin(n));
      AllNewlinesFree("", End(n));
    }
  }

  /** However many writers share the file and however their updates alternate, each reads
      back exactly what it last wrote, stripped and on lines of its own, and a section never
      written is absent. */
  lemma EachReadsItsLast(edits: seq<Edit>, names: set<string>, n: string)
    requires Polite(edits, names) && n in names
    ensures var text := if FileAfter(edits).Some? then FileAfter(edits).value else "";
            match LastContent(edits, n)
            case None => Body(text, Begin(n), End(n)) == None
            case Some(content) =>
              exists t :: Stripped(content, t) && Body(text, Begin(n), End(n)) == Some("\n" + t + "\n")
  {
    var d := FileIsDocument(edits, names);
    ReadRefines(d, n, names);
    var last := LastContent(edits, n);
    if last.Some? {
      StripIs(last.value, Strip(last.value));
    }
  }
}
