/** `wrapText` of the share image: greedy line breaking at spaces. */
module TextWrap {
  const SPACE := ' '

  /** The words joined with one space. */
  function Join(words: seq<string>): string {
    if |words| == 0 then ""
    else if |words| == 1 then words[0]
    else Join(words[..|words| - 1]) + [SPACE] + words[|words| - 1]
  }

  /** `text.split(' ')`: consecutive spaces give empty words. */
  function Split(text: string): (words: seq<string>)
    ensures |words| > 0 && forall w | w in words :: SPACE !in w
  {
    if text == "" then [""]
    else
      var words := Split(text[..|text| - 1]);
      var c := text[|text| - 1];
      var n := |words| - 1;
      if c == SPACE then words + [""] else words[..n] + [words[n] + [c]]
  }

  /** The text without its spaces. */
  function Visible(text: string): string {
    if text == "" then ""
    else Visible(text[..|text| - 1]) + if text[|text| - 1] == SPACE then "" else [text[|text| - 1]]
  }

  ghost predicate NoEmpty(words: seq<string>) {
    forall w | w in words :: w != ""
  }

  /** No leading, trailing or double space. */
  ghost predicate Tidy(text: string) {
    NoEmpty(Split(text))
  }

  function Flatten(groups: seq<seq<string>>): seq<string> {
    if groups == [] then [] else Flatten(groups[..|groups| - 1]) + groups[|groups| - 1]
  }

  /** One line may hold these words. */
  predicate Fits(group: seq<string>, max: nat) {
    |group| == 1 || (|group| > 1 && |Join(group)| <= max)
  }

  /** Some way to break the words into lines. */
  ghost predicate Breaks(groups: seq<seq<string>>, words: seq<string>, max: nat) {
    Flatten(groups) == words && forall g | g in groups :: Fits(g, max)
  }

  /** The first `n` words need at least `k` lines. */
  ghost predicate Needs(words: seq<string>, n: nat, k: nat, max: nat)
    requires n <= |words|
  {
    forall groups | Breaks(groups, words[..n], max) :: |groups| >= k
  }

  // ---------- Splitting and joining ----------

  lemma JoinSnoc(words: seq<string>, w: string)
    ensures Join(words + [w]) == if words == [] then w else Join(words) + [SPACE] + w
  {
    assert (words + [w])[..|words|] == words;
  }

  lemma SplitSnoc(text: string, c: char)
    ensures var words := Split(text); var n := |words| - 1;
            Split(text + [c]) == if c == SPACE then words + [""] else words[..n] + [words[n] + [c]]
  {
    assert (text + [c])[..|text|] == text;
  }

  lemma {:induction false} JoinOfSplit(text: string)
    ensures Join(Split(text)) == text
  {
    if text == "" {
      EmptySplit();
    } else {
      hide Split, Join;
      var init, c := text[..|text| - 1], text[|text| - 1];
      assert text == init + [c];
      JoinOfSplit(init);
      SplitSnoc(init, c);
      var words := Split(init);
      var n := |words| - 1;
      assert words == words[..n] + [words[n]];
      JoinSnoc(words, "");
      JoinSnoc(words[..n], words[n]);
      JoinSnoc(words[..n], words[n] + [c]);
      if n > 0 {
        Associative(Join(words[..n]) + [SPACE], words[n], [c]);
      }
    }
  }

  /** `Split` is the inverse of `Join` on words without spaces. */
  lemma {:induction false} SplitOfJoin(words: seq<string>)
    requires |words| > 0 && forall w | w in words :: SPACE !in w
    ensures Split(Join(words)) == words
    decreases |words|, |words[|words| - 1]|
  {
    hide Split, Join;
    var n := |words| - 1;
    var init, last := words[..n], words[n];
    assert words == init + [last];
    JoinSnoc(init, last);
    if last == "" {
      if n == 0 {
        EmptySplit();
      } else {
        SplitOfJoin(init);
        SplitSnoc(Join(init), SPACE);
        assert Join(words) == Join(init) + [SPACE];
      }
    } else {
      var head, c := last[..|last| - 1], last[|last| - 1];
      assert last == head + [c] && c in last;
      assert forall x | x in head :: x in last;
      var shorter := init + [head];
      assert forall w | w in shorter :: w in words || w == head;
      SplitOfJoin(shorter);
      JoinSnoc(init, head);
      SplitSnoc(Join(shorter), c);
      assert Join(words) == Join(shorter) + [c];
    }
  }

  lemma EmptySplit()
    ensures Split("") == [""]
  {
  }

  lemma {:induction false} VisibleAppend(a: string, b: string)
    ensures Visible(a + b) == Visible(a) + Visible(b)
  {
    if b == "" {
      assert a + b == a;
    } else {
      var init := b[..|b| - 1];
      VisibleAppend(a, init);
      assert (a + b)[..|a + b| - 1] == a + init;
    }
  }

  lemma VisibleSnoc(words: seq<string>, w: string)
    ensures Visible(Join(words + [w])) == Visible(Join(words)) + Visible(w)
  {
    JoinSnoc(words, w);
    if words != [] {
      VisibleAppend(Join(words) + [SPACE], w);
      VisibleAppend(Join(words), [SPACE]);
      assert Visible([SPACE]) == "";
    }
  }

  /** A line of fewer words is not longer. */
  lemma {:induction false} JoinSuffix(a: seq<string>, b: seq<string>)
    requires b != []
    ensures |Join(a + b)| >= |Join(b)|
  {
    var n := |b| - 1;
    assert a + b == (a + b[..n]) + [b[n]] && b == b[..n] + [b[n]];
    JoinSnoc(a + b[..n], b[n]);
    JoinSnoc(b[..n], b[n]);
    if n > 0 {
      JoinSuffix(a, b[..n]);
    }
  }

  // ---------- Greedy breaking is optimal ----------

  lemma FlattenSnoc(groups: seq<seq<string>>, g: seq<string>)
    ensures Flatten(groups + [g]) == Flatten(groups) + g
  {
    assert (groups + [g])[..|groups|] == groups;
  }

  /** The last line of a break of the first `n` words starts at some word `s`. */
  lemma LastLine(groups: seq<seq<string>>, words: seq<string>, n: nat, max: nat) returns (s: nat)
    requires 0 < n <= |words| && Breaks(groups, words[..n], max)
    ensures |groups| > 0 && s < n && groups[|groups| - 1] == words[s..n] && Fits(words[s..n], max)
    ensures Breaks(groups[..|groups| - 1], words[..s], max)
  {
    assert |Flatten(groups)| == n;
    var init, last := groups[..|groups| - 1], groups[|groups| - 1];
    assert groups == init + [last] && last in groups;
    s := |Flatten(init)|;
    assert Flatten(init) + last == words[..n];
    assert words[..s] == words[..n][..s] == Flatten(init);
    assert words[s..n] == words[..n][s..] == last;
  }

  /** Taking the last word off the last line. */
  lemma Shorten(groups: seq<seq<string>>, words: seq<string>, n: nat, max: nat) returns (shorter: seq<seq<string>>)
    requires 0 < n < |words| && Breaks(groups, words[..n + 1], max)
    ensures Breaks(shorter, words[..n], max) && |shorter| <= |groups|
  {
    var s := LastLine(groups, words, n + 1, max);
    var init := groups[..|groups| - 1];
    if s == n {
      shorter := init;
    } else {
      hide Join;
      shorter := init + [words[s..n]];
      FlattenSnoc(init, words[s..n]);
      assert words[..s] + words[s..n] == words[..n];
      assert words[s..n + 1] == words[s..n] + [words[n]];
      JoinSnoc(words[s..n], words[n]);
    }
  }

  /** A shorter prefix needs no more lines. */
  lemma NeedsGrows(words: seq<string>, n: nat, k: nat, max: nat)
    requires 0 < n < |words| && Needs(words, n, k, max)
    ensures Needs(words, n + 1, k, max)
  {
    hide Breaks;
    forall groups | Breaks(groups, words[..n + 1], max) ensures |groups| >= k {
      var shorter := Shorten(groups, words, n, max);
    }
  }

  /** When the words from `start` to `n` do not fit one line, the next line is unavoidable. */
  lemma NeedsAnother(words: seq<string>, start: nat, n: nat, k: nat, max: nat)
    requires start < n < |words| && |Join(words[start..n + 1])| > max
    requires forall j | start < j <= n :: Needs(words, j, k, max)
    ensures Needs(words, n + 1, k + 1, max)
  {
    forall groups | Breaks(groups, words[..n + 1], max) ensures |groups| >= k + 1 {
      var s := LastLine(groups, words, n + 1, max);
      if s <= start {
        assert words[s..n + 1] == words[s..start] + words[start..n + 1];
        JoinSuffix(words[s..start], words[start..n + 1]);
        assert false;
      } else {
        assert Needs(words, s, k, max);
      }
    }
  }

  lemma NeedsOne(words: seq<string>, max: nat)
    requires |words| > 0
    ensures Needs(words, 1, 1, max)
  {
    forall groups | Breaks(groups, words[..1], max) ensures |groups| >= 1 {
      var s := LastLine(groups, words, 1, max);
    }
  }

  // ---------- The loop ----------

  /** The loop after `i > 0` words: `lines` are the first words up to `start`, `current` the words
      from `start`, and no break of more than `start` words has fewer lines. */
  ghost predicate Ahead(words: seq<string>, i: nat, start: nat, groups: seq<seq<string>>, lines: seq<string>,
                        current: string, k: nat, max: nat)
    requires i <= |words|
  {
    && start < i && |groups| == |lines| && k == |lines| + 1
    && current != "" && current == Join(words[start..i]) && Join(lines + [current]) == Join(words[..i])
    && Breaks(groups, words[..start], max) && Fits(words[start..i], max)
    && forall j | start < j <= i :: Needs(words, j, k, max)
  }

  lemma AheadStarts(words: seq<string>, max: nat)
    requires |words| > 0 && words[0] != ""
    ensures Ahead(words, 1, 0, [], [], words[0], 1, max)
  {
    NeedsOne(words, max);
    assert words[0..1] == [words[0]] == words[..1] && [] + [words[0]] == [words[0]];
    assert words[..0] == [];
  }

  lemma AheadExtends(words: seq<string>, i: nat, start: nat, groups: seq<seq<string>>, lines: seq<string>,
                     current: string, k: nat, max: nat)
    requires i < |words| && Ahead(words, i, start, groups, lines, current, k, max)
    requires |current + [SPACE] + words[i]| <= max
    ensures Ahead(words, i + 1, start, groups, lines, current + [SPACE] + words[i], k, max)
  {
    hide Join, Breaks, Needs;
    var word := words[i];
    assert words[..i + 1] == words[..i] + [word] && words[start..i + 1] == words[start..i] + [word];
    JoinSnoc(words[..i], word);
    JoinSnoc(words[start..i], word);
    JoinSnoc(lines, current);
    JoinSnoc(lines, current + [SPACE] + word);
    NeedsGrows(words, i, k, max);
    if lines != [] {
      assert Join(lines) + [SPACE] + (current + [SPACE] + word) == (Join(lines) + [SPACE] + current) + [SPACE] + word;
    }
  }

  lemma OneWord(words: seq<string>, i: nat)
    requires i < |words|
    ensures words[i..i + 1] == [words[i]] && Join(words[i..i + 1]) == words[i]
  {
    assert words[i..i + 1] == [words[i]];
  }

  lemma BreaksSnoc(groups: seq<seq<string>>, words: seq<string>, start: nat, i: nat, max: nat)
    requires start <= i <= |words| && Breaks(groups, words[..start], max) && Fits(words[start..i], max)
    ensures Breaks(groups + [words[start..i]], words[..i], max)
  {
    hide Fits;
    FlattenSnoc(groups, words[start..i]);
    assert words[..start] + words[start..i] == words[..i];
  }

  lemma LineIsFull(words: seq<string>, i: nat, start: nat, k: nat, max: nat)
    requires start < i < |words| && |Join(words[start..i]) + [SPACE] + words[i]| > max
    requires forall j | start < j <= i :: Needs(words, j, k, max)
    ensures Needs(words, i + 1, k + 1, max)
  {
    hide Needs, Join;
    assert words[start..i + 1] == words[start..i] + [words[i]];
    JoinSnoc(words[start..i], words[i]);
    NeedsAnother(words, start, i, k, max);
  }

  lemma JoinGoesOn(words: seq<string>, i: nat, lines: seq<string>)
    requires 0 < i < |words| && lines != [] && Join(lines) == Join(words[..i])
    ensures Join(lines + [words[i]]) == Join(words[..i + 1])
  {
    hide Join;
    assert words[..i + 1] == words[..i] + [words[i]];
    JoinSnoc(words[..i], words[i]);
    JoinSnoc(lines, words[i]);
  }

  lemma AheadBreaks(words: seq<string>, i: nat, start: nat, groups: seq<seq<string>>, lines: seq<string>,
                    current: string, k: nat, max: nat)
    requires i < |words| && Ahead(words, i, start, groups, lines, current, k, max) && words[i] != ""
    requires |current + [SPACE] + words[i]| > max
    ensures Ahead(words, i + 1, i, groups + [words[start..i]], lines + [current], words[i], k + 1, max)
  {
    OneWord(words, i);
    hide Needs, Join, Breaks;
    LineIsFull(words, i, start, k, max);
    JoinGoesOn(words, i, lines + [current]);
    BreaksSnoc(groups, words, start, i, max);
  }

  lemma AheadEnds(words: seq<string>, start: nat, groups: seq<seq<string>>, lines: seq<string>,
                  current: string, k: nat, max: nat)
    requires Ahead(words, |words|, start, groups, lines, current, k, max)
    ensures Join(lines + [current]) == Join(words)
    ensures Breaks(groups + [words[start..]], words, max) && |groups + [words[start..]]| == |lines + [current]|
    ensures forall all | Breaks(all, words, max) :: |lines + [current]| <= |all|
  {
    hide Join, Fits;
    assert words[..|words|] == words && words[start..] == words[start..|words|];
    FlattenSnoc(groups, words[start..]);
    assert words[..start] + words[start..] == words;
    assert Needs(words, |words|, k, max);
  }

  lemma {:induction false} FirstVisible(lines: seq<string>)
    requires forall l | l in lines :: l != "" && l[0] != SPACE
    ensures if lines == [] then Join(lines) == "" else Join(lines) != "" && Join(lines)[0] != SPACE
  {
    if lines != [] {
      assert lines[0] in lines;
      if |lines| > 1 {
        var init := lines[..|lines| - 1];
        forall l | l in init ensures l != "" && l[0] != SPACE {
          assert l in lines;
        }
        FirstVisible(init);
      }
    }
  }

  /** What the lines so far and the line being filled show. */
  ghost function Shown(lines: seq<string>, current: string): string {
    Visible(Join(lines)) + Visible(current)
  }

  lemma VisibleSpaced(a: string, b: string)
    ensures Visible(a + [SPACE] + b) == Visible(a) + Visible(b)
  {
    assert Visible([SPACE]) == "";
    hide Visible;
    VisibleAppend(a + [SPACE], b);
    VisibleAppend(a, [SPACE]);
    Associative(Visible(a), "", "");
  }

  lemma Associative(a: string, b: string, c: string)
    ensures (a + b) + c == a + (b + c) && a + "" == a
  {
  }

  /** However the loop places a word, what is shown grows by that word. */
  lemma ShownExtends(lines: seq<string>, current: string, word: string)
    ensures Shown(lines, current + [SPACE] + word) == Shown(lines, current) + Visible(word)
    ensures Shown(lines + [current], word) == Shown(lines, current) + Visible(word)
    ensures current == "" ==> Shown(lines, word) == Shown(lines, current) + Visible(word)
  {
    assert Visible("") == "";
    hide Visible, Join;
    VisibleSnoc(lines, current);
    VisibleSpaced(current, word);
    Associative(Visible(Join(lines)), Visible(current), Visible(word));
  }

  lemma ShownAtLast(lines: seq<string>, current: string)
    ensures Visible(Join(if current == "" then lines else lines + [current])) == Shown(lines, current)
  {
    VisibleSnoc(lines, current);
  }

  /** A line that shows something at once, and fits or is a single word. */
  predicate LineOk(l: string, max: nat) {
    l != "" && l[0] != SPACE && (|l| <= max || SPACE !in l)
  }

  lemma CandidateOk(current: string, word: string, max: nat)
    requires LineOk(current, max)
    ensures |current + [SPACE] + word| <= max ==> LineOk(current + [SPACE] + word, max)
  {
    assert (current + [SPACE] + word)[0] == current[0];
  }

  lemma WordOk(words: seq<string>, i: nat, max: nat)
    requires i < |words| && forall w | w in words :: SPACE !in w
    ensures words[i] != "" ==> LineOk(words[i], max)
  {
    assert words[i] in words;
    assert words[i] != "" ==> words[i][0] in words[i];
  }

  /** The loop invariant after `i` words. */
  ghost predicate Wrapping(words: seq<string>, i: nat, start: nat, groups: seq<seq<string>>, lines: seq<string>,
                           current: string, k: nat, max: nat)
    requires i <= |words|
  {
    && (forall l | l in lines :: LineOk(l, max))
    && (current == "" || LineOk(current, max))
    && Shown(lines, current) == Visible(Join(words[..i]))
    && start <= i
    && (i == 0 ==> start == 0 && groups == [] && lines == [] && current == "" && k == 1)
    && (NoEmpty(words) && i > 0 ==> Ahead(words, i, start, groups, lines, current, k, max))
  }

  lemma WrappingStarts(words: seq<string>, max: nat)
    ensures Wrapping(words, 0, 0, [], [], "", 1, max)
  {
    assert words[..0] == [];
  }

  lemma ShownMore(words: seq<string>, i: nat, lines: seq<string>, current: string)
    requires i < |words| && Shown(lines, current) == Visible(Join(words[..i]))
    ensures Shown(lines, current + [SPACE] + words[i]) == Visible(Join(words[..i + 1]))
    ensures Shown(lines + [current], words[i]) == Visible(Join(words[..i + 1]))
    ensures current == "" ==> Shown(lines, words[i]) == Visible(Join(words[..i + 1]))
  {
    hide Visible, Join, Shown;
    assert words[..i + 1] == words[..i] + [words[i]];
    VisibleSnoc(words[..i], words[i]);
    ShownExtends(lines, current, words[i]);
  }

  /** Another line closes the words from `start`. */
  ghost function StartLine(words: seq<string>, i: nat, start: nat, groups: seq<seq<string>>): seq<seq<string>> {
    if start <= i <= |words| then groups + [words[start..i]] else groups
  }

  /** The word starts a new line. */
  lemma Pushes(words: seq<string>, i: nat, start: nat, groups: seq<seq<string>>, lines: seq<string>,
               current: string, k: nat, max: nat)
    requires i < |words| && Wrapping(words, i, start, groups, lines, current, k, max)
    requires forall w | w in words :: SPACE !in w
    requires |current + [SPACE] + words[i]| > max && current != ""
    ensures Wrapping(words, i + 1, i, StartLine(words, i, start, groups), lines + [current], words[i], k + 1, max)
  {
    hide Visible, Join, Shown, LineOk, Ahead;
    ShownMore(words, i, lines, current);
    WordOk(words, i, max);
    assert words[i] in words;
    if NoEmpty(words) {
      AheadBreaks(words, i, start, groups, lines, current, k, max);
    }
  }

  /** The word joins the current line. */
  lemma Fills(words: seq<string>, i: nat, start: nat, groups: seq<seq<string>>, lines: seq<string>,
              current: string, k: nat, max: nat)
    requires i < |words| && Wrapping(words, i, start, groups, lines, current, k, max)
    requires forall w | w in words :: SPACE !in w
    requires current != "" ==> |current + [SPACE] + words[i]| <= max
    ensures var candidate := if current != "" then current + [SPACE] + words[i] else words[i];
            Wrapping(words, i + 1, start, groups, lines, candidate, k, max)
  {
    ShownMore(words, i, lines, current);
    WordOk(words, i, max);
    assert words[i] in words;
    if NoEmpty(words) {
      if i == 0 {
        AheadStarts(words, max);
      } else {
        AheadExtends(words, i, start, groups, lines, current, k, max);
      }
    }
    hide Visible, Join, Shown, LineOk, NoEmpty;
    if current != "" {
      CandidateOk(current, words[i], max);
    }
  }

  /** What the method promises of its result. */
  ghost predicate Wrapped(text: string, max: nat, lines: seq<string>) {
    && (forall l | l in lines :: LineOk(l, max))
    && Visible(Join(lines)) == Visible(text)
    && (Tidy(text) ==>
          && Join(lines) == text
          && (exists groups :: Breaks(groups, Split(text), max) && |groups| == |lines|)
          && (forall groups | Breaks(groups, Split(text), max) :: |lines| <= |groups|))
  }

  lemma WrappingEnds(text: string, start: nat, groups: seq<seq<string>>, lines: seq<string>, current: string, k: nat,
                     max: nat)
    requires Wrapping(Split(text), |Split(text)|, start, groups, lines, current, k, max)
    ensures Wrapped(text, max, if current != "" then lines + [current] else lines)
  {
    hide Visible, Join, Split, Ahead, Breaks, Shown, LineOk;
    var words := Split(text);
    assert words[..|words|] == words;
    JoinOfSplit(text);
    ShownAtLast(lines, current);
    if NoEmpty(words) {
      AheadEnds(words, start, groups, lines, current, k, max);
      NotEmpty(words, start, groups, lines, current, k, max);
    }
  }

  lemma NotEmpty(words: seq<string>, start: nat, groups: seq<seq<string>>, lines: seq<string>,
                 current: string, k: nat, max: nat)
    requires Ahead(words, |words|, start, groups, lines, current, k, max)
    ensures current != ""
  {
  }

  lemma LeadingSpaceIsLost(text: string, lines: seq<string>, max: nat)
    requires forall l | l in lines :: LineOk(l, max)
    ensures text != "" && text[0] == SPACE ==> Join(lines) != text
  {
    FirstVisible(lines);
  }

  /** For every text, each line fits or is a single word, and only spaces are lost. For a tidy text
      the lines joined with spaces are the text, and no break into fitting lines has fewer lines. A
      leading space is always lost. */
  method WrapText(text: string, max: nat) returns (lines: seq<string>)
    ensures Wrapped(text, max, lines)
    ensures text != "" && text[0] == SPACE ==> Join(lines) != text
  {
    hide Visible, Join, Split, Wrapping, LineOk, Tidy, Breaks;
    var words := Split(text);
    lines := [];
    var current := "";
    ghost var start, groups, k := 0, [], 1;
    WrappingStarts(words, max);
    for i := 0 to |words|
      invariant Wrapping(words, i, start, groups, lines, current, k, max)
    {
      var word := words[i];
      var candidate := if current != "" then current + [SPACE] + word else word;
      if |candidate| > max && current != "" {
        Pushes(words, i, start, groups, lines, current, k, max);
        groups, start, k := StartLine(words, i, start, groups), i, k + 1;
        lines := lines + [current];
        current := word;
      } else {
        Fills(words, i, start, groups, lines, current, k, max);
        current := candidate;
      }
    }
    WrappingEnds(text, start, groups, lines, current, k, max);
    if current != "" {
      lines := lines + [current];
    }
    LeadingSpaceIsLost(text, lines, max);
  }
}
