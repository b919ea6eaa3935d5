/** The chat's message formatting: a message is cut into lines at `\n`, and in each
    line every `**…**` pair found by the global regular expression `\*\*(.*?)\*\*`
    becomes a bold fragment, with the text between pairs kept as plain fragments. */
module ChatFormat {
  import opened Wrappers
  import opened Text

  /** The characters the regular-expression dot does not match. */
  predicate IsLineTerminator(c: char) {
    c == '\n' || c == '\r' || c == '\U{2028}' || c == '\U{2029}'
  }

  /** `line` has `**` at index `k`. */
  predicate StarsAt(line: string, k: int) {
    0 <= k && k + 2 <= |line| && line[k] == '*' && line[k + 1] == '*'
  }

  /** The character at `t` can lie inside a bold group: it is neither the start of a
      `**` nor a line terminator. */
  predicate GroupChar(line: string, t: int) {
    0 <= t < |line| && !StarsAt(line, t) && !IsLineTerminator(line[t])
  }

  /** Some line terminator lies in `line[a..b]`. */
  predicate TerminatorIn(line: string, a: int, b: int) {
    exists m :: 0 <= a <= m < b && m < |line| && IsLineTerminator(line[m])
  }

  /** The lazy `(.*?)\*\*` from index `k`: the first `**` at or after `k`, provided no
      line terminator comes before it. */
  function CloseFrom(line: string, k: nat): (c: Option<nat>)
    ensures c.Some? ==> k <= c.value && StarsAt(line, c.value)
    ensures c.Some? ==> forall m :: k <= m < c.value ==> GroupChar(line, m)
    ensures c.None? ==> forall j :: k <= j && StarsAt(line, j) ==> TerminatorIn(line, k, j)
    decreases |line| - k
  {
    if k + 2 > |line| then None
    else if StarsAt(line, k) then Some(k)
    else if IsLineTerminator(line[k]) then None
    else CloseFrom(line, k + 1)
  }

  /** A match: the index of the opening `**` and the index of the closing `**`. The
      captured group is `line[start + 2..close]`; the match ends at `close + 2`. */
  datatype BoldMatch = BoldMatch(start: nat, close: nat)

  /** A match as the regular expression finds it: both pairs present, and between them
      neither a `**` nor a line terminator. */
  predicate Genuine(line: string, m: BoldMatch) {
    StarsAt(line, m.start) && m.start + 2 <= m.close && StarsAt(line, m.close) &&
    forall t :: m.start + 2 <= t < m.close ==> GroupChar(line, t)
  }

  /** The match starting exactly at index `i`, if any. */
  function MatchAt(line: string, i: nat): (r: Option<BoldMatch>)
    ensures r.Some? ==> r.value.start == i && Genuine(line, r.value)
    ensures r.None? <==> !StarsAt(line, i) || CloseFrom(line, i + 2).None?
  {
    if StarsAt(line, i) then
      match CloseFrom(line, i + 2)
      case Some(c) => Some(BoldMatch(i, c))
      case None => None
    else None
  }

  /** The leftmost match at or after index `p`. */
  function NextMatch(line: string, p: nat): (r: Option<BoldMatch>)
    ensures r.Some? ==> p <= r.value.start && MatchAt(line, r.value.start) == r
    ensures r.Some? ==> forall i: nat :: p <= i < r.value.start ==> MatchAt(line, i).None?
    ensures r.None? ==> forall i: nat :: p <= i ==> MatchAt(line, i).None?
    decreases |line| - p
  {
    if p >= |line| then None
    else if MatchAt(line, p).Some? then MatchAt(line, p)
    else NextMatch(line, p + 1)
  }

  /** Consecutive matches within the line, each starting at or after the end of the
      previous one (from `p` on). */
  predicate Chain(line: string, ms: seq<BoldMatch>, p: int)
    decreases |ms|
  {
    |ms| == 0 ||
    (p <= ms[0].start && ms[0].start + 2 <= ms[0].close && ms[0].close + 2 <= |line| &&
     Chain(line, ms[1..], ms[0].close + 2))
  }

  /** Every match in `ms` is genuine. */
  predicate AllGenuine(line: string, ms: seq<BoldMatch>)
    decreases |ms|
  {
    |ms| == 0 || (Genuine(line, ms[0]) && AllGenuine(line, ms[1..]))
  }

  /** `[...line.matchAll(boldRegex)]` from index `p`: after each match the search
      resumes where that match ended. */
  function MatchesFrom(line: string, p: nat): (ms: seq<BoldMatch>)
    ensures Chain(line, ms, p) && AllGenuine(line, ms)
    ensures |ms| == 0 <==> NextMatch(line, p).None?
    ensures |ms| > 0 ==> NextMatch(line, p) == Some(ms[0])
    decreases |line| - p
  {
    match NextMatch(line, p)
    case None => []
    case Some(m) =>
      var rest := MatchesFrom(line, m.close + 2);
      assert ([m] + rest)[1..] == rest;
      [m] + rest
  }

  /** The search that resumes where match `m` ends finds `next`. */
  predicate ResumesAt(line: string, m: BoldMatch, next: Option<BoldMatch>) {
    NextMatch(line, m.close + 2) == next
  }

  /** `matchAll` skips no match: each match after the first is the leftmost one from
      the end of its predecessor, and after the last match there is none. */
  lemma {:induction false} MatchesResume(line: string, p: nat)
    ensures var ms := MatchesFrom(line, p);
      forall k :: 0 <= k < |ms| - 1 ==> ResumesAt(line, ms[k], Some(ms[k + 1]))
    ensures var ms := MatchesFrom(line, p);
      |ms| > 0 ==> ResumesAt(line, ms[|ms| - 1], None)
    decreases |line| - p
  {
    var ms := MatchesFrom(line, p);
    if |ms| > 0 {
      var m := ms[0];
      var rest := MatchesFrom(line, m.close + 2);
      assert ms == [m] + rest;
      MatchesResume(line, m.close + 2);
      ResumesCons(line, m, rest);
    }
  }

  /** Prepending a match whose resumed search finds the head of a resuming sequence
      keeps it resuming. */
  lemma ResumesCons(line: string, m: BoldMatch, rest: seq<BoldMatch>)
    requires forall k :: 0 <= k < |rest| - 1 ==> ResumesAt(line, rest[k], Some(rest[k + 1]))
    requires |rest| > 0 ==> ResumesAt(line, rest[|rest| - 1], None)
    requires |rest| == 0 ==> ResumesAt(line, m, None)
    requires |rest| > 0 ==> ResumesAt(line, m, Some(rest[0]))
    ensures var ms := [m] + rest;
      forall k :: 0 <= k < |ms| - 1 ==> ResumesAt(line, ms[k], Some(ms[k + 1]))
    ensures ResumesAt(line, ([m] + rest)[|rest|], None)
  {
    var ms := [m] + rest;
    forall k | 0 <= k < |ms| - 1
      ensures ResumesAt(line, ms[k], Some(ms[k + 1]))
    {
      if k > 0 {
        assert ms[k] == rest[k - 1] && ms[k + 1] == rest[k];
      }
    }
  }

  /** A piece of a formatted line. */
  datatype Fragment = Plain(text: string) | Bold(text: string)

  /** How a line is shown: as the unchanged text when it has no match, or as its
      fragments otherwise. */
  datatype Span = Unformatted(text: string) | Formatted(parts: seq<Fragment>)

  /** The plain text between the end of the previous match and the next match, when
      there is any. */
  function Lead(line: string, last: nat, start: nat): seq<Fragment>
    requires last <= start <= |line|
  {
    if start > last then [Plain(line[last..start])] else []
  }

  /** The captured group `match[1]` of a match. */
  function Group(line: string, m: BoldMatch): string
    requires m.start + 2 <= m.close <= |line|
  {
    line[m.start + 2..m.close]
  }

  /** What the loop over `boldMatches` builds, from `last` on: the plain text before
      each match when there is any, the captured group in bold, and any plain text
      after the last match. */
  function Fragments(line: string, ms: seq<BoldMatch>, last: nat): seq<Fragment>
    requires last <= |line| && Chain(line, ms, last)
    decreases |ms|
  {
    if |ms| == 0 then
      Lead(line, last, |line|)
    else
      Lead(line, last, ms[0].start) + [Bold(Group(line, ms[0]))] + Fragments(line, ms[1..], ms[0].close + 2)
  }

  /** The span `formatMessageText` produces for one line. */
  function LineSpan(line: string): Span {
    var ms := MatchesFrom(line, 0);
    if |ms| == 0 then Unformatted(line) else Formatted(Fragments(line, ms, 0))
  }

  /** The markdown a fragment stands for. */
  function FragmentText(f: Fragment): string {
    match f
    case Plain(t) => t
    case Bold(t) => "**" + t + "**"
  }

  function Render(parts: seq<Fragment>): string
    decreases |parts|
  {
    if |parts| == 0 then "" else FragmentText(parts[0]) + Render(parts[1..])
  }

  function RenderSpan(s: Span): string {
    match s
    case Unformatted(t) => t
    case Formatted(parts) => Render(parts)
  }

  /** The displayed message: every span followed by its `<br />`, written as a newline,
      the last span included. */
  function RenderLines(spans: seq<Span>): string
    decreases |spans|
  {
    if |spans| == 0 then "" else RenderSpan(spans[0]) + "\n" + RenderLines(spans[1..])
  }

  /** Rendering spans with their breaks is joining their texts with newlines and adding
      one more newline for the last span's break. */
  lemma {:induction false} RenderLinesJoin(spans: seq<Span>, lines: seq<string>)
    requires |spans| == |lines| >= 1
    requires forall k :: 0 <= k < |spans| ==> RenderSpan(spans[k]) == lines[k]
    ensures RenderLines(spans) == Join(lines, '\n') + "\n"
    decreases |spans|
  {
    if |spans| > 1 {
      RenderLinesJoin(spans[1..], lines[1..]);
    }
  }

  lemma {:induction false} RenderAppend(a: seq<Fragment>, b: seq<Fragment>)
    ensures Render(a + b) == Render(a) + Render(b)
    decreases |a|
  {
    if |a| == 0 {
      assert a + b == b;
    } else {
      assert (a + b)[0] == a[0];
      assert (a + b)[1..] == a[1..] + b;
      RenderAppend(a[1..], b);
    }
  }

  /** The plain lead renders as the text it covers. */
  lemma LeadRender(line: string, last: nat, start: nat)
    requires last <= start <= |line|
    ensures Render(Lead(line, last, start)) == line[last..start]
  {
    if start > last {
      assert Render([Plain(line[last..start])]) == line[last..start] + Render([]);
    }
  }

  /** A slice cut in two at `j`. */
  lemma Cut(s: string, i: int, j: int, k: int)
    requires 0 <= i <= j <= k <= |s|
    ensures s[i..k] == s[i..j] + s[j..k]
  {
  }

  /** A suffix cut in two at `j`. */
  lemma CutTail(s: string, i: int, j: int)
    requires 0 <= i <= j <= |s|
    ensures s[i..] == s[i..j] + s[j..]
  {
  }

  lemma StarsSlice(line: string, k: int)
    requires StarsAt(line, k)
    ensures line[k..k + 2] == "**"
  {
  }

  /** The text a match covers is its group wrapped in `**`. */
  lemma MatchText(line: string, m: BoldMatch)
    requires StarsAt(line, m.start) && m.start + 2 <= m.close && StarsAt(line, m.close)
    ensures line[m.start..m.close + 2] == FragmentText(Bold(Group(line, m)))
  {
    var g := Group(line, m);
    StarsSlice(line, m.start);
    StarsSlice(line, m.close);
    Cut(line, m.start, m.start + 2, m.close);
    assert line[m.start..m.close] == "**" + g;
    Cut(line, m.start, m.close, m.close + 2);
    assert line[m.start..m.close + 2] == "**" + g + "**";
  }

  /** A genuine match cuts the line after `last` into the lead, the `**`-wrapped group
      and the rest. */
  lemma MatchPieces(line: string, m: BoldMatch, last: nat)
    requires last <= m.start && StarsAt(line, m.start) && m.start + 2 <= m.close && StarsAt(line, m.close)
    ensures line[last..] == line[last..m.start] + FragmentText(Bold(Group(line, m))) + line[m.close + 2..]
  {
    MatchText(line, m);
    Cut(line, last, m.start, m.close + 2);
    CutTail(line, last, m.close + 2);
  }

  /** One step of `Fragments`: the lead, the first match's group in bold, and the
      fragments from the end of that match on. */
  lemma FragmentsUnfold(line: string, ms: seq<BoldMatch>, last: nat)
    requires last <= |line| && Chain(line, ms, last) && |ms| > 0
    ensures last <= ms[0].start && ms[0].start + 2 <= ms[0].close && ms[0].close + 2 <= |line|
    ensures Chain(line, ms[1..], ms[0].close + 2)
    ensures Fragments(line, ms, last) ==
      Lead(line, last, ms[0].start) + [Bold(Group(line, ms[0]))] + Fragments(line, ms[1..], ms[0].close + 2)
  {
  }

  lemma RenderOne(f: Fragment)
    ensures Render([f]) == FragmentText(f)
  {
    assert [f][1..] == [];
  }

  lemma RenderStep(lead: seq<Fragment>, g: string, rest: seq<Fragment>)
    ensures Render(lead + [Bold(g)] + rest) == Render(lead) + FragmentText(Bold(g)) + Render(rest)
  {
    RenderAppend(lead + [Bold(g)], rest);
    RenderAppend(lead, [Bold(g)]);
    RenderOne(Bold(g));
  }

  /** The tail after the last match renders as itself. */
  lemma RenderTail(line: string, ms: seq<BoldMatch>, last: nat)
    requires last <= |line| && |ms| == 0
    ensures Render(Fragments(line, ms, last)) == line[last..]
  {
    LeadRender(line, last, |line|);
    assert line[last..] == line[last..|line|];
  }

  /** Rendering the fragments from `last` on: the lead, the first group wrapped in
      `**`, and the rendering of the fragments after the first match. */
  lemma RenderUnfold(line: string, ms: seq<BoldMatch>, last: nat)
    requires last <= |line| && |ms| > 0 && Chain(line, ms, last)
    ensures ms[0].close + 2 <= |line| && Chain(line, ms[1..], ms[0].close + 2)
    ensures Render(Fragments(line, ms, last)) == Render(Lead(line, last, ms[0].start)) +
      FragmentText(Bold(Group(line, ms[0]))) + Render(Fragments(line, ms[1..], ms[0].close + 2))
  {
    FragmentsUnfold(line, ms, last);
    RenderStep(Lead(line, last, ms[0].start), Group(line, ms[0]), Fragments(line, ms[1..], ms[0].close + 2));
  }

  /** When the first match is genuine and the fragments after it render as the rest of
      the line, the fragments from `last` on render as the line from `last` on. */
  lemma RenderCons(line: string, ms: seq<BoldMatch>, last: nat)
    requires last <= |line| && |ms| > 0 && Chain(line, ms, last) && Genuine(line, ms[0])
    requires Render(Fragments(line, ms[1..], ms[0].close + 2)) == line[ms[0].close + 2..]
    ensures Render(Fragments(line, ms, last)) == line[last..]
  {
    RenderUnfold(line, ms, last);
    LeadRender(line, last, ms[0].start);
    MatchPieces(line, ms[0], last);
  }

  /** Rendering the fragments built from `last` on gives back `line[last..]`. */
  lemma {:induction false} FragmentsRender(line: string, ms: seq<BoldMatch>, last: nat)
    requires last <= |line| && Chain(line, ms, last) && AllGenuine(line, ms)
    ensures Render(Fragments(line, ms, last)) == line[last..]
    decreases |ms|
  {
    if |ms| == 0 {
      RenderTail(line, ms, last);
    } else {
      FragmentsRender(line, ms[1..], ms[0].close + 2);
      RenderCons(line, ms, last);
    }
  }

  /** A line with no `**` pair closed before a line terminator is shown unchanged. */
  lemma LineSpanUnchanged(line: string)
    ensures LineSpan(line).Unformatted? <==> forall i: nat :: MatchAt(line, i).None?
    ensures LineSpan(line).Unformatted? ==> LineSpan(line).text == line
  {
    var ms := MatchesFrom(line, 0);
    if |ms| > 0 {
      assert MatchAt(line, ms[0].start).Some?;
    }
  }

  /** Round trip: rendering a line's span, with the bold fragments wrapped back in
      `**`, reproduces the line exactly. */
  lemma LineSpanRoundTrip(line: string)
    ensures RenderSpan(LineSpan(line)) == line
  {
    var ms := MatchesFrom(line, 0);
    if |ms| > 0 {
      FragmentsRender(line, ms, 0);
    }
  }

  /** A text with no `**` and no line terminator. */
  predicate Clean(t: string) {
    forall k :: 0 <= k < |t| ==> GroupChar(t, k)
  }

  /** The fragment rules: a plain fragment is never empty, and a bold fragment contains
      neither `**` (the match is non-greedy) nor a line terminator. */
  predicate WellFormed(f: Fragment) {
    (f.Plain? ==> f.text != "") && (f.Bold? ==> Clean(f.text))
  }

  predicate AllWellFormed(parts: seq<Fragment>) {
    forall k :: 0 <= k < |parts| ==> WellFormed(parts[k])
  }

  lemma AllWellFormedAppend(a: seq<Fragment>, b: seq<Fragment>)
    requires AllWellFormed(a) && AllWellFormed(b)
    ensures AllWellFormed(a + b)
  {
    forall k | 0 <= k < |a + b|
      ensures WellFormed((a + b)[k])
    {
      if k >= |a| {
        assert (a + b)[k] == b[k - |a|];
      }
    }
  }

  /** The captured group of a genuine match is clean. */
  lemma GroupClean(line: string, m: BoldMatch)
    requires Genuine(line, m)
    ensures Clean(Group(line, m))
  {
    var g := Group(line, m);
    forall k | 0 <= k < |g|
      ensures GroupChar(g, k)
    {
      assert GroupChar(line, m.start + 2 + k);
      assert g[k] == line[m.start + 2 + k];
      if k + 1 < |g| {
        assert g[k + 1] == line[m.start + 3 + k];
      }
    }
  }

  lemma LeadWellFormed(line: string, last: nat, start: nat)
    requires last <= start <= |line|
    ensures AllWellFormed(Lead(line, last, start))
  {
  }

  lemma WellFormedStep(lead: seq<Fragment>, g: string, rest: seq<Fragment>)
    requires AllWellFormed(lead) && Clean(g) && AllWellFormed(rest)
    ensures AllWellFormed(lead + [Bold(g)] + rest)
  {
    assert AllWellFormed([Bold(g)]);
    AllWellFormedAppend(lead, [Bold(g)]);
    AllWellFormedAppend(lead + [Bold(g)], rest);
  }

  /** Every fragment built from a chain of genuine matches follows the fragment rules. */
  lemma {:induction false} FragmentsWellFormed(line: string, ms: seq<BoldMatch>, last: nat)
    requires last <= |line| && Chain(line, ms, last) && AllGenuine(line, ms)
    ensures AllWellFormed(Fragments(line, ms, last))
    decreases |ms|
  {
    if |ms| == 0 {
      LeadWellFormed(line, last, |line|);
    } else {
      FragmentsWellFormed(line, ms[1..], ms[0].close + 2);
      WellFormedCons(line, ms, last);
    }
  }

  /** A genuine first match, followed by well-formed fragments, gives well-formed
      fragments from `last` on. */
  lemma WellFormedCons(line: string, ms: seq<BoldMatch>, last: nat)
    requires last <= |line| && |ms| > 0 && Chain(line, ms, last) && Genuine(line, ms[0])
    requires AllWellFormed(Fragments(line, ms[1..], ms[0].close + 2))
    ensures AllWellFormed(Fragments(line, ms, last))
  {
    FragmentsUnfold(line, ms, last);
    GroupClean(line, ms[0]);
    LeadWellFormed(line, last, ms[0].start);
    WellFormedStep(Lead(line, last, ms[0].start), Group(line, ms[0]), Fragments(line, ms[1..], ms[0].close + 2));
  }

  /** The bold texts of a fragment list, in order. */
  function BoldTexts(parts: seq<Fragment>): seq<string>
    decreases |parts|
  {
    if |parts| == 0 then []
    else (if parts[0].Bold? then [parts[0].text] else []) + BoldTexts(parts[1..])
  }

  lemma {:induction false} BoldTextsAppend(a: seq<Fragment>, b: seq<Fragment>)
    ensures BoldTexts(a + b) == BoldTexts(a) + BoldTexts(b)
    decreases |a|
  {
    if |a| == 0 {
      assert a + b == b;
    } else {
      assert (a + b)[0] == a[0];
      assert (a + b)[1..] == a[1..] + b;
      BoldTextsAppend(a[1..], b);
    }
  }

  /** The captured groups of a chain of matches, in order. */
  function Groups(line: string, ms: seq<BoldMatch>, last: int): seq<string>
    requires Chain(line, ms, last)
    decreases |ms|
  {
    if |ms| == 0 then [] else [Group(line, ms[0])] + Groups(line, ms[1..], ms[0].close + 2)
  }

  /** There is exactly one bold fragment per match, holding that match's group. */
  lemma {:induction false} FragmentsBold(line: string, ms: seq<BoldMatch>, last: nat)
    requires last <= |line| && Chain(line, ms, last)
    ensures BoldTexts(Fragments(line, ms, last)) == Groups(line, ms, last)
    decreases |ms|
  {
    if |ms| == 0 {
      LeadNotBold(line, last, |line|);
    } else {
      BoldUnfold(line, ms, last);
      FragmentsBold(line, ms[1..], ms[0].close + 2);
    }
  }

  /** The bold texts from `last` on: the first group, then the bold texts after the
      first match. */
  lemma BoldUnfold(line: string, ms: seq<BoldMatch>, last: nat)
    requires last <= |line| && |ms| > 0 && Chain(line, ms, last)
    ensures ms[0].close + 2 <= |line| && Chain(line, ms[1..], ms[0].close + 2)
    ensures BoldTexts(Fragments(line, ms, last)) ==
      [Group(line, ms[0])] + BoldTexts(Fragments(line, ms[1..], ms[0].close + 2))
  {
    FragmentsUnfold(line, ms, last);
    LeadNotBold(line, last, ms[0].start);
    BoldStep(Lead(line, last, ms[0].start), Group(line, ms[0]), Fragments(line, ms[1..], ms[0].close + 2));
  }

  lemma BoldStep(lead: seq<Fragment>, g: string, rest: seq<Fragment>)
    requires BoldTexts(lead) == []
    ensures BoldTexts(lead + [Bold(g)] + rest) == [g] + BoldTexts(rest)
  {
    BoldTextsAppend(lead + [Bold(g)], rest);
    BoldTextsAppend(lead, [Bold(g)]);
    BoldOne(g);
  }

  lemma BoldOne(t: string)
    ensures BoldTexts([Bold(t)]) == [t]
  {
    assert [Bold(t)][1..] == [];
  }

  lemma LeadNotBold(line: string, last: nat, start: nat)
    requires last <= start <= |line|
    ensures BoldTexts(Lead(line, last, start)) == []
  {
    if start > last {
      assert BoldTexts([Plain(line[last..start])]) == [] + BoldTexts([]);
    }
  }

  /** The scanner rules for a formatted line: every fragment follows the fragment rules
      and the bold fragments are the captured groups of the successive matches. */
  lemma LineSpanFragments(line: string)
    ensures LineSpan(line).Formatted? ==> AllWellFormed(LineSpan(line).parts)
    ensures LineSpan(line).Formatted? ==>
      BoldTexts(LineSpan(line).parts) == Groups(line, MatchesFrom(line, 0), 0)
  {
    var ms := MatchesFrom(line, 0);
    if |ms| > 0 {
      FragmentsWellFormed(line, ms, 0);
      FragmentsBold(line, ms, 0);
    }
  }

  /** One pass of the loop in `PushMatches`: moving the lead and the bold group of
      the next match from the fragments still to build to the fragments already built
      keeps the whole. */
  lemma PassStep(line: string, rest: seq<BoldMatch>, prev: nat, before: seq<Fragment>,
                 parts: seq<Fragment>, whole: seq<Fragment>)
    requires prev <= |line| && |rest| > 0 && Chain(line, rest, prev)
    requires before + Fragments(line, rest, prev) == whole
    requires prev <= rest[0].start && rest[0].start + 2 <= rest[0].close <= |line|
    requires parts == before + Lead(line, prev, rest[0].start) + [Bold(Group(line, rest[0]))]
    ensures rest[0].close + 2 <= |line| && Chain(line, rest[1..], rest[0].close + 2)
    ensures parts + Fragments(line, rest[1..], rest[0].close + 2) == whole
  {
    FragmentsUnfold(line, rest, prev);
    var lead, bold, after := Lead(line, prev, rest[0].start), [Bold(Group(line, rest[0]))],
      Fragments(line, rest[1..], rest[0].close + 2);
    assert Fragments(line, rest, prev) == lead + bold + after;
    assert before + (lead + bold + after) == whole;
    assert before + (lead + bold + after) == before + lead + bold + after;
  }

  /** Pushes the plain text between `lastIndex` and `start`, when there is any. */
  method PushPlain(parts: seq<Fragment>, line: string, lastIndex: nat, start: nat) returns (r: seq<Fragment>)
    requires lastIndex <= start <= |line|
    ensures r == parts + Lead(line, lastIndex, start)
  {
    r := parts;
    if start > lastIndex {
      r := r + [Plain(line[lastIndex..start])];
    }
  }

  /** The loop of `formatMessageText` over one line's matches, in order: it pushes
      the plain text before each match (when there is any) and the match's group in
      bold, advancing `lastIndex` past the match. `rest` holds the matches the loop
      has still to visit. What is left to push afterwards is the tail after
      `lastIndex`. */
  method PushMatches(line: string, boldMatches: seq<BoldMatch>) returns (parts: seq<Fragment>, lastIndex: nat)
    requires Chain(line, boldMatches, 0)
    ensures lastIndex <= |line| && parts + Lead(line, lastIndex, |line|) == Fragments(line, boldMatches, 0)
  {
    parts := [];
    lastIndex := 0;
    var rest := boldMatches;
    while |rest| > 0
      invariant lastIndex <= |line| && Chain(line, rest, lastIndex)
      invariant parts + Fragments(line, rest, lastIndex) == Fragments(line, boldMatches, 0)
    {
      var m := rest[0];
      FragmentsUnfold(line, rest, lastIndex);
      ghost var before, prev := parts, lastIndex;
      parts := PushPlain(parts, line, lastIndex, m.start);
      parts := parts + [Bold(line[m.start + 2..m.close])];
      assert parts == before + Lead(line, prev, m.start) + [Bold(Group(line, m))];
      PassStep(line, rest, prev, before, parts, Fragments(line, boldMatches, 0));
      ghost var after := Fragments(line, rest[1..], m.close + 2);
      lastIndex := m.start + (m.close + 2 - m.start);
      assert lastIndex == m.close + 2;
      rest := rest[1..];
      assert Fragments(line, rest, lastIndex) == after;
    }
  }

  /** One line of `formatMessageText`: the regular expression's matches are collected
      first; a line without any is kept as it is, otherwise its fragments are built
      and the plain tail after the last match, when there is any, is pushed last. */
  method FormatLine(line: string) returns (span: Span)
    ensures span == LineSpan(line)
  {
    var boldMatches := MatchesFrom(line, 0);
    if |boldMatches| > 0 {
      var parts, lastIndex := PushMatches(line, boldMatches);
      ghost var before := parts;
      if lastIndex < |line| {
        assert line[lastIndex..] == line[lastIndex..|line|];
        parts := parts + [Plain(line[lastIndex..])];
      }
      assert parts == before + Lead(line, lastIndex, |line|);
      span := Formatted(parts);
    } else {
      span := Unformatted(line);
    }
  }

  /** `formatMessageText`: one span per `\n`-separated line, each formatted on its own.
      There is one span more than there are newlines, and rendering the spans and
      joining them with newlines gives back the message. */
  method FormatMessageText(text: string) returns (spans: seq<Span>)
    ensures |spans| == |Split(text, '\n')| == multiset(text)['\n'] + 1
    ensures forall k :: 0 <= k < |spans| ==> spans[k] == LineSpan(Split(text, '\n')[k])
    ensures Join(seq(|spans|, k requires 0 <= k < |spans| => RenderSpan(spans[k])), '\n') == text
    ensures RenderLines(spans) == text + "\n"
  {
    var lines := Split(text, '\n');
    spans := [];
    for i := 0 to |lines|
      invariant |spans| == i
      invariant forall k :: 0 <= k < i ==> spans[k] == LineSpan(lines[k])
    {
      var span := FormatLine(lines[i]);
      spans := spans + [span];
    }
    SplitPieces(text, '\n');
    JoinSplit(text, '\n');
    forall k | 0 <= k < |spans|
      ensures RenderSpan(spans[k]) == lines[k]
    {
      LineSpanRoundTrip(lines[k]);
    }
    assert seq(|spans|, k requires 0 <= k < |spans| => RenderSpan(spans[k])) == lines;
    RenderLinesJoin(spans, lines);
  }
}
