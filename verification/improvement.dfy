/**
 * The structured suggestion the improvement persona returns, its defaults, and
 * the compact line-by-line summary rendered for people.
 */
module Improvement {
  import opened Basics
  import opened Text

  datatype ToolPlan = ToolPlan(enable: seq<string>, disable: seq<string>)

  /** A proposed knowledge source, before the location rule is applied. */
  datatype SourcePlan = SourcePlan(
    name: string,
    url: Option<string>,
    path: Option<string>,
    description: Option<string>,
    metadata: map<string, string>)

  datatype KnowledgePlan = KnowledgePlan(refresh: seq<string>, add: seq<SourcePlan>)

  datatype Suggestion = Suggestion(
    summary: string,
    instructions: Option<string>,
    toolPlan: ToolPlan,
    knowledgePlan: KnowledgePlan,
    followUps: seq<string>)

  /** Every plan field defaults to empty or absent; only the summary is required. */
  function SummaryOnly(summary: string): (s: Suggestion)
    ensures s.summary == summary && !Truthy(s.instructions)
    ensures |s.toolPlan.enable| == 0 && |s.toolPlan.disable| == 0
    ensures |s.knowledgePlan.refresh| == 0 && |s.knowledgePlan.add| == 0 && |s.followUps| == 0
  {
    Suggestion(summary, None, ToolPlan([], []), KnowledgePlan([], []), [])
  }

  /** The names of the planned sources, in plan order. */
  function PlanNames(add: seq<SourcePlan>): (r: seq<string>)
    ensures |r| == |add| && forall i :: 0 <= i < |add| ==> r[i] == add[i].name
  {
    seq(|add|, i requires 0 <= i < |add| => add[i].name)
  }

  // ---------------------------------------------------------------------------
  // Summary rendering
  // ---------------------------------------------------------------------------

  /** The kinds of line the summary is made of. */
  datatype Line =
    | SummaryLine(summary: string)
    | InstructionsLine
    | EnableLine(items: string)
    | DisableLine(items: string)
    | RefreshLine(items: string)
    | AddLine(items: string)
    | FollowUpHeader
    | FollowUpLine(action: string)

  const SummaryPrefix: string := "Summary: "
  const InstructionsText: string := "- Updated instructions provided."
  const EnablePrefix: string := "- Enable tools: "
  const DisablePrefix: string := "- Disable tools: "
  const RefreshPrefix: string := "- Refresh knowledge sources: "
  const AddPrefix: string := "- Add knowledge sources: "
  const FollowUpText: string := "- Follow-up actions:"
  const FollowUpPrefix: string := "  * "
  const ItemSeparator: string := ", "

  function LineText(l: Line): string
  {
    match l
    case SummaryLine(s) => SummaryPrefix + s
    case InstructionsLine => InstructionsText
    case EnableLine(items) => EnablePrefix + items
    case DisableLine(items) => DisablePrefix + items
    case RefreshLine(items) => RefreshPrefix + items
    case AddLine(items) => AddPrefix + items
    case FollowUpHeader => FollowUpText
    case FollowUpLine(action) => FollowUpPrefix + action
  }

  /** Position of a kind of line in the summary. */
  function Rank(l: Line): nat
  {
    match l
    case SummaryLine(_) => 0
    case InstructionsLine => 1
    case EnableLine(_) => 2
    case DisableLine(_) => 3
    case RefreshLine(_) => 4
    case AddLine(_) => 5
    case FollowUpHeader => 6
    case FollowUpLine(_) => 7
  }

  /** Kinds appear in rank order, each at most once, except follow-up items. */
  predicate Ordered(lines: seq<Line>)
  {
    forall i, j :: 0 <= i < j < |lines| ==>
      Rank(lines[i]) < Rank(lines[j]) || (lines[i].FollowUpLine? && lines[j].FollowUpLine?)
  }

  lemma OrderedAppend(a: seq<Line>, b: seq<Line>)
    requires Ordered(a) && Ordered(b)
    requires forall i, j :: 0 <= i < |a| && 0 <= j < |b| ==> Rank(a[i]) < Rank(b[j])
    ensures Ordered(a + b)
  {
  }

  function Optional(present: bool, l: Line): (r: seq<Line>)
    ensures present ==> r == [l]
    ensures !present ==> r == []
  {
    if present then [l] else []
  }

  function FollowUpLines(actions: seq<string>): (r: seq<Line>)
    ensures |r| == |actions| && forall k :: 0 <= k < |actions| ==> r[k] == FollowUpLine(actions[k])
  {
    seq(|actions|, k requires 0 <= k < |actions| => FollowUpLine(actions[k]))
  }

  /** The follow-up block: a header and one item per action, or nothing. */
  function FollowUpBlock(actions: seq<string>): (r: seq<Line>)
    ensures Ordered(r)
    ensures forall l :: l in r ==> Rank(l) >= 6
    ensures |actions| == 0 <==> |r| == 0
  {
    if |actions| == 0 then [] else [FollowUpHeader] + FollowUpLines(actions)
  }

  /** Every line of `lines` ranks below `k`. */
  predicate RanksBelow(lines: seq<Line>, k: nat)
  {
    forall l :: l in lines ==> Rank(l) < k
  }

  /** The lines that are present, in order. */
  function Present(candidates: seq<Option<Line>>): (r: seq<Line>)
    ensures forall l :: l in r <==> Some(l) in candidates
    decreases |candidates|
  {
    if |candidates| == 0 then []
    else
      var rest := Present(candidates[1..]);
      assert forall o :: o in candidates <==> o == candidates[0] || o in candidates[1..];
      if candidates[0].Some? then [candidates[0].value] + rest else rest
  }

  lemma {:induction false} PresentAllNone(candidates: seq<Option<Line>>)
    requires forall k :: 0 <= k < |candidates| ==> candidates[k].None?
    ensures Present(candidates) == []
    decreases |candidates|
  {
    if |candidates| > 0 {
      PresentAllNone(candidates[1..]);
    }
  }

  /** Candidates at consecutive ranks give lines in rank order. */
  lemma {:induction false} PresentOrdered(candidates: seq<Option<Line>>, base: nat)
    requires forall k :: 0 <= k < |candidates| && candidates[k].Some? ==>
      Rank(candidates[k].value) == base + k && !candidates[k].value.FollowUpLine?
    ensures Ordered(Present(candidates))
    ensures forall l :: l in Present(candidates) ==> base <= Rank(l) < base + |candidates|
    decreases |candidates|
  {
    if |candidates| > 0 {
      var rest := candidates[1..];
      assert forall k :: 0 <= k < |rest| ==> rest[k] == candidates[k + 1];
      PresentOrdered(rest, base + 1);
    }
  }

  /** The lines before the follow-up block, one candidate per rank 0..5. */
  function HeadCandidates(s: Suggestion): seq<Option<Line>>
  {
    [ Some(SummaryLine(s.summary)),
      if Truthy(s.instructions) then Some(InstructionsLine) else None,
      if |s.toolPlan.enable| > 0 then Some(EnableLine(Join(s.toolPlan.enable, ItemSeparator))) else None,
      if |s.toolPlan.disable| > 0 then Some(DisableLine(Join(s.toolPlan.disable, ItemSeparator))) else None,
      if |s.knowledgePlan.refresh| > 0
      then Some(RefreshLine(Join(s.knowledgePlan.refresh, ItemSeparator))) else None,
      if |s.knowledgePlan.add| > 0
      then Some(AddLine(Join(PlanNames(s.knowledgePlan.add), ItemSeparator))) else None ]
  }

  function HeadLines(s: Suggestion): seq<Line>
  {
    Present(HeadCandidates(s))
  }

  /** The candidate at index `k` is a head line of rank `k`. */
  lemma CandidateRanks(s: Suggestion)
    ensures forall k :: 0 <= k < |HeadCandidates(s)| && HeadCandidates(s)[k].Some? ==>
      Rank(HeadCandidates(s)[k].value) == k && !HeadCandidates(s)[k].value.FollowUpLine?
  {
  }

  lemma HeadOrdered(s: Suggestion)
    ensures Ordered(HeadLines(s)) && RanksBelow(HeadLines(s), 6)
    ensures |HeadLines(s)| >= 1 && HeadLines(s)[0] == SummaryLine(s.summary)
  {
    CandidateRanks(s);
    PresentOrdered(HeadCandidates(s), 0);
  }

  /** The lines of `summarise_suggestion`: the head lines, then the follow-up block. */
  function SummaryLines(s: Suggestion): seq<Line>
  {
    HeadLines(s) + FollowUpBlock(s.followUps)
  }

  /** The summary comes first, kinds appear in a fixed order, and the follow-ups close the summary. */
  lemma SummaryLayout(s: Suggestion)
    ensures var r := SummaryLines(s);
      && |r| >= 1 && r[0] == SummaryLine(s.summary)
      && Ordered(r)
      && (|s.followUps| == 0 ==> RanksBelow(r, 6))
    ensures |s.followUps| > 0 ==>
      var r := SummaryLines(s);
      && |r| > |s.followUps|
      && r[|r| - |s.followUps| - 1] == FollowUpHeader
      && forall k :: 0 <= k < |s.followUps| ==> r[|r| - |s.followUps| + k] == FollowUpLine(s.followUps[k])
  {
    var head := HeadLines(s);
    var tail := FollowUpBlock(s.followUps);
    HeadOrdered(s);
    OrderedAppend(head, tail);
    BlockAtEnd(head, s.followUps);
  }

  /** The follow-up block closes the summary: its header, then one item per action. */
  lemma BlockAtEnd(head: seq<Line>, actions: seq<string>)
    ensures |actions| > 0 ==>
      var r := head + FollowUpBlock(actions);
      && |r| > |actions|
      && r[|r| - |actions| - 1] == FollowUpHeader
      && forall k :: 0 <= k < |actions| ==> r[|r| - |actions| + k] == FollowUpLine(actions[k])
  {
    if |actions| > 0 {
      var r := head + FollowUpBlock(actions);
      assert r[|head|] == FollowUpHeader;
      forall k | 0 <= k < |actions|
        ensures r[|r| - |actions| + k] == FollowUpLine(actions[k])
      {
        assert r[|head| + 1 + k] == FollowUpLines(actions)[k];
      }
    }
  }

  /**
   * A line ranking below the follow-up block is in the summary exactly when the
   * head candidate at its rank is that line.
   */
  lemma SummaryMember(s: Suggestion, l: Line)
    requires Rank(l) < 6
    ensures l in SummaryLines(s) <==> HeadCandidates(s)[Rank(l)] == Some(l)
  {
    var c := HeadCandidates(s);
    assert l !in FollowUpBlock(s.followUps);
    if l in HeadLines(s) {
      CandidateRanks(s);
      var k :| 0 <= k < |c| && c[k] == Some(l);
      assert Rank(c[k].value) == k;
    }
    if c[Rank(l)] == Some(l) {
      assert Some(l) in c;
    }
  }

  /** The instructions note appears exactly when replacement instructions are present and non-empty. */
  lemma SummaryShowsInstructions(s: Suggestion)
    ensures InstructionsLine in SummaryLines(s) <==> Truthy(s.instructions)
  {
    SummaryMember(s, InstructionsLine);
  }

  /** The enable line appears exactly when the enable list is non-empty, and lists it joined by ", ". */
  lemma SummaryShowsEnable(s: Suggestion)
    ensures EnableLine(Join(s.toolPlan.enable, ItemSeparator)) in SummaryLines(s) <==> |s.toolPlan.enable| > 0
    ensures forall l :: l in SummaryLines(s) && l.EnableLine? ==> l == EnableLine(Join(s.toolPlan.enable, ItemSeparator))
  {
    var c := HeadCandidates(s);
    assert c[2] == if |s.toolPlan.enable| > 0 then Some(EnableLine(Join(s.toolPlan.enable, ItemSeparator))) else None;
    SummaryMember(s, EnableLine(Join(s.toolPlan.enable, ItemSeparator)));
    forall l | l in SummaryLines(s) && l.EnableLine?
      ensures l == EnableLine(Join(s.toolPlan.enable, ItemSeparator))
    {
      assert Rank(l) == 2;
      SummaryMember(s, l);
    }
  }

  /** The disable line appears exactly when the disable list is non-empty, and lists it joined by ", ". */
  lemma SummaryShowsDisable(s: Suggestion)
    ensures DisableLine(Join(s.toolPlan.disable, ItemSeparator)) in SummaryLines(s) <==> |s.toolPlan.disable| > 0
    ensures forall l :: l in SummaryLines(s) && l.DisableLine? ==> l == DisableLine(Join(s.toolPlan.disable, ItemSeparator))
  {
    var c := HeadCandidates(s);
    assert c[3] == if |s.toolPlan.disable| > 0 then Some(DisableLine(Join(s.toolPlan.disable, ItemSeparator))) else None;
    SummaryMember(s, DisableLine(Join(s.toolPlan.disable, ItemSeparator)));
    forall l | l in SummaryLines(s) && l.DisableLine?
      ensures l == DisableLine(Join(s.toolPlan.disable, ItemSeparator))
    {
      assert Rank(l) == 3;
      SummaryMember(s, l);
    }
  }

  /** The refresh line appears exactly when the refresh list is non-empty, and lists it joined by ", ". */
  lemma SummaryShowsRefresh(s: Suggestion)
    ensures RefreshLine(Join(s.knowledgePlan.refresh, ItemSeparator)) in SummaryLines(s) <==> |s.knowledgePlan.refresh| > 0
    ensures forall l :: l in SummaryLines(s) && l.RefreshLine? ==> l == RefreshLine(Join(s.knowledgePlan.refresh, ItemSeparator))
  {
    var c := HeadCandidates(s);
    assert c[4] == if |s.knowledgePlan.refresh| > 0 then Some(RefreshLine(Join(s.knowledgePlan.refresh, ItemSeparator))) else None;
    SummaryMember(s, RefreshLine(Join(s.knowledgePlan.refresh, ItemSeparator)));
    forall l | l in SummaryLines(s) && l.RefreshLine?
      ensures l == RefreshLine(Join(s.knowledgePlan.refresh, ItemSeparator))
    {
      assert Rank(l) == 4;
      SummaryMember(s, l);
    }
  }

  /** The add line appears exactly when sources are proposed, and lists their names in plan order. */
  lemma SummaryShowsAdd(s: Suggestion)
    ensures AddLine(Join(PlanNames(s.knowledgePlan.add), ItemSeparator)) in SummaryLines(s) <==> |s.knowledgePlan.add| > 0
    ensures forall l :: l in SummaryLines(s) && l.AddLine? ==> l == AddLine(Join(PlanNames(s.knowledgePlan.add), ItemSeparator))
  {
    var c := HeadCandidates(s);
    assert c[5] == if |s.knowledgePlan.add| > 0 then Some(AddLine(Join(PlanNames(s.knowledgePlan.add), ItemSeparator))) else None;
    SummaryMember(s, AddLine(Join(PlanNames(s.knowledgePlan.add), ItemSeparator)));
    forall l | l in SummaryLines(s) && l.AddLine?
      ensures l == AddLine(Join(PlanNames(s.knowledgePlan.add), ItemSeparator))
    {
      assert Rank(l) == 5;
      SummaryMember(s, l);
    }
  }

  function Texts(lines: seq<Line>): (r: seq<string>)
    ensures |r| == |lines| && forall i :: 0 <= i < |lines| ==> r[i] == LineText(lines[i])
  {
    seq(|lines|, i requires 0 <= i < |lines| => LineText(lines[i]))
  }

  /** No text of the suggestion that reaches the summary holds a line break. */
  predicate SingleLineFields(s: Suggestion)
  {
    && '\n' !in s.summary
    && (forall i :: 0 <= i < |s.toolPlan.enable| ==> '\n' !in s.toolPlan.enable[i])
    && (forall i :: 0 <= i < |s.toolPlan.disable| ==> '\n' !in s.toolPlan.disable[i])
    && (forall i :: 0 <= i < |s.knowledgePlan.refresh| ==> '\n' !in s.knowledgePlan.refresh[i])
    && (forall i :: 0 <= i < |s.knowledgePlan.add| ==> '\n' !in s.knowledgePlan.add[i].name)
    && (forall i :: 0 <= i < |s.followUps| ==> '\n' !in s.followUps[i])
  }

  /**
   * `summarise_suggestion`: the lines joined with line breaks. It always starts
   * with the summary line, and a suggestion carrying only its summary renders as
   * that single line.
   */
  function Summarise(s: Suggestion): (r: string)
    ensures |SummaryPrefix + s.summary| <= |r| && r[..|SummaryPrefix + s.summary|] == SummaryPrefix + s.summary
    ensures SingleLineFields(s) ==> ('\n' in r <==> |SummaryLines(s)| > 1)
  {
    var lines := SummaryLines(s);
    var r := Join(Texts(lines), "\n");
    SummaryLayout(s);
    JoinStartsWithFirst(Texts(lines), "\n");
    assert SingleLineFields(s) ==> Split(r, '\n') == Texts(lines) by {
      if SingleLineFields(s) {
        TextsSingleLine(s);
        SplitJoin(Texts(lines), '\n');
      }
    }
    r
  }

  /** A suggestion carrying only its summary renders as that single line. */
  lemma SummaryOnlyRendersOneLine(summary: string)
    ensures Summarise(SummaryOnly(summary)) == SummaryPrefix + summary
  {
    var s := SummaryOnly(summary);
    var c := HeadCandidates(s);
    PresentAllNone(c[1..]);
    assert HeadLines(s) == [SummaryLine(summary)] + Present(c[1..]);
    assert SummaryLines(s) == [SummaryLine(summary)];
    assert Texts([SummaryLine(summary)]) == [SummaryPrefix + summary];
  }

  /** A line's text has no line break when its payload has none. */
  predicate SingleLine(l: Line)
  {
    '\n' !in LineText(l)
  }

  lemma PrefixedSingleLine(p: string, x: string)
    requires '\n' !in p && '\n' !in x
    ensures '\n' !in p + x
  {
  }

  /** None of the fixed texts holds a line break. */
  lemma FixedTextsSingleLine()
    ensures '\n' !in SummaryPrefix && '\n' !in InstructionsText && '\n' !in EnablePrefix
    ensures '\n' !in DisablePrefix && '\n' !in RefreshPrefix && '\n' !in AddPrefix
    ensures '\n' !in FollowUpText && '\n' !in FollowUpPrefix && '\n' !in ItemSeparator
  {
    assert '\n' !in SummaryPrefix by { NoBreak(SummaryPrefix); }
    assert '\n' !in InstructionsText by { NoBreak(InstructionsText); }
    assert '\n' !in EnablePrefix by { NoBreak(EnablePrefix); }
    assert '\n' !in DisablePrefix by { NoBreak(DisablePrefix); }
    assert '\n' !in RefreshPrefix by { NoBreak(RefreshPrefix); }
    assert '\n' !in AddPrefix by { NoBreak(AddPrefix); }
    assert '\n' !in FollowUpText by { NoBreak(FollowUpText); }
    assert '\n' !in FollowUpPrefix by { NoBreak(FollowUpPrefix); }
    assert '\n' !in ItemSeparator by { NoBreak(ItemSeparator); }
  }

  /** Checks a fixed text character by character. */
  lemma NoBreak(t: string)
    requires forall i :: 0 <= i < |t| ==> t[i] != '\n'
    ensures '\n' !in t
  {
  }

  lemma CandidateSingleLine(s: Suggestion, k: nat)
    requires SingleLineFields(s)
    requires k < |HeadCandidates(s)| && HeadCandidates(s)[k].Some?
    ensures SingleLine(HeadCandidates(s)[k].value)
  {
    var sep := ItemSeparator;
    var l := HeadCandidates(s)[k].value;
    FixedTextsSingleLine();
    if k == 0 {
      assert LineText(l) == SummaryPrefix + s.summary;
      PrefixedSingleLine(SummaryPrefix, s.summary);
    } else if k == 1 {
      assert LineText(l) == InstructionsText;
    } else if k == 2 {
      assert LineText(l) == EnablePrefix + Join(s.toolPlan.enable, sep);
      JoinAvoids(s.toolPlan.enable, sep, '\n');
      PrefixedSingleLine(EnablePrefix, Join(s.toolPlan.enable, sep));
    } else if k == 3 {
      assert LineText(l) == DisablePrefix + Join(s.toolPlan.disable, sep);
      JoinAvoids(s.toolPlan.disable, sep, '\n');
      PrefixedSingleLine(DisablePrefix, Join(s.toolPlan.disable, sep));
    } else if k == 4 {
      assert LineText(l) == RefreshPrefix + Join(s.knowledgePlan.refresh, sep);
      JoinAvoids(s.knowledgePlan.refresh, sep, '\n');
      PrefixedSingleLine(RefreshPrefix, Join(s.knowledgePlan.refresh, sep));
    } else {
      var names := PlanNames(s.knowledgePlan.add);
      assert LineText(l) == AddPrefix + Join(names, sep);
      JoinAvoids(names, sep, '\n');
      PrefixedSingleLine(AddPrefix, Join(names, sep));
    }
  }

  lemma HeadSingleLine(s: Suggestion)
    requires SingleLineFields(s)
    ensures forall l :: l in HeadLines(s) ==> SingleLine(l)
  {
    var c := HeadCandidates(s);
    forall l | l in HeadLines(s)
      ensures SingleLine(l)
    {
      assert Some(l) in c;
      var k :| 0 <= k < |c| && c[k] == Some(l);
      CandidateSingleLine(s, k);
    }
  }

  lemma FollowUpSingleLine(actions: seq<string>)
    requires forall i :: 0 <= i < |actions| ==> '\n' !in actions[i]
    ensures forall l :: l in FollowUpBlock(actions) ==> SingleLine(l)
  {
    var r := FollowUpBlock(actions);
    forall l | l in r
      ensures SingleLine(l)
    {
      var i :| 0 <= i < |r| && r[i] == l;
      if i > 0 {
        PrefixedSingleLine(FollowUpPrefix, actions[i - 1]);
      }
    }
  }

  lemma TextsSingleLine(s: Suggestion)
    requires SingleLineFields(s)
    ensures forall i :: 0 <= i < |SummaryLines(s)| ==> '\n' !in Texts(SummaryLines(s))[i]
  {
    HeadSingleLine(s);
    FollowUpSingleLine(s.followUps);
    var lines := SummaryLines(s);
    assert lines == HeadLines(s) + FollowUpBlock(s.followUps);
    forall i | 0 <= i < |lines|
      ensures SingleLine(lines[i])
    {
      assert lines[i] in HeadLines(s) || lines[i] in FollowUpBlock(s.followUps);
    }
  }

  // ---------------------------------------------------------------------------
  // Reading a summary back
  // ---------------------------------------------------------------------------

  predicate HasPrefix(t: string, p: string)
  {
    |p| <= |t| && t[..|p|] == p
  }

  /** Recognises one rendered line by its fixed prefix. */
  function ParseLine(t: string): Option<Line>
  {
    if HasPrefix(t, SummaryPrefix) then Some(SummaryLine(t[|SummaryPrefix|..]))
    else if t == InstructionsText then Some(InstructionsLine)
    else if HasPrefix(t, EnablePrefix) then Some(EnableLine(t[|EnablePrefix|..]))
    else if HasPrefix(t, DisablePrefix) then Some(DisableLine(t[|DisablePrefix|..]))
    else if HasPrefix(t, RefreshPrefix) then Some(RefreshLine(t[|RefreshPrefix|..]))
    else if HasPrefix(t, AddPrefix) then Some(AddLine(t[|AddPrefix|..]))
    else if t == FollowUpText then Some(FollowUpHeader)
    else if HasPrefix(t, FollowUpPrefix) then Some(FollowUpLine(t[|FollowUpPrefix|..]))
    else None
  }

  /** A text that differs from `p` at position `k` neither equals `p` nor starts with it. */
  lemma Differs(t: string, p: string, k: nat)
    requires k < |t| && k < |p| && t[k] != p[k]
    ensures !HasPrefix(t, p) && t != p
  {
  }

  lemma StartsWith(p: string, x: string)
    ensures HasPrefix(p + x, p) && (p + x)[|p|..] == x
  {
    assert (p + x)[..|p|] == p;
  }

  /** Every kind of line is recognised back from its text: the prefixes are distinct. */
  lemma ParseLineText(l: Line)
    ensures ParseLine(LineText(l)) == Some(l)
  {
    var t := LineText(l);
    match l
    case SummaryLine(x) =>
      StartsWith(SummaryPrefix, x);
    case InstructionsLine =>
      Differs(t, SummaryPrefix, 0);
    case EnableLine(x) =>
      StartsWith(EnablePrefix, x);
      Differs(t, SummaryPrefix, 0);
      Differs(t, InstructionsText, 2);
    case DisableLine(x) =>
      StartsWith(DisablePrefix, x);
      Differs(t, SummaryPrefix, 0);
      Differs(t, InstructionsText, 2);
      Differs(t, EnablePrefix, 2);
    case RefreshLine(x) =>
      StartsWith(RefreshPrefix, x);
      Differs(t, SummaryPrefix, 0);
      Differs(t, InstructionsText, 2);
      Differs(t, EnablePrefix, 2);
      Differs(t, DisablePrefix, 2);
    case AddLine(x) =>
      StartsWith(AddPrefix, x);
      Differs(t, SummaryPrefix, 0);
      Differs(t, InstructionsText, 2);
      Differs(t, EnablePrefix, 2);
      Differs(t, DisablePrefix, 2);
      Differs(t, RefreshPrefix, 2);
    case FollowUpHeader =>
      Differs(t, SummaryPrefix, 0);
      Differs(t, InstructionsText, 2);
      Differs(t, EnablePrefix, 2);
      Differs(t, DisablePrefix, 2);
      Differs(t, RefreshPrefix, 2);
      Differs(t, AddPrefix, 2);
    case FollowUpLine(x) =>
      StartsWith(FollowUpPrefix, x);
      Differs(t, SummaryPrefix, 0);
      Differs(t, InstructionsText, 0);
      Differs(t, EnablePrefix, 0);
      Differs(t, DisablePrefix, 0);
      Differs(t, RefreshPrefix, 0);
      Differs(t, AddPrefix, 0);
      Differs(t, FollowUpText, 0);
  }

  function ParseLines(ts: seq<string>): (r: Option<seq<Line>>)
    ensures r.Some? ==> |r.value| == |ts|
    decreases |ts|
  {
    if |ts| == 0 then Some([])
    else
      match (ParseLine(ts[0]), ParseLines(ts[1..]))
      case (Some(l), Some(rest)) => Some([l] + rest)
      case _ => None
  }

  lemma {:induction false} ParseTexts(lines: seq<Line>)
    ensures ParseLines(Texts(lines)) == Some(lines)
    decreases |lines|
  {
    if |lines| > 0 {
      ParseLineText(lines[0]);
      assert Texts(lines)[1..] == Texts(lines[1..]);
      ParseTexts(lines[1..]);
      assert [lines[0]] + lines[1..] == lines;
    }
  }

  /** Reads a rendered summary back into its lines. */
  function ParseSummary(text: string): Option<seq<Line>>
  {
    ParseLines(Split(text, '\n'))
  }

  /** The rendered summary can be read back line by line whenever no field holds a line break. */
  lemma {:induction false} SummaryRoundTrip(s: Suggestion)
    requires SingleLineFields(s)
    ensures ParseSummary(Summarise(s)) == Some(SummaryLines(s))
  {
    var lines := SummaryLines(s);
    TextsSingleLine(s);
    SplitJoin(Texts(lines), '\n');
    ParseTexts(lines);
  }
}
