/** The warning built from the user-issue flags, then cleared. */
module Issues {
  import opened Wrappers
  import opened Config
  import opened Options

  /** A dash item on a line of its own. */
  function Item(text: string): string {
    "- " + text + "\n"
  }

  const ValueErrorLine := Item("Invalid color value submitted, reverting to previous.")
  const HexColorspaceLine := Item("hexadecimal colors can only be sRGB, reverting.")
  const HexForceLinearLine := Item("hexadecimal colors cannot be linear, reverting.")

  /** The three report lines in the order they are emitted. */
  const ReportLines: seq<string> := [ValueErrorLine, HexColorspaceLine, HexForceLinearLine]

  /** The flag each report line stands for. */
  const ReportFlags: seq<nat> := [VALUE_ERROR, HEX_COLORSPACE, HEX_FORCE_LINEAR]

  /** A report line: a dash item on a line of its own. */
  predicate IsReportLine(line: string) {
    |line| >= 3 && line[0] == '-' && line[1] == ' ' && line[|line| - 1] == '\n'
  }

  /** Each report line is a dash item ending its line. */
  lemma ReportLinesWellFormed()
    ensures forall line :: line in ReportLines ==> IsReportLine(line)
  {
    ItemIsReportLine("Invalid color value submitted, reverting to previous.");
    ItemIsReportLine("hexadecimal colors can only be sRGB, reverting.");
    ItemIsReportLine("hexadecimal colors cannot be linear, reverting.");
  }

  lemma ItemIsReportLine(text: string)
    requires text != ""
    ensures IsReportLine(Item(text))
  {
  }

  /** The three report lines differ from one another. */
  lemma ReportLinesDistinct()
    ensures ValueErrorLine != HexColorspaceLine && ValueErrorLine != HexForceLinearLine
    ensures HexColorspaceLine != HexForceLinearLine
  {
    assert |ValueErrorLine| != |HexColorspaceLine| && |ValueErrorLine| != |HexForceLinearLine|;
    assert HexColorspaceLine[24] != HexForceLinearLine[24];
  }

  /** The lines reported for `flags`: the line of every set bit, in the fixed
      order value error, hexadecimal colourspace, hexadecimal linear. */
  function IssueLines(flags: nat): (r: seq<string>)
    ensures |r| <= 3
    ensures forall line :: line in r ==> line in ReportLines && IsReportLine(line)
    ensures ValueErrorLine in r <==> HasFlag(flags, VALUE_ERROR)
    ensures HexColorspaceLine in r <==> HasFlag(flags, HEX_COLORSPACE)
    ensures HexForceLinearLine in r <==> HasFlag(flags, HEX_FORCE_LINEAR)
  {
    ReportLinesWellFormed();
    ReportLinesDistinct();
    (if HasFlag(flags, VALUE_ERROR) then [ValueErrorLine] else [])
    + (if HasFlag(flags, HEX_COLORSPACE) then [HexColorspaceLine] else [])
    + (if HasFlag(flags, HEX_FORCE_LINEAR) then [HexForceLinearLine] else [])
  }

  /** Where a report line stands in the fixed order. */
  function Rank(line: string): nat {
    if line == ValueErrorLine then 0
    else if line == HexColorspaceLine then 1
    else 2
  }

  /** The lines come in the fixed order, each at most once. */
  lemma IssueLinesOrdered(flags: nat)
    ensures forall i, j :: 0 <= i < j < |IssueLines(flags)| ==>
      Rank(IssueLines(flags)[i]) < Rank(IssueLines(flags)[j])
  {
    ReportLinesDistinct();
  }

  function Concat(lines: seq<string>): string {
    if |lines| == 0 then "" else lines[0] + Concat(lines[1..])
  }

  function LineIf(b: bool, line: string): string {
    if b then line else ""
  }

  /** The warning text `create_issue_warning` builds by successive appends. */
  function IssueMessage(flags: nat): string {
    LineIf(HasFlag(flags, VALUE_ERROR), ValueErrorLine)
    + LineIf(HasFlag(flags, HEX_COLORSPACE), HexColorspaceLine)
    + LineIf(HasFlag(flags, HEX_FORCE_LINEAR), HexForceLinearLine)
  }

  /** The warning text is the reported lines joined, and it is empty exactly
      when none of the three reported bits is set. */
  lemma IssueMessageLines(flags: nat)
    ensures IssueMessage(flags) == Concat(IssueLines(flags))
    ensures IssueMessage(flags) == "" <==>
      !HasFlag(flags, VALUE_ERROR) && !HasFlag(flags, HEX_COLORSPACE) && !HasFlag(flags, HEX_FORCE_LINEAR)
  {
    JoinOptional(HasFlag(flags, VALUE_ERROR), HasFlag(flags, HEX_COLORSPACE), HasFlag(flags, HEX_FORCE_LINEAR),
      ValueErrorLine, HexColorspaceLine, HexForceLinearLine);
    ConcatEmpty(IssueLines(flags));
  }

  lemma JoinOptional(hasX: bool, hasY: bool, hasZ: bool, x: string, y: string, z: string)
    ensures Concat((if hasX then [x] else []) + (if hasY then [y] else []) + (if hasZ then [z] else []))
      == LineIf(hasX, x) + LineIf(hasY, y) + LineIf(hasZ, z)
  {
    var a: seq<string> := if hasX then [x] else [];
    var b: seq<string> := if hasY then [y] else [];
    var c: seq<string> := if hasZ then [z] else [];
    ConcatAppend(a + b, c);
    ConcatAppend(a, b);
    ConcatSingle(a);
    ConcatSingle(b);
    ConcatSingle(c);
  }

  lemma ConcatSingle(xs: seq<string>)
    requires |xs| <= 1
    ensures Concat(xs) == if |xs| == 0 then "" else xs[0]
  {
    if |xs| == 1 {
      assert Concat(xs[1..]) == "";
    }
  }

  /** Joined lines are empty exactly when there are none, every line being
      non-empty. */
  lemma {:induction false} ConcatEmpty(lines: seq<string>)
    requires forall line :: line in lines ==> IsReportLine(line)
    ensures Concat(lines) == "" <==> lines == []
  {
    if |lines| > 0 {
      assert lines[0] in lines;
      assert |Concat(lines)| >= |lines[0]|;
    }
  }

  lemma {:induction false} ConcatAppend(xs: seq<string>, ys: seq<string>)
    ensures Concat(xs + ys) == Concat(xs) + Concat(ys)
  {
    if |xs| == 0 {
      assert xs + ys == ys;
    } else {
      assert (xs + ys)[1..] == xs[1..] + ys;
      ConcatAppend(xs[1..], ys);
    }
  }

  /** `create_issue_warning`: nothing when the flags are exactly `unset`;
      otherwise the warning built line by line, after which the flags are
      reset to `unset`. */
  method CreateIssueWarning(slot: OptionSlot<nat>) returns (warning: Option<string>)
    modifies slot
    ensures old(slot.value) == UNSET ==> warning == None && slot.value == UNSET
    ensures old(slot.value) != UNSET ==> warning == Some(IssueMessage(old(slot.value))) && slot.value == UNSET
  {
    var issues := slot.Get();
    var message := "";

    if issues == UNSET {
      return None;
    }

    if HasFlag(issues, VALUE_ERROR) {
      message := message + ValueErrorLine;
    }
    assert message == LineIf(HasFlag(issues, VALUE_ERROR), ValueErrorLine);
    if HasFlag(issues, HEX_COLORSPACE) {
      message := message + HexColorspaceLine;
    }
    assert message == LineIf(HasFlag(issues, VALUE_ERROR), ValueErrorLine)
      + LineIf(HasFlag(issues, HEX_COLORSPACE), HexColorspaceLine);
    if HasFlag(issues, HEX_FORCE_LINEAR) {
      message := message + HexForceLinearLine;
    }
    assert message == IssueMessage(issues);
    warning := Some(message);

    slot.Set(UNSET);
  }

  /** A second warning right after the first shows nothing. */
  method WarnTwice(slot: OptionSlot<nat>) returns (first: Option<string>, second: Option<string>)
    modifies slot
    ensures second == None && slot.value == UNSET
    ensures first.Some? <==> old(slot.value) != UNSET
  {
    first := CreateIssueWarning(slot);
    second := CreateIssueWarning(slot);
  }

  /** Flags other than `unset` carrying none of the reported bits give an
      empty warning, and are still reset. */
  lemma NoReportedBits()
    ensures IssueMessage(0) == ""
    ensures IssueMessage(UNSET) == ""
  {
  }
}
