/**
 * The markdown text the property-issue handler shows for a report: four
 * sections in a fixed order, each list rendered as "- item" lines, and an
 * empty list replaced by the section's fixed sentence. `ParseReport` reads
 * such a text back, and `FormatParseRoundTrip` shows that nothing is lost.
 */
module ReportFormat {
  import opened Wrappers
  import opened Text
  import opened Schemas

  const AssessmentHeading := "## Property Issue Assessment"
  const SuggestionsHeading := "## Troubleshooting Suggestions"
  const ReferralsHeading := "## Professional Referrals"
  const WarningsHeading := "## Safety Warnings"
  const NoSuggestions := "No troubleshooting suggestions available."
  const NoReferrals := "No professional referrals needed."
  const NoWarnings := "No immediate safety concerns detected."

  /** A line of a rendered list. */
  predicate IsBullet(line: string)
  {
    |line| >= 2 && line[..2] == "- "
  }

  /** Each item as a "- item" line. */
  function Bullets(items: seq<string>): seq<string>
  {
    seq(|items|, i requires 0 <= i < |items| => "- " + items[i])
  }

  /** The body of one section: the list's lines joined by newlines, or the fallback sentence when the list is empty. */
  function SectionBody(items: seq<string>, fallback: string): (body: string)
    ensures |items| == 0 ==> body == fallback
    ensures |items| > 0 ==> IsBullet(body)
  {
    if |items| > 0 then
      var lines := Bullets(items);
      JoinStartsWithFirst(lines, '\n');
      assert lines[0][..2] == "- ";
      assert Join(lines, '\n')[..2] == lines[0][..2];
      Join(lines, '\n')
    else fallback
  }

  lemma JoinStartsWithFirst(parts: seq<string>, sep: char)
    requires |parts| > 0
    ensures |Join(parts, sep)| >= |parts[0]| && Join(parts, sep)[..|parts[0]|] == parts[0]
  {
  }

  /**
   * The response text for a report, section by section: the assessment
   * section, then the suggestions, referrals and warnings sections. Line by
   * line it is the heading, the assessment, and for each list a blank line,
   * its heading and its body lines.
   */
  function FormatReport(report: PropertyIssueReport): (text: string)
    ensures text == Join(ReportLines(report), '\n')
  {
    var assessmentSection := AssessmentHeading + "\n" + report.issueAssessment + "\n\n";
    var suggestionsSection := SuggestionsHeading + "\n" + SectionBody(report.troubleshootingSuggestions, NoSuggestions);
    var referralsSection := "\n\n" + ReferralsHeading + "\n" + SectionBody(report.professionalReferral, NoReferrals);
    var warningsSection := "\n\n" + WarningsHeading + "\n" + SectionBody(report.safetyWarnings, NoWarnings);
    BodyJoin(report.troubleshootingSuggestions, NoSuggestions);
    BodyJoin(report.professionalReferral, NoReferrals);
    BodyJoin(report.safetyWarnings, NoWarnings);
    LinesLayout(AssessmentHeading, report.issueAssessment, SuggestionsHeading, ReferralsHeading, WarningsHeading,
      BodyLines(report.troubleshootingSuggestions, NoSuggestions),
      BodyLines(report.professionalReferral, NoReferrals),
      BodyLines(report.safetyWarnings, NoWarnings));
    assessmentSection + suggestionsSection + referralsSection + warningsSection
  }

  /** A report whose text fields each fit on one line. */
  predicate SingleLineFields(report: PropertyIssueReport)
  {
    && '\n' !in report.issueAssessment
    && (forall i :: 0 <= i < |report.troubleshootingSuggestions| ==> '\n' !in report.troubleshootingSuggestions[i])
    && (forall i :: 0 <= i < |report.professionalReferral| ==> '\n' !in report.professionalReferral[i])
    && (forall i :: 0 <= i < |report.safetyWarnings| ==> '\n' !in report.safetyWarnings[i])
  }

  /** The lines of a section body. */
  function BodyLines(items: seq<string>, fallback: string): seq<string>
  {
    if |items| > 0 then Bullets(items) else [fallback]
  }

  /** The lines of a formatted report. */
  function ReportLines(report: PropertyIssueReport): seq<string>
  {
    [AssessmentHeading, report.issueAssessment]
    + (["", SuggestionsHeading] + BodyLines(report.troubleshootingSuggestions, NoSuggestions)
    + (["", ReferralsHeading] + BodyLines(report.professionalReferral, NoReferrals)
    + (["", WarningsHeading] + BodyLines(report.safetyWarnings, NoWarnings))))
  }

  /** The longest run of list lines at the front: their items, and the lines after them. */
  function TakeBullets(lines: seq<string>): (seq<string>, seq<string>)
  {
    if |lines| > 0 && IsBullet(lines[0]) then
      var (items, rest) := TakeBullets(lines[1..]);
      ([lines[0][2..]] + items, rest)
    else ([], lines)
  }

  /** Reads a section body: the fallback sentence means an empty list, otherwise at least one list line. */
  function ParseBody(lines: seq<string>, fallback: string): Option<(seq<string>, seq<string>)>
  {
    if |lines| > 0 && lines[0] == fallback then Some(([], lines[1..]))
    else
      var (items, rest) := TakeBullets(lines);
      if |items| > 0 then Some((items, rest)) else None
  }

  /** Reads a blank line, the section heading and the section body. */
  function ParseSection(lines: seq<string>, heading: string, fallback: string): Option<(seq<string>, seq<string>)>
  {
    if |lines| >= 2 && lines[0] == "" && lines[1] == heading then ParseBody(lines[2..], fallback) else None
  }

  /** Reads a response text back into the report it shows, or `None` when it is not a formatted report. */
  function ParseReport(text: string): Option<PropertyIssueReport>
  {
    var lines := Split(text, '\n');
    if |lines| < 2 || lines[0] != AssessmentHeading then None
    else match ParseSection(lines[2..], SuggestionsHeading, NoSuggestions)
      case None => None
      case Some((suggestions, rest1)) =>
        match ParseSection(rest1, ReferralsHeading, NoReferrals)
        case None => None
        case Some((referrals, rest2)) =>
          match ParseSection(rest2, WarningsHeading, NoWarnings)
          case None => None
          case Some((warnings, rest3)) =>
            if rest3 == [] then Some(PropertyIssueReport(lines[1], suggestions, referrals, warnings)) else None
  }

  /** The list lines of `items` are read back as `items`, stopping at the first line that is not a list line. */
  lemma {:induction false} TakeBulletsOfBullets(items: seq<string>, rest: seq<string>)
    requires |rest| == 0 || !IsBullet(rest[0])
    ensures TakeBullets(Bullets(items) + rest) == (items, rest)
    decreases |items|
  {
    var lines := Bullets(items) + rest;
    if |items| > 0 {
      TakeBulletsOfBullets(items[1..], rest);
      assert lines[0] == "- " + items[0];
      assert IsBullet(lines[0]) && lines[0][2..] == items[0];
      assert lines[1..] == Bullets(items[1..]) + rest;
      assert [items[0]] + items[1..] == items;
    } else {
      assert lines == rest;
    }
  }

  /** A section as formatted is read back as its list and the lines after it. */
  lemma SectionRoundTrip(items: seq<string>, heading: string, fallback: string, rest: seq<string>)
    requires !IsBullet(fallback) && fallback != ""
    requires |rest| == 0 || rest[0] == ""
    ensures ParseSection(["", heading] + BodyLines(items, fallback) + rest, heading, fallback) == Some((items, rest))
  {
    var lines := ["", heading] + BodyLines(items, fallback) + rest;
    assert lines[2..] == BodyLines(items, fallback) + rest;
    if |items| > 0 {
      TakeBulletsOfBullets(items, rest);
      assert lines[2] == Bullets(items)[0];
    } else {
      assert lines[2..][1..] == rest;
    }
  }

  /** The four sections of a report, glued together, are its lines joined by newlines. */
  lemma LinesLayout(h0: string, a: string, h1: string, h2: string, h3: string, b1: seq<string>, b2: seq<string>, b3: seq<string>)
    requires |b1| > 0 && |b2| > 0 && |b3| > 0
    ensures Join([h0, a] + (["", h1] + b1 + (["", h2] + b2 + (["", h3] + b3))), '\n')
      == (h0 + "\n" + a + "\n\n") + (h1 + "\n" + Join(b1, '\n'))
         + ("\n\n" + h2 + "\n" + Join(b2, '\n')) + ("\n\n" + h3 + "\n" + Join(b3, '\n'))
  {
    var s3 := ["", h3] + b3;
    var s2 := ["", h2] + b2 + s3;
    var s1 := ["", h1] + b1 + s2;
    var head := [h0, a];
    var t1, t2, t3 := Join(b1, '\n'), Join(b2, '\n'), Join(b3, '\n');
    var j3 := "\n" + h3 + "\n" + t3;
    var j2 := "\n" + h2 + "\n" + t2 + "\n" + j3;
    var j1 := "\n" + h1 + "\n" + t1 + "\n" + j2;
    assert Join(s3, '\n') == j3 by {
      JoinSection(h3, b3, []);
      assert s3 + [] == s3;
    }
    assert Join(s2, '\n') == j2 by {
      JoinSection(h2, b2, s3);
    }
    assert Join(s1, '\n') == j1 by {
      JoinSection(h1, b1, s2);
    }
    assert Join(head + s1, '\n') == h0 + "\n" + a + "\n" + j1 by {
      JoinAppend(head, s1, '\n');
      assert Join(head, '\n') == h0 + "\n" + a;
    }
    Assemble(h0, a, h1, h2, h3, t1, t2, t3);
  }

  /** Regrouping the concatenation of the four sections line by line. */
  lemma Assemble(h0: string, a: string, h1: string, h2: string, h3: string, t1: string, t2: string, t3: string)
    ensures (h0 + "\n" + a + "\n\n") + (h1 + "\n" + t1) + ("\n\n" + h2 + "\n" + t2) + ("\n\n" + h3 + "\n" + t3)
      == h0 + "\n" + a + "\n" + ("\n" + h1 + "\n" + t1 + "\n" + ("\n" + h2 + "\n" + t2 + "\n" + ("\n" + h3 + "\n" + t3)))
  {
  }

  /** A section body's lines, joined, are the body text. */
  lemma BodyJoin(items: seq<string>, fallback: string)
    ensures |BodyLines(items, fallback)| > 0
    ensures Join(BodyLines(items, fallback), '\n') == SectionBody(items, fallback)
  {
  }

  /** The text of one section and the lines after it: a blank line, the heading, the body, then the text after. */
  lemma JoinSection(heading: string, body: seq<string>, after: seq<string>)
    requires |body| > 0
    ensures Join(["", heading] + body + after, '\n') ==
      "\n" + heading + "\n" + Join(body, '\n') + (if |after| > 0 then "\n" + Join(after, '\n') else "")
  {
    var pre := ["", heading];
    assert Join(pre, '\n') == "\n" + heading;
    JoinAppend(pre, body, '\n');
    var section := Join(pre + body, '\n');
    assert section == "\n" + heading + "\n" + Join(body, '\n');
    if |after| > 0 {
      JoinAppend(pre + body, after, '\n');
      assert Join(pre + body + after, '\n') == section + "\n" + Join(after, '\n');
    } else {
      assert pre + body + after == pre + body;
    }
  }

  /** Formatting then parsing gives back every field of a report whose fields fit on one line. */
  lemma FormatParseRoundTrip(report: PropertyIssueReport)
    requires SingleLineFields(report)
    ensures ParseReport(FormatReport(report)) == Some(report)
  {
    var lines := ReportLines(report);
    LinesOfReportAreSingle(report);
    FixedHeadings();
    SuggestionsFallback();
    ReferralsFallback();
    WarningsFallback();
    SplitJoin(lines, '\n');
    var b1 := BodyLines(report.troubleshootingSuggestions, NoSuggestions);
    var b2 := BodyLines(report.professionalReferral, NoReferrals);
    var b3 := BodyLines(report.safetyWarnings, NoWarnings);
    var s3 := ["", WarningsHeading] + b3;
    var s2 := ["", ReferralsHeading] + b2 + s3;
    var s1 := ["", SuggestionsHeading] + b1 + s2;
    assert lines[2..] == s1;
    SectionRoundTrip(report.troubleshootingSuggestions, SuggestionsHeading, NoSuggestions, s2);
    SectionRoundTrip(report.professionalReferral, ReferralsHeading, NoReferrals, s3);
    SectionRoundTrip(report.safetyWarnings, WarningsHeading, NoWarnings, []);
    assert s3 + [] == s3;
  }

  /** No fixed line of the format holds a newline, and no fallback sentence looks like a list line. */
  lemma FixedHeadings()
    ensures '\n' !in AssessmentHeading && '\n' !in SuggestionsHeading
    ensures '\n' !in ReferralsHeading && '\n' !in WarningsHeading
  {
  }

  lemma SuggestionsFallback()
    ensures '\n' !in NoSuggestions && !IsBullet(NoSuggestions) && NoSuggestions != ""
  {
    assert NoSuggestions[0] == 'N';
  }

  lemma ReferralsFallback()
    ensures '\n' !in NoReferrals && !IsBullet(NoReferrals) && NoReferrals != ""
  {
    assert NoReferrals[0] == 'N';
  }

  lemma WarningsFallback()
    ensures '\n' !in NoWarnings && !IsBullet(NoWarnings) && NoWarnings != ""
  {
    assert NoWarnings[0] == 'N';
  }

  predicate SingleLines(lines: seq<string>)
  {
    forall i :: 0 <= i < |lines| ==> '\n' !in lines[i]
  }

  lemma LinesOfReportAreSingle(report: PropertyIssueReport)
    requires SingleLineFields(report)
    ensures SingleLines(ReportLines(report))
  {
    FixedHeadings();
    SuggestionsFallback();
    ReferralsFallback();
    WarningsFallback();
    var b1 := BodyLines(report.troubleshootingSuggestions, NoSuggestions);
    var b2 := BodyLines(report.professionalReferral, NoReferrals);
    var b3 := BodyLines(report.safetyWarnings, NoWarnings);
    BulletsAreSingle(report.troubleshootingSuggestions);
    BulletsAreSingle(report.professionalReferral);
    BulletsAreSingle(report.safetyWarnings);
    assert SingleLines(b1) && SingleLines(b2) && SingleLines(b3);
    var s3 := ["", WarningsHeading] + b3;
    var s2 := ["", ReferralsHeading] + b2 + s3;
    var s1 := ["", SuggestionsHeading] + b1 + s2;
    SingleLinesAppend(["", WarningsHeading], b3);
    SingleLinesAppend(["", ReferralsHeading], b2);
    SingleLinesAppend(["", ReferralsHeading] + b2, s3);
    SingleLinesAppend(["", SuggestionsHeading], b1);
    SingleLinesAppend(["", SuggestionsHeading] + b1, s2);
    SingleLinesAppend([AssessmentHeading, report.issueAssessment], s1);
  }

  lemma SingleLinesAppend(xs: seq<string>, ys: seq<string>)
    requires SingleLines(xs) && SingleLines(ys)
    ensures SingleLines(xs + ys)
  {
    forall i | 0 <= i < |xs + ys| ensures '\n' !in (xs + ys)[i] {
      if i < |xs| { assert (xs + ys)[i] == xs[i]; } else { assert (xs + ys)[i] == ys[i - |xs|]; }
    }
  }

  lemma BulletsAreSingle(items: seq<string>)
    requires forall i :: 0 <= i < |items| ==> '\n' !in items[i]
    ensures SingleLines(Bullets(items))
  {
    forall i | 0 <= i < |items| ensures '\n' !in Bullets(items)[i] {
      assert Bullets(items)[i] == "- " + items[i];
    }
  }
}
