/** The privacy policy page: its numbered sections rendered as headings and
    paragraphs, and the plain-text download built from the same sections. The
    date of the download is a parameter standing for the browser's current
    date; the file download itself is left out. */
module PrivacyPage {
  import opened Strings

  /** A section's body: a list of lines, or one paragraph */
  datatype Content = Lines(lines: seq<string>) | Text(text: string)

  datatype Section = Section(title: string, content: Content)

  const Intro := "Kyrant respects your privacy. This Privacy Policy explains how we collect, use, and protect your personal information."

  /** The date the page itself shows */
  const PolicyDate := "January 25, 2026"

  const Sections: seq<Section> := [
    Section("Information We Collect", Lines([
      "When you use Kyrant, we may collect:",
      "- Personal details: Name, email address, phone number, payment details",
      "- Design files you upload",
      "- Account activity data: Pages visited, items sold, earnings",
      "- Technical data: IP address, browser type, cookies, and device information"])),
    Section("How We Use Your Information", Lines([
      "We use your data to:",
      "- Create and manage your account",
      "- Process orders and payments",
      "- Communicate with you about orders, earnings, or platform updates",
      "- Improve our services and website",
      "- Comply with legal obligations"])),
    Section("Sharing Your Information", Lines([
      "We do not sell your personal data. We may share your information with:",
      "- Payment processors (for payouts)",
      "- Printing and delivery partners (for fulfilment)",
      "- Legal authorities when required by law",
      "- Service providers who help us run the platform"])),
    Section("Cookies & Tracking", Lines([
      "We use cookies and similar technologies to:",
      "- Keep you logged in",
      "- Remember your preferences",
      "- Analyse site performance",
      "You can disable cookies in your browser, but some features may not work properly."])),
    Section("Data Storage & Security", Lines([
      "Your data is stored securely on our servers.",
      "We use encryption and other security measures to protect your information.",
      "While we take precautions, no online service is 100% secure, so we cannot guarantee absolute security."])),
    Section("Your Rights", Lines([
      "You can:",
      "- Request access to the personal data we hold about you",
      "- Ask us to correct or update your details",
      "- Request deletion of your account and personal data",
      "- Withdraw consent for data processing (where applicable)"])),
    Section("Children's Privacy", Lines([
      "Kyrant is available to users aged 13 and above. We do not knowingly collect personal data from children under 13."])),
    Section("Changes to This Policy", Lines([
      "We may update this Privacy Policy from time to time. The \"Last updated\" date will always be shown at the top."])),
    Section("Contact Us", Lines([
      "If you have any privacy-related questions, email us at [Your Email]."]))
  ]

  /* ── The download ── */

  /** A section's body as text: a text as it is, lines joined by single
      newlines, so that newline-free lines split back out of it */
  function ContentText(c: Content): (text: string)
    ensures c.Text? ==> text == c.text
    ensures c.Lines? && |c.lines| >= 1 && (forall i :: 0 <= i < |c.lines| ==> '\n' !in c.lines[i]) ==>
      Split(text, '\n') == c.lines
  {
    match c
    case Lines(lines) =>
      if |lines| >= 1 && (forall i :: 0 <= i < |lines| ==> '\n' !in lines[i]) then
        JoinThenSplit(lines, '\n');
        Join(lines, "\n")
      else Join(lines, "\n")
    case Text(text) => text
  }

  /** The numbered heading of section k, counted from 0: "k+1. title" */
  function Heading(k: nat, title: string): (heading: string)
    ensures StartsWith(heading, NatToString(k + 1) + ". ")
    ensures heading[|NatToString(k + 1)| + 2..] == title
  {
    var prefix := NatToString(k + 1) + ". ";
    assert (prefix + title)[..|prefix|] == prefix;
    prefix + title
  }

  /** The heading's number reads back as the section's position counted from 1. */
  lemma HeadingNumber(k: nat, title: string)
    ensures var number := NatToString(k + 1);
      Heading(k, title) == number + ". " + title && DecimalValue(number) == k + 1
  {
    NatToStringRoundTrip(k + 1);
  }

  function SectionBlock(k: nat, s: Section): string {
    Heading(k, s.title) + "\n" + ContentText(s.content)
  }

  function Blocks(sections: seq<Section>): (blocks: seq<string>)
    ensures |blocks| == |sections|
    ensures forall k :: 0 <= k < |sections| ==> blocks[k] == SectionBlock(k, sections[k])
  {
    seq(|sections|, k requires 0 <= k < |sections| => SectionBlock(k, sections[k]))
  }

  /** The section blocks separated by blank lines: nothing for no section,
      the block alone for one, and the first block followed by a blank line
      for more. */
  function SectionsText(sections: seq<Section>): (text: string)
    ensures sections == [] ==> text == ""
    ensures |sections| == 1 ==> text == SectionBlock(0, sections[0])
    ensures |sections| > 1 ==> StartsWith(text, SectionBlock(0, sections[0]) + "\n\n")
  {
    var blocks := Blocks(sections);
    if |sections| > 1 then
      var head := blocks[0] + "\n\n";
      assert Join(blocks, "\n\n") == head + Join(blocks[1..], "\n\n");
      assert (head + Join(blocks[1..], "\n\n"))[..|head|] == head;
      Join(blocks, "\n\n")
    else Join(blocks, "\n\n")
  }

  /** The download's layout: the brand, the date line, a blank line, the body */
  function DatedText(date: string, body: string): string {
    "Kyrant\nLast updated: " + date + "\n\n" + body
  }

  /** The download's body: the introduction, a blank line, the sections */
  function Body(): string {
    Intro + "\n\n" + SectionsText(Sections)
  }

  /** The text of the download, dated `date`: the date line and a blank line,
      then the body. */
  function DownloadText(date: string): (text: string)
    ensures var head := "Kyrant\nLast updated: " + date + "\n\n";
      StartsWith(text, head) && text[|head|..] == Body()
  {
    var head := "Kyrant\nLast updated: " + date + "\n\n";
    assert DatedText(date, Body()) == head + Body();
    assert (head + Body())[..|head|] == head;
    DatedText(date, Body())
  }

  /** A dated text begins with its date line and a blank line. */
  lemma DatedTextHead(date: string, body: string)
    ensures StartsWith(DatedText(date, body), "Kyrant\nLast updated: " + date + "\n\n")
  {
    var head := "Kyrant\nLast updated: " + date + "\n\n";
    assert DatedText(date, body) == head + body;
    assert (head + body)[..|head|] == head;
  }

  /** Two texts with the same body are equal only when their dates are. */
  lemma DatedTextInjective(d1: string, d2: string, body: string)
    ensures DatedText(d1, body) == DatedText(d2, body) <==> d1 == d2
  {
    if DatedText(d1, body) == DatedText(d2, body) {
      var head := "Kyrant\nLast updated: ";
      var tail := "\n\n" + body;
      assert DatedText(d1, body) == head + d1 + tail;
      assert DatedText(d2, body) == head + d2 + tail;
      assert |d1| == |d2|;
      assert d1 == (head + d1 + tail)[|head|..|head| + |d1|];
      assert d2 == (head + d2 + tail)[|head|..|head| + |d2|];
    }
  }

  /** Adding a section adds one blank line and its block, numbered after the
      others, at the end: the blocks appear one per section and in order. */
  lemma SectionsTextAppend(sections: seq<Section>, s: Section)
    requires |sections| >= 1
    ensures SectionsText(sections + [s]) == SectionsText(sections) + "\n\n" + SectionBlock(|sections|, s)
  {
    assert Blocks(sections + [s]) == Blocks(sections) + [SectionBlock(|sections|, s)];
    JoinAppend(Blocks(sections), SectionBlock(|sections|, s), "\n\n");
  }

  /** A single section is its block alone. */
  lemma SectionsTextSingle(s: Section)
    ensures SectionsText([s]) == Heading(0, s.title) + "\n" + ContentText(s.content)
  {
  }

  /** Each section's block begins with its numbered heading on a line of its own. */
  lemma BlockStartsWithHeading(k: nat, s: Section)
    ensures StartsWith(SectionBlock(k, s), Heading(k, s.title) + "\n")
  {
    var h := Heading(k, s.title) + "\n";
    assert (h + ContentText(s.content))[..|h|] == h;
  }

  /** Lines without newlines can be read back from the download one by one. */
  lemma LinesReadBack(lines: seq<string>)
    requires |lines| >= 1 && forall i :: 0 <= i < |lines| ==> '\n' !in lines[i]
    ensures Split(ContentText(Lines(lines)), '\n') == lines
  {
    JoinThenSplit(lines, '\n');
  }

  /** The download's date changes with the day it is made: two downloads agree
      only when their dates do. */
  lemma DownloadDateFollowsClock(d1: string, d2: string)
    ensures DownloadText(d1) == DownloadText(d2) <==> d1 == d2
  {
    DatedTextInjective(d1, d2, Body());
  }

  /** The download dated as the page is */
  function IntendedDownloadText(): (text: string)
    ensures StartsWith(text, "Kyrant\nLast updated: " + PolicyDate + "\n\n")
  {
    DatedTextHead(PolicyDate, Body());
    DownloadText(PolicyDate)
  }

  /** The download carries the page's date exactly when it is made on that date. */
  lemma IntendedDownloadMatchesPageDate(today: string)
    ensures DownloadText(today) == IntendedDownloadText() <==> today == PolicyDate
  {
    DownloadDateFollowsClock(today, PolicyDate);
  }

  /* ── The rendered page ── */

  /** A rendered paragraph and whether it is indented */
  datatype Paragraph = Paragraph(text: string, indented: bool)

  datatype RenderedSection = RenderedSection(heading: string, paragraphs: seq<Paragraph>)

  /** A line is indented exactly when it starts with "-". */
  function RenderLine(line: string): (p: Paragraph)
    ensures p.text == line
    ensures p.indented <==> |line| > 0 && line[0] == '-'
  {
    Paragraph(line, StartsWith(line, "-"))
  }

  function RenderSection(k: nat, s: Section): (r: RenderedSection)
    ensures r.heading == Heading(k, s.title)
    ensures s.content.Lines? ==>
      |r.paragraphs| == |s.content.lines|
      && forall i :: 0 <= i < |s.content.lines| ==> r.paragraphs[i] == RenderLine(s.content.lines[i])
    ensures s.content.Text? ==> r.paragraphs == [Paragraph(s.content.text, false)]
  {
    match s.content
    case Lines(lines) => RenderedSection(Heading(k, s.title), seq(|lines|, i requires 0 <= i < |lines| => RenderLine(lines[i])))
    case Text(text) => RenderedSection(Heading(k, s.title), [Paragraph(text, false)])
  }

  function ParagraphTexts(ps: seq<Paragraph>): (texts: seq<string>)
    ensures |texts| == |ps| && forall i :: 0 <= i < |ps| ==> texts[i] == ps[i].text
  {
    seq(|ps|, i requires 0 <= i < |ps| => ps[i].text)
  }

  /** The rendered section says what its block in the download says: the same
      heading, and paragraphs whose texts joined by newlines are the body. */
  lemma RenderedAgreesWithDownload(k: nat, s: Section)
    ensures SectionBlock(k, s) == RenderSection(k, s).heading + "\n" + Join(ParagraphTexts(RenderSection(k, s).paragraphs), "\n")
  {
    var r := RenderSection(k, s);
    match s.content
    case Lines(lines) =>
      assert ParagraphTexts(r.paragraphs) == lines;
    case Text(text) =>
      assert ParagraphTexts(r.paragraphs) == [text];
  }
}
