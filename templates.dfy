/** The three files cleanvibe writes into a project: a conventions document
    for the assistant (CLAUDE.md), a README and a .gitignore. Each is a pure
    function of the project name; CLAUDE.md also embeds the current date,
    which is passed in as `today` (a `YYYY-MM-DD` string) instead of being
    read from the clock. The fixed prose paragraphs of the two markdown
    files are named constants whose wording the model leaves open; only the
    lines that carry the name, the date and the `cd` command are spelled
    out. The ignore list is spelled out in full. */
module Templates {
  import opened Text

  /** The first line of both markdown templates. */
  function Header(name: string): string
  {
    "# " + name + "\n"
  }

  /** The lines of CLAUDE.md between the title line and the date line: the
      workflow rules, the two TODO sections and the `# currentDate` heading.
      Their wording is not modelled. */
  const ClaudeGuidance: string

  /** The last line of CLAUDE.md, without its newline. */
  function DateLine(today: string): string
  {
    "Today's date is " + today + "."
  }

  /** `claude_md(name)`, the clock reading passed in as `today`. */
  function ClaudeMd(name: string, today: string): (doc: string)
    ensures StartsWith(doc, "# " + name + "\n")
    ensures EndsWith(doc, "Today's date is " + today + ".\n")
  {
    FramedEnds(Header(name), ClaudeGuidance, DateLine(today));
    Header(name) + ClaudeGuidance + "\n" + DateLine(today) + "\n"
  }

  /** A text made of a first part, a middle, and a last line starts with the
      first part and ends with the last line. */
  lemma FramedEnds(first: string, middle: string, last: string)
    ensures StartsWith(first + middle + "\n" + last + "\n", first)
    ensures EndsWith(first + middle + "\n" + last + "\n", last + "\n")
  {
    ConcatEnds(first, middle + "\n" + last + "\n");
    ConcatEnds(first + middle + "\n", last + "\n");
    assert first + middle + "\n" + last + "\n" == first + (middle + "\n" + last + "\n");
    assert first + middle + "\n" + last + "\n" == (first + middle + "\n") + (last + "\n");
  }

  /** The lines of README.md between the title line and the `cd` line: the
      blank line, the "Scaffolded with" note, the About and Getting Started
      sections and the opening of the code fence. Their wording is not
      modelled. */
  const ReadmeIntro: string

  /** The lines of README.md after the `cd` line. */
  const ReadmeOutro: string := "claude\n```\n"

  /** The command line in README.md that enters the project. */
  function CdLine(name: string): string
  {
    "cd " + name
  }

  /** `readme_md(name)`. */
  function ReadmeMd(name: string): (doc: string)
    ensures StartsWith(doc, "# " + name)
  {
    var title := "# " + name;
    ConcatEnds(title, "\n" + ReadmeIntro + "\n" + CdLine(name) + "\n" + ReadmeOutro);
    assert title + "\n" + ReadmeIntro + "\n" + CdLine(name) + "\n" + ReadmeOutro
      == title + ("\n" + ReadmeIntro + "\n" + CdLine(name) + "\n" + ReadmeOutro);
    title + "\n" + ReadmeIntro + "\n" + CdLine(name) + "\n" + ReadmeOutro
  }

  /** `GITIGNORE`: the fixed ignore list. */
  const Gitignore: string :=
    "# Python\n"
    + "__pycache__/\n"
    + "*.py[cod]\n"
    + "*.egg-info/\n"
    + "dist/\n"
    + "build/\n"
    + "*.egg\n"
    + ".eggs/\n"
    + "\n"
    + "# Virtual environments\n"
    + ".venv/\n"
    + "venv/\n"
    + "env/\n"
    + "\n"
    + "# IDE\n"
    + ".vscode/\n"
    + ".idea/\n"
    + "*.swp\n"
    + "*.swo\n"
    + "\n"
    + "# OS\n"
    + ".DS_Store\n"
    + "Thumbs.db\n"
    + "\n"
    + "# Environment\n"
    + ".env\n"
    + ".env.local\n"

  // ---------------------------------------------------------------------------
  // Properties of the templates
  // ---------------------------------------------------------------------------

  /** Split into lines, a title line, a middle and a last line give the
      title first and the last line just before the final empty piece. */
  lemma FramedLines(title: string, middle: string, last: string)
    requires '\n' !in title && '\n' !in last
    ensures var lines := Split(title + "\n" + middle + "\n" + last + "\n", '\n');
      |lines| >= 3 && lines[0] == title && lines[|lines| - 2] == last && lines[|lines| - 1] == ""
  {
    var text := title + "\n" + middle + "\n" + last + "\n";
    assert text == title + ['\n'] + (middle + ['\n'] + (last + ['\n'] + ""));
    SplitAround(title, middle + ['\n'] + (last + ['\n'] + ""), '\n');
    SplitAround(middle, last + ['\n'] + "", '\n');
    SplitAround(last, "", '\n');
    SplitNoSeparator(title, '\n');
    SplitNoSeparator(last, '\n');
    SplitNoSeparator("", '\n');
  }

  /** Read line by line, CLAUDE.md opens with the title line carrying the
      name and closes with the date line and the final newline. */
  lemma ClaudeMdLines(name: string, today: string)
    requires '\n' !in name && '\n' !in today
    ensures var lines := Split(ClaudeMd(name, today), '\n');
      |lines| >= 3 &&
      lines[0] == "# " + name &&
      lines[|lines| - 2] == DateLine(today) &&
      lines[|lines| - 1] == ""
  {
    FramedLines("# " + name, ClaudeGuidance, DateLine(today));
  }

  /** The title line gives the project name back: projects with different
      names never get the same CLAUDE.md. */
  lemma ClaudeMdNameRecoverable(n1: string, n2: string, today: string)
    requires ClaudeMd(n1, today) == ClaudeMd(n2, today)
    ensures n1 == n2
  {
    var tail := ClaudeGuidance + "\n" + DateLine(today) + "\n";
    assert ClaudeMd(n1, today) == Header(n1) + tail;
    assert ClaudeMd(n2, today) == Header(n2) + tail;
    assert |n1| == |n2|;
    TemplatesCarryName(n1, today);
    TemplatesCarryName(n2, today);
  }

  /** The date line gives the date back: one project's CLAUDE.md differs
      from one day to another. */
  lemma ClaudeMdDateRecoverable(name: string, d1: string, d2: string)
    requires ClaudeMd(name, d1) == ClaudeMd(name, d2)
    ensures d1 == d2
  {
    SameFrameSameLast(Header(name) + ClaudeGuidance, "Today's date is ", d1, d2, ".\n");
  }

  lemma SameFrameSameLast(front: string, lead: string, x: string, y: string, tail: string)
    requires front + "\n" + (lead + x + tail) == front + "\n" + (lead + y + tail)
    ensures x == y
  {
    var p := front + "\n" + lead;
    assert front + "\n" + (lead + x + tail) == p + x + tail;
    assert front + "\n" + (lead + y + tail) == p + y + tail;
    assert (p + x + tail)[|p|..|p| + |x|] == x;
    assert (p + y + tail)[|p|..|p| + |y|] == y;
  }

  /** For a fixed date, CLAUDE.md of two projects differs only in the title
      line: what follows it is the same text. */
  lemma ClaudeMdDiffersOnlyInHeader(n1: string, n2: string, today: string)
    ensures ClaudeMd(n1, today)[|Header(n1)|..] == ClaudeMd(n2, today)[|Header(n2)|..]
  {
    SameAfterFirst(Header(n1), Header(n2), ClaudeGuidance, DateLine(today));
  }

  /** For a fixed project, CLAUDE.md differs from one day to the next only
      in the date: everything before it and the `.` and newline after it
      are the same text. */
  lemma ClaudeMdDiffersOnlyInDate(name: string, d1: string, d2: string)
    ensures var front := Header(name) + ClaudeGuidance + "\nToday's date is ";
      ClaudeMd(name, d1) == front + d1 + ".\n" && ClaudeMd(name, d2) == front + d2 + ".\n"
  {
    var front := Header(name) + ClaudeGuidance + "\nToday's date is ";
    assert ClaudeMd(name, d1) == front + d1 + ".\n";
    assert ClaudeMd(name, d2) == front + d2 + ".\n";
  }

  lemma SameAfterFirst(h1: string, h2: string, middle: string, last: string)
    ensures (h1 + middle + "\n" + last + "\n")[|h1|..] == (h2 + middle + "\n" + last + "\n")[|h2|..]
  {
    var rest := middle + "\n" + last + "\n";
    assert h1 + middle + "\n" + last + "\n" == h1 + rest;
    assert h2 + middle + "\n" + last + "\n" == h2 + rest;
    assert (h1 + rest)[|h1|..] == rest;
    assert (h2 + rest)[|h2|..] == rest;
  }

  /** Split into lines, a title line, a middle, a line and a rest give the
      title first and the line somewhere after it. */
  lemma TitledLines(title: string, middle: string, line: string, rest: string)
    requires '\n' !in title && '\n' !in line
    ensures var lines := Split(title + "\n" + middle + "\n" + line + "\n" + rest, '\n');
      lines[0] == title && line in lines
  {
    var text := title + "\n" + middle + "\n" + line + "\n" + rest;
    assert text == title + ['\n'] + (middle + ['\n'] + (line + ['\n'] + rest));
    SplitAround(title, middle + ['\n'] + (line + ['\n'] + rest), '\n');
    SplitAround(middle, line + ['\n'] + rest, '\n');
    SplitAround(line, rest, '\n');
    SplitNoSeparator(title, '\n');
    SplitNoSeparator(line, '\n');
    var lines := Split(text, '\n');
    assert lines == [title] + (Split(middle, '\n') + ([line] + Split(rest, '\n')));
    assert lines[1 + |Split(middle, '\n')|] == line;
  }

  /** README.md opens with the title line and has a line `cd <name>` telling
      the reader how to enter the project. */
  lemma ReadmeMdLines(name: string)
    requires '\n' !in name
    ensures Split(ReadmeMd(name), '\n')[0] == "# " + name
    ensures HasLine(ReadmeMd(name), CdLine(name))
  {
    TitledLines("# " + name, ReadmeIntro, CdLine(name), ReadmeOutro);
  }

  /** Every template is non-empty and both markdown files carry the project
      name right after the title marker. */
  lemma TemplatesCarryName(name: string, today: string)
    ensures |Gitignore| > 0
    ensures ClaudeMd(name, today)[2..2 + |name|] == name
    ensures ReadmeMd(name)[2..2 + |name|] == name
  {
    assert ClaudeMd(name, today)[..|Header(name)|][2..2 + |name|] == name;
    assert ReadmeMd(name)[..2 + |name|][2..2 + |name|] == name;
  }
}
