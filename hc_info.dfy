/**
  The command line of hc-info (hc-info.cpp lines 103-156): with no argument it
  lists every accelerator and names the default one; with one argument it
  prints the usage text for "-h" or "--help", and otherwise the report of the
  accelerator at that path; with more arguments it prints the usage text to
  standard error and fails.
 */
module HcInfo {
  import opened Wrappers
  import opened Decimal
  import opened Text
  import opened Accelerator
  import opened Report
  import opened Streams

  /** `EXIT_SUCCESS` and `EXIT_FAILURE`. */
  datatype ExitStatus = ExitSuccess | ExitFailure

  /** What a run writes to standard output and standard error, and how it exits. */
  datatype Outcome = Outcome(stdout: string, stderr: string, status: ExitStatus)

  /**
    The runtime as the program queries it: every accelerator in enumeration
    order (`hc::accelerator::get_all`), the default accelerator, and the
    accelerator the constructor builds for a path. A path missing from
    `resolve` is one for which the constructor throws.
   */
  datatype Catalog = Catalog(all: seq<Device>, default: Device, resolve: map<string, Device>)

  /** `hc::accelerator(path)`, with `None` for the thrown exception. */
  function Lookup(catalog: Catalog, path: string): (r: Option<Device>)
    ensures r.Some? <==> path in catalog.resolve
    ensures r.Some? ==> r.value == catalog.resolve[path]
  {
    if path in catalog.resolve then Some(catalog.resolve[path]) else None
  }

  const USAGE_SYNOPSIS: string := "usage: hc-info [DEVICE-PATH]"
  // The two longer lines are spelt in two pieces each, which keeps what the
  // verifier has to unfold about each piece small.
  const USAGE_PURPOSE: string := "prints information about the available " + "HSA devices for the HC API"
  const USAGE_SEE: string := "see: https://github.com/" + "RadeonOpenCompute/hcc"
  const USAGE_VERSION: string := "HCC version: "

  /** The lines of `display_usage`; `hccVersion` stands for `__hcc_version__`. */
  function UsageLines(hccVersion: string): seq<string> {
    [USAGE_SYNOPSIS, "", USAGE_PURPOSE, USAGE_SEE, "", USAGE_VERSION + hccVersion]
  }

  /** The text `display_usage` writes: its six lines, each followed by '\n'. */
  function UsageText(hccVersion: string): (s: string)
    ensures s == JoinTerminated(UsageLines(hccVersion), '\n')
  {
    var s := USAGE_SYNOPSIS + "\n" + "\n" + USAGE_PURPOSE + "\n" + USAGE_SEE + "\n" + "\n" +
      USAGE_VERSION + hccVersion + "\n";
    assert s == JoinTerminated(UsageLines(hccVersion), '\n') by {
      var lines := UsageLines(hccVersion);
      assert lines[..0] == [];
      AppendedPart(lines, 0, '\n', [], [], USAGE_SYNOPSIS + "\n");
      AppendedPart(lines, 1, '\n', [], USAGE_SYNOPSIS + "\n", USAGE_SYNOPSIS + "\n" + "\n");
      AppendedPart(lines, 2, '\n', [], USAGE_SYNOPSIS + "\n" + "\n",
        USAGE_SYNOPSIS + "\n" + "\n" + USAGE_PURPOSE + "\n");
      AppendedPart(lines, 3, '\n', [], USAGE_SYNOPSIS + "\n" + "\n" + USAGE_PURPOSE + "\n",
        USAGE_SYNOPSIS + "\n" + "\n" + USAGE_PURPOSE + "\n" + USAGE_SEE + "\n");
      AppendedPart(lines, 4, '\n', [], USAGE_SYNOPSIS + "\n" + "\n" + USAGE_PURPOSE + "\n" + USAGE_SEE + "\n",
        USAGE_SYNOPSIS + "\n" + "\n" + USAGE_PURPOSE + "\n" + USAGE_SEE + "\n" + "\n");
      AppendedPart(lines, 5, '\n', [], USAGE_SYNOPSIS + "\n" + "\n" + USAGE_PURPOSE + "\n" + USAGE_SEE + "\n" + "\n", s);
      assert lines[..6] == lines;
    }
    s
  }

  const LOOKUP_ERROR: string := "error getting accelerator for path: "
  const NO_ACCELERATORS: string := "no accelerators found."
  const AVAILABLE: string := " available accelerators:"
  const DEFAULT_ACCELERATOR: string := "default accelerator:\t"

  /**
    The line written to standard error when no accelerator is built for
    `path`: the message, the path as given (unquoted) and '\n'. It is a
    single line unless the path holds a line break.
   */
  function LookupErrorText(path: string): (s: string)
    ensures |s| == |LOOKUP_ERROR| + |path| + 1
    ensures s[..|LOOKUP_ERROR|] == LOOKUP_ERROR && s[|LOOKUP_ERROR|..|s| - 1] == path && s[|s| - 1] == '\n'
    ensures '\n' !in path ==> SplitTerminated(s, '\n') == [LOOKUP_ERROR + path]
  {
    var line := LOOKUP_ERROR + path;
    assert '\n' !in path ==> SplitTerminated(line + "\n", '\n') == [line] by {
      if '\n' !in path {
        ListingMessagesPrintable();
        assert '\n' !in line;
        assert NoneContains([line], '\n');
        SplitJoinTerminated([line], '\n');
        assert JoinTerminated([line], '\n') == line + "\n";
      }
    }
    line + "\n"
  }

  predicate IsHelp(arg: string) {
    arg == "-h" || arg == "--help"
  }

  /** The report of each device followed by an empty line, in order. */
  function ReportsText(devices: seq<Device>): string {
    if devices == [] then []
    else ReportsText(devices[..|devices| - 1]) + ReportText(devices[|devices| - 1]) + "\n"
  }

  /** What a run without a device path writes to standard output: the listing lines, each followed by '\n'. */
  function ListingText(catalog: Catalog): (s: string)
    ensures s == JoinTerminated(ListingLines(catalog), '\n')
  {
    if catalog.all == [] then NO_ACCELERATORS + "\n"
    else
      var header := [NatToString(|catalog.all|) + AVAILABLE, ""];
      var footer := [DEFAULT_ACCELERATOR + catalog.default.path];
      ReportsTextLines(catalog.all);
      JoinTerminatedAppend(header, ReportsLines(catalog.all), '\n');
      JoinTerminatedAppend(header + ReportsLines(catalog.all), footer, '\n');
      assert JoinTerminated(header, '\n') == NatToString(|catalog.all|) + AVAILABLE + "\n\n";
      assert JoinTerminated(footer, '\n') == DEFAULT_ACCELERATOR + catalog.default.path + "\n";
      NatToString(|catalog.all|) + AVAILABLE + "\n\n" +
      ReportsText(catalog.all) +
      DEFAULT_ACCELERATOR + catalog.default.path + "\n"
  }

  /**
    `main`: `argv` holds the program name followed by the arguments, so
    `argc` is `|argv|`.
   */
  function Main(argv: seq<string>, catalog: Catalog, hccVersion: string): (o: Outcome)
    ensures o.status == ExitFailure <==>
      |argv| > 2 || (|argv| == 2 && !IsHelp(argv[1]) && Lookup(catalog, argv[1]).None?)
    ensures o.status == ExitFailure ==> o.stdout == []
    ensures o.status == ExitSuccess ==> o.stderr == []
  {
    if |argv| > 2 then Outcome([], UsageText(hccVersion), ExitFailure)
    else if |argv| == 2 then
      var path := argv[1];
      if IsHelp(path) then Outcome(UsageText(hccVersion), [], ExitSuccess)
      else
        match Lookup(catalog, path)
        case None => Outcome([], LookupErrorText(path), ExitFailure)
        case Some(d) => Outcome(ReportText(d), [], ExitSuccess)
    else
      Outcome(ListingText(catalog), [], ExitSuccess)
  }

  /** The lines of the reports of `devices`, each report followed by an empty line. */
  function ReportsLines(devices: seq<Device>): seq<string> {
    Paragraphs(seq(|devices|, k requires 0 <= k < |devices| => ReportLines(devices[k])))
  }

  /** The lines of `blocks`, each block followed by an empty line. */
  function Paragraphs(blocks: seq<seq<string>>): seq<string> {
    if blocks == [] then [] else Paragraphs(blocks[..|blocks| - 1]) + blocks[|blocks| - 1] + [""]
  }

  /** The lines of what a run without a device path writes. */
  function ListingLines(catalog: Catalog): seq<string> {
    if catalog.all == [] then [NO_ACCELERATORS]
    else
      [NatToString(|catalog.all|) + AVAILABLE, ""] +
      ReportsLines(catalog.all) +
      [DEFAULT_ACCELERATOR + catalog.default.path]
  }

  predicate AllPrintable(devices: seq<Device>) {
    forall k :: 0 <= k < |devices| ==> Printable(devices[k])
  }

  /** The reports of the first `i + 1` devices extend those of the first `i` by one report and an empty line. */
  lemma ReportsTextSnoc(devices: seq<Device>, i: nat)
    requires i < |devices|
    ensures ReportsText(devices[..i + 1]) == ReportsText(devices[..i]) + ReportText(devices[i]) + "\n"
  {
    assert devices[..i + 1][..i] == devices[..i];
  }

  /** `display_usage(out)`. */
  method DisplayUsage(out: OutStream, hccVersion: string)
    modifies out
    ensures out.text == old(out.text) + UsageText(hccVersion)
  {
    ghost var start := out.text;
    out.Write(USAGE_SYNOPSIS);
    ghost var written := USAGE_SYNOPSIS;
    out.Write("\n");
    AppendAssociates(start, written, "\n");
    written := written + "\n";
    out.Write("\n");
    AppendAssociates(start, written, "\n");
    written := written + "\n";
    out.Write(USAGE_PURPOSE);
    AppendAssociates(start, written, USAGE_PURPOSE);
    written := written + USAGE_PURPOSE;
    out.Write("\n");
    AppendAssociates(start, written, "\n");
    written := written + "\n";
    out.Write(USAGE_SEE);
    AppendAssociates(start, written, USAGE_SEE);
    written := written + USAGE_SEE;
    out.Write("\n");
    AppendAssociates(start, written, "\n");
    written := written + "\n";
    out.Write("\n");
    AppendAssociates(start, written, "\n");
    written := written + "\n";
    out.Write(USAGE_VERSION);
    AppendAssociates(start, written, USAGE_VERSION);
    written := written + USAGE_VERSION;
    out.Write(hccVersion);
    AppendAssociates(start, written, hccVersion);
    written := written + hccVersion;
    out.Write("\n");
    AppendAssociates(start, written, "\n");
    written := written + "\n";
  }

  /**
    The branch of `main` for one argument that is not a help flag: the
    report of the accelerator built for `path`, or the error line when
    building it throws.
   */
  method PrintAccelerator(catalog: Catalog, path: string, out: OutStream, err: OutStream)
    returns (status: ExitStatus)
    requires out != err
    modifies out, err
    ensures Lookup(catalog, path).None? ==>
      out.text == old(out.text) && err.text == old(err.text) + LookupErrorText(path) &&
      status == ExitFailure
    ensures Lookup(catalog, path).Some? ==>
      out.text == old(out.text) + ReportText(Lookup(catalog, path).value) &&
      err.text == old(err.text) && status == ExitSuccess
  {
    var acc := Lookup(catalog, path);
    if acc.None? {
      err.Write(LOOKUP_ERROR);
      err.Write(path);
      err.Write("\n");
      return ExitFailure;
    }
    WriteReport(out, acc.value);
    return ExitSuccess;
  }

  /** The branch of `main` for no argument: every accelerator, then the default one. */
  method ListAccelerators(catalog: Catalog, out: OutStream)
    modifies out
    ensures out.text == old(out.text) + ListingText(catalog)
  {
    var all := catalog.all;
    if all == [] {
      out.Write(NO_ACCELERATORS);
      out.Write("\n");
      return;
    }
    ghost var start := out.text;
    out.Write(NatToString(|all|));
    out.Write(AVAILABLE);
    AppendAssociates(start, NatToString(|all|), AVAILABLE);
    out.Write("\n\n");
    AppendAssociates(start, NatToString(|all|) + AVAILABLE, "\n\n");
    ghost var header := NatToString(|all|) + AVAILABLE + "\n\n";
    var i := 0;
    assert all[..0] == [];
    while i < |all|
      invariant 0 <= i <= |all|
      invariant out.text == start + (header + ReportsText(all[..i]))
    {
      WriteReport(out, all[i]);
      AppendAssociates(start, header + ReportsText(all[..i]), ReportText(all[i]));
      AppendAssociates(header, ReportsText(all[..i]), ReportText(all[i]));
      out.Write("\n");
      AppendAssociates(start, header + ReportsText(all[..i]) + ReportText(all[i]), "\n");
      AppendAssociates(header, ReportsText(all[..i]) + ReportText(all[i]), "\n");
      ReportsTextSnoc(all, i);
      i := i + 1;
    }
    assert all[..i] == all;
    ghost var listed := header + ReportsText(all);
    out.Write(DEFAULT_ACCELERATOR);
    AppendAssociates(start, listed, DEFAULT_ACCELERATOR);
    out.Write(catalog.default.path);
    AppendAssociates(start, listed + DEFAULT_ACCELERATOR, catalog.default.path);
    out.Write("\n");
    AppendAssociates(start, listed + DEFAULT_ACCELERATOR + catalog.default.path, "\n");
  }

  /**
    `main` run against the two streams: its writes are those of `Main`, and
    it returns `Main`'s exit status.
   */
  method Run(argv: seq<string>, catalog: Catalog, hccVersion: string, out: OutStream, err: OutStream)
    returns (status: ExitStatus)
    requires out != err
    modifies out, err
    ensures out.text == old(out.text) + Main(argv, catalog, hccVersion).stdout
    ensures err.text == old(err.text) + Main(argv, catalog, hccVersion).stderr
    ensures status == Main(argv, catalog, hccVersion).status
  {
    if |argv| > 2 {
      DisplayUsage(err, hccVersion);
      return ExitFailure;
    }
    if |argv| == 2 {
      var path := argv[1];
      if IsHelp(path) {
        DisplayUsage(out, hccVersion);
        return ExitSuccess;
      }
      status := PrintAccelerator(catalog, path, out, err);
      return;
    }
    ListAccelerators(catalog, out);
    return ExitSuccess;
  }

  /**
    For a version string without a line break, the usage text is exactly its
    six lines; the first is the synopsis, which starts with "usage:".
   */
  lemma UsageIsSixLines(hccVersion: string)
    requires '\n' !in hccVersion
    ensures SplitTerminated(UsageText(hccVersion), '\n') == UsageLines(hccVersion)
  {
    UsageLinesPrintable(hccVersion);
    SplitJoinTerminated(UsageLines(hccVersion), '\n');
  }

  lemma UsageLinesPrintable(hccVersion: string)
    requires '\n' !in hccVersion
    ensures NoneContains(UsageLines(hccVersion), '\n')
  {
    UsageMessagesPrintable();
    assert '\n' !in USAGE_VERSION + hccVersion;
  }

  /** None of the fixed usage lines holds a line break. */
  lemma UsageMessagesPrintable()
    ensures '\n' !in USAGE_SYNOPSIS && '\n' !in USAGE_PURPOSE
    ensures '\n' !in USAGE_SEE && '\n' !in USAGE_VERSION
  {
    SynopsisPrintable();
    PurposePrintable();
    SeePrintable();
  }

  lemma SynopsisPrintable()
    ensures '\n' !in USAGE_SYNOPSIS && USAGE_SYNOPSIS[..6] == "usage:"
  {
  }

  lemma PurposePrintable()
    ensures '\n' !in USAGE_PURPOSE
  {
  }

  lemma SeePrintable()
    ensures '\n' !in USAGE_SEE
  {
  }

  /** None of the fixed listing and error messages holds a line break. */
  lemma ListingMessagesPrintable()
    ensures '\n' !in LOOKUP_ERROR && '\n' !in NO_ACCELERATORS
    ensures '\n' !in AVAILABLE && '\n' !in DEFAULT_ACCELERATOR
  {
  }

  /** The report text of the devices is the '\n'-terminated join of their report lines. */
  lemma {:induction false} ReportsTextLines(devices: seq<Device>)
    ensures ReportsText(devices) == JoinTerminated(ReportsLines(devices), '\n')
  {
    if devices != [] {
      var init, last := devices[..|devices| - 1], devices[|devices| - 1];
      var blocks := seq(|devices|, k requires 0 <= k < |devices| => ReportLines(devices[k]));
      assert blocks[..|blocks| - 1] == seq(|init|, k requires 0 <= k < |init| => ReportLines(init[k]));
      assert ReportsLines(devices) == ReportsLines(init) + ReportLines(last) + [""];
      ReportsTextLines(init);
      JoinTerminatedAppend(ReportsLines(init), ReportLines(last), '\n');
      JoinTerminatedSnoc(ReportsLines(init) + ReportLines(last), "", '\n');
    }
  }

  /** Blocks of twelve lines each take thirteen lines once separated. */
  lemma {:induction false} ParagraphsLength(blocks: seq<seq<string>>)
    requires forall i :: 0 <= i < |blocks| ==> |blocks[i]| == 12
    ensures |Paragraphs(blocks)| == 13 * |blocks|
  {
    if blocks != [] {
      ParagraphsLength(blocks[..|blocks| - 1]);
    }
  }

  /** Block `k` of twelve-line blocks starts at line `13 * k`, an empty line after it. */
  lemma {:induction false} ParagraphsLayout(blocks: seq<seq<string>>, k: nat)
    requires forall i :: 0 <= i < |blocks| ==> |blocks[i]| == 12
    requires k < |blocks|
    ensures 13 * k + 12 < |Paragraphs(blocks)|
    ensures Paragraphs(blocks)[13 * k..13 * k + 12] == blocks[k]
    ensures Paragraphs(blocks)[13 * k + 12] == ""
  {
    var n := |blocks|;
    var init := blocks[..n - 1];
    var lines := Paragraphs(blocks);
    ParagraphsLength(blocks);
    ParagraphsLength(init);
    assert lines == Paragraphs(init) + blocks[n - 1] + [""];
    if k < n - 1 {
      ParagraphsLayout(init, k);
      assert lines[13 * k..13 * k + 12] == Paragraphs(init)[13 * k..13 * k + 12];
    }
  }

  /**
    The reports come in enumeration order: device `k`'s twelve lines start at
    line `13 * k`, and an empty line follows each; the reports of `N` devices
    take `13 * N` lines.
   */
  lemma ReportsLinesLayout(devices: seq<Device>, k: nat)
    requires k < |devices|
    ensures |ReportsLines(devices)| == 13 * |devices|
    ensures ReportsLines(devices)[13 * k..13 * k + 12] == ReportLines(devices[k])
    ensures ReportsLines(devices)[13 * k + 12] == ""
  {
    var blocks := seq(|devices|, i requires 0 <= i < |devices| => ReportLines(devices[i]));
    forall i | 0 <= i < |blocks|
      ensures |blocks[i]| == 12
    {
      assert |ReportLines(devices[i])| == 12;
    }
    ParagraphsLength(blocks);
    ParagraphsLayout(blocks, k);
  }

  /** Separating blocks by empty lines adds no character that none of them holds. */
  lemma {:induction false} ParagraphsAvoid(blocks: seq<seq<string>>, c: char)
    requires forall i :: 0 <= i < |blocks| ==> NoneContains(blocks[i], c)
    ensures NoneContains(Paragraphs(blocks), c)
  {
    if blocks != [] {
      ParagraphsAvoid(blocks[..|blocks| - 1], c);
      assert NoneContains(blocks[|blocks| - 1], c);
    }
  }

  /** No listing line holds a line break when no device's free text does. */
  lemma ListingLinesPrintable(catalog: Catalog)
    requires AllPrintable(catalog.all) && '\n' !in catalog.default.path
    ensures NoneContains(ListingLines(catalog), '\n')
  {
    ListingMessagesPrintable();
    if catalog.all != [] {
      var devices := catalog.all;
      var blocks := seq(|devices|, k requires 0 <= k < |devices| => ReportLines(devices[k]));
      forall i | 0 <= i < |blocks|
        ensures NoneContains(blocks[i], '\n')
      {
        assert Printable(devices[i]);
      }
      ParagraphsAvoid(blocks, '\n');
      DigitsAvoid(NatToString(|devices|), '\n');
      var lines := ListingLines(catalog);
      var n := |lines|;
      forall i | 0 <= i < n
        ensures '\n' !in lines[i]
      {
        if 2 <= i < n - 1 {
          assert lines[i] == ReportsLines(devices)[i - 2];
        }
      }
    }
  }

  /** More than one argument: the usage on standard error and failure, whatever the arguments and the accelerators. */
  lemma TooManyArguments(argv: seq<string>, other: seq<string>, catalog: Catalog, otherCatalog: Catalog,
                         hccVersion: string)
    requires |argv| > 2 && |other| > 2
    ensures Main(argv, catalog, hccVersion).stdout == []
    ensures Main(argv, catalog, hccVersion).stderr == UsageText(hccVersion)
    ensures Main(argv, catalog, hccVersion).status == ExitFailure
    ensures Main(argv, catalog, hccVersion) == Main(other, otherCatalog, hccVersion)
  {
  }

  /** `-h` or `--help`: the usage on standard output and success, whatever the accelerators. */
  lemma HelpShowsUsage(argv: seq<string>, catalog: Catalog, otherCatalog: Catalog, hccVersion: string)
    requires |argv| == 2 && IsHelp(argv[1])
    ensures Main(argv, catalog, hccVersion).stdout == UsageText(hccVersion)
    ensures Main(argv, catalog, hccVersion).stderr == []
    ensures Main(argv, catalog, hccVersion).status == ExitSuccess
    ensures Main(argv, catalog, hccVersion) == Main(argv, otherCatalog, hccVersion)
  {
  }

  /**
    A device path with no accelerator: nothing on standard output, one line on
    standard error naming the path, and failure.
   */
  lemma LookupFailure(argv: seq<string>, catalog: Catalog, hccVersion: string)
    requires |argv| == 2 && !IsHelp(argv[1]) && argv[1] !in catalog.resolve
    ensures Main(argv, catalog, hccVersion).stdout == []
    ensures Main(argv, catalog, hccVersion).status == ExitFailure
    ensures var e := Main(argv, catalog, hccVersion).stderr;
      |e| == |LOOKUP_ERROR| + |argv[1]| + 1 &&
      e[..|LOOKUP_ERROR|] == LOOKUP_ERROR && e[|LOOKUP_ERROR|..|e| - 1] == argv[1] && e[|e| - 1] == '\n'
    ensures '\n' !in argv[1] ==>
      SplitTerminated(Main(argv, catalog, hccVersion).stderr, '\n') == [LOOKUP_ERROR + argv[1]]
  {
  }

  /**
    A device path with an accelerator: that device's twelve report lines on
    standard output, nothing on standard error, and success. The report shows
    the path of the device the lookup returned, which need not be the argument.
   */
  lemma LookupSuccess(argv: seq<string>, catalog: Catalog, hccVersion: string)
    requires |argv| == 2 && !IsHelp(argv[1]) && argv[1] in catalog.resolve
    requires Printable(catalog.resolve[argv[1]])
    ensures Main(argv, catalog, hccVersion).stderr == []
    ensures Main(argv, catalog, hccVersion).status == ExitSuccess
    ensures SplitTerminated(Main(argv, catalog, hccVersion).stdout, '\n') == ReportLines(catalog.resolve[argv[1]])
    ensures ReportLines(catalog.resolve[argv[1]])[0][LABEL_WIDTH..] == catalog.resolve[argv[1]].path
  {
    var d := catalog.resolve[argv[1]];
    ReportLayout(d, 0);
  }

  /** "default" is an ordinary device path: without an accelerator for it, the run fails. */
  lemma DefaultIsAnOrdinaryPath(argv: seq<string>, catalog: Catalog, hccVersion: string)
    requires |argv| == 2 && argv[1] == "default" && "default" !in catalog.resolve
    ensures Main(argv, catalog, hccVersion).status == ExitFailure
  {
  }

  /** A run writes to one stream only: standard error when it fails, standard output when it succeeds. */
  lemma OneStreamPerRun(argv: seq<string>, catalog: Catalog, hccVersion: string)
    ensures Main(argv, catalog, hccVersion).status == ExitFailure ==>
      Main(argv, catalog, hccVersion).stdout == [] && Main(argv, catalog, hccVersion).stderr != []
    ensures Main(argv, catalog, hccVersion).status == ExitSuccess ==>
      Main(argv, catalog, hccVersion).stderr == [] && Main(argv, catalog, hccVersion).stdout != []
  {
    var o := Main(argv, catalog, hccVersion);
    if |argv| <= 1 && catalog.all != [] {
      assert o.stdout == NatToString(|catalog.all|) + AVAILABLE + "\n\n" + ReportsText(catalog.all) +
        DEFAULT_ACCELERATOR + catalog.default.path + "\n";
    } else if |argv| == 2 && !IsHelp(argv[1]) && argv[1] in catalog.resolve {
      assert |ReportLines(catalog.resolve[argv[1]])| == 12;
    }
  }

  /** No argument and no accelerator: a single line saying so, and success. */
  lemma NoAcceleratorsFound(argv: seq<string>, catalog: Catalog, hccVersion: string)
    requires |argv| <= 1 && catalog.all == []
    ensures Main(argv, catalog, hccVersion).stderr == []
    ensures Main(argv, catalog, hccVersion).status == ExitSuccess
    ensures SplitTerminated(Main(argv, catalog, hccVersion).stdout, '\n') == [NO_ACCELERATORS]
  {
    ListingMessagesPrintable();
    SplitJoinTerminated(ListingLines(catalog), '\n');
  }

  /**
    No argument and `N > 0` accelerators: a header line giving `N` in decimal,
    an empty line, each device's twelve report lines and an empty line in
    enumeration order, and last the default accelerator's path; `13 * N + 3`
    lines in all.
   */
  lemma ListingLayout(argv: seq<string>, catalog: Catalog, hccVersion: string)
    requires |argv| <= 1 && catalog.all != []
    requires AllPrintable(catalog.all) && '\n' !in catalog.default.path
    ensures Main(argv, catalog, hccVersion).stderr == []
    ensures Main(argv, catalog, hccVersion).status == ExitSuccess
    ensures SplitTerminated(Main(argv, catalog, hccVersion).stdout, '\n') == ListingLines(catalog)
    ensures |ListingLines(catalog)| == 13 * |catalog.all| + 3
    ensures ListingLines(catalog)[0] == NatToString(|catalog.all|) + AVAILABLE
    ensures ListingLines(catalog)[1] == ""
    ensures ListingLines(catalog)[13 * |catalog.all| + 2] == DEFAULT_ACCELERATOR + catalog.default.path
  {
    ListingLinesPrintable(catalog);
    SplitJoinTerminated(ListingLines(catalog), '\n');
    ReportsLinesLayout(catalog.all, 0);
  }

  /**
    Between a two-line header and a footer, block `k` of twelve-line blocks
    separated by empty lines starts at line `2 + 13 * k`, an empty line after it.
   */
  lemma {:induction false} FramedParagraphsLayout(header: seq<string>, blocks: seq<seq<string>>,
                                                  footer: seq<string>, k: nat)
    requires |header| == 2 && |footer| == 1
    requires forall i :: 0 <= i < |blocks| ==> |blocks[i]| == 12
    requires k < |blocks|
    ensures |header + Paragraphs(blocks) + footer| == 13 * |blocks| + 3
    ensures (header + Paragraphs(blocks) + footer)[2 + 13 * k..14 + 13 * k] == blocks[k]
    ensures (header + Paragraphs(blocks) + footer)[14 + 13 * k] == ""
  {
    ParagraphsLength(blocks);
    ParagraphsLayout(blocks, k);
    SliceOfMiddle(header, Paragraphs(blocks), footer, 13 * k, 13 * k + 12);
  }

  /** In the listing, device `k`'s report starts at line `2 + 13 * k` and an empty line follows it. */
  lemma ListingReportAt(catalog: Catalog, k: nat)
    requires k < |catalog.all|
    ensures |ListingLines(catalog)| == 13 * |catalog.all| + 3
    ensures ListingLines(catalog)[2 + 13 * k..14 + 13 * k] == ReportLines(catalog.all[k])
    ensures ListingLines(catalog)[14 + 13 * k] == ""
  {
    var devices := catalog.all;
    var blocks := seq(|devices|, i requires 0 <= i < |devices| => ReportLines(devices[i]));
    forall i | 0 <= i < |blocks|
      ensures |blocks[i]| == 12
    {
      assert |ReportLines(devices[i])| == 12;
    }
    FramedParagraphsLayout([NatToString(|devices|) + AVAILABLE, ""], blocks,
      [DEFAULT_ACCELERATOR + catalog.default.path], k);
  }

  /** The header's count reads back as the number of accelerators. */
  lemma ListingCountReadsBack(catalog: Catalog)
    requires catalog.all != []
    ensures var header := ListingLines(catalog)[0];
      |AVAILABLE| < |header| &&
      IsDigits(header[..|header| - |AVAILABLE|]) &&
      StringToNat(header[..|header| - |AVAILABLE|]) == |catalog.all|
  {
    var digits := NatToString(|catalog.all|);
    var header := ListingLines(catalog)[0];
    assert header == digits + AVAILABLE;
    assert header[..|header| - |AVAILABLE|] == digits;
    StringToNatOfNatToString(|catalog.all|);
  }
}
