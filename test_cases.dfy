/**
 * The package's test cases, one lemma each, every one following from the
 * family of environments it belongs to.
 */
module TestCases {
  import opened Wrappers
  import opened Versions
  import opened Detector
  import opened Terminals

  // ---------------------------------------------------------------------------
  // Stream gate

  /** A non-TTY stream hides kitty. */
  lemma NonTtyStreamKitty()
    ensures Detect(Some(Stream(Some(false))), Program("kitty")) == Unsupported
  {
    NonTtyUnsupported(Stream(Some(false)), Program("kitty"));
  }

  /** A non-TTY stream hides iTerm.app 3.4.0. */
  lemma NonTtyStreamITermApp()
    ensures Detect(Some(Stream(Some(false))), ProgramVersion("iTerm.app", "3.4.0")) == Unsupported
  {
    NonTtyUnsupported(Stream(Some(false)), ProgramVersion("iTerm.app", "3.4.0"));
  }

  /** A non-TTY stream hides WezTerm. */
  lemma NonTtyStreamWezTerm()
    ensures Detect(Some(Stream(Some(false))), Program("WezTerm")) == Unsupported
  {
    NonTtyUnsupported(Stream(Some(false)), Program("WezTerm"));
  }

  /** A TTY stream lets kitty through. */
  lemma TtyStreamKitty()
    ensures Detect(Some(Stream(Some(true))), Program("kitty")).kitty
  {
    TtySameAsNoStream(Program("kitty"));
    KittyOnlyTerminals("TERM_PROGRAM", "kitty");
  }

  /** A stream without `isTTY` counts as not a TTY. */
  lemma StreamWithoutIsTTY()
    ensures Detect(Some(Stream(None)), Program("kitty")) == Unsupported
  {
    NonTtyUnsupported(Stream(None), Program("kitty"));
  }

  // ---------------------------------------------------------------------------
  // No signal

  /** The empty environment supports nothing. */
  lemma EmptyEnv()
    ensures Detect(None, map[]) == Unsupported
  {
    NoSignalUnsupported(None, map[]);
  }

  // ---------------------------------------------------------------------------
  // Markers and unconditional terminals

  /** `KITTY_WINDOW_ID=1`. */
  lemma KittyWindowIdCase()
    ensures Detect(None, map["KITTY_WINDOW_ID" := "1"]).kitty
  {
    KittyOnlyTerminals("KITTY_WINDOW_ID", "1");
  }

  /** `KITTY_PID=12345`. */
  lemma KittyPidCase()
    ensures Detect(None, map["KITTY_PID" := "12345"]).kitty
  {
    KittyOnlyTerminals("KITTY_PID", "12345");
  }

  /** `GHOSTTY_RESOURCES_DIR` gives kitty and nothing else. */
  lemma GhosttyResourcesDirCase()
    ensures Detect(None, map["GHOSTTY_RESOURCES_DIR" := "/usr/share/ghostty"]) == KittyOnly
  {
    KittyOnlyTerminals("GHOSTTY_RESOURCES_DIR", "/usr/share/ghostty");
  }

  /** `WEZTERM_PANE` gives all three. */
  lemma WezTermPaneCase()
    ensures Detect(None, map["WEZTERM_PANE" := "0"]) == AllThree
  {
    WezTermWithoutVersion("WEZTERM_PANE", "0");
  }

  /** `WEZTERM_UNIX_SOCKET` gives all three. */
  lemma WezTermUnixSocketCase()
    ensures Detect(None, map["WEZTERM_UNIX_SOCKET" := "/tmp/wezterm.sock"]) == AllThree
  {
    WezTermWithoutVersion("WEZTERM_UNIX_SOCKET", "/tmp/wezterm.sock");
  }

  /** `LC_TERMINAL=WezTerm` gives all three. */
  lemma LcTerminalWezTermCase()
    ensures Detect(None, map["LC_TERMINAL" := "WezTerm"]) == AllThree
  {
    WezTermWithoutVersion("LC_TERMINAL", "WezTerm");
  }

  /** `TERM_PROGRAM=kitty` gives kitty only. */
  lemma TermProgramKittyCase()
    ensures Detect(None, Program("kitty")) == KittyOnly
  {
    KittyOnlyTerminals("TERM_PROGRAM", "kitty");
  }

  /** `TERM_PROGRAM=ghostty` gives kitty only. */
  lemma TermProgramGhosttyCase()
    ensures Detect(None, Program("ghostty")) == KittyOnly
  {
    KittyOnlyTerminals("TERM_PROGRAM", "ghostty");
  }

  /** `TERM_PROGRAM=WezTerm` without a version gives all three. */
  lemma TermProgramWezTermCase()
    ensures Detect(None, Program("WezTerm")) == AllThree
  {
    WezTermWithoutVersion("TERM_PROGRAM", "WezTerm");
  }

  /** `TERM_PROGRAM=rio` without a version gives kitty. */
  lemma TermProgramRioCase()
    ensures Detect(None, Program("rio")).kitty
  {
    RioWithoutVersion();
  }

  /** `TERM_PROGRAM=WarpTerminal` gives kitty. */
  lemma TermProgramWarpCase()
    ensures Detect(None, Program("WarpTerminal")).kitty
  {
    KittyOnlyTerminals("TERM_PROGRAM", "WarpTerminal");
  }

  /** `TERM=xterm-kitty` gives kitty. */
  lemma TermXtermKittyCase()
    ensures Detect(None, map["TERM" := "xterm-kitty"]).kitty
  {
    KittyOnlyTerminals("TERM", "xterm-kitty");
  }

  /** `TERM=xterm-ghostty` gives kitty. */
  lemma TermXtermGhosttyCase()
    ensures Detect(None, map["TERM" := "xterm-ghostty"]).kitty
  {
    KittyOnlyTerminals("TERM", "xterm-ghostty");
  }

  /** `TERM_PROGRAM=mintty` gives iTerm2 and Sixel. */
  lemma MinttyCase()
    ensures Detect(None, Program("mintty")).iterm2 && Detect(None, Program("mintty")).sixel
  {
    Mintty();
  }

  /** `LC_TERMINAL=iTerm2` gives iTerm2. */
  lemma LcTerminalITerm2Case()
    ensures Detect(None, map["LC_TERMINAL" := "iTerm2"]).iterm2
  {
    LcTerminalITerm2();
  }

  /** `TERM=mlterm` gives Sixel only. */
  lemma MltermCase()
    ensures Detect(None, map["TERM" := "mlterm"]) == Support(false, false, true)
  {
    Mlterm("mlterm");
  }

  /** `TERM=mlterm-256color` gives Sixel. */
  lemma Mlterm256ColorCase()
    ensures Detect(None, map["TERM" := "mlterm-256color"]).sixel
  {
    Mlterm("mlterm-256color");
  }

  // ---------------------------------------------------------------------------
  // iTerm.app

  /** iTerm.app 3.6.0 gives kitty and iTerm2, not Sixel. */
  lemma ITermApp360Case()
    ensures Detect(None, ProgramVersion("iTerm.app", "3.6.0")) == Support(true, true, false)
  {
    assert Render([3, 6, 0]) == "3.6.0";
    ITermApp([3, 6, 0]);
  }

  /** iTerm.app 3.5.0 is below the kitty gate. */
  lemma ITermApp350Case()
    ensures Detect(None, ProgramVersion("iTerm.app", "3.5.0")).kitty == false
  {
    assert Render([3, 5, 0]) == "3.5.0";
    ITermApp([3, 5, 0]);
  }

  /** iTerm.app 3.4.0 gives iTerm2 only. */
  lemma ITermApp340Case()
    ensures Detect(None, ProgramVersion("iTerm.app", "3.4.0")) == Support(false, true, false)
  {
    assert Render([3, 4, 0]) == "3.4.0";
    ITermApp([3, 4, 0]);
  }

  /** iTerm.app never gives Sixel. */
  lemma ITermApp300Case()
    ensures Detect(None, ProgramVersion("iTerm.app", "3.0.0")).sixel == false
  {
    assert Render([3, 0, 0]) == "3.0.0";
    ITermApp([3, 0, 0]);
  }

  /** iTerm.app 2.9.20150512 is the first with iTerm2 images. */
  lemma ITermAppIterm2MinimumCase()
    ensures Detect(None, ProgramVersion("iTerm.app", "2.9.20150512")).iterm2
  {
    RenderITerm2Minimum();
    ITermApp([2, 9, 20150512]);
  }

  /** iTerm.app 2.9.20150511 is one build too early. */
  lemma ITermAppBeforeIterm2Case()
    ensures Detect(None, ProgramVersion("iTerm.app", "2.9.20150511")).iterm2 == false
  {
    RenderBeforeITerm2Minimum();
    ITermApp([2, 9, 20150511]);
  }

  /** iTerm.app without a version gives nothing. */
  lemma ITermAppUnversionedCase()
    ensures Detect(None, Program("iTerm.app")) == Unsupported
  {
    ITermAppWithoutVersion();
  }

  // ---------------------------------------------------------------------------
  // VS Code and rio

  /** VS Code 1.80.0 gives iTerm2 and Sixel, not kitty. */
  lemma VsCode1800Case()
    ensures Detect(None, ProgramVersion("vscode", "1.80.0")) == Support(false, true, true)
  {
    assert Render([1, 80, 0]) == "1.80.0";
    VsCode([1, 80, 0]);
  }

  /** VS Code 2.0.0 gives iTerm2. */
  lemma VsCode200Case()
    ensures Detect(None, ProgramVersion("vscode", "2.0.0")).iterm2
  {
    assert Render([2, 0, 0]) == "2.0.0";
    VsCode([2, 0, 0]);
  }

  /** VS Code 1.79.0 is below both gates. */
  lemma VsCode1790Case()
    ensures Detect(None, ProgramVersion("vscode", "1.79.0")) == Unsupported
  {
    assert Render([1, 79, 0]) == "1.79.0";
    VsCode([1, 79, 0]);
  }

  /** rio 0.1.13 gives iTerm2. */
  lemma Rio0113Case()
    ensures Detect(None, ProgramVersion("rio", "0.1.13")).iterm2
  {
    assert Render([0, 1, 13]) == "0.1.13";
    Rio([0, 1, 13]);
  }

  /** rio 0.2.0 gives iTerm2. */
  lemma Rio020Case()
    ensures Detect(None, ProgramVersion("rio", "0.2.0")).iterm2
  {
    assert Render([0, 2, 0]) == "0.2.0";
    Rio([0, 2, 0]);
  }

  /** rio 1.0.0 gives iTerm2. */
  lemma Rio100Case()
    ensures Detect(None, ProgramVersion("rio", "1.0.0")).iterm2
  {
    assert Render([1, 0, 0]) == "1.0.0";
    Rio([1, 0, 0]);
  }

  /** rio 0.1.12 gives Sixel but not yet iTerm2. */
  lemma Rio0112Case()
    ensures Detect(None, ProgramVersion("rio", "0.1.12")) == Support(true, false, true)
  {
    assert Render([0, 1, 12]) == "0.1.12";
    Rio([0, 1, 12]);
  }

  /** rio 0.1.11 is below the Sixel gate. */
  lemma Rio0111Case()
    ensures Detect(None, ProgramVersion("rio", "0.1.11")).sixel == false
  {
    assert Render([0, 1, 11]) == "0.1.11";
    Rio([0, 1, 11]);
  }

  // ---------------------------------------------------------------------------
  // Konsole

  /** Konsole 22.04 named in `TERM_PROGRAM` gives all three. */
  lemma KonsoleNamedRecentCase()
    ensures Detect(None, map["TERM_PROGRAM" := "Konsole", "KONSOLE_VERSION" := "220400"]) == AllThree
  {
    Decimal220400();
    Konsole(220400, true);
  }

  /** Konsole 21.00 named in `TERM_PROGRAM` gives nothing. */
  lemma KonsoleNamedOldCase()
    ensures Detect(None, map["TERM_PROGRAM" := "Konsole", "KONSOLE_VERSION" := "210000"]) == Unsupported
  {
    Decimal210000();
    Konsole(210000, true);
  }

  /** `KONSOLE_VERSION=220400` alone gives all three. */
  lemma KonsoleRecentCase()
    ensures Detect(None, map["KONSOLE_VERSION" := "220400"]) == AllThree
  {
    Decimal220400();
    Konsole(220400, false);
  }

  /** `KONSOLE_VERSION=210000` alone gives no kitty. */
  lemma KonsoleOldCase()
    ensures Detect(None, map["KONSOLE_VERSION" := "210000"]).kitty == false
  {
    Decimal210000();
    Konsole(210000, false);
  }

  /** `TERM_PROGRAM=Konsole` without `KONSOLE_VERSION` gives no kitty. */
  lemma KonsoleUnversionedCase()
    ensures Detect(None, Program("Konsole")).kitty == false
  {
    KonsoleWithoutVersion();
  }

  // ---------------------------------------------------------------------------
  // WezTerm build stamps

  /** A build of 2022-03-18 is too early for iTerm2. */
  lemma WezTermBeforeIterm2Case()
    ensures Detect(None, ProgramVersion("WezTerm", "20220318-000000-00000000")).iterm2 == false
  {
    Stamp20220318();
    WezTermStamp(20220318, "000000-00000000");
  }

  /** A build of 2022-03-19 gives iTerm2. */
  lemma WezTermIterm2Case()
    ensures Detect(None, ProgramVersion("WezTerm", "20220319-142410-0fcdea07")).iterm2
  {
    Stamp20220319();
    WezTermStamp(20220319, "142410-0fcdea07");
  }

  /** A build of 2020-06-19 is too early for Sixel. */
  lemma WezTermBeforeSixelCase()
    ensures Detect(None, ProgramVersion("WezTerm", "20200619-000000-00000000")).sixel == false
  {
    Stamp20200619();
    WezTermStamp(20200619, "000000-00000000");
  }

  /** A build of 2020-06-20 gives Sixel. */
  lemma WezTermSixelCase()
    ensures Detect(None, ProgramVersion("WezTerm", "20200620-160318-e00b076c")).sixel
  {
    Stamp20200620();
    WezTermStamp(20200620, "160318-e00b076c");
  }

  // ---------------------------------------------------------------------------
  // Version strings of the cases above, written out digit by digit

  lemma RenderITerm2Minimum()
    ensures Render([2, 9, 20150512]) == "2.9.20150512"
  {
    DecimalAppend(2, 0);
    DecimalAppend(20, 1);
    DecimalAppend(201, 5);
    DecimalAppend(2015, 0);
    DecimalAppend(20150, 5);
    DecimalAppend(201505, 1);
    DecimalAppend(2015051, 2);
  }

  lemma RenderBeforeITerm2Minimum()
    ensures Render([2, 9, 20150511]) == "2.9.20150511"
  {
    DecimalAppend(2, 0);
    DecimalAppend(20, 1);
    DecimalAppend(201, 5);
    DecimalAppend(2015, 0);
    DecimalAppend(20150, 5);
    DecimalAppend(201505, 1);
    DecimalAppend(2015051, 1);
  }

  lemma Stamp20220318()
    ensures Decimal(20220318) + "-" + "000000-00000000" == "20220318-000000-00000000"
  {
    DecimalAppend(2, 0);
    DecimalAppend(20, 2);
    DecimalAppend(202, 2);
    DecimalAppend(2022, 0);
    DecimalAppend(20220, 3);
    DecimalAppend(202203, 1);
    DecimalAppend(2022031, 8);
  }

  lemma Stamp20220319()
    ensures Decimal(20220319) + "-" + "142410-0fcdea07" == "20220319-142410-0fcdea07"
  {
    DecimalAppend(2, 0);
    DecimalAppend(20, 2);
    DecimalAppend(202, 2);
    DecimalAppend(2022, 0);
    DecimalAppend(20220, 3);
    DecimalAppend(202203, 1);
    DecimalAppend(2022031, 9);
  }

  lemma Stamp20200619()
    ensures Decimal(20200619) + "-" + "000000-00000000" == "20200619-000000-00000000"
  {
    DecimalAppend(2, 0);
    DecimalAppend(20, 2);
    DecimalAppend(202, 0);
    DecimalAppend(2020, 0);
    DecimalAppend(20200, 6);
    DecimalAppend(202006, 1);
    DecimalAppend(2020061, 9);
  }

  lemma Stamp20200620()
    ensures Decimal(20200620) + "-" + "160318-e00b076c" == "20200620-160318-e00b076c"
  {
    DecimalAppend(2, 0);
    DecimalAppend(20, 2);
    DecimalAppend(202, 0);
    DecimalAppend(2020, 0);
    DecimalAppend(20200, 6);
    DecimalAppend(202006, 2);
    DecimalAppend(2020062, 0);
  }

  lemma Decimal220400()
    ensures Decimal(220400) == "220400"
  {
    DecimalAppend(2, 2);
    DecimalAppend(22, 0);
    DecimalAppend(220, 4);
    DecimalAppend(2204, 0);
    DecimalAppend(22040, 0);
  }

  lemma Decimal210000()
    ensures Decimal(210000) == "210000"
  {
    DecimalAppend(2, 1);
    DecimalAppend(21, 0);
    DecimalAppend(210, 0);
    DecimalAppend(2100, 0);
    DecimalAppend(21000, 0);
  }
}
