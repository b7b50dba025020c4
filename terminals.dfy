/**
 * What the detector answers for each kind of terminal, stated for whole
 * families of environments: any value of a marker variable, any version.
 */
module Terminals {
  import opened Wrappers
  import opened Versions
  import opened Detector

  /** Only `TERM_PROGRAM` is set. */
  function Program(program: string): Env
  {
    map["TERM_PROGRAM" := program]
  }

  /** Only `TERM_PROGRAM` and `TERM_PROGRAM_VERSION` are set. */
  function ProgramVersion(program: string, version: string): Env
  {
    map["TERM_PROGRAM" := program, "TERM_PROGRAM_VERSION" := version]
  }

  /** The signals read from ProgramVersion(program, version). */
  lemma ReadProgramVersion(program: string, version: string)
    ensures Read(ProgramVersion(program, version))
      == Signals(None, None, None, None, None, None, Some(program), Some(version), None, None)
  {
  }

  const KittyOnly := Support(true, false, false)
  const AllThree := Support(true, true, true)

  /**
   * Terminals that speak only the Kitty protocol: a Kitty or Ghostty marker
   * with any value, `TERM_PROGRAM` kitty, ghostty or WarpTerminal, or a
   * Kitty/Ghostty `TERM`.
   */
  lemma KittyOnlyTerminals(name: string, value: string)
    requires name in {"KITTY_WINDOW_ID", "KITTY_PID", "GHOSTTY_RESOURCES_DIR"}
      || (name == "TERM_PROGRAM" && value in {"kitty", "ghostty", "WarpTerminal"})
      || (name == "TERM" && value in {"xterm-kitty", "xterm-ghostty"})
    ensures Detect(None, map[name := value]) == KittyOnly
  {
    if name == "TERM" {
      assert value[0] == 'x';
    }
  }

  /**
   * WezTerm speaks all three: a pane or socket marker with any value,
   * `LC_TERMINAL=WezTerm`, or `TERM_PROGRAM=WezTerm` with no version.
   */
  lemma WezTermWithoutVersion(name: string, value: string)
    requires name in {"WEZTERM_PANE", "WEZTERM_UNIX_SOCKET"}
      || (name in {"LC_TERMINAL", "TERM_PROGRAM"} && value == "WezTerm")
    ensures Detect(None, map[name := value]) == AllThree
  {
  }

  /** A WezTerm build stamp gates iTerm2 from 2022-03-19 and Sixel from 2020-06-20; Kitty is unconditional. */
  lemma WezTermStamp(date: nat, rest: string)
    requires Pow10(7) <= date < Pow10(8)
    ensures Detect(None, ProgramVersion("WezTerm", Decimal(date) + "-" + rest))
      == Support(true, date >= 20220319, date >= 20200620)
  {
    ReadProgramVersion("WezTerm", Decimal(date) + "-" + rest);
    DateStampIgnoresRest(date, rest);
  }

  /**
   * WezTerm with any `TERM_PROGRAM_VERSION`: Kitty always, iTerm2 and Sixel
   * exactly when the version is a build stamp dated 2022-03-19 and 2020-06-20
   * or later; a version that is no stamp fails both gates.
   */
  lemma WezTermGates(v: string)
    ensures Detect(None, ProgramVersion("WezTerm", v))
      == Support(true, Admits(Dated(20220319), Some(v)), Admits(Dated(20200620), Some(v)))
  {
    ReadProgramVersion("WezTerm", v);
  }

  /** mintty speaks iTerm2 and Sixel, not Kitty. */
  lemma Mintty()
    ensures Detect(None, Program("mintty")) == Support(false, true, true)
  {
  }

  /** `LC_TERMINAL=iTerm2` alone gives iTerm2 only. */
  lemma LcTerminalITerm2()
    ensures Detect(None, map["LC_TERMINAL" := "iTerm2"]) == Support(false, true, false)
  {
  }

  /** mlterm, under `TERM=mlterm` or any `mlterm-*`, speaks only Sixel. */
  lemma Mlterm(term: string)
    requires term == "mlterm" || "mlterm-" <= term
    ensures Detect(None, map["TERM" := term]) == Support(false, false, true)
  {
    assert term != "xterm-kitty" && term != "xterm-ghostty" by {
      if "mlterm-" <= term { assert term[0] == 'm'; }
    }
  }

  /** iTerm.app: Kitty from 3.6.0, iTerm2 from 2.9.20150512, Sixel never, whatever the version string. */
  lemma ITermAppGates(v: string)
    ensures Detect(None, ProgramVersion("iTerm.app", v))
      == Support(Admits(Dotted([3, 6, 0]), Some(v)), Admits(Dotted([2, 9, 20150512]), Some(v)), false)
  {
    ReadProgramVersion("iTerm.app", v);
  }

  /** iTerm.app at a well-formed version: the gates are comparisons of components. */
  lemma ITermApp(c: seq<nat>)
    requires |c| >= 1
    ensures Detect(None, ProgramVersion("iTerm.app", Render(c)))
      == Support(DottedAtLeast(c, [3, 6, 0]), DottedAtLeast(c, [2, 9, 20150512]), false)
  {
    ITermAppGates(Render(c));
    DottedAdmitsRendered([3, 6, 0], c);
    DottedAdmitsRendered([2, 9, 20150512], c);
  }

  /** iTerm.app without a version fails closed on every protocol. */
  lemma ITermAppWithoutVersion()
    ensures Detect(None, Program("iTerm.app")) == Unsupported
  {
  }

  /** VS Code from 1.80.0 speaks iTerm2 and Sixel, never Kitty. */
  lemma VsCodeGates(v: string)
    ensures Detect(None, ProgramVersion("vscode", v))
      == Support(false, Admits(Dotted([1, 80, 0]), Some(v)), Admits(Dotted([1, 80, 0]), Some(v)))
  {
    ReadProgramVersion("vscode", v);
  }

  lemma VsCode(c: seq<nat>)
    requires |c| >= 1
    ensures Detect(None, ProgramVersion("vscode", Render(c)))
      == Support(false, DottedAtLeast(c, [1, 80, 0]), DottedAtLeast(c, [1, 80, 0]))
  {
    VsCodeGates(Render(c));
    DottedAdmitsRendered([1, 80, 0], c);
  }

  /** Rio always speaks Kitty; iTerm2 from 0.1.13 and Sixel from 0.1.12. */
  lemma RioGates(v: string)
    ensures Detect(None, ProgramVersion("rio", v))
      == Support(true, Admits(Dotted([0, 1, 13]), Some(v)), Admits(Dotted([0, 1, 12]), Some(v)))
  {
    ReadProgramVersion("rio", v);
  }

  lemma Rio(c: seq<nat>)
    requires |c| >= 1
    ensures Detect(None, ProgramVersion("rio", Render(c)))
      == Support(true, DottedAtLeast(c, [0, 1, 13]), DottedAtLeast(c, [0, 1, 12]))
  {
    RioGates(Render(c));
    DottedAdmitsRendered([0, 1, 13], c);
    DottedAdmitsRendered([0, 1, 12], c);
  }

  /** Rio without a version: Kitty only, the version-gated protocols fail closed. */
  lemma RioWithoutVersion()
    ensures Detect(None, Program("rio")) == KittyOnly
  {
  }

  /**
   * Konsole: `KONSOLE_VERSION` at 220400 or later gives all three, below it
   * none, whether or not `TERM_PROGRAM=Konsole` is also set.
   */
  lemma Konsole(n: nat, named: bool)
    ensures var env := if named then map["TERM_PROGRAM" := "Konsole", "KONSOLE_VERSION" := Decimal(n)]
                       else map["KONSOLE_VERSION" := Decimal(n)];
      var b := n >= 220400;
      Detect(None, env) == Support(b, b, b)
  {
    DecimalRoundTrip(n);
  }

  /**
   * Konsole with any `KONSOLE_VERSION`: all three when it reads as an integer
   * of at least 220400, none otherwise, with or without `TERM_PROGRAM=Konsole`.
   */
  lemma KonsoleGates(v: string, named: bool)
    ensures var env := if named then map["TERM_PROGRAM" := "Konsole", "KONSOLE_VERSION" := v]
                       else map["KONSOLE_VERSION" := v];
      var b := Admits(Build(220400), Some(v));
      Detect(None, env) == Support(b, b, b)
  {
  }

  /** `TERM_PROGRAM=Konsole` without `KONSOLE_VERSION` gives nothing. */
  lemma KonsoleWithoutVersion()
    ensures Detect(None, Program("Konsole")) == Unsupported
  {
  }

  /**
   * A `TERM` that names no rule, such as foot's `foot`, gives nothing: a
   * terminal with no identifying variable is reported unsupported.
   */
  lemma UnrecognisedTerm(term: string)
    requires term !in {"xterm-kitty", "xterm-ghostty", "mlterm"} && !("mlterm-" <= term)
    ensures Detect(None, map["TERM" := term]) == Unsupported
  {
  }
}
