/**
 * The terminal-graphics detector: from the output stream and the process
 * environment, which of the Kitty, iTerm2 and Sixel inline-image protocols
 * the terminal supports. Each protocol is one disjunction of rules; a rule
 * names a terminal signal and, for some terminals, a minimum version.
 */
module Detector {
  import opened Wrappers
  import opened Versions

  /** The output stream, seen only through its `isTTY` property, which may be missing. */
  datatype Stream = Stream(isTTY: Option<bool>)

  /** The result record `{kitty, iterm2, sixel}`. */
  datatype Support = Support(kitty: bool, iterm2: bool, sixel: bool)

  const Unsupported := Support(false, false, false)

  /** The process environment: variable names to values; an unset variable is absent. */
  type Env = map<string, string>

  /** Every variable the detector reads. */
  const Recognised: set<string> := {
    "KITTY_WINDOW_ID", "KITTY_PID", "GHOSTTY_RESOURCES_DIR", "WEZTERM_PANE",
    "WEZTERM_UNIX_SOCKET", "LC_TERMINAL", "TERM_PROGRAM", "TERM_PROGRAM_VERSION",
    "TERM", "KONSOLE_VERSION"
  }

  function Lookup(env: Env, name: string): Option<string>
  {
    if name in env then Some(env[name]) else None
  }

  // ---------------------------------------------------------------------------
  // Signals

  /**
   * The stream gate: with no stream the check is skipped, and a given stream
   * must say `isTTY: true`; `false` or a missing property both fail.
   */
  predicate Interactive(stream: Option<Stream>)
  {
    stream.None? || stream.value.isTTY == Some(true)
  }

  /** The recognised variables, each read once from the environment. */
  datatype Signals = Signals(
    kittyWindowId: Option<string>,
    kittyPid: Option<string>,
    ghosttyResourcesDir: Option<string>,
    weztermPane: Option<string>,
    weztermUnixSocket: Option<string>,
    lcTerminal: Option<string>,
    termProgram: Option<string>,
    termProgramVersion: Option<string>,
    term: Option<string>,
    konsoleVersion: Option<string>)

  function Read(env: Env): Signals
  {
    Signals(
      Lookup(env, "KITTY_WINDOW_ID"),
      Lookup(env, "KITTY_PID"),
      Lookup(env, "GHOSTTY_RESOURCES_DIR"),
      Lookup(env, "WEZTERM_PANE"),
      Lookup(env, "WEZTERM_UNIX_SOCKET"),
      Lookup(env, "LC_TERMINAL"),
      Lookup(env, "TERM_PROGRAM"),
      Lookup(env, "TERM_PROGRAM_VERSION"),
      Lookup(env, "TERM"),
      Lookup(env, "KONSOLE_VERSION"))
  }

  predicate KittyMarker(s: Signals)
  {
    s.kittyWindowId.Some? || s.kittyPid.Some?
  }

  predicate WezTermMarker(s: Signals)
  {
    s.weztermPane.Some? || s.weztermUnixSocket.Some?
  }

  /** `TERM` is `mlterm` or one of its `mlterm-*` variants. */
  predicate MltermTerm(s: Signals)
  {
    s.term.Some? && (s.term.value == "mlterm" || "mlterm-" <= s.term.value)
  }

  /** `TERM_PROGRAM` is `program` and `TERM_PROGRAM_VERSION` passes the dotted gate. */
  predicate ProgramAtLeast(s: Signals, program: string, minimum: seq<nat>)
  {
    s.termProgram == Some(program) && Admits(Dotted(minimum), s.termProgramVersion)
  }

  /**
   * `TERM_PROGRAM` is WezTerm and its build is dated `minimum` or later; a
   * WezTerm that reports no version at all is taken to be recent.
   */
  predicate WezTermSince(s: Signals, minimum: nat)
  {
    s.termProgram == Some("WezTerm") &&
    (s.termProgramVersion.None? || Admits(Dated(minimum), s.termProgramVersion))
  }

  /** `KONSOLE_VERSION` is 220400 (Konsole 22.04.00) or later, whatever `TERM_PROGRAM` says. */
  predicate KonsoleRecent(s: Signals)
  {
    Admits(Build(220400), s.konsoleVersion)
  }

  // ---------------------------------------------------------------------------
  // The three protocols

  predicate KittySupported(s: Signals)
  {
    KittyMarker(s) || s.ghosttyResourcesDir.Some? || WezTermMarker(s)
    || s.lcTerminal == Some("WezTerm")
    || s.termProgram == Some("kitty") || s.termProgram == Some("ghostty")
    || s.termProgram == Some("WezTerm") || s.termProgram == Some("rio")
    || s.termProgram == Some("WarpTerminal")
    || ProgramAtLeast(s, "iTerm.app", [3, 6, 0])
    || s.term == Some("xterm-kitty") || s.term == Some("xterm-ghostty")
    || KonsoleRecent(s)
  }

  predicate ITerm2Supported(s: Signals)
  {
    WezTermMarker(s)
    || s.lcTerminal == Some("WezTerm") || s.lcTerminal == Some("iTerm2")
    || s.termProgram == Some("mintty")
    || ProgramAtLeast(s, "iTerm.app", [2, 9, 20150512])
    || WezTermSince(s, 20220319)
    || ProgramAtLeast(s, "vscode", [1, 80, 0])
    || ProgramAtLeast(s, "rio", [0, 1, 13])
    || KonsoleRecent(s)
  }

  predicate SixelSupported(s: Signals)
  {
    WezTermMarker(s)
    || s.lcTerminal == Some("WezTerm")
    || MltermTerm(s)
    || s.termProgram == Some("mintty")
    || WezTermSince(s, 20200620)
    || ProgramAtLeast(s, "vscode", [1, 80, 0])
    || ProgramAtLeast(s, "rio", [0, 1, 12])
    || KonsoleRecent(s)
  }

  /**
   * Which graphics protocols the terminal behind `stream` supports, judging by
   * `env`. A stream that is not a TTY gets nothing, and so does an environment
   * that sets none of the recognised variables.
   */
  function Detect(stream: Option<Stream>, env: Env): (r: Support)
    ensures !Interactive(stream) ==> r == Unsupported
    ensures r != Unsupported ==> exists name :: name in Recognised && name in env
  {
    if !Interactive(stream) then Unsupported
    else
      var s := Read(env);
      Support(KittySupported(s), ITerm2Supported(s), SixelSupported(s))
  }

  // ---------------------------------------------------------------------------
  // Properties of Detect over all inputs

  /** A stream that is not a TTY, or does not say, gets no graphics whatever the environment. */
  lemma NonTtyUnsupported(stream: Stream, env: Env)
    requires stream.isTTY != Some(true)
    ensures Detect(Some(stream), env) == Unsupported
  {
  }

  /** A TTY stream lets detection proceed exactly as when no stream is given. */
  lemma TtySameAsNoStream(env: Env)
    ensures Detect(Some(Stream(Some(true))), env) == Detect(None, env)
  {
  }

  /** Only the recognised variables matter: environments agreeing on them give the same result. */
  lemma DetectReadsRecognisedOnly(stream: Option<Stream>, env: Env, env': Env)
    requires forall name :: name in Recognised ==> Lookup(env, name) == Lookup(env', name)
    ensures Detect(stream, env) == Detect(stream, env')
  {
    assert Read(env) == Read(env');
  }

  /** No recognised variable, no support: the empty environment in particular. */
  lemma NoSignalUnsupported(stream: Option<Stream>, env: Env)
    requires forall name :: name in Recognised ==> name !in env
    ensures Detect(stream, env) == Unsupported
  {
    DetectReadsRecognisedOnly(stream, env, map[]);
  }

  /** Result `a` claims every protocol that `b` claims. */
  predicate Covers(a: Support, b: Support)
  {
    (b.kitty ==> a.kitty) && (b.iterm2 ==> a.iterm2) && (b.sixel ==> a.sixel)
  }

  /** The scheme `TERM_PROGRAM_VERSION` is read with: WezTerm build stamps, dotted otherwise. */
  function ProgramScheme(s: Signals): Scheme
  {
    if s.termProgram == Some("WezTerm") then DateScheme else DottedScheme
  }

  lemma ProgramAtLeastMonotone(s: Signals, program: string, minimum: seq<nat>, v: string)
    requires ProgramAtLeast(s, program, minimum)
    requires NotOlder(DottedScheme, v, s.termProgramVersion.value)
    ensures ProgramAtLeast(s.(termProgramVersion := Some(v)), program, minimum)
  {
    AdmitsMonotone(Dotted(minimum), v, s.termProgramVersion.value);
  }

  lemma WezTermSinceMonotone(s: Signals, minimum: nat, v: string)
    requires WezTermSince(s, minimum) && s.termProgramVersion.Some?
    requires NotOlder(DateScheme, v, s.termProgramVersion.value)
    ensures WezTermSince(s.(termProgramVersion := Some(v)), minimum)
  {
  }

  /**
   * Raising `TERM_PROGRAM_VERSION` never loses a protocol: every version
   * gate is monotone, and no rule asks for an older version.
   */
  lemma NewerProgramVersionCovers(stream: Option<Stream>, env: Env, v: string)
    requires "TERM_PROGRAM_VERSION" in env
    requires NotOlder(ProgramScheme(Read(env)), v, env["TERM_PROGRAM_VERSION"])
    ensures Covers(Detect(stream, env["TERM_PROGRAM_VERSION" := v]), Detect(stream, env))
  {
    var s := Read(env);
    var s' := s.(termProgramVersion := Some(v));
    assert Read(env["TERM_PROGRAM_VERSION" := v]) == s';
    if s.termProgram == Some("WezTerm") {
      if WezTermSince(s, 20220319) { WezTermSinceMonotone(s, 20220319, v); }
      if WezTermSince(s, 20200620) { WezTermSinceMonotone(s, 20200620, v); }
    } else {
      if ProgramAtLeast(s, "iTerm.app", [3, 6, 0]) { ProgramAtLeastMonotone(s, "iTerm.app", [3, 6, 0], v); }
      if ProgramAtLeast(s, "iTerm.app", [2, 9, 20150512]) {
        ProgramAtLeastMonotone(s, "iTerm.app", [2, 9, 20150512], v);
      }
      if ProgramAtLeast(s, "vscode", [1, 80, 0]) { ProgramAtLeastMonotone(s, "vscode", [1, 80, 0], v); }
      if ProgramAtLeast(s, "rio", [0, 1, 13]) { ProgramAtLeastMonotone(s, "rio", [0, 1, 13], v); }
      if ProgramAtLeast(s, "rio", [0, 1, 12]) { ProgramAtLeastMonotone(s, "rio", [0, 1, 12], v); }
    }
  }

  /** Raising `KONSOLE_VERSION` never loses a protocol. */
  lemma NewerKonsoleVersionCovers(stream: Option<Stream>, env: Env, v: string)
    requires "KONSOLE_VERSION" in env
    requires NotOlder(BuildScheme, v, env["KONSOLE_VERSION"])
    ensures Covers(Detect(stream, env["KONSOLE_VERSION" := v]), Detect(stream, env))
  {
    var s := Read(env);
    assert Read(env["KONSOLE_VERSION" := v]) == s.(konsoleVersion := Some(v));
    if KonsoleRecent(s) {
      AdmitsMonotone(Build(220400), v, env["KONSOLE_VERSION"]);
    }
  }

  /** `s'` keeps every signal of `s` and may add more, but leaves `TERM_PROGRAM_VERSION` alone. */
  predicate Extends(s': Signals, s: Signals)
  {
    (s.kittyWindowId.Some? ==> s'.kittyWindowId == s.kittyWindowId)
    && (s.kittyPid.Some? ==> s'.kittyPid == s.kittyPid)
    && (s.ghosttyResourcesDir.Some? ==> s'.ghosttyResourcesDir == s.ghosttyResourcesDir)
    && (s.weztermPane.Some? ==> s'.weztermPane == s.weztermPane)
    && (s.weztermUnixSocket.Some? ==> s'.weztermUnixSocket == s.weztermUnixSocket)
    && (s.lcTerminal.Some? ==> s'.lcTerminal == s.lcTerminal)
    && (s.termProgram.Some? ==> s'.termProgram == s.termProgram)
    && s'.termProgramVersion == s.termProgramVersion
    && (s.term.Some? ==> s'.term == s.term)
    && (s.konsoleVersion.Some? ==> s'.konsoleVersion == s.konsoleVersion)
  }

  /**
   * Setting a variable that was unset never loses a protocol, with one
   * exception: `TERM_PROGRAM_VERSION`, whose absence WezTerm reads as a
   * recent build (an unversioned WezTerm has iTerm2, one built 2022-03-18
   * does not).
   */
  lemma SettingVariableCovers(stream: Option<Stream>, env: Env, name: string, value: string)
    requires name !in env && name != "TERM_PROGRAM_VERSION"
    ensures Covers(Detect(stream, env[name := value]), Detect(stream, env))
  {
    var env' := env[name := value];
    assert Extends(Read(env'), Read(env)) by {
      assert forall n :: n != name ==> Lookup(env', n) == Lookup(env, n);
    }
    ExtendsCovers(Read(env'), Read(env));
  }

  /** More signals, same version: every rule that fired still fires. */
  lemma ExtendsCovers(s': Signals, s: Signals)
    requires Extends(s', s)
    ensures KittySupported(s) ==> KittySupported(s')
    ensures ITerm2Supported(s) ==> ITerm2Supported(s')
    ensures SixelSupported(s) ==> SixelSupported(s')
  {
  }

  /**
   * Kitty needs no version from these terminals: a Kitty, Ghostty or WezTerm
   * marker with any value, `LC_TERMINAL=WezTerm`, `TERM_PROGRAM` naming kitty,
   * ghostty, WezTerm, rio or Warp, or a Kitty/Ghostty `TERM` gives Kitty,
   * whatever else the environment holds, `TERM_PROGRAM_VERSION` included.
   */
  lemma UnconditionalKitty(stream: Option<Stream>, env: Env)
    requires Interactive(stream)
    requires "KITTY_WINDOW_ID" in env || "KITTY_PID" in env || "GHOSTTY_RESOURCES_DIR" in env
      || "WEZTERM_PANE" in env || "WEZTERM_UNIX_SOCKET" in env
      || Lookup(env, "LC_TERMINAL") == Some("WezTerm")
      || Lookup(env, "TERM_PROGRAM") in {Some("kitty"), Some("ghostty"), Some("WezTerm"), Some("rio"), Some("WarpTerminal")}
      || Lookup(env, "TERM") in {Some("xterm-kitty"), Some("xterm-ghostty")}
    ensures Detect(stream, env).kitty
  {
  }
}
