# supports-terminal-graphics, modelled in Dafny

`supports-terminal-graphics` answers one question: given an output stream and
the process environment, which inline-image protocols does the surrounding
terminal emulator speak — the Kitty graphics protocol, iTerm2 inline images,
or Sixel? The answer is a record `{kitty, iterm2, sixel}` of booleans.

This project models that detector as a pure Dafny function,
`Detector.Detect(stream, env)`, and proves what the package's test suite
(`test.js`) pins down, both case by case and for whole families of inputs.

- `wrappers.dfy` (`Wrappers`): the `Option` type.
- `versions.dfy` (`Versions`): the three version schemes. Dotted numeric
  versions (`3.6.0`, `2.9.20150512`) are split on `.` and compared component by
  component, most significant first, with missing components read as 0.
  WezTerm build stamps (`20220319-142410-0fcdea07`) are compared on their
  leading eight-digit date only. Konsole's `KONSOLE_VERSION` (`220400`) is one
  integer. A `Gate` pairs a scheme with a minimum, and `Admits` is false for
  an absent or unparsable version, so every gate fails closed.
- `detector.dfy` (`Detector`): the TTY gate, the ten recognised variables read
  into a `Signals` record, one disjunction of rules per protocol, and
  properties over all inputs. These cover the stream gate, "no signal, no
  support", monotonicity in the version and in setting variables, and that
  only recognised variables matter.
- `terminals.dfy` (`Terminals`): the answer for each terminal when its own
  variables are the only ones set, for any marker value and any version
  string: the `*Gates` lemmas give each answer as the gates applied to the
  version, and the other lemmas restate it as a plain comparison for
  well-formed versions. `Detector.UnconditionalKitty` states the unconditional
  Kitty rules over every environment, whatever else it sets.
- `test_cases.dfy` (`TestCases`): one lemma per case of the test suite. The
  stream and empty-environment cases follow from the `Detector` lemmas, the
  others from their terminal's family in `Terminals`.

The stream is `Option<Stream>` with `Stream(isTTY: Option<bool>)`. No stream
at all skips the gate, because the test suite expects support when it passes
none. A stream that is given must have `isTTY == Some(true)`; `false` or a
missing `isTTY` gives all three protocols false. The environment is an
explicit `map<string, string>`, and an unset variable is a missing key.

The implementation file `index.js` is not part of this model. Its rules are
reconstructed from `test.js`, and wherever the test suite decides a case,
the model follows it:
- a `TERM_PROGRAM=WezTerm` with no version supports all three protocols; the
  date gates apply only when a version is present (test.js:153-170, 276-293);
- `LC_TERMINAL=WezTerm` gives kitty as well as iTerm2 and Sixel
  (test.js:44-47);
- `TERM_PROGRAM=rio` with no version still gives kitty (test.js:94-97).

## Model

| member | source | states |
|---|---|---|
| `Detector.Detect` | test.js:19-135 | the detector: a stream that is not a TTY gets nothing, and any support at all needs one of the ten recognised variables to be set |
| `Detector.Interactive` | test.js:124-130 | the stream gate: no stream passes, a given stream passes only with `isTTY: true` |
| `Detector.KittySupported` | test.js:19-135 | the Kitty rules: a Kitty, Ghostty or WezTerm marker, `LC_TERMINAL=WezTerm`, `TERM_PROGRAM` kitty, ghostty, WezTerm, rio or WarpTerminal, iTerm.app 3.6.0 or later, a Kitty/Ghostty `TERM`, or `KONSOLE_VERSION` 220400 or later |
| `Detector.ITerm2Supported` | test.js:139-272 | the iTerm2 rules: a WezTerm marker, `LC_TERMINAL` WezTerm or iTerm2, mintty, iTerm.app 2.9.20150512 or later, WezTerm built 2022-03-19 or later (or unversioned), VS Code 1.80.0 or later, rio 0.1.13 or later, or Konsole 220400 or later |
| `Detector.SixelSupported` | test.js:276-383 | the Sixel rules: a WezTerm marker, `LC_TERMINAL=WezTerm`, an mlterm `TERM`, mintty, WezTerm built 2020-06-20 or later (or unversioned), VS Code 1.80.0 or later, rio 0.1.12 or later, or Konsole 220400 or later |
| `Detector.UnconditionalKitty` | test.js:19-112 | a Kitty, Ghostty or WezTerm marker, `LC_TERMINAL=WezTerm`, `TERM_PROGRAM` kitty, ghostty, WezTerm, rio or WarpTerminal, or a Kitty/Ghostty `TERM` gives Kitty through a TTY gate, whatever else the environment sets, any version included |
| `Detector.NonTtyUnsupported` | test.js:124-130 | a given stream whose `isTTY` is false or missing gets kitty, iterm2 and sixel all false, for every environment |
| `Detector.TtySameAsNoStream` | test.js:480-486 | a stream with `isTTY: true` gets exactly the answer of no stream, for every environment |
| `Detector.NoSignalUnsupported` | test.js:132-135 | an environment with none of the ten recognised variables (the empty one included) supports nothing |
| `Detector.DetectReadsRecognisedOnly` | test.js:5-15 | two environments that agree on the ten recognised variables get the same answer |
| `Detector.NewerProgramVersionCovers` | test.js:182-244 | raising `TERM_PROGRAM_VERSION` (dotted, or a build date for WezTerm) never loses a protocol |
| `Detector.NewerKonsoleVersionCovers` | test.js:114-122 | raising `KONSOLE_VERSION` never loses a protocol |
| `Detector.ProgramAtLeastMonotone` | test.js:218-244 | a dotted `TERM_PROGRAM_VERSION` gate that admits a version admits every version not older |
| `Detector.WezTermSinceMonotone` | test.js:158-170 | a WezTerm date gate that admits a build admits every later build |
| `Detector.SettingVariableCovers` | test.js:19-62 | setting any unset variable other than `TERM_PROGRAM_VERSION` never loses a protocol |
| `Detector.ExtendsCovers` | test.js:19-62 | with more signals set and the same `TERM_PROGRAM_VERSION`, every protocol that was supported still is |
| `Terminals.KittyOnlyTerminals` | test.js:394-420 | a Kitty or Ghostty marker with any value, `TERM_PROGRAM` kitty, ghostty or WarpTerminal, or `TERM` xterm-kitty or xterm-ghostty gives kitty and nothing else |
| `Terminals.WezTermWithoutVersion` | test.js:387-392 | `WEZTERM_PANE` or `WEZTERM_UNIX_SOCKET` with any value, `LC_TERMINAL=WezTerm`, or an unversioned `TERM_PROGRAM=WezTerm` gives all three |
| `Terminals.WezTermStamp` | test.js:158-170 | WezTerm with a build stamp `YYYYMMDD-rest` gives kitty always, iTerm2 iff the date is at least 20220319, and Sixel iff it is at least 20200620, whatever the rest is |
| `Terminals.WezTermGates` | test.js:153-170 | `TERM_PROGRAM=WezTerm` with any `TERM_PROGRAM_VERSION` gives kitty always, iTerm2 iff the version is a build stamp dated 20220319 or later, and Sixel iff it is one dated 20200620 or later; a version that is no stamp passes neither gate |
| `Terminals.Mintty` | test.js:203-206 | `TERM_PROGRAM=mintty` gives iTerm2 and Sixel but not kitty |
| `Terminals.LcTerminalITerm2` | test.js:246-249 | `LC_TERMINAL=iTerm2` gives iTerm2 only |
| `Terminals.Mlterm` | test.js:401-406 | `TERM=mlterm` or any `mlterm-*` gives Sixel only |
| `Terminals.ITermAppGates` | test.js:445-461 | iTerm.app gives kitty iff its version passes 3.6.0, iTerm2 iff it passes 2.9.20150512, and Sixel never |
| `Terminals.ITermApp` | test.js:64-72 | for a well-formed iTerm.app version, those gates are the component order against 3.6.0 and 2.9.20150512 |
| `Terminals.ITermAppWithoutVersion` | test.js:465-473 | iTerm.app without a version supports nothing |
| `Terminals.VsCodeGates` | test.js:422-429 | VS Code gives iTerm2 and Sixel iff its version passes 1.80.0, and kitty never |
| `Terminals.VsCode` | test.js:182-201 | for a well-formed VS Code version, both gates are the component order against 1.80.0 |
| `Terminals.RioGates` | test.js:218-244 | rio gives kitty always, iTerm2 iff its version passes 0.1.13, Sixel iff it passes 0.1.12 |
| `Terminals.Rio` | test.js:334-346 | for a well-formed rio version, those gates are the component order against 0.1.13 and 0.1.12 |
| `Terminals.RioWithoutVersion` | test.js:94-97 | rio without a version gives kitty only |
| `Terminals.Konsole` | test.js:431-443 | `KONSOLE_VERSION=n` gives all three iff n is at least 220400 and none otherwise, with or without `TERM_PROGRAM=Konsole` |
| `Terminals.KonsoleGates` | test.js:79-122 | with any `KONSOLE_VERSION`, with or without `TERM_PROGRAM=Konsole`, all three hold iff the value reads as an integer of at least 220400, and none hold otherwise |
| `Terminals.KonsoleWithoutVersion` | test.js:89-92 | `TERM_PROGRAM=Konsole` without `KONSOLE_VERSION` supports nothing |
| `Terminals.UnrecognisedTerm` | test.js:358 | a `TERM` that names no rule, such as foot's, as the only variable set supports nothing |
| `Versions.ParseNat` | test.js:114-122 | a number is read only from a non-empty run of decimal digits, and a k-digit run is below 10^k |
| `Versions.DottedAtLeast` | test.js:139-151 | a dotted version is at least a minimum when, compared component by component from the most significant, it is larger at the first difference or equal throughout, missing components counting as 0 |
| `Versions.DateStamp` | test.js:158-170 | a WezTerm build stamp is read as its leading eight-digit date, a number below 10^8 that is those digits' value |
| `Versions.Admits` | test.js:74-77 | a gate admits a version that is present, parses under the gate's scheme and is at least the minimum; anything else fails closed |
| `Versions.Split` | test.js:139-151 | splitting a version on `.` yields at least one piece, no piece holds a `.`, and joining the pieces back gives the version |
| `Versions.SplitJoin` | test.js:139-151 | splitting undoes joining when no piece holds the separator |
| `Versions.ParseAll` | test.js:139-151 | the components are present iff every piece parses, and then each is that piece's number |
| `Versions.ComponentsRoundTrip` | test.js:64-72 | rendering a list of components with dots and reading it back gives the same components |
| `Versions.DecimalRoundTrip` | test.js:114-122 | rendering a number in decimal and parsing it back gives the number |
| `Versions.DigitsValueOfDecimal` | test.js:114-122 | the digits of a number's decimal rendering have that number as their value |
| `Versions.DecimalLength` | test.js:158-170 | a number with k digits renders as k characters, so a build date fills the stamp's first eight places |
| `Versions.DottedReflexive` | test.js:64-67 | every version is at least itself, so a gate admits its own minimum |
| `Versions.DottedTransitive` | test.js:218-244 | the dotted order is transitive |
| `Versions.DottedTotal` | test.js:182-201 | any two dotted versions are comparable |
| `Versions.DottedAntisymmetric` | test.js:182-201 | two versions each at least the other are equal once padded with zeros |
| `Versions.DottedIsLexicographic` | test.js:218-244 | the dotted order is the lexicographic order of the zero-padded components, most significant first |
| `Versions.DottedTrailingZero` | test.js:189-194 | a trailing zero component changes no comparison (`1.80` and `1.80.0` compare alike) |
| `Versions.DateStampIgnoresRest` | test.js:281-293 | a build stamp's value is its leading eight-digit date, whatever follows the `-` |
| `Versions.AdmitsMonotone` | test.js:225-237 | every gate is monotone: a version no older than an admitted one is admitted |
| `Versions.AdmitsOnlyParsed` | test.js:74-77 | a gate admits only a present version that parses under its scheme: gates fail closed |
| `Versions.DottedAdmitsMinimum` | test.js:139-144 | a dotted gate admits its own minimum written out |
| `Versions.DottedAdmitsRendered` | test.js:146-151 | a dotted gate admits a rendered version iff its components are at least the minimum |
| `TestCases.NonTtyStreamKitty` | test.js:124-130 | kitty with `isTTY: false` supports nothing |
| `TestCases.NonTtyStreamITermApp` | test.js:261-267 | iTerm.app 3.4.0 with `isTTY: false` supports nothing |
| `TestCases.NonTtyStreamWezTerm` | test.js:372-378 | WezTerm with `isTTY: false` supports nothing |
| `TestCases.TtyStreamKitty` | test.js:480-486 | kitty with `isTTY: true` gives kitty |
| `TestCases.StreamWithoutIsTTY` | test.js:488-494 | kitty with a stream lacking `isTTY` supports nothing |
| `TestCases.EmptyEnv` | test.js:380-383 | the empty environment supports nothing |
| `TestCases.KittyWindowIdCase` | test.js:19-22 | `KITTY_WINDOW_ID=1` gives kitty |
| `TestCases.KittyPidCase` | test.js:24-27 | `KITTY_PID=12345` gives kitty |
| `TestCases.GhosttyResourcesDirCase` | test.js:29-32 | `GHOSTTY_RESOURCES_DIR` gives kitty only |
| `TestCases.WezTermPaneCase` | test.js:295-298 | `WEZTERM_PANE=0` gives all three |
| `TestCases.WezTermUnixSocketCase` | test.js:300-303 | `WEZTERM_UNIX_SOCKET` gives all three |
| `TestCases.LcTerminalWezTermCase` | test.js:475-478 | `LC_TERMINAL=WezTerm` gives all three |
| `TestCases.TermProgramKittyCase` | test.js:408-413 | `TERM_PROGRAM=kitty` gives kitty only |
| `TestCases.TermProgramGhosttyCase` | test.js:415-420 | `TERM_PROGRAM=ghostty` gives kitty only |
| `TestCases.TermProgramWezTermCase` | test.js:387-392 | `TERM_PROGRAM=WezTerm` gives all three |
| `TestCases.TermProgramRioCase` | test.js:94-97 | `TERM_PROGRAM=rio` gives kitty |
| `TestCases.TermProgramWarpCase` | test.js:99-102 | `TERM_PROGRAM=WarpTerminal` gives kitty |
| `TestCases.TermXtermKittyCase` | test.js:104-107 | `TERM=xterm-kitty` gives kitty |
| `TestCases.TermXtermGhosttyCase` | test.js:109-112 | `TERM=xterm-ghostty` gives kitty |
| `TestCases.MinttyCase` | test.js:329-332 | `TERM_PROGRAM=mintty` gives iTerm2 and Sixel |
| `TestCases.LcTerminalITerm2Case` | test.js:246-249 | `LC_TERMINAL=iTerm2` gives iTerm2 |
| `TestCases.MltermCase` | test.js:305-308 | `TERM=mlterm` gives Sixel only |
| `TestCases.Mlterm256ColorCase` | test.js:310-313 | `TERM=mlterm-256color` gives Sixel |
| `TestCases.ITermApp360Case` | test.js:445-452 | iTerm.app 3.6.0 gives kitty and iTerm2, not Sixel |
| `TestCases.ITermApp350Case` | test.js:69-72 | iTerm.app 3.5.0 gives no kitty |
| `TestCases.ITermApp340Case` | test.js:454-461 | iTerm.app 3.4.0 gives iTerm2 only |
| `TestCases.ITermApp300Case` | test.js:360-365 | iTerm.app 3.0.0 gives no Sixel |
| `TestCases.ITermAppIterm2MinimumCase` | test.js:139-144 | iTerm.app 2.9.20150512 gives iTerm2 |
| `TestCases.ITermAppBeforeIterm2Case` | test.js:146-151 | iTerm.app 2.9.20150511 gives no iTerm2 |
| `TestCases.ITermAppUnversionedCase` | test.js:74-77 | iTerm.app without a version supports nothing |
| `TestCases.VsCode1800Case` | test.js:422-429 | VS Code 1.80.0 gives iTerm2 and Sixel, not kitty |
| `TestCases.VsCode200Case` | test.js:189-194 | VS Code 2.0.0 gives iTerm2 |
| `TestCases.VsCode1790Case` | test.js:196-201 | VS Code 1.79.0 supports nothing |
| `TestCases.Rio0113Case` | test.js:218-223 | rio 0.1.13 gives iTerm2 |
| `TestCases.Rio020Case` | test.js:225-230 | rio 0.2.0 gives iTerm2 |
| `TestCases.Rio100Case` | test.js:232-237 | rio 1.0.0 gives iTerm2 |
| `TestCases.Rio0112Case` | test.js:334-339 | rio 0.1.12 gives kitty and Sixel, not iTerm2 |
| `TestCases.Rio0111Case` | test.js:341-346 | rio 0.1.11 gives no Sixel |
| `TestCases.KonsoleNamedRecentCase` | test.js:431-436 | Konsole with `KONSOLE_VERSION=220400` gives all three |
| `TestCases.KonsoleNamedOldCase` | test.js:438-443 | Konsole with `KONSOLE_VERSION=210000` supports nothing |
| `TestCases.KonsoleRecentCase` | test.js:367-370 | `KONSOLE_VERSION=220400` alone gives all three |
| `TestCases.KonsoleOldCase` | test.js:119-122 | `KONSOLE_VERSION=210000` alone gives no kitty |
| `TestCases.KonsoleUnversionedCase` | test.js:89-92 | `TERM_PROGRAM=Konsole` alone gives no kitty |
| `TestCases.WezTermBeforeIterm2Case` | test.js:158-163 | a WezTerm build of 20220318 gives no iTerm2 |
| `TestCases.WezTermIterm2Case` | test.js:165-170 | a WezTerm build of 20220319 gives iTerm2 |
| `TestCases.WezTermBeforeSixelCase` | test.js:281-286 | a WezTerm build of 20200619 gives no Sixel |
| `TestCases.WezTermSixelCase` | test.js:288-293 | a WezTerm build of 20200620 gives Sixel |

## Left out

- The test harness that swaps `process.env` for each case (test.js:5-15): the environment is an explicit argument instead.
- The ava test framework and `node:process` (test.js:1-2): foreign libraries.
- Resolving a missing stream to the process's real standard output: that is host I/O. The model skips the gate when no stream is given, as the test suite's expectations require.
- The foot terminal (test.js:358): it sets no `TERM_PROGRAM`, and its `TERM` (`foot`) names no rule, so no rule detects it; `Terminals.UnrecognisedTerm` states that such a `TERM` gives nothing.
- Cases the test suite never exercises are modelled as assumptions, not as checked behaviour of `index.js`:
  - a variable counts as set when its key is present, even with an empty value (JavaScript may treat an empty string as unset);
  - `TERM_PROGRAM` and `TERM` are matched exactly, with no case folding;
  - VS Code, and rio for iTerm2 and Sixel, fail closed without a version;
  - a dotted component must be a non-empty run of decimal digits; JavaScript's `Number` conversion quirks (an empty piece read as 0, surrounding whitespace, hexadecimal) are not modelled, and such a version fails the gate;
  - a build stamp must start with eight digits followed by `-` or the end of the string;
  - `KONSOLE_VERSION` must be a non-empty run of decimal digits, with the same `Number` quirks left out.
