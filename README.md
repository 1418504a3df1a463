# qusetta, modelled in Dafny

qusetta translates quantum circuits between cirq, qiskit and quasar by way
of a toolkit-neutral format: a list of gate tokens such as `"H(0)"`,
`"CX(0, 1)"` or `"RX(PI/2)(3)"`. This project models the translation logic:

- **The token format and its parser** (`gates.dfy`). It covers the two fixed gate vocabularies and `gate_info`, which splits a token at its parentheses and commas. It also covers the writer that the translators use to print a token, with the theorem that a printed gate parses back to itself.
- **The three translators.** Each has its `from_qusetta` and `to_qusetta`:
  - `qiskit.dfy` reverses the qubit order and expands `U2`/`U3` into Euler rotations.
  - `quasar.dfy` halves and doubles angles.
  - `cirq.dfy` holds the text-rewriting pipeline for cirq's rendering.
- **The derived conversions** (`conversions.dfy`) that every translator inherits.

A toolkit circuit is a plain datatype: its qubit count, if it has one, plus its gate records in order.

Supporting modules:

- `wrappers.dfy`: `Option` and `Result`. It also holds the first-failure traversal that a Python generator performs when one of its calls raises.
- `text.dfy`: the Python string operations the code relies on: `strip`, `upper`, `lower`, `index`, `split`, `join`, `replace`, `str(int)` and `int(str)`.

Each loop of the source (`from_qusetta` in all three translators, and
`to_qusetta` for qiskit and quasar) is a method with a `while` loop. It is
proved equal to a specification function (`Encode`, `Decode`), and the
round trips are proved about those functions. A parse failure is a
`Result` failure. The failures are:

- `Unrecognized` for a name in neither vocabulary;
- `NotFound` for a missing parenthesis;
- `BadParameter` for a parameter that cannot be evaluated;
- `BadInteger` for a qubit that is not an integer;
- `BadInstruction` for a qiskit `U2`/`U3` that lacks a parameter or a qubit.

The first failing token's error ends the whole conversion, as the raised
exception does in the source.

Python's `float(eval(text))`, `str(x)` and `"%g" % x` are general-purpose
host routines. So are cirq's printer for an angle and its gate exponent.
They are passed in as function values (`Gates.Numerals`, `Cirq.Rendering`).
The round trips are proved for every circuit whose own parameters the host
reads back as printed (`Gates.FaithfulOn`, `Cirq.FaithfulOn`). That
hypothesis is met: a host that prints whole numbers with `str(int)` and
reads integers satisfies it for every circuit with whole-number angles
(`Gates.WholeNumbersFaithful`, `Cirq.WholeAnglesReadBack`,
`Conversions.WholeConversions`).

Cirq's `str(op)` for an applied gate is modelled as cirq prints a
`GateOperation`: the gate's spelling (`CNOT` for `CX`, `TOFFOLI` for `CCX`,
`Rx`/`Ry`/`Rz` for the rotations, otherwise the gate's own name), the
printed angles in parentheses when there are any, then the indices of its
`LineQubit`s in parentheses.

Behaviour worth noting:

- The qiskit printer turns any instruction it does not know into a token with the upper-cased name. It fails only for a `U2`/`U3` missing a parameter or a qubit. An unknown name is rejected later, when the token is parsed.
- Qubit fields are read with `int()`, which accepts a sign, so negative qubit indices parse.
- In cirq's output, `π` becomes `PI` or `*PI` depending only on the gate's exponent being 1, not on the angle's value.

## Model

| member | source | states |
|---|---|---|
| Wrappers.Traverse | qusetta/_gates.py:46 | A generator over a tuple succeeds exactly when every call does, giving all results in order; on failure it reports the error of a failing element that is the first to fail |
| Wrappers.TraverseFailsAtFirst | qusetta/_gates.py:50 | The error reported is the one raised by the first failing element |
| Wrappers.TraverseAll | qusetta/_gates.py:53 | When every call succeeds with a known value, the tuple holds exactly those values |
| Wrappers.TraversePrefixFails | qusetta/_qiskit.py:66-67 | Once a prefix of the input raises, the whole loop raises the same error, whatever follows |
| Text.Strip | qusetta/_gates.py:42 | `strip()` never lengthens the text and leaves no white space at either end |
| Text.StripUnpadded | qusetta/_gates.py:42 | Text without white space at its ends is its own strip |
| Text.StripSkipsSpace | qusetta/_gates.py:42 | A leading blank does not change the stripped text |
| Text.StripPiece | qusetta/_gates.py:42 | The stripped text is a contiguous piece of the text with only white space before and after it |
| Text.TrimStartSuffix | qusetta/_gates.py:42 | Trimming the start leaves a suffix, having dropped only white space |
| Text.TrimEndPrefix | qusetta/_gates.py:42 | Trimming the end leaves a prefix, having dropped only white space |
| Text.UpperIsUpper | qusetta/_gates.py:42 | `upper()` yields upper-case text, and upper-casing changes nothing exactly when the text is already upper case |
| Text.UpperAppend | qusetta/_cirq.py:97 | Upper-casing distributes over concatenation |
| Text.UpperEach | qusetta/_cirq.py:97 | Each part, upper-cased |
| Text.UpperJoin | qusetta/_cirq.py:97 | Upper-casing joined text upper-cases each part, when the separator is its own upper case |
| Text.IndexOf | qusetta/_gates.py:41 | `str.index` fails exactly when the character is absent, and otherwise finds its first occurrence |
| Text.IndexOfFirst | qusetta/_gates.py:41 | A position holding the character with no earlier occurrence is the index found |
| Text.Split | qusetta/_gates.py:46 | `split(',')` yields at least one piece, and no piece holds a comma |
| Text.SplitThenJoin | qusetta/_gates.py:46 | Joining the pieces of a split with the separator gives the text back |
| Text.SplitAtFirst | qusetta/_gates.py:50 | Splitting text whose first piece holds no separator yields that piece, then the split of the rest |
| Text.SplitJoin | qusetta/_gates.py:50 | A group joined with `", "` splits on `,` into its parts, each after the first with a blank in front |
| Text.JoinChars | qusetta/_gates.py:46 | Every character of joined text comes from the separator or from one of the parts |
| Text.NatStr | qusetta/_quasar.py:100 | `str(n)` of a natural number is a non-empty string of decimal digits |
| Text.NatStrValue | qusetta/_quasar.py:100 | The digits printed for `n` have value `n` |
| Text.ParseUnpadded | qusetta/_gates.py:53 | `int()` of text without surrounding white space reads its sign and digits directly |
| Text.ParseDigits | qusetta/_gates.py:53 | `int(str(n))` is `n` for a natural number |
| Text.ParseNegative | qusetta/_gates.py:53 | `int("-" + str(n))` is `-n` |
| Text.IntStrParses | qusetta/_gates.py:53 | `int(str(q))` is `q` for every integer, also after the blank of a `", "` separator |
| Text.ParseSkipsSpace | qusetta/_gates.py:53 | `int()` ignores a leading blank |
| Text.ReplaceAll | qusetta/_cirq.py:97-105 | `replace` only produces characters of the text or of the replacement, and removes every occurrence of a one-character pattern not in the replacement |
| Text.ReplaceAbsent | qusetta/_cirq.py:97-105 | Text without the pattern's first character is left as it is |
| Text.ReplaceLeading | qusetta/_cirq.py:97-105 | An occurrence at the start is replaced, and the scan resumes right after it |
| Text.ReplaceConcat | qusetta/_cirq.py:97-105 | When no occurrence can straddle the boundary, replacing in `a + b` replaces in `a` and in `b` separately |
| Text.ReplaceEach | qusetta/_cirq.py:102-104 | Each part with the character replaced |
| Text.ReplaceJoin | qusetta/_cirq.py:102-104 | Replacing a character in joined text replaces it in each part, when the separator does not hold it |
| Gates.Name | qusetta/_gates.py:11-15 | Every gate name is a non-empty string |
| Gates.KindNamed | qusetta/_gates.py:11-15 | A name stands for a gate exactly when it is in one of the two sets, and then it is that gate's name |
| Gates.VocabularySizes | qusetta/_gates.py:11-15 | Eleven parameter-free names and three rotation names, in disjoint sets |
| Gates.Vocabulary | qusetta/_gates.py:11-15 | Every gate's name lies in exactly one set, the parameter set exactly for RX, RY and RZ |
| Gates.EvalParam | qusetta/_gates.py:46 | A parameter evaluates exactly when the host reads a value from its text, and then to that value; otherwise it fails with an error naming the text |
| Gates.EvalAll | qusetta/_gates.py:46 | The parameter tuple is built exactly when every field evaluates, holding their values in order; otherwise it fails naming the first field that does not |
| Gates.ParseQubit | qusetta/_gates.py:50 | A qubit field parses exactly when `int()` accepts it, to its value; otherwise it fails naming the field |
| Gates.ParseQubits | qusetta/_gates.py:50 | The qubit tuple is built exactly when every field is an integer, holding them in order; otherwise it fails naming the first field that is not |
| Gates.PlainArgs | qusetta/_gates.py:52-54 | Fails with a missing `)` when there is none; otherwise succeeds exactly when every comma-separated field before it is an integer, giving those qubits, no parameters and the same gate, or fails with the first bad field |
| Gates.RotationArgs | qusetta/_gates.py:45-50 | Fails with a missing `)`, then with the first parameter that does not evaluate, then with a missing `(` or second `)`, then with the first bad qubit field; otherwise gives the evaluated parameters and the parsed qubits |
| Gates.GateInfo | qusetta/_gates.py:18-58 | A token without `(` fails with the missing-parenthesis error; otherwise the outcome is that of the text before and after the first `(`; every successful parse has a qubit, and parameters exactly for rotations |
| Gates.Arguments | qusetta/_gates.py:42-58 | A rotation name continues with the two argument groups, a parameter-free name with the qubit group; every successful parse is well formed |
| Gates.GateInfoName | qusetta/_gates.py:41-58 | The name decides the outcome: a successful parse's gate is named by the stripped, upper-cased text before the first `(`, and the unrecognised-gate error arises exactly when that name is in neither set, carrying that name |
| Gates.ArgumentsName | qusetta/_gates.py:42-56 | The same, for the text before and after the first `(` |
| Gates.CaseInsensitive | qusetta/_gates.py:42 | Tokens whose names differ only in case or surrounding white space parse alike |
| Gates.NameIsCanonical | qusetta/_gates.py:11-15 | A gate name holds no parenthesis and is its own stripped upper case |
| Gates.NameCapitals | qusetta/_gates.py:11-15 | Gate names are written in capital letters |
| Gates.CapitalsStrip | qusetta/_gates.py:42 | Capital letters carry no white space to strip |
| Gates.CapitalsUpper | qusetta/_gates.py:42 | Capital letters are their own upper case |
| Gates.CapitalsUpperLower | qusetta/_qiskit.py:69 | Upper-casing the lower-cased name gives the name back |
| Gates.CapitalsNoParens | qusetta/_gates.py:41 | Capital letters hold no parenthesis |
| Gates.ParseAllWellFormed | qusetta/_qiskit.py:66-67 | A circuit parses exactly when each token does; then it has one well-formed gate per token, in order |
| Gates.ParseAllFailsAt | qusetta/_qiskit.py:66-67 | A circuit fails with the error of its first bad token |
| Gates.ParseAllPrefixFails | qusetta/_qiskit.py:66-67 | A bad prefix makes the whole circuit fail with the prefix's error |
| Gates.ParseStep | qusetta/_qiskit.py:66-67 | Each token either ends the circuit with its error or extends the parsed prefix by one well-formed gate |
| Gates.ParseAllSucceeds | qusetta/_qiskit.py:66-67 | Tokens that each parse to a gate make a circuit that parses to those gates |
| Gates.JoinAvoids | qusetta/_gates.py:45 | A character in neither the separator nor any part is absent from the joined text |
| Gates.IntStrsAvoid | qusetta/_gates.py:49 | Printed integers hold no delimiter, so a printed qubit group holds no parenthesis |
| Gates.SplitGroup | qusetta/_gates.py:46 | A printed group splits back into its texts, each after the first with a blank in front |
| Gates.SplitCommaGroup | qusetta/_gates.py:46 | A printed group splits into its first text and the padded rest |
| Gates.PaddedPieces | qusetta/_gates.py:46 | The padded pieces are the texts with a blank in front |
| Gates.QubitGroupParses | qusetta/_gates.py:50 | A printed qubit group reads back as the same qubits in the same order |
| Gates.ParamGroupParses | qusetta/_gates.py:46 | A parameter group whose texts evaluate to the parameters reads back as those parameters |
| Gates.ParamGroupAvoids | qusetta/_gates.py:45 | A group of texts without delimiters holds no parenthesis |
| Gates.GateInfoDispatch | qusetta/_gates.py:41-53 | A token whose name part reads as a gate's name continues with that gate's argument groups |
| Gates.PlainArgsParse | qusetta/_gates.py:52-54 | The qubit group of a printed parameter-free gate reads back as its qubits |
| Gates.GroupsLayout | qusetta/_gates.py:45-49 | In a printed rotation, the first `)` closes the parameters and the next `(` opens the qubits |
| Gates.GroupLayout | qusetta/_gates.py:49 | The first `)` of a printed qubit group closes it |
| Gates.RotationArgsParse | qusetta/_gates.py:45-50 | The two groups of a printed rotation read back as its parameters and qubits |
| Gates.RenderParses | qusetta/_gates.py:44-54 | Printing a gate as `NAME(q0, ...)` or `NAME(p0, ...)(q0, ...)` and parsing it gives the same gate, parameters and qubits back |
| Gates.RotationRenderParses | qusetta/_gates.py:44-50 | The same for a rotation |
| Gates.PlainRenderParses | qusetta/_gates.py:51-54 | The same for a parameter-free gate |
| Gates.ParamTexts | qusetta/_quasar.py:97 | One printed text per parameter, each the host's `str` of it, in order |
| Gates.FaithfulReads | qusetta/_gates.py:46 | Printed parameters that the host reads back read back, in their group, as the parameters |
| Gates.WholeNumbersReadBack | qusetta/_gates.py:46 | A host printing whole numbers with `str(int)` and reading integers reads every whole number back from its text, also after a blank, and its text has no delimiter |
| Gates.WholeNumbersFaithful | qusetta/_gates.py:46 | So that host reads back the parameters of every circuit whose angles are whole numbers |
| Gates.Tokens | qusetta/_quasar.py:92-102 | One token per gate, in order |
| Gates.TokenParses | qusetta/_gates.py:18-58 | A well-formed gate whose parameters the host reads back parses from its token to itself |
| Gates.TokensParse | qusetta/_gates.py:18-58 | Printing gates whose parameters the host reads back and parsing the tokens gives the gates back |
| Qiskit.Mirror | qusetta/_qiskit.py:75 | Each qubit and its mirrored index sum to `n` |
| Qiskit.MirrorInvolution | qusetta/_qiskit.py:75 | Mirroring twice about the same point gives the qubits back |
| Qiskit.MirrorInRange | qusetta/_qiskit.py:71-75 | Qubits in `0..n` are mirrored into `0..n` |
| Qiskit.MaxOf | qusetta/_qiskit.py:68 | `max(qubits)` is one of the qubits and at least every qubit |
| Qiskit.MaxQubit | qusetta/_qiskit.py:65-68 | The running maximum from -1 bounds every qubit of every gate, and is -1 or one of them |
| Qiskit.EncodeParsed | qusetta/_qiskit.py:65-76 | The circuit has one more qubit than the largest index and one instruction per gate, in order, parameters before the mirrored qubits; the instruction name is the lower-cased gate name, except `id` for `I` (qiskit's `i` records an `id` instruction) |
| Qiskit.Encode | qusetta/_qiskit.py:65-78 | Fails exactly when a token fails, with the first bad token's error |
| Qiskit.FromQusetta | qusetta/_qiskit.py:65-78 | The two loops build exactly the specified circuit, or return the first bad token's error |
| Qiskit.Place | qusetta/_qiskit.py:72-76 | The second loop places one mirrored instruction per gate, in order |
| Qiskit.Widened | qusetta/_qiskit.py:68 | Updating the running maximum with the next gate's largest qubit gives the maximum over the longer prefix |
| Qiskit.Placed | qusetta/_qiskit.py:71-78 | Once every token has parsed, the placed instructions under the running maximum are the translated circuit |
| Qiskit.EncodeEmpty | qusetta/_qiskit.py:65-71 | An empty token list gives an empty circuit with no qubits |
| Qiskit.EncodeInRange | qusetta/_qiskit.py:71-75 | With non-negative qubits, every mirrored index lies inside the register |
| Qiskit.EncodeExample | qusetta/_qiskit.py:33-35 | `H(0)`, `CX(0, 1)` becomes `h` on qubit 1 and `cx` on qubits 1, 0 of a two-qubit circuit |
| Qiskit.DecodeInstruction | qusetta/_qiskit.py:113-149 | A measurement gives no token; `U2`/`U3` give three tokens and fail exactly when a parameter or the qubit is missing; every other instruction gives exactly the token of its upper-cased name (`ID` as `I`, `U1` as `RZ`) with its parameters printed by `str` and its qubits mirrored |
| Qiskit.DecodePrefixFails | qusetta/_qiskit.py:112-151 | Once an instruction fails, the whole circuit fails with its error |
| Qiskit.ToQusetta | qusetta/_qiskit.py:112-151 | The loop produces exactly the specified tokens, or the first failing instruction's error |
| Qiskit.EulerParses | qusetta/_qiskit.py:125-129 | The three expansion tokens parse as `RZ`, `RX`, `RZ` on the same qubit with the angles their texts evaluate to |
| Qiskit.RotationParses | qusetta/_qiskit.py:126-128 | Each `RZ(...)(r)`/`RX(...)(r)` expansion token parses as that rotation on qubit `r` |
| Qiskit.U2Tokens | qusetta/_qiskit.py:122-130 | A `U2` with a qubit and two parameters prints as `RZ(%g(p1) - PI/2)`, `RX(PI/2)`, `RZ(%g(p0) + PI/2)` on the mirrored qubit |
| Qiskit.U3Tokens | qusetta/_qiskit.py:131-139 | A `U3` with a qubit and three parameters prints as `RZ(%g(p2) - PI/2)`, `RX(%g(p0))`, `RZ(%g(p1) + PI/2)` on the mirrored qubit |
| Qiskit.U2Expansion | qusetta/_qiskit.py:122-130 | `U2` on qubit `q` becomes exactly `RZ(p1 - PI/2)`, `RX(PI/2)`, `RZ(p0 + PI/2)` on qubit `numQubits - 1 - q` |
| Qiskit.U3Expansion | qusetta/_qiskit.py:131-139 | `U3` on qubit `q` becomes exactly `RZ(p2 - PI/2)`, `RX(p0)`, `RZ(p1 + PI/2)` on qubit `numQubits - 1 - q` |
| Qiskit.Renames | qusetta/_qiskit.py:118-121 | `ID` is printed as `I` and `U1` as `RZ`, with the mirrored qubits |
| Qiskit.DecodeEmitted | qusetta/_qiskit.py:141-149 | An instruction that a gate was encoded to prints as that gate's token, the qubits mirrored back |
| Qiskit.Unrenamed | qusetta/_qiskit.py:116-131 | No gate name coincides with the instruction names the printer treats specially |
| Qiskit.DecodeSingles | qusetta/_qiskit.py:141-149 | Instructions that each print one token print those tokens, in order |
| Qiskit.DecodeEncoded | qusetta/_qiskit.py:71-146 | Printing the circuit encoded from gates gives the gates' tokens, with the original qubits |
| Qiskit.DecodeEmittedAll | qusetta/_qiskit.py:141-149 | Instructions emitted for gates print as the gates' tokens, in order |
| Qiskit.RoundTrip | qusetta/_qiskit.py:65-151 | Translating tokens to qiskit and back gives tokens that parse to the same gates, when the host reads back those gates' parameters |
| Quasar.AliasUpper | qusetta/_quasar.py:11 | Each gate's quasar name upper-cases back to the gate's name, and only the rotations are renamed |
| Quasar.AliasOther | qusetta/_quasar.py:60 | A parameter-free gate keeps its name |
| Quasar.Halve | qusetta/_quasar.py:59 | Every angle is half the given one |
| Quasar.Double | qusetta/_quasar.py:97 | Every angle is twice the stored one |
| Quasar.HalveDouble | qusetta/_quasar.py:59-97 | Halving then doubling, and doubling then halving, give every angle back exactly |
| Quasar.EncodeParsed | qusetta/_quasar.py:55-61 | One quasar gate per parsed gate, in order |
| Quasar.Encode | qusetta/_quasar.py:55-61 | Fails exactly when a token fails, with the first bad token's error |
| Quasar.FromQusetta | qusetta/_quasar.py:55-61 | The loop builds exactly the specified circuit, or returns the first bad token's error |
| Quasar.Built | qusetta/_quasar.py:55-61 | Once every token has parsed, the gates the loop added are the translated circuit |
| Quasar.DecodeGate | qusetta/_quasar.py:94-101 | A stored gate prints as its upper-cased name, a group of doubled angles only when it has parameters, then its qubits unchanged |
| Quasar.Decode | qusetta/_quasar.py:92-102 | Exactly one token per stored gate, in order, with no filtering or expansion |
| Quasar.ToQusetta | qusetta/_quasar.py:92-102 | The loop produces exactly the specified tokens |
| Quasar.DecodeEmitted | qusetta/_quasar.py:59-100 | A gate that was encoded prints as its own token, with the same qubits |
| Quasar.DecodeEncoded | qusetta/_quasar.py:56-101 | Printing the circuit encoded from gates gives the gates' tokens |
| Quasar.RoundTrip | qusetta/_quasar.py:55-102 | Translating tokens to quasar and back gives tokens that parse to the same gates, when the host reads back those gates' parameters |
| Quasar.NativeRoundTrip | qusetta/_quasar.py:55-102 | A quasar circuit made of vocabulary gates whose doubled angles the host reads back comes back unchanged from the token format |
| Quasar.DecodeExample | qusetta/_quasar.py:85-89 | `Rx(0, theta=1/4)` prints as `RX(0.5)(0)` |
| Cirq.AliasName | qusetta/_cirq.py:10 | Rotations are looked up by their lower-case names, every other gate by its own |
| Cirq.EncodeParsed | qusetta/_cirq.py:55-64 | One operation per parsed gate, in order, on the same qubits |
| Cirq.Encode | qusetta/_cirq.py:55-64 | Fails exactly when a token fails, with the first bad token's error |
| Cirq.FromQusetta | qusetta/_cirq.py:55-64 | The loop builds exactly the specified circuit, or returns the first bad token's error |
| Cirq.Built | qusetta/_cirq.py:55-64 | Once every token has parsed, the operations the loop appended are the translated circuit |
| Cirq.Kept | qusetta/_cirq.py:106-107 | The kept operations are no more than the given ones, and none is a measurement |
| Cirq.Decode | qusetta/_cirq.py:96-109 | One rewritten token per operation that is not a measurement, in order |
| Cirq.KeptAppend | qusetta/_cirq.py:106-107 | Dropping measurements commutes with joining runs of operations |
| Cirq.KeptSingle | qusetta/_cirq.py:106-107 | A measurement gives no token, any other operation exactly one |
| Cirq.KeptAll | qusetta/_cirq.py:106-107 | A run without measurements keeps every operation |
| Cirq.CleanIsUpper | qusetta/_cirq.py:97-105 | Every rewritten token is unchanged by upper-casing again |
| Cirq.CleanHasNoPi | qusetta/_cirq.py:101-105 | Rewritten tokens hold neither `π` nor `Π` |
| Cirq.AngleTexts | qusetta/_cirq.py:97 | One printed angle per parameter, in order |
| Cirq.CleanAngles | qusetta/_cirq.py:97-105 | One rewritten angle per parameter |
| Cirq.SpellingRenamed | qusetta/_cirq.py:97-101 | Cirq's spelling of every gate, upper-cased and with `CNOT` and `TOFFOLI` replaced, is the gate's token name |
| Cirq.QubitGroupInert | qusetta/_cirq.py:97-105 | A printed qubit group starts with `(` and is untouched by upper-casing and by all three replacements |
| Cirq.EmitPrints | qusetta/_cirq.py:97-105 | An operation built from a gate is rewritten to exactly the gate's token, its angles being cirq's rewritten angle texts |
| Cirq.CnotExample | qusetta/_cirq.py:97-99 | A `CX` is shown by cirq as `CNOT(...)` and rewritten to `CX(...)` on the same qubits |
| Cirq.RotationExample | qusetta/_cirq.py:102-104 | A rotation whose angle cirq shows as `0.5π`, with an exponent other than one, is rewritten to the token with angle `0.5*PI` |
| Cirq.EmitParses | qusetta/_gates.py:18-58 | The rewritten text of a well-formed gate's operation parses back to the gate, when its angle texts read back |
| Cirq.DecodeTokens | qusetta/_cirq.py:96-109 | Printing the circuit encoded from gates gives exactly each gate's token, with cirq's rewritten angles |
| Cirq.DecodeParses | qusetta/_cirq.py:55-109 | Those texts parse back to the gates, when their angle texts read back |
| Cirq.DecodeEncoded | qusetta/_cirq.py:55-109 | Printing the circuit encoded from gates gives one rewritten text per gate, in order, that gate's operation rewritten |
| Cirq.RoundTrip | qusetta/_cirq.py:55-109 | Translating tokens to cirq and back gives tokens that parse to the same gates, when cirq's text of their angles rewrites to text the host reads back |
| Cirq.PlainRoundTrip | qusetta/_cirq.py:55-109 | A circuit of parameter-free gates comes back from cirq whatever the host prints |
| Cirq.WholeAnglesReadBack | qusetta/_cirq.py:97-105 | Whole-number angles printed with `str(int)` read back after the rewriting |
| Conversions.Derived | qusetta/_conversions.py:21-139 | Each `from_X`/`to_X` of any translator is the source's `to_qusetta` followed by the target's `from_qusetta` |
| Conversions.FromIsTo | qusetta/_conversions.py:21-139 | `X.from_Y(c)` equals `Y.to_X(c)` for every pair of different translators |
| Conversions.FromQiskitGates | qusetta/_conversions.py:101-139 | The qiskit circuit of some well-formed gates converts to the quasar and the cirq circuits of the same gates, when the host reads their parameters back |
| Conversions.FromQuasarGates | qusetta/_conversions.py:41-99 | The quasar circuit of some well-formed gates converts to the qiskit and the cirq circuits of the same gates, when the host reads their parameters back |
| Conversions.FromCirqGates | qusetta/_conversions.py:81-139 | The cirq circuit of some well-formed gates converts to the qiskit and the quasar circuits of the same gates, when cirq's angle text rewrites to text the host reads back |
| Conversions.WholeConversions | qusetta/_conversions.py:41-139 | With a host that prints whole numbers, every conversion of well-formed gates with whole-number angles keeps the gates |

## Left out

- Python's `float(eval(text))`, `str(float)` and `"%g" %` are parameters (`Gates.Numerals`), not modelled. The round trips hold for the circuits whose parameters the host reads back as printed (`Gates.FaithfulOn`); a float whose `str` does not evaluate back to it is outside them.
- Qiskit.U2Expansion: `"%g"` keeps six significant digits, so the expansion's angles are exact only when the host's `%g` text evaluates back to the value. The lemma states the tokens and their parse, not the angle values.
- Qiskit.U3Expansion: the same `%g` precision caveat as for `U2`.
- Cirq's printer for an angle and the gate's `exponent` are parameters (`Cirq.Rendering`). The rest of cirq's `str(op)` is modelled as cirq formats a `GateOperation` on `LineQubit`s (`Cirq.Shown`); cirq's own source is not part of this model. `Cirq.RoundTrip` holds for the circuits whose angle texts, once rewritten, the host reads back (`Cirq.FaithfulOn`).
- Cirq.EncodeParsed: a rotation is applied with every parsed parameter; cirq's own rejection of a rotation given more than one angle is not modelled.
- The toolkits' circuit objects are plain records, and their method lookup by name (`getattr`) is the `Gates.Kind` enumeration. Their own validation of arguments is not part of this model, so a token naming a gate with the wrong number of qubits is not rejected here.
- Quasar's time keys and cirq's moments are not modelled. Both circuits are sequences in the order their gates were added.
- `Text.Upper` and `Text.Lower` map ASCII letters and the Greek pi only, not the full Unicode case tables.
- `Text.Strip` treats ASCII white space and the separator characters `\x1c`-`\x1f` as white space, not the other Unicode spaces.
- `int()` is modelled for a sign and ASCII digits. Underscores and non-ASCII digits are not accepted.
- Real numbers stand for Python floats. Rounding, infinities and NaN are not modelled.
- Equivalence of measurement-probability distributions, and the correctness of the Euler decomposition of `U2`/`U3`, need state-vector simulation. They are not stated.
- The rendering of literal example tokens (for instance `gate_info("CCX(0, 2, 1)")`) is covered by the general `Gates.RenderParses` rather than by separate examples.
- Packaging, versioning and re-exports (`setup.py`, `qusetta/_version.py`, `qusetta/__init__.py`) carry no logic.
