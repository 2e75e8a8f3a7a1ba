# Enigma rotor cipher: a verified model

This project models the encoding engine of `lemming52/enigma`, a Go simulator of the
Enigma rotor cipher machine. The engine has three parts:

- **Rotor.** A wiring string and a ring setting become a pair of forward/backward lookup
  tables. A rotor also carries a position and a set of notch positions. Traversal
  offsets the signal by the position, modulo 26.
- **Plugboard.** Up to ten disjoint letter pairs become a symmetric map. A text parser
  reads pairs written as `"AZ GH"`.
- **Machine.** The machine holds at least three rotors, a reflector and a plugboard. A
  key press sends the signal through the plugboard. It then steps the rotors, using the
  double-stepping rule on rotors 0 to 2. The signal then goes through the rotors forward,
  the reflector, the rotors backward and the plugboard again. A message is encoded letter
  by letter and stops at the first character outside `A`..`Z`.

The project is built in two layers:

- **Values.** `Rotors.Wiring`, `Rotors.RotorModel`, `Plugboards.Plugboard` and
  `Machine.MachineModel` are datatypes. The pure functions over them (`ConvertWiring`,
  `RotorOf`, `BuildPlugboard`, `ParsePlugboard`, `Stepped`, `KeyPress`, `EncodeMessage`,
  `Assemble`) are the specification.
- **Imperative operations.** Each one the Go code performs by mutation is a method proved
  equal to its specification function:
  - the table-filling loops of `convertStringConfiguration` and `emptyConnections`, on arrays;
  - the map-building loops of `newPlugboard` and `parseStringPlugboard`;
  - the classes `Rotors.Rotor` and `Machine.Enigma`, whose `Cycle`, `Encode` and
    `EncodeString` update rotor positions in place.

The main theorems are:

- **Self-reciprocity.** Encoding a ciphertext again from the same start state gives back
  the message (`Machine.EncodeMessageReciprocal`).
- **No self-encryption.** No letter ever encrypts to itself (`Machine.EncodeMessageNoFixedLetter`).
- **Double stepping.** The middle rotor can step on two consecutive key presses (`Machine.DoubleStep`).
- **Literal runs.** The test suite's concrete runs are proved for the catalogue rotors
  (module `Scenarios`).

Files:

| file | module | models |
|---|---|---|
| results.dfy | Results | `Result` and `Option` wrappers for Go's `(value, error)` returns |
| rotor.dfy | Rotors | enigma/rotor.go |
| plugboard.dfy | Plugboards | enigma/plugboard.go |
| enigma.dfy | Machine | enigma/enigma.go |
| components.dfy | Components | enigma/components.go |
| scenarios.dfy | Scenarios | the literal cases of enigma/enigma_test.go, enigma/rotor_test.go and enigma/plugboard_test.go |

Source symbols are letters `A`..`Z`, as Go `rune`s, and integers 0..25, where the symbol
is the rune minus the offset 65.

## Model

| member | source | states |
|---|---|---|
| Rotors.Index | enigma/rotor.go:164-166 | a character's symbol lies in 0..25 exactly when the character is an allowed letter `A`..`Z` |
| Rotors.Letter | enigma/enigma.go:71 | the letter for a symbol in 0..25 is allowed and maps back to that symbol |
| Rotors.EmptyConnections | enigma/rotor.go:153-161 | builds two fresh, distinct 26-slot tables whose every slot holds the `-1` sentinel |
| Rotors.ConvertStringConfiguration | enigma/rotor.go:128-151 | the in-place loop over two arrays returns exactly what the specification `ConvertWiring` gives, error cases included |
| Rotors.WiringAccepted | enigma/rotor.go:132-147 | a wiring is accepted if and only if every character is in `A`..`Z` and no letter repeats |
| Rotors.WiringRejected | enigma/rotor.go:132-147 | a rejection names the first faulty index: either a forbidden character, or a letter already used earlier, with a clean prefix before it |
| Rotors.LongWiringRejected | enigma/rotor.go:145-147 | every wiring longer than 26 characters is rejected, at index 26 at the latest |
| Rotors.WiringInverse | enigma/rotor.go:136-149 | an accepted 26-letter wiring yields tables in 0..25 that are mutual inverses |
| Rotors.ForwardInverse | enigma/rotor.go:136-149 | for every j, `backward[forward[j]] == j` and `forward[j]` is in 0..25 |
| Rotors.BackwardInverse | enigma/rotor.go:136-149 | for every p, `forward[backward[p]] == p` and `backward[p]` is in 0..25 |
| Rotors.WiringRingShift | enigma/rotor.go:136-148 | the ring setting s shifts slot and value alike: `forward[(i+s)%26] == (wiring[i]-'A'+s)%26`, and backward is the reverse |
| Rotors.ShortWiringUnfilled | enigma/rotor.go:153-161 | a wiring shorter than 26 letters leaves a slot holding the `-1` sentinel |
| Rotors.Traverse | enigma/rotor.go:88-105 | the output is in 0..25: the table entry at `(input+position)%26`, minus the position, mod 26; a `-1` sentinel gives `25-position` |
| Rotors.TraverseRoundTrip | enigma/rotor.go:88-105 | with inverse tables, forward then backward traversal at the same position is the identity, and so is backward then forward |
| Rotors.Cycled | enigma/rotor.go:113-115 | stepping a valid rotor keeps it valid (the position stays in 0..25) |
| Rotors.NotchEngagedBuilt | enigma/rotor.go:107-110 | a built rotor's notch is engaged if and only if its position is one of the configured notches, before and after a step |
| Rotors.Rotor.State | enigma/rotor.go:118-124 | the reported configuration carries the rotor's name, position and ring setting, with empty wiring and notches; for a valid rotor the position and ring setting are in 0..25 |
| Rotors.Rotor.Cycle | enigma/rotor.go:113-115 | position becomes `(position+1) % 26`, so 25 wraps to 0, and no other field changes |
| Rotors.RotorOf | enigma/rotor.go:61-85 | succeeds if and only if the wiring converts, the start position is in 0..25 and every notch is in 0..25; on success it keeps the tables and position and the notch set equals the notch list; a wiring error comes first, then a bad start position, then `InvalidNotch` naming the first out-of-range notch in list order |
| Rotors.NewRotor | enigma/rotor.go:61-85 | the constructor, with its notch-building loop, agrees with `RotorOf`; `State()` of the new rotor reports name, position and ring setting only, as rotor.go:118-124 does |
| Plugboards.PairFault | enigma/plugboard.go:20-33 | a pair is refused if and only if its length is not 2, it links a symbol to itself, a symbol is outside 0..25, or a symbol is already used; each case has its own error |
| Plugboards.NewPlugboard | enigma/plugboard.go:14-38 | the map-building loop returns exactly `BuildPlugboard(pairs)` |
| Plugboards.PlugboardAccepted | enigma/plugboard.go:16-35 | a pair list is accepted if and only if it has at most 10 pairs, each well formed, with pairwise disjoint symbols |
| Plugboards.PlugboardShape | enigma/plugboard.go:34-35 | on success the map is symmetric (`conn[a]==b` iff `conn[b]==a`), has no fixed point, has exactly the listed symbols as its domain, and links each pair both ways |
| Plugboards.PlugboardRejected | enigma/plugboard.go:16-33 | a failure is either the 10-pair cap or the fault of the first bad pair after a valid prefix; no plugboard is returned |
| Plugboards.Traverse | enigma/plugboard.go:73-80 | an unplugged symbol is returned unchanged; a plugged one goes to a different plugged symbol in 0..25 |
| Plugboards.TraverseInvolution | enigma/plugboard.go:73-80 | traversing twice is the identity |
| Plugboards.Split | enigma/plugboard.go:42 | the space split yields at least one group, none containing a space, and joining them with spaces gives the input back |
| Plugboards.SplitJoin | enigma/plugboard.go:42 | splitting a space-joined list of space-free groups returns that list |
| Plugboards.GroupFault | enigma/plugboard.go:49-64 | a group is refused if and only if its length is not 2, it repeats a letter, a letter is outside `A`..`Z`, or a letter is already occupied |
| Plugboards.ParseStringPlugboard | enigma/plugboard.go:41-71 | the parsing loop returns exactly `ParsePlugboard(s)` |
| Plugboards.ParseAccepted | enigma/plugboard.go:42-64 | text is accepted if and only if it has at most 10 groups, each of two distinct letters, with no letter repeated |
| Plugboards.ParseShape | enigma/plugboard.go:65-70 | on success there is one pair per group, in order, each letter converted to letter minus `A` |
| Plugboards.ParseRejected | enigma/plugboard.go:43-64 | a failure is either the 10-group cap or the fault of the first bad group after a valid prefix |
| Plugboards.ParsedAccepted | enigma/plugboard.go:41-71 | every successfully parsed pair list is accepted by `newPlugboard` |
| Plugboards.EmptyRejected | enigma/plugboard.go:49-51 | the empty string is rejected as a group of the wrong length |
| Machine.SteppingRule | enigma/enigma.go:41-57 | rotor 0 always advances; rotor 1 advances if and only if rotor 0 or rotor 1 sat on a notch; rotor 2 advances if and only if rotor 1 sat on a notch; wirings, notches, later rotors, reflector and plugboard are unchanged |
| Machine.Stepped | enigma/enigma.go:41-57 | stepping keeps the number of rotors and keeps a well-formed machine well formed |
| Machine.DoubleStep | enigma/enigma.go:46-56 | when rotor 1 steps onto its notch, the next key press advances rotor 1 again and rotor 2 too, so rotor 1 moves on two consecutive key presses |
| Machine.FastRotorPeriod | enigma/enigma.go:50 | after n key presses rotor 0 is at `(start+n) % 26` |
| Machine.FastRotorReturns | enigma/enigma.go:50 | rotor 0 is back where it was after 26 key presses |
| Machine.ForwardBackward | enigma/enigma.go:64-70 | passing through the rotor stack forward then backward, or backward then forward, is the identity |
| Machine.ReflectMoves | enigma/enigma.go:67 | a fixed-point-free, self-inverse reflector never returns its input |
| Machine.PathInvolution | enigma/enigma.go:61-71 | with an involutive reflector and plugboard and inverse rotor tables, the signal path applied twice is the identity |
| Machine.NoSelfEncryption | enigma/enigma.go:61-71 | with a fixed-point-free reflector, the signal path never maps a symbol to itself |
| Machine.KeyPress | enigma/enigma.go:59-72 | encoding a letter yields a letter in `A`..`Z` |
| Machine.EncodeSymbol | enigma/enigma.go:59-72 | the symbol a key press lights on a well-formed machine is in 0..25 |
| Machine.SymbolReciprocal | enigma/enigma.go:59-72 | on a reciprocal machine, pressing the key of the lamp that lit, from the same state, lights the original key |
| Machine.SymbolMoves | enigma/enigma.go:59-72 | with a fixed-point-free reflector, a key press never lights the lamp of its own key |
| Machine.ThroughRotors | enigma/enigma.go:64-70 | the loops over the rotor slice, forward, then the reflector, then backward from the last rotor, compute exactly the specification `Reflected` |
| Machine.Enigma.Cycle | enigma/enigma.go:41-57 | updates rotors 0..2 in place so the machine's model becomes `Stepped` of the old model |
| Machine.Enigma.Encode | enigma/enigma.go:59-72 | steps the machine once and returns `KeyPress` of the pre-step state, which is plugboard, step, rotors forward, reflector, rotors backward, plugboard |
| Machine.EncodeMessage | enigma/enigma.go:74-85 | the ciphertext is as long as the message's leading run of letters and the final machine is well formed |
| Machine.EncodeMessageLetter | enigma/enigma.go:77-82 | the k-th cipher letter is the key press of the k-th letter on the machine stepped k times |
| Machine.EncodeMessageUpper | enigma/enigma.go:74-85 | the ciphertext consists of letters `A`..`Z` only |
| Machine.EncodeMessageLength | enigma/enigma.go:74-85 | on an all-letter message the ciphertext has the same length and the machine has stepped once per letter |
| Machine.EncodeMessageStops | enigma/enigma.go:79-81 | encoding stops at the first non-letter: it gives the same ciphertext and final state as encoding just the prefix before it, so that character does not step the rotors |
| Machine.Enigma.EncodeString | enigma/enigma.go:74-85 | the loop's ciphertext and final rotor state equal `EncodeMessage` from the old state; the error is reported if and only if some character is not a letter, and it is the first such character |
| Machine.StepsReciprocal | enigma/enigma.go:41-57 | stepping any number of times keeps the machine reciprocal and leaves the reflector unchanged |
| Machine.EncodeMessageReciprocal | enigma/enigma.go:59-85 | from the same start state, encoding the ciphertext of a letter message gives the message back |
| Machine.EncodeMessageNoFixedLetter | enigma/enigma.go:59-85 | with a fixed-point-free reflector, no cipher letter equals the message letter at the same index |
| Machine.BuildRotors | enigma/enigma.go:25-32 | the rotor list builds if and only if every configuration does; on success rotor i is `RotorOf(confs[i])`; on failure the first failing index is reported |
| Machine.Assemble | enigma/enigma.go:12-39 | succeeds if and only if the plugboard builds, the reflector builds, there are at least 3 rotors and every rotor builds; errors are checked in the order plugboard, reflector, rotor count, rotors, so a reflector error is reported before a short rotor list; a rotor failure names the name and wiring of the first rotor that fails to build |
| Machine.AssembledReciprocal | enigma/enigma.go:12-39 | a machine assembled from 26-letter wirings and a reflector string that pairs letters is reciprocal |
| Machine.NewRotors | enigma/enigma.go:25-32 | the append loop creates fresh, distinct, valid rotors whose models are the `RotorOf` results, or reports the first failing index |
| Machine.NewEnigma | enigma/enigma.go:12-39 | the constructor produces a fresh valid machine whose model is `Assemble` of its inputs, and fails with exactly `Assemble`'s error otherwise |
| Components.RotorIConverts | enigma/components.go:4 | rotor I at ring setting 0 converts to exactly the tables in the unit test at enigma/rotor_test.go:24-29 |
| Components.RotorWiringPermutation | enigma/components.go:4-11 | each of rotors I..VIII is 26 upper-case letters with no repeats |
| Components.RotorWiringAccepted | enigma/components.go:4-11 | each of rotors I..VIII converts at every ring setting, to mutually inverse tables |
| Components.NotchesInRange | enigma/components.go:14-20 | every notch constant lies in 0..25 |
| Components.CatalogueRotor | enigma/components.go:4-20 | a catalogue rotor with its notches builds if and only if the start position is in 0..25, and then keeps its notches |
| Components.ReflectorPairs | enigma/components.go:23-25 | each reflector string pairs its letters: letter j maps to a letter that maps back to j, and never to j itself |
| Components.ReflectorTables | enigma/components.go:23-25 | reflectors A, B and C convert to self-inverse, fixed-point-free tables |
| Components.ReflectorBReflects | enigma/components.go:24 | reflector B's forward table equals its backward table, as enigma/rotor_test.go:31-36 expects |
| Scenarios.RotorIIIRing1Converts | enigma/rotor_test.go:38-44 | rotor III at ring setting 1 converts to the shifted tables of the unit test |
| Scenarios.ReplayIsEncoding | enigma/enigma.go:74-85 | for the three-rotor test machines: a run of rotor positions and letters, where each press is one step on and then the signal path, is exactly what `EncodeMessage` produces from the first positions |
| Scenarios.BaseScenario | enigma/enigma_test.go:18-42 | rotors III, II, I at position 0 with reflector B encode "AAAAA" as "BDZGO" |
| Scenarios.SteppedScenario | enigma/enigma_test.go:43-66 | the same machine encodes 30 "A"s as "BDZGOWCXLTKSBTMCDLPBMUQOFXYHCX" |
| Scenarios.DoubleStepScenario | enigma/enigma_test.go:67-90 | rotor III at 20 and rotor II at 3 encode "AAAAA" as "EQIBM" |
| Scenarios.DoubleNotchedScenario | enigma/enigma_test.go:91-114 | rotor VIII at 11 with both notches encodes "ABCDEFGHIJKLMNO" as "DDFQJKCQQXBZZQK" |
| Scenarios.RingSettingScenario | enigma/enigma_test.go:115-141 | rotor III at ring setting 1 encodes "AAAAA" as "UBDZG" |
| Scenarios.ReverseScenario | enigma/enigma_test.go:155-205 | from the base machine, encoding the ciphertext of any letter message gives the message back |
| Scenarios.PlugboardTraverseScenario | enigma/plugboard_test.go:16-32 | with A and Z plugged, 0 goes to 25 and 1 stays 1 |
| Scenarios.NewPlugboardScenario | enigma/plugboard_test.go:51-72 | the pairs {0,25} and {0,25},{7,12} build exactly the expected two-way maps |
| Scenarios.InvalidPlugboardScenario | enigma/plugboard_test.go:90-107 | a self link, a repeated first symbol and a repeated second symbol are each rejected with their own error |
| Scenarios.SixPairsAccepted | enigma/plugboard.go:16-18 | six disjoint pairs are accepted, because the cap is ten pairs |

## Left out

- Debug output: the `fmt.Println` calls at enigma/rotor.go:64-65, enigma/plugboard.go:75 and enigma/enigma.go:63 and 78 are I/O with no effect on results.
- Catalogue lookups: `getRotor`, `getNotches` and `getReflector` are not part of this model. The wrappers that only call them are left out for the same reason: `NewRotorsConfiguration`, `fillRotorConfiguration`, `GetRotor` and `GetReflector` (enigma/rotor.go:28-58, 169-200). Wiring strings and notch lists are parameters instead, and the constants of enigma/components.go are used directly.
- Error messages: each `fmt.Errorf` is one case of an error datatype carrying the offending index, pair, group, count or character. The message text is not modelled.
- Go representation details: runes, bytes and strings are all `seq<char>`. `strings.Split` on a space is `Plugboards.Split`. Maps are Dafny maps and sets, and slices are sequences. `len` on a plugboard group counts characters, not UTF-8 bytes, so multi-byte characters are not distinguished.
- Exported names: enigma.go calls `NewPlugboard`, `NewRotor`, `IsNotchEngaged`, `Cycle` and `Traverse`, but rotor.go and plugboard.go define them in lower case. The model treats them as the same functions.
- Rotors.ConvertStringConfiguration: the source never validates the ring setting `s`, and the model requires it to be in 0..25 (as do `RotorOf`, `NewRotor`, `BuildRotors`, `Assemble` and `NewEnigma`). Outside that range the Go loop still runs. At index `i`, for a letter with value `v` in 0..25, it writes slot `i+s` and reads value slot `v+s`. Each is reduced by 26 at most once (enigma/rotor.go:136-143). The call therefore panics exactly when, at some index the loop reaches before its first forbidden character or duplicate, `i+s` or `v+s` lies outside 0..51. Otherwise it returns wrapped tables or its usual error. For example, the empty wiring gives two all-`-1` tables at any setting, and 26 gives exactly the tables of setting 0. Ring 27 with the wiring `Z` panics (value slot 26). The model does not describe this wrapped behaviour.
- Rotors.Traverse: wirings shorter than 26 letters are accepted and leave `-1` sentinels. The model keeps the sentinel and states its output (`25-position`), but the inverse-table theorems require a full 26-letter wiring.
- Machine.Enigma.Encode: requires a letter `A`..`Z`. Its only caller, `EncodeString`, checks each rune before passing it on (enigma/enigma.go:79-82). Called directly with another rune, the Go code does not always panic. The plugboard returns any symbol outside 0..25 unchanged (enigma/plugboard.go:73-80). Rotor 0's lookup then reduces `x+p` by 26 at most once (enigma/rotor.go:88-91), where `x` is the symbol and `p` is rotor 0's position after stepping. So a symbol `x` in the window `-p`..`51-p` stays in range. Every later lookup reads a table value and stays in range too, and a letter comes out. Only runes whose symbol lies outside that window index out of range and panic. For example, lower-case `a` (symbol 32) goes through when `p` is at most 19, and `?` (symbol -2) when `p` is at least 2. The model does not describe these direct calls.
- Machine.Enigma.EncodeString: digits and spaces are not passed through. The code stops at any character outside `A`..`Z`, and the model follows the code.
- Scenarios.SixPairsAccepted: the "more than 5" case of enigma/plugboard_test.go:108-117 expects six pairs to fail, but newPlugboard caps the count at ten (enigma/plugboard.go:16). The model follows the code and proves the six pairs are accepted.
- `State` (enigma/rotor.go:118-124): a `RotorConfiguration` is returned as a value, not a pointer, and its `configuration` and `notches` are empty, as in the source.
- Aliasing: the Go rotors are pointers that could be shared between machines. `Machine.Enigma` owns distinct rotor objects, which `NewEnigma` creates fresh.
- Concurrency: the test harness and `t.Parallel` are not modelled.
