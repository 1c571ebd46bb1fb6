# FunctionCalculator: operation registry and command validation

This project models the registry and command-validation layer of the matrix
function calculator in `src/FunctionCalculator.cpp`, and proves properties of
that model.

The calculator keeps an ordered, index-addressed list of operations
(`m_operations`). The list starts with Identity and Transpose. Add commands
append to it, subject to a capacity `m_maxOperation` that is chosen at start-up
in the range 2..100. `del` erases an entry and shifts the later ones down. Every
index typed by the user goes through a bounds check. `eval` validates its
arguments and collects one input matrix per input of the chosen operation. It
never changes the registry. Command words are looked up in a fixed table.

Modules:

- `Base` (`base.dfy`): the error kinds and the `Option`, `Result` and `Outcome` wrappers. Also `Int32`, the C++ `int` that numbers on a command line are read into.
- `Operations` (`operations.dfy`): an operation is its variant tag and its `inputCount`. Also the initial catalogue.
- `Lines` (`lines.dfy`): white space as `std::ws` skips it, and `hasNonWhitespace`.
- `Commands` (`commands.dfy`): the command table of `createActions` and the lookup of `readAction`.
- `Calculator` (`calculator.dfy`): the pure registry operations (`ReadOperationIndex`, `Append`, `Delete`, `CheckCapacity`). Also the class `FunctionCalculator`, whose fields `operations` and `maxOperation` its methods update in place.
- `RegistryProperties` (`properties.dfy`): lemmas relating several commands.
- `Session` (`properties.dfy`): a sample session, written as a client of the class contracts.

Tokens are taken already extracted. `Some(n)` is an integer token. `None` is an
extraction that failed (not a number, or nothing left on the line).

Points where the code behaves differently from what its messages and prompts suggest:

- `run` enables exceptions on the command-line stream for `failbit` (line 35), and that stream is the one passed to `readOperationIndex`, `readAction` and `eval`. A non-numeric index or order therefore makes the extraction itself throw `std::ios_base::failure`, which `run` catches as a `std::runtime_error` (line 72). The `iss.fail()` branch at lines 176-181, which would raise InputException, is never reached. The same applies to a missing command word. The model reports these cases as `StreamFailure`, not `InputError`.
- `updateMaxFunc` reads from `std::cin`, which has no exception mask. There, a non-numeric token does reach the explicit check and raises InputException (lines 335-339).
- The capacity check at line 356 rejects an append only once `size > m_maxOperation`. So the registry can hold `m_maxOperation + 1` entries (see Findings).
- `eval` rejects only an order above 5 (line 90). An order of 0 or below passes and is handed to the matrix constructor.

## Model

| member | source | states |
|---|---|---|
| Operations.CreateOperations | src/FunctionCalculator.cpp:292-299 | a fresh catalogue has exactly two entries: Identity at index 0 and Transpose at index 1, each taking one input |
| Lines.LeadingSpaces | src/FunctionCalculator.cpp:324 | `std::ws` skips exactly the leading white-space run: every skipped character is white space and the next one, if any, is not |
| Lines.HasNonWhitespace | src/FunctionCalculator.cpp:322-325 | true exactly when some character left on the line is not white space |
| Commands.FindCommand | src/FunctionCalculator.cpp:197 | returns the first table row whose command is the token; returns None exactly when no row matches |
| Commands.ReadAction | src/FunctionCalculator.cpp:192-206 | a missing word is a stream failure; a known word yields the action of a table row with that word; an unknown word is an InputError |
| Commands.CreateActions | src/FunctionCalculator.cpp:235-290 | the table has nine rows, no two rows share a command word, and every row's action is one of Eval, Scal, Add, Sub, Comp, Del, Help, Exit, Read |
| Commands.ReadActionOfRow | src/FunctionCalculator.cpp:192-206 | the word of each table row selects that row's action |
| Commands.ReadActionReachable | src/FunctionCalculator.cpp:192-206 | every action read from a token is one of the table's actions |
| Commands.RowOf | src/FunctionCalculator.cpp:235-290 | every action of the reachable set appears in some table row |
| Commands.ReachableActionHasWord | src/FunctionCalculator.cpp:192-290 | every action of the reachable set is selected by some command word |
| Commands.UnreachableActions | src/FunctionCalculator.cpp:227-228 | no command word yields `Iden`, `Tran` or `Invalid`, so those branches of `runAction` cannot be reached from a command line |
| Calculator.AsSize | src/FunctionCalculator.cpp:356 | the conversion of `m_maxOperation` to `size_t` in the capacity comparison: the result is the value modulo 2^64, equal to it when it is not negative |
| Calculator.ReadOperationIndex | src/FunctionCalculator.cpp:170-190 | succeeds exactly for an integer `i` with `0 <= i < size` and returns `i`; any other integer is an InputError; a non-number is a stream failure |
| Calculator.Append | src/FunctionCalculator.cpp:354-362 | succeeds exactly when `size <= m_maxOperation` (compared as `size_t`); on success the new operation sits at the old size and earlier entries are unchanged; the refusal is an InputError |
| Calculator.AppendIntended | src/FunctionCalculator.cpp:354-358 | the corrected check: succeeds exactly when `size < m_maxOperation`, so the result never holds more than the capacity |
| Calculator.Delete | src/FunctionCalculator.cpp:118-125 | succeeds exactly when the index is valid, with the index's error otherwise; the size drops by one, earlier entries stay, and the entry formerly at `j > i` moves to `j - 1` |
| Calculator.CheckCapacity | src/FunctionCalculator.cpp:334-343 | accepts exactly the integers 2..100 and returns them; a non-number or an integer outside the range is an InputError |
| Calculator.FunctionCalculator.constructor | src/FunctionCalculator.cpp:20-21 | the registry starts as the initial catalogue |
| Calculator.FunctionCalculator.AddOperation | src/FunctionCalculator.cpp:354-362 | appends `op` when `size <= m_maxOperation` and otherwise leaves the registry unchanged with an InputError; keeps the bound `size <= m_maxOperation + 1` |
| Calculator.FunctionCalculator.Del | src/FunctionCalculator.cpp:118-125 | on a valid index the registry becomes `s[..i] + s[i+1..]`; otherwise it is unchanged and the index error is returned; keeps the capacity bound |
| Calculator.FunctionCalculator.Eval | src/FunctionCalculator.cpp:80-115 | checks come in order: index, order token, order above 5, trailing non-white-space, then too few supplied matrices (`InputExhausted`); each failing check fixes the error, and none of the first four depends on the input matrices; on success the result holds the indexed operation and exactly `inputCount` matrices of the requested order, in input order; the registry is not modified |
| Calculator.FunctionCalculator.UpdateMaxFunc | src/FunctionCalculator.cpp:327-352 | retries until the first attempt in 2..100, stores it as the capacity and returns its position; every earlier attempt was rejected |
| RegistryProperties.AddAllContents | src/FunctionCalculator.cpp:354-362 | a run of add commands appends the new operations in order until the registry holds capacity + 1 entries, and refuses every later one |
| RegistryProperties.AddAllBound | src/FunctionCalculator.cpp:354-362 | from a registry within capacity + 1, any run of adds stays within capacity + 1, and reaches it exactly when enough operations are added |
| RegistryProperties.SessionBound | src/FunctionCalculator.cpp:327-362 | after a capacity is accepted at the prompt, a fresh registry followed by any run of adds holds at most capacity + 1 entries |
| RegistryProperties.AppendAdmitsOneOverCapacity | src/FunctionCalculator.cpp:356 | a registry already holding `m_maxOperation` entries accepts one more, which the intended check refuses |
| RegistryProperties.AppendIntendedKeepsCapacity | src/FunctionCalculator.cpp:354-358 | under the corrected check, any run of adds from a registry within capacity stays within capacity |
| RegistryProperties.DeleteRemovesOne | src/FunctionCalculator.cpp:123 | a deletion removes exactly the addressed entry from the multiset of operations |

## Left out

- `run`, `help`, `exit`, `read` and `printOperations`: console and file I/O, and the read-evaluate loop. Tokens are taken already extracted, and the remaining line is a `string`.
- `src/ReadFile.cpp` and `include/ReadFile.h`: file wrappers with no logic of their own.
- `runAction` (lines 208-233): the switch that calls each command handler. It is not a member of the model, because it only forwards to the handlers. Its default, `Invalid`, `Iden` and `Tran` branches cannot be reached from a command word (`Commands.UnreachableActions`). The handlers it calls are modelled or left out one by one in this list and the table above.
- `binaryFunc`, `unaryFunc`, `unaryWithIntFunc`, `Operation::compute`, `Operation::print` and the matrix arithmetic: their code lives in headers that are not part of this model. An operation is only its variant tag and its `inputCount`. Identity and Transpose are taken to consume one matrix each; their headers are not part of this model.
- The matrix-reading operator `>>`: each input matrix is the list of entries the input source supplies for it. When the source runs out, the model reports `InputExhausted`. What the program does at end of input depends on that operator.
- The printing and the computation at the end of `eval`: output only.
- Operations.Operation: `inputCount()` returns an `int` in the program, but the model uses a `nat`. Every variant takes at least one input. For a non-negative count, the loop at line 103 runs the same number of times.
- Shared ownership through `shared_ptr`: operations are values here.
- The commented-out file-mode code: dead code.
- The exception message strings and the help descriptions of the command table: text only.
- The initial value of `m_maxOperation`: the constructor's initializer list (lines 20-21) does not set it, and `updateMaxFunc` (line 332) writes it before any add reads it. The model's constructor takes it as a parameter.
- Calculator.AsSize: `m_maxOperation` is assumed to be an `int` and `size_t` to be 64 bits wide. It is declared in `FunctionCalculator.h`, which is not part of this model.
- Calculator.FunctionCalculator.UpdateMaxFunc: the model stores only the accepted value. The program also stores rejected integers in `m_maxOperation` before refusing them, but the next attempt always overwrites them. When the attempts run out, the program keeps prompting forever. The model then stops, returns `None`, and leaves the capacity unchanged.

## Findings

| source | as written | input that shows it | evidently intended | confidence | as-written member | corrected member |
|---|---|---|---|---|---|---|
| src/FunctionCalculator.cpp:356 | `addOperation` refuses only when `size > m_maxOperation` | capacity 2, registry `[Identity, Transpose]`, then `scal 3`: the append succeeds and the registry holds 3 entries | refuse once `size >= m_maxOperation`, so the registry never exceeds the capacity the prompt announces | high (not executed) | RegistryProperties.AppendAdmitsOneOverCapacity | RegistryProperties.AppendIntendedKeepsCapacity |

The class keeps the as-written check, because that is what the program does.
`Calculator.AppendIntended` and `Calculator.AddAllIntended` give the corrected
registry.
