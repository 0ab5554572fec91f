# lua-readline: the completion bridge, the interruptible read and the name accessor

lua-readline is a Lua module, written in C, that exposes GNU readline to Lua
scripts as `readline.readline(prompt, source)`, `readline.addhistory(line)`,
`readline.getname()` and `readline.setname(name)`. This project models the
part of `readline.c` that has logic of its own:

- **The completion bridge.** `lua_readline` stores a *generator* for the
  completion source: the Lua function itself, an ipairs closure over a
  table, or the nil generator. readline calls `gen_function(text, state)`.
  When `state` is 0, the stored generator is called with the text and
  returns an *iterator*, which replaces the stored iterator. Every call then
  steps the stored iterator. For a table, the iterator walks the entries in
  index order. Each ipairs call writes the control value back. An entry is
  returned only if it passes the C prefix test `rlen >= len &&
  strncmp(pref, res, len) == 0`.
- **The read bracket.** `lua_readline` saves the SIGINT disposition while
  installing its own handler `readline_sigint`, then calls `readline()`. It
  puts the disposition back and turns the result into Lua values: a string,
  nothing at end of file, or nil otherwise. On an interrupt it runs
  readline's cleanup, puts the disposition back, and calls the saved
  handler if that handler is a function.
- **The name accessor.** `lua_setname` frees the stored `rl_readline_name`
  and installs a fresh copy. `lua_getname` returns the stored name.

Modules:

- `CStrings` (cstrings.dfy) holds C strings: `strncmp`, the prefix test,
  the malloc-and-copy, and reading a buffer back as text.
- `Completion` (completion.dfy) holds the values of the bridge (source,
  generator, iterator, step result). It defines one step and a run of
  steps as functions. It also has the reference `Filter` and the theorems
  that tie the two together.
- `ReadlineBinding` (binding.dfy) has the class `Binding`. Its fields are
  the two registry slots, the completion hook, the SIGINT disposition, the
  disposition saved by the read in flight, and a trace of the calls the
  binding makes into readline and into signal handlers. Each C function
  is a method proved against `Completion`'s functions. `lua_readline` as
  written is split into `BeginRead` and `FinishReadAsWritten`, and readline
  calls `GenFunction` between the two. `FinishRead` is the corrected second
  half, which also restores the disposition after a completion error.
- `ReadlineName` (names.dfy) has the class `NameSlot`. It holds the
  `rl_readline_name` pointer and the set of name buffers obtained from
  malloc and not yet freed.
- `Wrappers` (wrappers.dfy) has `Option`.

Points of the code that the model follows closely:

- The saved handler is called only if it is not `SIG_DFL`, `SIG_ERR` or
  `SIG_IGN` (readline.c:213-216).
- A function source is called once per generation, with the prefix
  (readline.c:111-114). After that only the iterator it returned is
  called, with no arguments (readline.c:128-131).
- Output from a function source is not filtered. Only the ipairs closure
  applies the prefix test (readline.c:70).
- readline starts `rl_readline_name` as a static string, so the
  `NameSlot` constructor takes the initial text, and that text is not
  counted as allocated.
- A Lua error raised during completion unwinds past the restore at
  readline.c:222, so the disposition in force before the read is not put
  back (see Findings).

## Model

| member | source | states |
|---|---|---|
| CStrings.Strncmp | readline.c:70 | definition of `strncmp(a, b, n)`: at most n characters are compared, the comparison stops at the first difference or at the terminator of `a`, and a nonzero result is the difference of the first unequal characters |
| CStrings.PrefixTest | readline.c:70 | definition of the filter's test: `rlen >= len` and `strncmp(pref, res, len) == 0` |
| CStrings.StrncmpZeroIffEqual | readline.c:70 | on NUL-free strings, `strncmp(a, b, n)` is zero exactly when the first n characters agree |
| CStrings.PrefixTestIsPrefix | readline.c:70 | the filter's test `rlen >= len && strncmp(pref, res, len) == 0` holds exactly when `pref` is a case-sensitive prefix of `res`; so the empty prefix matches everything |
| CStrings.CStr | readline.c:244 | the text read from a buffer is NUL-free, is a prefix of the buffer, and stops at a NUL |
| CStrings.CStrOfTerminated | readline.c:96-101 | reading back a buffer that holds a text and its terminator gives the text |
| CStrings.Duplicate | readline.c:137-145 | the copy is a fresh buffer of `len + 1` characters holding the text and a NUL |
| Completion.Dispatch | readline.c:182-195 | definition of the stored generator: a function source is stored as it is, a table becomes the ipairs closure over it, and anything else becomes `lua_niliterator` |
| Completion.Start | readline.c:27-39 | definition of calling a generator with the text: a function source returns its iterator, not yet called; the ipairs closure returns `lua_iterstep` over the table with control value 0 and the text as prefix (readline.c:83-91); `lua_niliterator` returns `lua_returnnil` |
| Completion.Scan | readline.c:52-75 | the inner loop from control value k either stops at entry j > k that passes the prefix test, skipping only non-matches, yields `t[j]` and leaves j as the control value; or it finds no match, yields nil and leaves nil |
| Completion.Step | readline.c:47-76 | definition of one call of the stored iterator: `lua_returnnil` gives nil; the ipairs closure raises on a nil control value and otherwise runs `Scan` and stores the control value it returns; a function's iterator gives its next result (readline.c:131) and advances its call count |
| Completion.StepShape | readline.c:47-76 | one call of the stored iterator: `lua_returnnil` gives nil and stays; the ipairs closure keeps its table and prefix, raises exactly when its control value is nil, and otherwise either yields the entry just before its new, larger control value, which passes the prefix test, or ends with nil; a function's iterator gives its next result unchanged (readline.c:131) |
| Completion.FilterCounts | readline.c:70 | the reference filter holds each matching entry exactly as often as the table does, and no other entry |
| Completion.FilterIsSubsequence | readline.c:52-75 | the reference filter keeps table order |
| Completion.FilterEmptyPrefix | readline.c:70 | with the empty prefix every entry is a candidate |
| Completion.ScanAgreesWithFilter | readline.c:47-76 | one step of the ipairs cursor yields the first remaining match and leaves the remaining matches ahead of the cursor; with no match left it yields nil |
| Completion.TableGenerationFrom | readline.c:47-76 | from any control value, successive steps yield the remaining matches in order, then nil, and leave the control value nil |
| Completion.TableGeneration | readline.c:83-91 | a table source with prefix p yields exactly the entries that start with p, in index order, each once, then nil; one more step would raise, because ipairs rejects a nil control value |
| Completion.HostRun | readline.c:131 | the i-th call of a function source's iterator is passed through unchanged, and the call count advances by one per call |
| Completion.HostGeneration | readline.c:183-186 | a function source is stored unchanged; the i-th step of a generation yields what its iterator returns on its i-th call, unfiltered |
| Completion.ReturnNilRun | readline.c:27-30 | lua_returnnil yields nil on every call |
| Completion.AbsentGeneration | readline.c:192-195 | any source that is neither a function nor a table becomes the nil generator, so every step, the first included, is exhaustion |
| ReadlineBinding.IsFunction | readline.c:213-215 | definition of the test before calling the saved handler: it is not `SIG_DFL`, `SIG_ERR` or `SIG_IGN` |
| ReadlineBinding.AtEof | readline.c:223-231 | definition of the end-of-file test after a NULL line: `rl_instream`, or stdin when `rl_instream` is NULL |
| ReadlineBinding.FinishEvents | readline.c:206-222 | definition of the calls after the blocking call: on an interrupt, line-state freeing and signal cleanup first; then the saved disposition is reinstalled; on an interrupt, the saved handler is then called with SIGINT if it is a function |
| ReadlineBinding.Binding.InitGenerator | readline.c:108-118 | the iterator slot is overwritten with the stored generator's iterator for the text; the generator slot is unchanged |
| ReadlineBinding.Binding.IterStep | readline.c:47-76 | the loop's result and the control value it writes back are those of one ipairs step (`Scan`) |
| ReadlineBinding.Binding.StepGenerator | readline.c:124-146 | NULL exactly when the iterator returned nil; otherwise a fresh buffer holding the returned string; the iterator slot advances by one step |
| ReadlineBinding.Binding.GenFunction | readline.c:149-156 | with state 0, the iterator slot is reset from the generator and the text, then stepped; with any other state, the stored iterator is stepped as it is |
| ReadlineBinding.Binding.BeginRead | readline.c:177-205 | the generator slot holds the dispatched source; the hook is installed; the old disposition is saved while readline_sigint is installed; readline is called with the prompt |
| ReadlineBinding.Binding.Install | readline.c:211 | `signal(SIGINT, d)` sets the disposition and is recorded in the trace |
| ReadlineBinding.Binding.FinishReadAsWritten | readline.c:205-237 | the code as written: a line gives one string; NULL gives nothing at EOF and nil otherwise; an interrupt runs line-state freeing and signal cleanup, restores, calls a real saved handler with SIGINT, and returns nothing; a completion error leaves the disposition as it was during the read (readline_sigint, with readline's own handling left out); if the saved handler is readline_sigint itself, the interrupt path spins |
| ReadlineBinding.Binding.FinishRead | readline.c:205-237 | the same results, with the saved disposition restored on every exit, a completion error included; the binding is idle again |
| ReadlineBinding.Binding.ReadLine | readline.c:175-237 | a whole read as written, started in any disposition: the source is dispatched and the hook set; a line, a NULL line or an interrupt puts the starting disposition back and returns the value for its outcome; a completion error raises and leaves readline_sigint in force; an interrupt when the starting disposition is readline_sigint spins |
| ReadlineBinding.Binding.ReadLineRestoring | readline.c:175-237 | a whole read with the disposition restored on every exit: started idle, it ends idle with the disposition it found, for every outcome |
| ReadlineBinding.CompletionErrorThenInterrupt | readline.c:203-218 | as written, and with readline taken to leave SIGINT alone: in a read whose source's iterator raises, `gen_function` fails with the Lua error and the read raises; a following interrupted read spins, with readline_sigint still in force |
| ReadlineBinding.CompletionErrorThenInterruptRestoring | readline.c:203-218 | with restoring, the same sequence (the raising iterator, then an interrupt) raises once, then returns nothing, and leaves the disposition as it was |
| ReadlineBinding.TableCompletionDuringRead | readline.c:149-156 | during a read with the table `{"help", "quit", "hello"}`, completing "hel" gives "help", then "hello", then NULL |
| ReadlineName.NameSlot.Free | readline.c:255 | the block leaves the live set; freeing a pointer malloc did not return is recorded |
| ReadlineName.NameSlot.CloneStr | readline.c:96-101 | a fresh malloc'd buffer of `strlen + 1` characters holding the text and its terminator |
| ReadlineName.NameSlot.SetNameAsWritten | readline.c:251-260 | the code as written: the stored pointer, whatever it is, is freed, then a fresh copy is installed |
| ReadlineName.NameSlot.SetName | readline.c:251-260 | the previous copy is freed before the new one is installed; the live name buffers are exactly the new name; nothing is freed that was not allocated |
| ReadlineName.NameSlot.GetName | readline.c:242-246 | the text of the stored name, or nil when the pointer is NULL |
| ReadlineName.SetThenGet | readline.c:242-259 | after `setname(n)`, `getname()` returns n, and the only live name buffer is the current name |
| ReadlineName.SetThenGetAsWritten | readline.c:242-259 | the code as written keeps the same round trip: after `setname(n)`, `getname()` returns n, and the current name is a live malloc'd buffer |
| ReadlineName.FirstSetNameFreesStaticName | readline.c:254-256 | as written, the first setname frees readline's static initial name |
| ReadlineName.SetNameTwice | readline.c:251-260 | two setname calls leave one live name buffer and no bad free |

## Left out

- The GNU readline library itself is not part of this model. That covers
  line editing, terminal handling, key binding and the completion loop
  that calls `gen_function`. The read's outcome is an input to
  `FinishReadAsWritten` and to `FinishRead`. The text and state of each completion request are inputs
  to `GenFunction`.
- `lua_addhistory` (readline.c:265-270) only passes its argument to
  `add_history`. It is not modelled.
- `lua_reg` and `luaopen_readline` (readline.c:280-309) only register
  functions with Lua. They are not modelled.
- Lua stack mechanics are not modelled: `lua_checkstack`,
  `lua_insert`/`lua_replace`, and the candidate string that
  `lua_stepgenerator` leaves on the stack. The registry keys become the
  fields `generator` and `iter`. The `globalL` pointer and the completion
  hook together are the field `hooked`.
- `sigsetjmp`/`siglongjmp` are not modelled as control transfers. An
  interrupt is one outcome of the blocking call.
- A signal that arrives while a completion generator is running is not
  modelled (readline.c:173). That is concurrency.
- `feof` on `rl_instream` or stdin becomes two boolean inputs.
- Allocation failure is not modelled: malloc always succeeds. In
  `clonestr`, a failed malloc is passed to `strlcpy` before `lua_setname`
  checks it, which is undefined behaviour.
- Table entries, iterator results and the `setname` argument are NUL-free
  strings. Results that are not strings (where `lua_tolstring` returns
  NULL) and embedded NUL characters are not modelled. For a name with an
  embedded NUL, `clonestr` would copy only up to the first NUL
  (`strlen + 1` characters), while `CloneStr` copies the whole text;
  `getname` agrees either way, because reading the name back stops at the
  first NUL.
- A table is the sequence of its entries before the first nil. The table
  is not mutated during a read. The global `ipairs` is the standard one.
- A function source that raises, or that returns something other than a
  function, when it is called with the prefix is not modelled. Its
  iterator can raise.
- `GenFunction` returning `CompletionError` is not linked to the
  `CompletionRaised` outcome of `FinishRead`. They are separate inputs.
- A prompt that is not a string (passed to readline as NULL) is not
  modelled.
- GNU readline's own signal handling is not modelled. With
  `rl_catch_signals` set, readline installs a SIGINT handler of its own
  while it reads and puts the previous one back when it returns. The model
  takes `readline()` to leave the SIGINT disposition as it found it, on
  return and when a Lua error unwinds out of it.
- `signal()` is assumed to succeed. `Error` (SIG_ERR) appears only as a
  value the saved disposition may hold, so that the test at
  readline.c:213-215 is modelled in full.
- Characters stand for bytes. `strncmp` compares `unsigned char` values,
  and over NUL-free texts only the equality of characters matters.
- ReadlineBinding.Binding.ReadLine: the `GenFunction` calls that readline
  makes between `BeginRead` and the end of the read are not part of
  `ReadLine`. A completion error enters only as the `CompletionRaised`
  outcome. A read with completions is `BeginRead`, then calls of
  `GenFunction`, then `FinishReadAsWritten` or `FinishRead`.
- A saved SIGINT handler that is a host function is taken to return and
  to leave the SIGINT disposition as the binding set it. A handler that
  terminates the process (readline.c:217), jumps elsewhere or calls
  `signal()` itself is not modelled. So on the interrupt path, the final
  disposition and the empty return of `FinishReadAsWritten`, `FinishRead`,
  `ReadLine` and `ReadLineRestoring` hold only under this assumption. The
  order of the calls in the trace does not depend on it.
- ReadlineBinding.Binding.ReadLineRestoring: starts only when idle, that
  is with no read in flight and readline_sigint not in force. The
  corrected bracket never leaves readline_sigint in force between reads.
  A read that starts with readline_sigint in force, which the code as
  written allows, is `ReadLine` (and `CompletionErrorThenInterrupt`).
- ReadlineName.NameSlot.SetName: assumes a string argument. The case where
  `lua_tolstring` returns NULL and `strlen` would dereference it is not
  modelled.

## Findings

| source | as written | input that shows it | evidently intended | confidence | as-written member | corrected member |
|---|---|---|---|---|---|---|
| readline.c:131 | The completion iterator is called with `lua_call`, so a Lua error raised there unwinds out of `readline()` and past `lua_readline`. This skips `signal(SIGINT, old_sigint)` at readline.c:222, so the disposition in force before the read is not put back. If `readline()` leaves SIGINT as it found it, `readline_sigint` stays installed. The next `lua_readline` then saves `readline_sigint` as `old_sigint`, and a Ctrl-C during that read reaches readline.c:216, which calls `readline_sigint`. That jumps back to readline.c:205 and repeats forever. GNU readline by default installs its own handler while it reads, and the unwind skips its restore too, so the handler left in force may be readline's and the spin need not occur. | `readline.readline("> ", function(p) return function() error("x") end end)` with Tab pressed; then `readline.readline("> ")` interrupted by Ctrl-C | the SIGINT disposition is restored on every exit of `lua_readline`, as the restore at readline.c:211 and readline.c:222 does for the other exits | medium that the disposition is not restored; low that the read spins, since that rests on readline's own signal handling, which is not part of this model; not executed | ReadlineBinding.Binding.FinishReadAsWritten, ReadlineBinding.CompletionErrorThenInterrupt | ReadlineBinding.Binding.FinishRead |
| readline.c:254-255 | `lua_setname` frees `rl_readline_name` whenever it is not NULL. That includes readline's initial value, a string literal that malloc did not return. | `readline.setname("repl")` as the first `setname` call of the process | free only a name that an earlier `setname` allocated | medium, not executed; this rests on readline starting the name as a static literal, and the readline library is not part of this model | ReadlineName.NameSlot.SetNameAsWritten, ReadlineName.FirstSetNameFreesStaticName | ReadlineName.NameSlot.SetName |
